/** The version number of a member's policy: FNV-1a, modulo 2^64, over the rule names, the limit
    and the ban flag. */
module Fingerprint {
  import opened Json

  type Byte = b: int | 0 <= b < 256

  const OFFSET: U64 := 0xcbf2_9ce4_8422_2325
  const PRIME := 0x0000_0100_0000_01b3
  /** The inverse of PRIME modulo 2^64. */
  const INVERSE := 0xce96_5057_aff6_957b

  // --------------------------------------------------------------------------- bits

  function Pow2(n: nat): nat {
    if n == 0 then 1 else 2 * Pow2(n - 1)
  }

  /** Exclusive or on the lowest `n` bits. */
  function Xor(x: nat, y: nat, n: nat): (r: nat)
    ensures r < Pow2(n)
  {
    if n == 0 then 0 else 2 * Xor(x / 2, y / 2, n - 1) + if x % 2 == y % 2 then 0 else 1
  }

  /** Doing it twice gives back what was there. */
  lemma {:induction false} XorTwice(x: nat, y: nat, n: nat)
    requires x < Pow2(n)
    ensures Xor(Xor(x, y, n), y, n) == x
    ensures Xor(x, y, n) == Xor(y, x, n)
  {
    if n > 0 {
      XorTwice(x / 2, y / 2, n - 1);
      var r := Xor(x, y, n);
      assert r / 2 == Xor(x / 2, y / 2, n - 1);
      assert r % 2 == if x % 2 == y % 2 then 0 else 1;
    }
  }

  lemma Pow2Of64()
    ensures Pow2(64) == U64_BOUND
  {
    assert Pow2(8) == 0x100;
    assert Pow2(16) == 0x1_0000;
    assert Pow2(24) == 0x100_0000;
    assert Pow2(32) == 0x1_0000_0000;
    assert Pow2(40) == 0x100_0000_0000;
    assert Pow2(48) == 0x1_0000_0000_0000;
    assert Pow2(56) == 0x100_0000_0000_0000;
  }

  function Xor64(x: U64, y: U64): U64 {
    Pow2Of64();
    Xor(x, y, 64)
  }

  lemma Xor64Cancels(x: U64, y: U64, z: U64)
    ensures Xor64(x, z) == Xor64(y, z) ==> x == y
    ensures Xor64(z, x) == Xor64(z, y) ==> x == y
  {
    Pow2Of64();
    XorTwice(x, z, 64);
    XorTwice(y, z, 64);
    XorTwice(z, x, 64);
    XorTwice(z, y, 64);
  }

  // --------------------------------------------------------------------------- hash

  function Multiplied(h: U64): U64 {
    h * PRIME % U64_BOUND
  }

  lemma MultipliedCancels(a: U64, b: U64)
    requires Multiplied(a) == Multiplied(b)
    ensures a == b
  {
    var k := (INVERSE * PRIME - 1) / U64_BOUND;
    assert INVERSE * PRIME == 1 + k * U64_BOUND;
    var qa, qb := a * PRIME / U64_BOUND, b * PRIME / U64_BOUND;
    var d, q := a - b, qa - qb;
    assert d * PRIME == q * U64_BOUND;
    assert d == U64_BOUND * (q * INVERSE - d * k);
  }

  /** One byte. */
  function Step(h: U64, b: Byte): U64 {
    Multiplied(Xor64(h, b))
  }

  lemma StepCancels(g: U64, h: U64, b: Byte, c: Byte)
    ensures Step(g, b) == Step(h, b) ==> g == h
    ensures Step(h, b) == Step(h, c) ==> b == c
  {
    if Step(g, b) == Step(h, b) {
      MultipliedCancels(Xor64(g, b), Xor64(h, b));
      Xor64Cancels(g, h, b);
    }
    if Step(h, b) == Step(h, c) {
      MultipliedCancels(Xor64(h, b), Xor64(h, c));
      Xor64Cancels(b, c, h);
    }
  }

  function Hash(bytes: seq<Byte>): U64 {
    if bytes == [] then OFFSET else Step(Hash(bytes[..|bytes| - 1]), bytes[|bytes| - 1])
  }

  lemma {:induction false} XorNothing(x: nat, n: nat)
    requires x < Pow2(n)
    ensures Xor(x, 0, n) == x
  {
    if n > 0 {
      XorNothing(x / 2, n - 1);
    }
  }

  /** The published test vectors of the hash for no byte and for the byte of the letter "a". */
  lemma KnownHashes()
    ensures Hash([]) == 0xcbf2_9ce4_8422_2325
    ensures Hash([0x61]) == 0xaf63_dc4c_8601_ec8c
  {
    OffsetXorA();
    assert [0x61][..0] == [];
    assert Hash([0x61][..0]) == OFFSET;
  }

  lemma OffsetXorA()
    ensures Xor64(OFFSET, 0x61) == 0xcbf2_9ce4_8422_2344
  {
    Pow2Of56();
    LowByteXorA(0xcb_f29c_e484_2223);
    Pow2Of64();
  }

  lemma LowByteXorA(high: nat)
    requires high < Pow2(56)
    ensures Xor(256 * high + 0x25, 0x61, 64) == 256 * high + 0x44
  {
    UpperBitsXorA(high);
    LowerBitsXorA(16 * high);
  }

  lemma LowerBitsXorA(top: nat)
    requires Xor(top + 2, 6, 60) == top + 4
    ensures Xor(16 * top + 0x25, 0x61, 64) == 16 * top + 0x44
  {
    XorMore(top + 2, 6, 60, top + 4, 0, 0);
    XorMore(2 * top + 4, 12, 61, 2 * top + 8, 1, 0);
    XorMore(4 * top + 9, 24, 62, 4 * top + 17, 0, 0);
    XorMore(8 * top + 18, 48, 63, 8 * top + 34, 1, 1);
  }

  lemma UpperBitsXorA(high: nat)
    requires high < Pow2(56)
    ensures Xor(16 * high + 2, 6, 60) == 16 * high + 4
  {
    XorNothing(high, 56);
    XorMore(high, 0, 56, high, 0, 0);
    XorMore(2 * high, 0, 57, 2 * high, 0, 1);
    XorMore(4 * high, 1, 58, 4 * high + 1, 1, 1);
    XorMore(8 * high + 1, 3, 59, 8 * high + 2, 0, 0);
  }

  lemma Pow2Of56()
    ensures Pow2(56) == 0x100_0000_0000_0000
  {
    assert Pow2(8) == 0x100;
    assert Pow2(16) == 0x1_0000;
    assert Pow2(24) == 0x100_0000;
    assert Pow2(32) == 0x1_0000_0000;
    assert Pow2(40) == 0x100_0000_0000;
    assert Pow2(48) == 0x1_0000_0000_0000;
  }

  /** One bit more at the low end. */
  lemma XorMore(x: nat, y: nat, n: nat, r: nat, b: nat, c: nat)
    requires Xor(x, y, n) == r && b < 2 && c < 2
    ensures Xor(2 * x + b, 2 * y + c, n + 1) == 2 * r + if b == c then 0 else 1
  {
    assert (2 * x + b) / 2 == x && (2 * x + b) % 2 == b && (2 * y + c) / 2 == y && (2 * y + c) % 2 == c;
  }

  ghost predicate DifferOnlyAt(u: seq<Byte>, v: seq<Byte>, i: nat) {
    |u| == |v| && i < |u| && u[i] != v[i] && forall j :: 0 <= j < |u| && j != i ==> u[j] == v[j]
  }

  /** Two inputs of one length that differ in exactly one byte never collide. */
  lemma {:induction false} OneByteNeverCollides(u: seq<Byte>, v: seq<Byte>, i: nat)
    requires DifferOnlyAt(u, v, i)
    ensures Hash(u) != Hash(v)
  {
    var n := |u| - 1;
    if i == n {
      assert u[..n] == v[..n];
      StepCancels(OFFSET, Hash(u[..n]), u[n], v[n]);
    } else {
      OneByteNeverCollides(u[..n], v[..n], i);
      StepCancels(Hash(u[..n]), Hash(v[..n]), u[n], v[n]);
    }
  }

  // -------------------------------------------------------------------------- UTF-8

  /** Section 3 of RFC 3629. */
  function EncodedPoint(x: int): (r: seq<Byte>)
    requires 0 <= x < 0x11_0000
    ensures 1 <= |r| <= 4 && forall b :: b in r ==> b < 0xf8
  {
    if x < 0x80 then [x]
    else if x < 0x800 then [0xc0 + x / 0x40, 0x80 + x % 0x40]
    else if x < 0x1_0000 then [0xe0 + x / 0x1000, 0x80 + x / 0x40 % 0x40, 0x80 + x % 0x40]
    else [0xf0 + x / 0x4_0000, 0x80 + x / 0x1000 % 0x40, 0x80 + x / 0x40 % 0x40, 0x80 + x % 0x40]
  }

  function Encoded(c: char): (r: seq<Byte>)
    ensures 1 <= |r| <= 4 && forall b :: b in r ==> b < 0xf8
  {
    EncodedPoint(c as int)
  }

  function Utf8(s: string): seq<Byte> {
    if s == "" then [] else Encoded(s[0]) + Utf8(s[1..])
  }

  /** The code points are the scalar values, of which the first byte tells how many follow. */
  lemma FirstCharacter(c: char, d: char, x: seq<Byte>, y: seq<Byte>)
    requires Encoded(c) + x == Encoded(d) + y
    ensures c == d && x == y
  {
    var u, v := Encoded(c) + x, Encoded(d) + y;
    assert u[0] == Encoded(c)[0] && v[0] == Encoded(d)[0];
    assert |Encoded(c)| == |Encoded(d)|;
    var n := |Encoded(c)|;
    assert u[..n] == Encoded(c) && v[..n] == Encoded(d);
    assert u[n..] == x && v[n..] == y;
    SameCharacter(c, d);
  }

  lemma SameCharacter(c: char, d: char)
    requires Encoded(c) == Encoded(d)
    ensures c == d
  {
    assert c as int == CodePoint(Encoded(c)) && d as int == CodePoint(Encoded(d)) by {
      Decodes(c as int);
      Decodes(d as int);
    }
  }

  /** Reads one code point back. */
  function CodePoint(u: seq<int>): int
    requires 1 <= |u| <= 4
  {
    match |u|
    case 1 => u[0]
    case 2 => (u[0] - 0xc0) * 0x40 + (u[1] - 0x80)
    case 3 => (u[0] - 0xe0) * 0x1000 + (u[1] - 0x80) * 0x40 + (u[2] - 0x80)
    case _ => (u[0] - 0xf0) * 0x4_0000 + (u[1] - 0x80) * 0x1000 + (u[2] - 0x80) * 0x40 + (u[3] - 0x80)
  }

  lemma Decodes(x: int)
    requires 0 <= x < 0x11_0000
    ensures CodePoint(EncodedPoint(x)) == x
  {
    assert x / 0x40 / 0x40 == x / 0x1000;
    assert x / 0x1000 / 0x40 == x / 0x4_0000;
  }

  const END: Byte := 0xff

  /** Text up to the end mark, which no text contains, is read in one way only. */
  lemma {:induction false} FirstName(s: string, t: string, x: seq<Byte>, y: seq<Byte>)
    requires Utf8(s) + [END] + x == Utf8(t) + [END] + y
    ensures s == t && x == y
  {
    FirstByte(s, x);
    FirstByte(t, y);
    if s == "" && t == "" {
      assert (Utf8(s) + [END] + x)[1..] == x && (Utf8(t) + [END] + y)[1..] == y;
    } else if s != "" && t != "" {
      var x', y' := Utf8(s[1..]) + [END] + x, Utf8(t[1..]) + [END] + y;
      Grouped(Encoded(s[0]), Utf8(s[1..]), [END], x);
      Grouped(Encoded(t[0]), Utf8(t[1..]), [END], y);
      FirstCharacter(s[0], t[0], x', y');
      FirstName(s[1..], t[1..], x, y);
    }
  }

  lemma FirstByte(s: string, x: seq<Byte>)
    ensures (Utf8(s) + [END] + x)[0] == END <==> s == ""
  {
    if s != "" {
      assert (Utf8(s) + [END] + x)[0] == Encoded(s[0])[0];
    }
  }

  function NameBytes(rules: seq<string>): seq<Byte> {
    if rules == [] then [] else Utf8(rules[0]) + [END] + NameBytes(rules[1..])
  }

  lemma {:induction false} NamesAreRead(a: seq<string>, b: seq<string>)
    requires NameBytes(a) == NameBytes(b)
    ensures a == b
  {
    if a != [] && b != [] {
      FirstName(a[0], b[0], NameBytes(a[1..]), NameBytes(b[1..]));
      NamesAreRead(a[1..], b[1..]);
    }
  }

  // -------------------------------------------------------------------- fingerprint

  function LittleEndian(x: nat, n: nat): (r: seq<Byte>)
    ensures |r| == n
  {
    if n == 0 then [] else [x % 256] + LittleEndian(x / 256, n - 1)
  }

  lemma {:induction false} NumberIsRead(x: nat, y: nat, n: nat)
    requires x < Pow2(8 * n) && y < Pow2(8 * n) && LittleEndian(x, n) == LittleEndian(y, n)
    ensures x == y
  {
    if n > 0 {
      var a, b := LittleEndian(x, n), LittleEndian(y, n);
      assert a[0] == b[0] && a[1..] == b[1..];
      assert LittleEndian(x / 256, n - 1) == a[1..] && LittleEndian(y / 256, n - 1) == b[1..];
      EightMore(8 * (n - 1));
      NumberIsRead(x / 256, y / 256, n - 1);
    }
  }

  lemma EightMore(n: nat)
    ensures Pow2(n + 8) == 256 * Pow2(n)
  {
    assert Pow2(n + 2) == 4 * Pow2(n);
    assert Pow2(n + 4) == 4 * Pow2(n + 2);
    assert Pow2(n + 6) == 4 * Pow2(n + 4);
  }

  ghost function FromLittleEndian(bytes: seq<Byte>): nat {
    if bytes == [] then 0 else bytes[0] + 256 * FromLittleEndian(bytes[1..])
  }

  /** The lowest byte comes first. */
  lemma {:induction false} LittleEndianReads(x: nat, n: nat)
    requires x < Pow2(8 * n)
    ensures FromLittleEndian(LittleEndian(x, n)) == x
  {
    if n > 0 {
      EightMore(8 * (n - 1));
      LittleEndianReads(x / 256, n - 1);
      assert LittleEndian(x, n)[1..] == LittleEndian(x / 256, n - 1);
    }
  }

  function Flag(banned: bool): Byte {
    if banned then 99 else 98
  }

  /** The bytes that are hashed. */
  function Fed(rules: seq<string>, limit: U64, banned: bool): seq<Byte> {
    NameBytes(rules) + LittleEndian(limit, 8) + [Flag(banned)]
  }

  /** Different policies are fed as different bytes. */
  lemma FedIsInjective(rules: seq<string>, limit: U64, banned: bool, rules': seq<string>, limit': U64, banned': bool)
    ensures Fed(rules, limit, banned) == Fed(rules', limit', banned') <==>
            rules == rules' && limit == limit' && banned == banned'
  {
    var u, v := Fed(rules, limit, banned), Fed(rules', limit', banned');
    if u == v {
      var n := |NameBytes(rules)|;
      assert |NameBytes(rules')| == n;
      assert u[..n] == NameBytes(rules) && v[..n] == NameBytes(rules');
      assert u[n..n + 8] == LittleEndian(limit, 8) && v[n..n + 8] == LittleEndian(limit', 8);
      assert u[n + 8] == Flag(banned) && v[n + 8] == Flag(banned');
      NamesAreRead(rules, rules');
      Pow2Of64();
      NumberIsRead(limit, limit', 8);
    }
  }

  /** The layout, on an example: a name and its end mark, the limit with the low byte first, the flag. */
  lemma FedExample(rules: seq<string>, limit: U64)
    requires rules == ["a"] && limit == 0x102
    ensures Fed(rules, limit, true) == [0x61, 0xff] + [2, 1, 0, 0, 0, 0, 0, 0] + [0x63]
  {
    NameA(rules);
    TwoBytes(2, 1);
  }

  lemma NameA(rules: seq<string>)
    requires rules == ["a"]
    ensures NameBytes(rules) == [0x61, 0xff]
  {
    var a := rules[0];
    assert rules[1..] == [] && a[1..] == "" && a[0] as int == 0x61;
    assert Encoded(a[0]) == [0x61];
    assert Utf8(a) == [0x61];
  }

  lemma TwoBytes(low: Byte, high: Byte)
    ensures LittleEndian(256 * high + low, 8) == [low, high, 0, 0, 0, 0, 0, 0]
  {
    ZeroBytes(6);
    assert LittleEndian(high, 7) == [high % 256] + LittleEndian(high / 256, 6);
    assert (256 * high + low) % 256 == low && (256 * high + low) / 256 == high;
  }

  lemma {:induction false} ZeroBytes(n: nat)
    ensures LittleEndian(0, n) == seq(n, i => 0)
  {
    if n > 0 {
      ZeroBytes(n - 1);
    }
  }

  function Version(rules: seq<string>, limit: U64, banned: bool): U64 {
    Hash(Fed(rules, limit, banned))
  }

  /** A ban or an unban alone always changes the version. */
  lemma BanChangesVersion(rules: seq<string>, limit: U64)
    ensures Version(rules, limit, true) != Version(rules, limit, false)
  {
    var u, v := Fed(rules, limit, true), Fed(rules, limit, false);
    assert DifferOnlyAt(u, v, |u| - 1);
    OneByteNeverCollides(u, v, |u| - 1);
  }

  /** So does a new limit that differs from the old one in a single byte. */
  lemma LimitByteChangesVersion(rules: seq<string>, limit: U64, limit': U64, banned: bool, i: nat)
    requires DifferOnlyAt(LittleEndian(limit, 8), LittleEndian(limit', 8), i)
    ensures Version(rules, limit, banned) != Version(rules, limit', banned)
  {
    var n := |NameBytes(rules)|;
    DifferInside(NameBytes(rules), LittleEndian(limit, 8), LittleEndian(limit', 8), [Flag(banned)], i);
    OneByteNeverCollides(Fed(rules, limit, banned), Fed(rules, limit', banned), n + i);
  }

  lemma DifferInside(a: seq<Byte>, u: seq<Byte>, v: seq<Byte>, b: seq<Byte>, i: nat)
    requires DifferOnlyAt(u, v, i)
    ensures DifferOnlyAt(a + u + b, a + v + b, |a| + i)
  {
  }

  lemma {:induction false} HashOneMore(bytes: seq<Byte>, b: Byte)
    ensures Hash(bytes + [b]) == Step(Hash(bytes), b)
  {
    assert (bytes + [b])[..|bytes|] == bytes;
  }

  /** Feeds some more bytes. */
  method Feed(h: U64, ghost before: seq<Byte>, bytes: seq<Byte>) returns (r: U64)
    requires h == Hash(before)
    ensures r == Hash(before + bytes)
  {
    r := h;
    assert before + bytes[..0] == before;
    for i := 0 to |bytes|
      invariant r == Hash(before + bytes[..i])
    {
      HashOneMore(before + bytes[..i], bytes[i]);
      assert before + bytes[..i + 1] == before + bytes[..i] + [bytes[i]];
      r := Step(r, bytes[i]);
    }
    assert bytes[..|bytes|] == bytes;
  }

  lemma Grouped(a: seq<Byte>, b: seq<Byte>, c: seq<Byte>, d: seq<Byte>)
    ensures a + (b + c + d) == a + b + c + d
  {
  }

  lemma {:induction false} NameBytesAppend(rules: seq<string>, name: string)
    ensures NameBytes(rules + [name]) == NameBytes(rules) + Utf8(name) + [END]
  {
    if rules == [] {
      assert [name][1..] == [];
    } else {
      NameBytesAppend(rules[1..], name);
      assert (rules + [name])[1..] == rules[1..] + [name];
      Grouped(Utf8(rules[0]) + [END], NameBytes(rules[1..]), Utf8(name), [END]);
    }
  }

  method StrategyVersion(rules: seq<string>, limit: U64, banned: bool) returns (h: U64)
    ensures h == Version(rules, limit, banned)
  {
    h := OFFSET;
    for i := 0 to |rules|
      invariant h == Hash(NameBytes(rules[..i]))
    {
      NameBytesAppend(rules[..i], rules[i]);
      assert rules[..i + 1] == rules[..i] + [rules[i]];
      h := Feed(h, NameBytes(rules[..i]), Utf8(rules[i]));
      h := Feed(h, NameBytes(rules[..i]) + Utf8(rules[i]), [END]);
    }
    assert rules[..|rules|] == rules;
    h := Feed(h, NameBytes(rules), LittleEndian(limit, 8));
    h := Feed(h, NameBytes(rules) + LittleEndian(limit, 8), [Flag(banned)]);
  }
}
