/** JSON text: the compact printer of `serde_json` and its parser, with the parser's nesting
    limit, and the proof that the parser undoes the printer up to that limit. */
module JsonText {
  import opened Wrappers
  import opened Json
  import opened Numbers

  // ------------------------------------------------------------------- key order

  /** Order of keys in a printed object: by code points, which for UTF-8 is the order by bytes. */
  predicate AtMost(a: string, b: string)
    decreases |a|
  {
    a == "" || (b != "" && (a[0] < b[0] || (a[0] == b[0] && AtMost(a[1..], b[1..]))))
  }

  lemma {:induction false} AtMostAntisymmetric(a: string, b: string)
    requires AtMost(a, b) && AtMost(b, a)
    ensures a == b
    decreases |a|
  {
    if a != "" {
      AtMostAntisymmetric(a[1..], b[1..]);
      assert a == [a[0]] + a[1..] && b == [b[0]] + b[1..];
    }
  }

  lemma {:induction false} AtMostTotal(a: string, b: string)
    ensures AtMost(a, b) || AtMost(b, a)
    decreases |a|
  {
    if a != "" && b != "" {
      AtMostTotal(a[1..], b[1..]);
    }
  }

  lemma {:induction false} AtMostTransitive(a: string, b: string, c: string)
    requires AtMost(a, b) && AtMost(b, c)
    ensures AtMost(a, c)
    decreases |a|
  {
    if a != "" && a[0] == b[0] == c[0] {
      AtMostTransitive(a[1..], b[1..], c[1..]);
    }
  }

  /** It is the order of a dictionary: the shorter of two when one begins the other, else the one
      with the smaller character where they first differ. */
  lemma {:induction false} AtMostExactly(a: string, b: string)
    ensures AtMost(a, b) <==> a <= b || exists k :: DiffersFirst(a, b, k) && a[k] < b[k]
    decreases |a|
  {
    if a != "" && b != "" && a[0] == b[0] {
      AtMostExactly(a[1..], b[1..]);
      if k :| DiffersFirst(a[1..], b[1..], k) && a[1..][k] < b[1..][k] {
        assert DiffersFirst(a, b, k + 1);
      }
      if k :| DiffersFirst(a, b, k) && a[k] < b[k] {
        assert DiffersFirst(a[1..], b[1..], k - 1);
      }
    } else if a != "" && b != "" {
      assert DiffersFirst(a, b, 0);
    }
  }

  ghost predicate DiffersFirst(a: string, b: string, k: int) {
    0 <= k < |a| && k < |b| && a[k] != b[k] && forall j :: 0 <= j < k ==> a[j] == b[j]
  }

  predicate IsLeast(keys: set<string>, k: string) {
    k in keys && forall j :: j in keys ==> AtMost(k, j)
  }

  lemma {:induction false} LeastExists(keys: set<string>) returns (k: string)
    requires keys != {}
    ensures IsLeast(keys, k)
    decreases |keys|
  {
    var x :| x in keys;
    var rest := keys - {x};
    assert keys == rest + {x};
    AtMostTotal(x, x);
    k := x;
    if rest != {} {
      var m := LeastExists(rest);
      AtMostTotal(x, m);
      if AtMost(m, x) {
        k := m;
      } else {
        Below(x, m, rest);
      }
    }
  }

  lemma Below(x: string, m: string, keys: set<string>)
    requires AtMost(x, m) && IsLeast(keys, m)
    ensures forall j :: j in keys ==> AtMost(x, j)
  {
    forall j | j in keys
      ensures AtMost(x, j)
    {
      AtMostTransitive(x, m, j);
    }
  }

  function Least(keys: set<string>): (k: string)
    requires keys != {}
    ensures IsLeast(keys, k)
  {
    assert exists k :: IsLeast(keys, k) by {
      var k := LeastExists(keys);
    }
    assert forall a, b | IsLeast(keys, a) && IsLeast(keys, b) :: a == b by {
      forall a, b | IsLeast(keys, a) && IsLeast(keys, b)
        ensures a == b
      {
        AtMostAntisymmetric(a, b);
      }
    }
    var k :| k in keys && IsLeast(keys, k);
    k
  }

  ghost predicate Distinct(s: seq<string>) {
    forall i, j :: 0 <= i < j < |s| ==> s[i] != s[j]
  }

  /** Every key of the set stands in the list, once, and nothing else does. */
  ghost predicate Lists(s: seq<string>, keys: set<string>) {
    Distinct(s) && forall k :: k in s <==> k in keys
  }

  function SortedKeys(keys: set<string>): (r: seq<string>)
    ensures Lists(r, keys)
    ensures forall i, j :: 0 <= i < j < |r| ==> AtMost(r[i], r[j])
    decreases |keys|
  {
    if keys == {} then []
    else
      var k := Least(keys);
      [k] + SortedKeys(keys - {k})
  }

  // --------------------------------------------------------------------- printer

  function PrintInt(n: int): string {
    if n < 0 then ['-'] + Digits(-n) else Digits(n)
  }

  function HexDigit(d: nat): char
    requires d < 16
  {
    if d < 10 then '0' + d as char else 'a' + (d - 10) as char
  }

  function EscapeChar(c: char): string {
    if c == '\"' then ['\\', '\"']
    else if c == '\\' then ['\\', '\\']
    else if c == '\U{08}' then ['\\', 'b']
    else if c == '\U{0C}' then ['\\', 'f']
    else if c == '\n' then ['\\', 'n']
    else if c == '\r' then ['\\', 'r']
    else if c == '\t' then ['\\', 't']
    else if c < ' ' then ['\\', 'u', '0', '0', HexDigit(c as int / 16), HexDigit(c as int % 16)]
    else [c]
  }

  function Escape(s: string): string {
    if s == "" then "" else EscapeChar(s[0]) + Escape(s[1..])
  }

  function Quote(s: string): string {
    ['\"'] + Escape(s) + ['\"']
  }

  predicate HasKeys(v: Json, keys: seq<string>) {
    v.Obj? && forall k :: k in keys ==> k in v.fields
  }

  function Print(v: Json): string
    decreases v, 1, 0
  {
    match v
    case Null => "null"
    case Bool(b) => if b then "true" else "false"
    case Num(n) => PrintInt(n)
    case Float(x) => FloatText(x)
    case Str(s) => Quote(s)
    case Arr(items) => ['['] + PrintItems(v, 0) + [']']
    case Obj(fields) => ['{'] + PrintFields(v, SortedKeys(fields.Keys)) + ['}']
  }

  function PrintItems(v: Json, i: nat): string
    requires v.Arr? && i <= |v.items|
    decreases v, 0, |v.items| - i
  {
    if i == |v.items| then ""
    else Print(v.items[i]) + (if i + 1 == |v.items| then "" else [','] + PrintItems(v, i + 1))
  }

  function PrintFields(v: Json, keys: seq<string>): string
    requires HasKeys(v, keys)
    decreases v, 0, |keys|
  {
    if keys == [] then ""
    else
      Quote(keys[0]) + [':'] + Print(v.fields[keys[0]]) +
      (if |keys| == 1 then "" else [','] + PrintFields(v, keys[1..]))
  }

  // ---------------------------------------------------------------------- parser

  /** What a parsing step found, and the text after it. */
  datatype Parsed<+T> = Fail | Done(value: T, rest: string)

  predicate IsSpace(c: char) {
    c == ' ' || c == '\n' || c == '\r' || c == '\t'
  }

  function SkipSpace(s: string): (r: string)
    ensures |r| <= |s|
    ensures r != "" ==> !IsSpace(r[0])
  {
    if s != "" && IsSpace(s[0]) then SkipSpace(s[1..]) else s
  }

  /** A 64-bit integer if the literal is one, else a float. */
  function NumberOf(l: string): Option<Json>
    requires IsLiteral(l)
  {
    match IntegerOf(l)
    case Some(n) => Some(Num(n))
    case None =>
      match ReadFloat(l)
      case Some(x) => Some(Float(x))
      case None => None
  }

  function ParseNumber(s: string): (r: Parsed<Json>)
    ensures r.Done? ==> |r.rest| < |s|
  {
    match LiteralEnd(s)
    case None => Fail
    case Some(n) =>
      LiteralAlone(s);
      match NumberOf(s[..n])
      case None => Fail
      case Some(v) => Done(v, s[n..])
  }

  function HexValue(c: char): Option<nat> {
    if '0' <= c <= '9' then Some(c as int - '0' as int)
    else if 'a' <= c <= 'f' then Some(c as int - 'a' as int + 10)
    else if 'A' <= c <= 'F' then Some(c as int - 'A' as int + 10)
    else None
  }

  function ParseHex4(s: string): (r: Parsed<nat>)
    ensures r.Done? ==> |r.rest| < |s| && r.value < 0x10000
  {
    if |s| < 4 then Fail
    else
      match (HexValue(s[0]), HexValue(s[1]), HexValue(s[2]), HexValue(s[3]))
      case (Some(a), Some(b), Some(c), Some(d)) =>
        if a < 16 && b < 16 && c < 16 && d < 16 then Done(((a * 16 + b) * 16 + c) * 16 + d, s[4..]) else Fail
      case _ => Fail
  }

  /** The character after `\u`: one code unit, or a high and a low surrogate together. */
  function ParseUnicodeEscape(s: string): (r: Parsed<char>)
    ensures r.Done? ==> |r.rest| < |s|
  {
    match ParseHex4(s)
    case Fail => Fail
    case Done(hi, rest) =>
      if hi < 0xD800 || 0xE000 <= hi then Done(hi as char, rest)
      else if hi < 0xDC00 && |rest| >= 2 && rest[0] == '\\' && rest[1] == 'u' then
        match ParseHex4(rest[2..])
        case Fail => Fail
        case Done(lo, rest') =>
          if 0xDC00 <= lo < 0xE000 then
            Done((0x10000 + (hi - 0xD800) * 0x400 + (lo - 0xDC00)) as char, rest')
          else Fail
      else Fail
  }

  /** One character of a string literal. */
  function ParseChar(s: string): (r: Parsed<char>)
    ensures r.Done? ==> |r.rest| < |s|
  {
    if s == "" || s[0] < ' ' then Fail
    else if s[0] != '\\' then Done(s[0], s[1..])
    else if |s| < 2 then Fail
    else match s[1]
      case '\"' => Done('\"', s[2..])
      case '\\' => Done('\\', s[2..])
      case '/' => Done('/', s[2..])
      case 'b' => Done('\U{08}', s[2..])
      case 'f' => Done('\U{0C}', s[2..])
      case 'n' => Done('\n', s[2..])
      case 'r' => Done('\r', s[2..])
      case 't' => Done('\t', s[2..])
      case 'u' => ParseUnicodeEscape(s[2..])
      case _ => Fail
  }

  /** The rest of a string literal after its opening quote. */
  function ParseChars(s: string): (r: Parsed<string>)
    ensures r.Done? ==> |r.rest| < |s|
    decreases |s|
  {
    if s != "" && s[0] == '\"' then Done("", s[1..])
    else
      match ParseChar(s)
      case Fail => Fail
      case Done(c, rest) =>
        match ParseChars(rest)
        case Fail => Fail
        case Done(t, rest') => Done([c] + t, rest')
  }

  function ParseLiteral(s: string, word: string, v: Json): (r: Parsed<Json>)
    requires word != ""
    ensures r.Done? ==> |r.rest| < |s|
  {
    if word <= s then Done(v, s[|word|..]) else Fail
  }

  /** A value; `depth` is how many levels of nesting the parser still allows, plus one. */
  function ParseValue(s: string, depth: nat): (r: Parsed<Json>)
    ensures r.Done? ==> |r.rest| < |s|
    decreases |s|, 3
  {
    var s := SkipSpace(s);
    if s == "" then Fail
    else if s[0] == '[' then ParseArray(s[1..], depth)
    else if s[0] == '{' then ParseObject(s[1..], depth)
    else ParseScalar(s)
  }

  function ParseScalar(s: string): (r: Parsed<Json>)
    requires s != ""
    ensures r.Done? ==> |r.rest| < |s|
  {
    match s[0]
    case 'n' => ParseLiteral(s, "null", Null)
    case 't' => ParseLiteral(s, "true", Bool(true))
    case 'f' => ParseLiteral(s, "false", Bool(false))
    case '\"' =>
      (match ParseChars(s[1..])
       case Fail => Fail
       case Done(t, rest) => Done(Str(t), rest))
    case _ => ParseNumber(s)
  }

  /** An array after its opening bracket. */
  function ParseArray(s: string, depth: nat): (r: Parsed<Json>)
    ensures r.Done? ==> |r.rest| < |s|
    decreases |s|, 6
  {
    var body := SkipSpace(s);
    if depth < 2 then Fail
    else if body != "" && body[0] == ']' then Done(Arr([]), body[1..])
    else
      match ParseItems(body, depth - 1)
      case Fail => Fail
      case Done(items, rest) => Done(Arr(items), rest)
  }

  /** An object after its opening brace. */
  function ParseObject(s: string, depth: nat): (r: Parsed<Json>)
    ensures r.Done? ==> |r.rest| < |s|
    decreases |s|, 6
  {
    var body := SkipSpace(s);
    if depth < 2 then Fail
    else if body != "" && body[0] == '}' then Done(Obj(map[]), body[1..])
    else
      match ParseFields(body, depth - 1)
      case Fail => Fail
      case Done(fields, rest) => Done(Obj(fields), rest)
  }

  /** One or more array items and the closing bracket. */
  function ParseItems(s: string, depth: nat): (r: Parsed<seq<Json>>)
    ensures r.Done? ==> |r.rest| < |s|
    decreases |s|, 4
  {
    match ParseValue(s, depth)
    case Fail => Fail
    case Done(v, rest) =>
      var rest := SkipSpace(rest);
      if rest == "" then Fail
      else if rest[0] == ']' then Done([v], rest[1..])
      else if rest[0] == ',' then
        match ParseItems(rest[1..], depth)
        case Fail => Fail
        case Done(more, end) => Done([v] + more, end)
      else Fail
  }

  /** A key, a colon and a value. */
  function ParseMember(s: string, depth: nat): (r: Parsed<(string, Json)>)
    ensures r.Done? ==> |r.rest| < |s|
    decreases |s|, 4
  {
    var s := SkipSpace(s);
    if s == "" || s[0] != '\"' then Fail
    else
      match ParseChars(s[1..])
      case Fail => Fail
      case Done(key, rest) =>
        var rest := SkipSpace(rest);
        if rest == "" || rest[0] != ':' then Fail
        else
          match ParseValue(rest[1..], depth)
          case Fail => Fail
          case Done(v, end) => Done((key, v), end)
  }

  /** One or more object members and the closing brace; a repeated key keeps its last value. */
  function ParseFields(s: string, depth: nat): (r: Parsed<map<string, Json>>)
    ensures r.Done? ==> |r.rest| < |s|
    decreases |s|, 5
  {
    match ParseMember(s, depth)
    case Fail => Fail
    case Done((key, v), rest) =>
      var rest := SkipSpace(rest);
      if rest == "" then Fail
      else if rest[0] == '}' then Done(map[key := v], rest[1..])
      else if rest[0] == ',' then
        match ParseFields(rest[1..], depth)
        case Fail => Fail
        case Done(more, end) => Done(map[key := v] + more, end)
      else Fail
  }

  /** The parser's nesting limit. */
  const RECURSION_LIMIT: nat := 128

  /** A whole text: one value and nothing but white space after it. */
  function Parse(s: string): Option<Json> {
    match ParseValue(s, RECURSION_LIMIT)
    case Fail => None
    case Done(v, rest) => if SkipSpace(rest) == "" then Some(v) else None
  }

  // ------------------------------------------------------------------ round trip

  /** `v` nests fewer than `depth` levels of arrays and objects. */
  predicate Fits(v: Json, depth: nat)
    decreases v
  {
    match v
    case Arr(items) => depth >= 2 && forall i :: 0 <= i < |items| ==> Fits(items[i], depth - 1)
    case Obj(fields) => depth >= 2 && forall k :: k in fields ==> Fits(fields[k], depth - 1)
    case _ => true
  }

  lemma {:induction false} FitsMore(v: Json, depth: nat, more: nat)
    requires Fits(v, depth) && depth <= more
    ensures Fits(v, more)
    decreases v
  {
    if v.Arr? {
      forall i | 0 <= i < |v.items|
        ensures Fits(v.items[i], more - 1)
      {
        FitsMore(v.items[i], depth - 1, more - 1);
      }
    } else if v.Obj? {
      forall k | k in v.fields
        ensures Fits(v.fields[k], more - 1)
      {
        FitsMore(v.fields[k], depth - 1, more - 1);
      }
    }
  }

  /** What may follow a value. */
  predicate Closes(rest: string) {
    rest == "" || rest[0] in {',', ']', '}'} || IsSpace(rest[0])
  }

  lemma PrintedIntIsLiteral(n: Number)
    ensures IsLiteral(PrintInt(n)) && IntegerOf(PrintInt(n)) == Some(n)
  {
    var m := if n < 0 then 0 - n else n;
    var l := PrintInt(n);
    DigitsValue(m);
    assert l[SignEnd(l)..] == Digits(m);
    assert |Digits(m)| > 1 ==> m > 0;
    DigitsAreWhole(l);
  }

  lemma DigitsAreWhole(l: string)
    requires SignEnd(l) < |l| && (|l| > SignEnd(l) + 1 ==> l[SignEnd(l)] != '0')
    requires forall i :: SignEnd(l) <= i < |l| ==> IsDigit(l[i])
    ensures WholeEnd(l) == Some(|l|) && IsLiteral(l)
  {
    RunIs(l[SignEnd(l)..], |l| - SignEnd(l));
  }

  /** A printed number is read up to its end, whatever closes it. */
  lemma ParsePrintedNumber(v: Json, rest: string)
    requires (v.Num? || v.Float?) && Closes(rest)
    ensures ParseNumber(Print(v) + rest) == Done(v, rest)
  {
    if v.Num? {
      PrintedIntIsLiteral(v.n);
    } else {
      FloatReadsItself(v.x);
    }
    ParseLiteralThenRest(Print(v), v, rest);
  }

  lemma ParseLiteralThenRest(l: string, v: Json, rest: string)
    requires IsLiteral(l) && NumberOf(l) == Some(v) && Closes(rest)
    ensures ParseNumber(l + rest) == Done(v, rest)
  {
    LiteralThenRest(l, rest);
    assert (l + rest)[..|l|] == l && (l + rest)[|l|..] == rest;
  }

  lemma ParseEscapedChar(c: char, rest: string)
    ensures ParseChar(EscapeChar(c) + rest) == Done(c, rest)
    ensures EscapeChar(c)[0] != '\"'
  {
    var s := EscapeChar(c) + rest;
    if |EscapeChar(c)| == 1 {
      assert s[1..] == rest;
    } else if |EscapeChar(c)| == 2 {
      assert s[0] == '\\' && s[1] == EscapeChar(c)[1] && s[2..] == rest;
    } else {
      var u := s[2..];
      var hi, lo := c as int / 16, c as int % 16;
      assert u[0] == '0' && u[1] == '0' && u[2] == HexDigit(hi) && u[3] == HexDigit(lo) && u[4..] == rest;
      assert HexValue(u[2]) == Some(hi) && HexValue(u[3]) == Some(lo);
      assert ParseHex4(u) == Done(c as int, rest);
    }
  }

  /** Four hexadecimal digits. */
  ghost function Hex4(n: nat): string
    requires n < 0x10000
  {
    [HexDigit(n / 0x1000), HexDigit(n / 0x100 % 0x10), HexDigit(n / 0x10 % 0x10), HexDigit(n % 0x10)]
  }

  lemma HexDigitReads(d: nat)
    requires d < 16
    ensures HexValue(HexDigit(d)) == Some(d)
  {
  }

  lemma Hex4Reads(n: nat, rest: string)
    requires n < 0x10000
    ensures ParseHex4(Hex4(n) + rest) == Done(n, rest)
  {
    DigitsRead(n / 0x1000, n / 0x100 % 0x10, n / 0x10 % 0x10, n % 0x10, rest);
    FourDigits(n);
  }

  lemma FourDigits(n: nat)
    requires n < 0x10000
    ensures ((n / 0x1000 * 16 + n / 0x100 % 0x10) * 16 + n / 0x10 % 0x10) * 16 + n % 0x10 == n
  {
    assert n / 0x10 / 0x10 == n / 0x100 && n / 0x100 / 0x10 == n / 0x1000;
  }

  lemma DigitsRead(a: nat, b: nat, c: nat, d: nat, rest: string)
    requires a < 16 && b < 16 && c < 16 && d < 16
    ensures ParseHex4([HexDigit(a), HexDigit(b), HexDigit(c), HexDigit(d)] + rest) ==
            Done(((a * 16 + b) * 16 + c) * 16 + d, rest)
  {
    HexDigitReads(a);
    HexDigitReads(b);
    HexDigitReads(c);
    HexDigitReads(d);
    assert ([HexDigit(a), HexDigit(b), HexDigit(c), HexDigit(d)] + rest)[4..] == rest;
  }

  /** A character of the basic plane may be written as an escape of its code (RFC 8259, section 7). */
  lemma OneUnitReads(x: nat, rest: string)
    requires x < 0xD800 || 0xE000 <= x < 0x10000
    ensures ParseChar(['\\', 'u'] + Hex4(x) + rest) == Done(x as char, rest)
  {
    var s := ['\\', 'u'] + Hex4(x) + rest;
    EscapeStart(s);
    assert s[2..] == Hex4(x) + rest;
    UnitReads(x, rest);
  }

  /** Any other character as the escapes of its high and its low surrogate. */
  lemma TwoUnitsRead(m: nat, rest: string)
    requires m < 0x10_0000
    ensures ParseChar(['\\', 'u'] + Hex4(0xD800 + m / 0x400) + ['\\', 'u'] + Hex4(0xDC00 + m % 0x400) + rest) ==
            Done((0x10000 + m) as char, rest)
  {
    var hi, lo := 0xD800 + m / 0x400, 0xDC00 + m % 0x400;
    EscapeStart(['\\', 'u'] + Hex4(hi) + ['\\', 'u'] + Hex4(lo) + rest);
    AfterStart(Hex4(hi), Hex4(lo), rest);
    PairReads(hi, lo, rest);
    assert 0x10000 + (hi - 0xD800) * 0x400 + (lo - 0xDC00) == 0x10000 + m;
  }

  lemma AfterStart(hi: string, lo: string, rest: string)
    ensures (['\\', 'u'] + hi + ['\\', 'u'] + lo + rest)[2..] == hi + (['\\', 'u'] + (lo + rest))
  {
  }

  lemma EscapeStart(s: string)
    requires |s| >= 2 && s[0] == '\\' && s[1] == 'u'
    ensures ParseChar(s) == ParseUnicodeEscape(s[2..])
  {
  }

  lemma UnitReads(n: nat, rest: string)
    requires n < 0xD800 || 0xE000 <= n < 0x10000
    ensures ParseUnicodeEscape(Hex4(n) + rest) == Done(n as char, rest)
  {
    Hex4Reads(n, rest);
  }

  lemma PairReads(hi: nat, lo: nat, rest: string)
    requires 0xD800 <= hi < 0xDC00 <= lo < 0xE000
    ensures ParseUnicodeEscape(Hex4(hi) + (['\\', 'u'] + (Hex4(lo) + rest))) ==
            Done((0x10000 + (hi - 0xD800) * 0x400 + (lo - 0xDC00)) as char, rest)
  {
    var tail := ['\\', 'u'] + (Hex4(lo) + rest);
    Hex4Reads(hi, tail);
    assert tail[0] == '\\' && tail[1] == 'u' && tail[2..] == Hex4(lo) + rest;
    Hex4Reads(lo, rest);
  }

  /** A surrogate on its own is no character: a low one first, or a high one without an escape after it. */
  lemma LoneSurrogateFails(n: nat, rest: string)
    requires 0xDC00 <= n < 0xE000 || (0xD800 <= n < 0xDC00 && !(|rest| >= 2 && rest[0] == '\\' && rest[1] == 'u'))
    ensures ParseChar(['\\', 'u'] + Hex4(n) + rest) == Fail
  {
    assert (['\\', 'u'] + Hex4(n) + rest)[2..] == Hex4(n) + rest;
    Hex4Reads(n, rest);
  }

  lemma {:induction false} ParseEscaped(t: string, rest: string)
    ensures ParseChars(Escape(t) + ['\"'] + rest) == Done(t, rest)
  {
    var s := Escape(t) + ['\"'] + rest;
    if t == "" {
      assert s[1..] == rest;
    } else {
      var tail := Escape(t[1..]) + ['\"'] + rest;
      assert s == EscapeChar(t[0]) + tail;
      ParseEscapedChar(t[0], tail);
      assert s[0] == EscapeChar(t[0])[0];
      ParseEscaped(t[1..], rest);
      assert [t[0]] + t[1..] == t;
    }
  }

  ghost function Members(v: Json, keys: seq<string>): map<string, Json>
    requires HasKeys(v, keys)
  {
    map k | k in keys :: v.fields[k]
  }

  ghost predicate AllFit(v: Json, keys: seq<string>, depth: nat)
    requires HasKeys(v, keys)
  {
    forall k :: k in keys ==> Fits(v.fields[k], depth)
  }

  lemma MembersStep(v: Json, keys: seq<string>, depth: nat)
    requires HasKeys(v, keys) && keys != [] && Distinct(keys)
    ensures AllFit(v, keys, depth) <==> Fits(v.fields[keys[0]], depth) && AllFit(v, keys[1..], depth)
    ensures Members(v, keys) == map[keys[0] := v.fields[keys[0]]] + Members(v, keys[1..])
    ensures |keys| == 1 ==> Members(v, keys) == map[keys[0] := v.fields[keys[0]]]
  {
    assert forall k :: k in keys <==> k == keys[0] || k in keys[1..];
  }

  lemma {:induction false} PrintStart(v: Json)
    ensures Print(v) != "" && !IsSpace(Print(v)[0]) && Print(v)[0] !in {']', '}'}
  {
    if v.Float? {
      FloatReadsItself(v.x);
    }
  }

  lemma ParseWord(word: string, v: Json, rest: string)
    requires word != ""
    ensures ParseLiteral(word + rest, word, v) == Done(v, rest)
  {
  }

  lemma ParseQuoted(t: string, rest: string)
    ensures ParseScalar(Quote(t) + rest) == Done(Str(t), rest)
  {
    assert (Quote(t) + rest)[1..] == Escape(t) + ['\"'] + rest;
    ParseEscaped(t, rest);
    ParseString(Quote(t) + rest, t, rest);
  }

  lemma ParseString(s: string, t: string, rest: string)
    requires s != "" && s[0] == '\"' && ParseChars(s[1..]) == Done(t, rest)
    ensures ParseScalar(s) == Done(Str(t), rest)
  {
  }

  lemma ParseScalarOpening(s: string, depth: nat)
    requires s != "" && !IsSpace(s[0]) && s[0] !in {'[', '{'}
    ensures ParseValue(s, depth) == ParseScalar(s)
  {
    assert SkipSpace(s) == s;
  }

  lemma ParseNumberOpening(s: string, depth: nat)
    requires s != "" && (IsDigit(s[0]) || s[0] == '-')
    ensures ParseValue(s, depth) == ParseNumber(s)
  {
    ParseScalarOpening(s, depth);
  }

  lemma ParsePrintedScalar(v: Json, rest: string, depth: nat)
    requires !v.Arr? && !v.Obj? && Closes(rest)
    ensures ParseValue(Print(v) + rest, depth) == Done(v, rest)
  {
    match v
    case Null =>
      ParseScalarOpening("null" + rest, depth);
      ParseWord("null", v, rest);
    case Bool(b) =>
      ParseScalarOpening(Print(v) + rest, depth);
      ParseWord(Print(v), v, rest);
    case Num(n) =>
      PrintedIntIsLiteral(n);
      ParseNumberOpening(PrintInt(n) + rest, depth);
      ParsePrintedNumber(v, rest);
    case Float(x) =>
      FloatReadsItself(x);
      ParseNumberOpening(FloatText(x) + rest, depth);
      ParsePrintedNumber(v, rest);
    case Str(t) =>
      ParseScalarOpening(Quote(t) + rest, depth);
      ParseQuoted(t, rest);
  }

  lemma ParseOpening(body: string, depth: nat)
    ensures ParseValue(['['] + body, depth) == ParseArray(body, depth)
    ensures ParseValue(['{'] + body, depth) == ParseObject(body, depth)
  {
    assert (['['] + body)[1..] == body && (['{'] + body)[1..] == body;
  }

  /** The text begins with the value, which is read if it stays within the limit. */
  ghost predicate Reads(text: string, depth: nat, v: Json, rest: string) {
    ParseValue(text, depth) == if Fits(v, depth) then Done(v, rest) else Fail
  }

  /** The parser reads back what the printer wrote and stops right after it, for exactly the
      values within its nesting limit; deeper ones it refuses. */
  lemma {:induction false} ParsePrinted(v: Json, rest: string, depth: nat)
    requires Closes(rest)
    ensures Reads(Print(v) + rest, depth, v, rest)
    decreases v, 1, 0
  {
    if v.Arr? {
      ParsePrintedArray(v, rest, depth);
    } else if v.Obj? {
      ParsePrintedObject(v, rest, depth);
    } else {
      ParsePrintedScalar(v, rest, depth);
    }
  }

  /** The text begins with the items from `i` on, which are read if they stay within the limit. */
  ghost predicate ItemsRead(text: string, depth: nat, v: Json, i: nat, rest: string)
    requires v.Arr? && i <= |v.items|
  {
    ParseItems(text, depth) ==
    if forall j :: i <= j < |v.items| ==> Fits(v.items[j], depth) then Done(v.items[i..], rest) else Fail
  }

  lemma {:induction false} ParsePrintedArray(v: Json, rest: string, depth: nat)
    requires v.Arr?
    ensures Reads(Print(v) + rest, depth, v, rest)
    decreases v, 0, |v.items| + 1
  {
    assert Print(v) == ['['] + PrintItems(v, 0) + [']'];
    ItemsStart(v);
    if v.items != [] && depth >= 2 {
      ParsePrintedItems(v, 0, rest, depth - 1);
    }
    ArrayStep(v, PrintItems(v, 0), rest, depth);
  }

  lemma Bracketed(open: char, body: string, close: char, rest: string)
    ensures [open] + body + [close] + rest == [open] + (body + [close] + rest)
  {
  }

  lemma ItemsStart(v: Json)
    requires v.Arr?
    ensures StartsItems(PrintItems(v, 0), v.items)
  {
    if v.items != [] {
      PrintStart(v.items[0]);
    }
  }

  ghost predicate StartsItems(text: string, items: seq<Json>) {
    if items == [] then text == "" else text != "" && !IsSpace(text[0]) && text[0] != ']'
  }

  /** The last step of `ParsePrintedArray`, with the text of the items left abstract. */
  lemma ArrayStep(v: Json, items: string, rest: string, depth: nat)
    requires v.Arr? && StartsItems(items, v.items)
    requires v.items != [] && depth >= 2 ==> ItemsRead(items + [']'] + rest, depth - 1, v, 0, rest)
    ensures Reads(['['] + items + [']'] + rest, depth, v, rest)
  {
    var body := items + [']'] + rest;
    Bracketed('[', items, ']', rest);
    ParseOpening(body, depth);
    assert SkipSpace(body) == body;
    assert v.items[0..] == v.items;
    if v.items == [] {
      assert body == [']'] + rest && body[1..] == rest;
    }
  }

  lemma {:induction false} ParsePrintedObject(v: Json, rest: string, depth: nat)
    requires v.Obj?
    ensures Reads(Print(v) + rest, depth, v, rest)
    decreases v, 0, |SortedKeys(v.fields.Keys)| + 2
  {
    ParsePrintedMembers(v, SortedKeys(v.fields.Keys), rest, depth);
  }

  /** The text begins with these members, which are read if they stay within the limit. */
  ghost predicate FieldsRead(text: string, depth: nat, v: Json, keys: seq<string>, rest: string)
    requires HasKeys(v, keys)
  {
    ParseFields(text, depth) == if AllFit(v, keys, depth) then Done(Members(v, keys), rest) else Fail
  }

  lemma {:induction false} ParsePrintedMembers(v: Json, keys: seq<string>, rest: string, depth: nat)
    requires HasKeys(v, keys) && Lists(keys, v.fields.Keys)
    ensures Reads(['{'] + PrintFields(v, keys) + ['}'] + rest, depth, v, rest)
    decreases v, 0, |keys| + 1
  {
    FieldsStart(v, keys);
    if keys != [] && depth >= 2 {
      ParsePrintedFields(v, keys, rest, depth - 1);
    }
    ObjectStep(v, keys, PrintFields(v, keys), rest, depth);
  }

  lemma FieldsStart(v: Json, keys: seq<string>)
    requires HasKeys(v, keys)
    ensures StartsMembers(PrintFields(v, keys), keys)
  {
  }

  ghost predicate StartsMembers(text: string, keys: seq<string>) {
    if keys == [] then text == "" else text != "" && text[0] == '\"'
  }

  /** The last step of `ParsePrintedObject`, with the text of the members left abstract. */
  lemma ObjectStep(v: Json, keys: seq<string>, members: string, rest: string, depth: nat)
    requires HasKeys(v, keys) && Lists(keys, v.fields.Keys) && StartsMembers(members, keys)
    requires keys != [] && depth >= 2 ==> FieldsRead(members + ['}'] + rest, depth - 1, v, keys, rest)
    ensures Reads(['{'] + members + ['}'] + rest, depth, v, rest)
  {
    var body := members + ['}'] + rest;
    Bracketed('{', members, '}', rest);
    ParseOpening(body, depth);
    if keys == [] {
      assert v.fields == map[];
      assert body == ['}'] + rest && body[1..] == rest;
    } else {
      assert SkipSpace(body) == body && body[0] == '\"';
      assert Members(v, keys) == v.fields;
      assert depth >= 2 ==> (AllFit(v, keys, depth - 1) <==> Fits(v, depth));
    }
  }

  lemma {:induction false} ParsePrintedItems(v: Json, i: nat, rest: string, depth: nat)
    requires v.Arr? && i < |v.items|
    ensures ItemsRead(PrintItems(v, i) + [']'] + rest, depth, v, i, rest)
    decreases v, 0, |v.items| - i
  {
    var last := i + 1 == |v.items|;
    var tail := if last then rest else PrintItems(v, i + 1) + [']'] + rest;
    var closing := [if last then ']' else ','] + tail;
    ItemsText(v, i, rest);
    ParsePrinted(v.items[i], closing, depth);
    if !last {
      ParsePrintedItems(v, i + 1, rest, depth);
    }
    ItemsStep(v, i, rest, Print(v.items[i]) + closing, closing, depth);
  }

  lemma ItemsText(v: Json, i: nat, rest: string)
    requires v.Arr? && i < |v.items|
    ensures PrintItems(v, i) + [']'] + rest == Print(v.items[i]) +
      if i + 1 == |v.items| then [']'] + rest else [','] + (PrintItems(v, i + 1) + [']'] + rest)
  {
  }

  /** The last step of `ParsePrintedItems`, with the printed text left abstract. */
  lemma ItemsStep(v: Json, i: nat, rest: string, text: string, closing: string, depth: nat)
    requires v.Arr? && i < |v.items|
    requires closing != "" && closing[0] == (if i + 1 == |v.items| then ']' else ',')
    requires Reads(text, depth, v.items[i], closing)
    requires i + 1 == |v.items| ==> closing[1..] == rest
    requires i + 1 < |v.items| ==> ItemsRead(closing[1..], depth, v, i + 1, rest)
    ensures ItemsRead(text, depth, v, i, rest)
  {
    assert SkipSpace(closing) == closing;
    assert v.items[i..] == [v.items[i]] + v.items[i + 1..];
    if i + 1 == |v.items| {
      assert v.items[i..] == [v.items[i]];
      assert Fits(v.items[i], depth) <==> forall j :: i <= j < |v.items| ==> Fits(v.items[j], depth);
    }
  }

  lemma {:induction false} ParsePrintedFields(v: Json, keys: seq<string>, rest: string, depth: nat)
    requires HasKeys(v, keys) && keys != []
    requires Distinct(keys)
    ensures FieldsRead(PrintFields(v, keys) + ['}'] + rest, depth, v, keys, rest)
    decreases v, 0, |keys|
  {
    var key, value := keys[0], v.fields[keys[0]];
    var tail := if |keys| == 1 then rest else PrintFields(v, keys[1..]) + ['}'] + rest;
    var closing := [if |keys| == 1 then '}' else ','] + tail;
    FieldsText(v, keys, rest);
    ParsePrinted(value, closing, depth);
    ParseQuotedMember(key, Print(value) + closing, depth);
    if |keys| > 1 {
      ParsePrintedFields(v, keys[1..], rest, depth);
    }
    FieldsStep(v, keys, rest, Quote(key) + [':'] + (Print(value) + closing), closing, depth);
  }

  lemma FieldsText(v: Json, keys: seq<string>, rest: string)
    requires HasKeys(v, keys) && keys != []
    ensures PrintFields(v, keys) + ['}'] + rest == Quote(keys[0]) + [':'] + (Print(v.fields[keys[0]]) +
      ([if |keys| == 1 then '}' else ','] + if |keys| == 1 then rest else PrintFields(v, keys[1..]) + ['}'] + rest))
  {
  }

  /** The last step of `ParsePrintedFields`, with the printed text left abstract. */
  lemma FieldsStep(v: Json, keys: seq<string>, rest: string, text: string, closing: string, depth: nat)
    requires HasKeys(v, keys) && keys != []
    requires Distinct(keys)
    requires closing != "" && closing[0] == (if |keys| == 1 then '}' else ',')
    requires ParseMember(text, depth) ==
      if Fits(v.fields[keys[0]], depth) then Done((keys[0], v.fields[keys[0]]), closing) else Fail
    requires |keys| == 1 ==> closing[1..] == rest
    requires |keys| > 1 ==> FieldsRead(closing[1..], depth, v, keys[1..], rest)
    ensures FieldsRead(text, depth, v, keys, rest)
  {
    assert SkipSpace(closing) == closing;
    MembersStep(v, keys, depth);
  }

  lemma ParseQuotedMember(key: string, text: string, depth: nat)
    ensures ParseMember(Quote(key) + [':'] + text, depth) ==
      match ParseValue(text, depth)
      case Fail => Fail
      case Done(v, end) => Done((key, v), end)
  {
    var s := Quote(key) + [':'] + text;
    assert s[0] == '\"' && s[1..] == Escape(key) + ['\"'] + ([':'] + text);
    ParseEscaped(key, [':'] + text);
    MemberAfterKey(s, key, text, depth);
  }

  lemma MemberAfterKey(s: string, key: string, text: string, depth: nat)
    requires s != "" && s[0] == '\"' && ParseChars(s[1..]) == Done(key, [':'] + text)
    ensures ParseMember(s, depth) ==
      match ParseValue(text, depth)
      case Fail => Fail
      case Done(v, end) => Done((key, v), end)
  {
    assert ([':'] + text)[1..] == text;
  }

  /** Printing and parsing again gives the value back exactly when it stays within the limit. */
  lemma RoundTrip(v: Json)
    ensures Parse(Print(v)) == if Fits(v, RECURSION_LIMIT) then Some(v) else None
  {
    ParsePrinted(v, "", RECURSION_LIMIT);
    assert Print(v) + "" == Print(v);
  }

  ghost predicate AllSpace(s: string) {
    forall c :: c in s ==> IsSpace(c)
  }

  lemma {:induction false} SpaceIsSkipped(space: string, s: string)
    requires AllSpace(space)
    ensures SkipSpace(space + s) == SkipSpace(s)
  {
    if space == "" {
      assert space + s == s;
    } else {
      assert (space + s)[1..] == space[1..] + s;
      SpaceIsSkipped(space[1..], s);
    }
  }

  lemma SameAfterSpace(s: string, t: string, depth: nat)
    requires SkipSpace(s) == SkipSpace(t)
    ensures ParseValue(s, depth) == ParseValue(t, depth)
  {
  }

  /** White space around a printed value makes no difference. */
  lemma SpaceAround(before: string, v: Json, after: string)
    requires AllSpace(before) && AllSpace(after)
    ensures Parse(before + Print(v) + after) == Parse(Print(v))
  {
    RoundTrip(v);
    ParsePrinted(v, after, RECURSION_LIMIT);
    SpaceIsSkipped(before, Print(v) + after);
    SpaceIsSkipped(after, "");
    assert after + "" == after;
    assert before + Print(v) + after == before + (Print(v) + after);
    SameAfterSpace(before + (Print(v) + after), Print(v) + after, RECURSION_LIMIT);
  }

  /** A number literal is read as a 64-bit integer if it is one, else as a float, unless the library
      finds it too large; only then is it no JSON. */
  lemma LiteralsAreRead(l: string)
    requires IsLiteral(l)
    ensures Parse(l) == NumberOf(l)
    ensures Parse(l).None? <==> IntegerOf(l).None? && ReadFloat(l).None?
  {
    LiteralThenRest(l, "");
    assert l + "" == l && l[..|l|] == l && l[|l|..] == "";
    ParseNumberOpening(l, RECURSION_LIMIT);
  }

  // ------------------------------------------------------- shape of printed text

  /** No control character, so no line break (RFC 8259, section 7). */
  ghost predicate OneLine(s: string) {
    forall i :: 0 <= i < |s| ==> s[i] >= ' '
  }

  lemma {:induction false} EscapeOneLine(t: string)
    ensures OneLine(Escape(t))
  {
    if t != "" {
      EscapeOneLine(t[1..]);
    }
  }

  lemma {:induction false} PrintOneLine(v: Json)
    ensures OneLine(Print(v))
    decreases v, 1, 0
  {
    if v.Arr? {
      ItemsOneLine(v, 0);
      BracketsOneLine('[', PrintItems(v, 0), ']');
    } else if v.Obj? {
      FieldsOneLine(v, SortedKeys(v.fields.Keys));
      BracketsOneLine('{', PrintFields(v, SortedKeys(v.fields.Keys)), '}');
    } else {
      ScalarOneLine(v);
    }
  }

  lemma ScalarOneLine(v: Json)
    requires !v.Arr? && !v.Obj?
    ensures OneLine(Print(v))
  {
    match v
    case Null =>
    case Bool(_) =>
    case Num(n) => PrintedIntIsLiteral(n); LiteralOneLine(PrintInt(n));
    case Float(x) => FloatReadsItself(x); LiteralOneLine(FloatText(x));
    case Str(t) => EscapeOneLine(t); OneLineAround(['\"'], Escape(t), ['\"']);
  }

  lemma LiteralOneLine(l: string)
    requires IsLiteral(l)
    ensures OneLine(l)
  {
  }

  lemma OneLineAppend(a: string, b: string)
    requires OneLine(a) && OneLine(b)
    ensures OneLine(a + b)
  {
  }

  lemma BracketsOneLine(open: char, s: string, close: char)
    requires OneLine(s) && open >= ' ' && close >= ' '
    ensures OneLine([open] + s + [close])
  {
  }

  lemma OneLineAround(a: string, s: string, b: string)
    requires OneLine(a) && OneLine(s) && OneLine(b)
    ensures OneLine(a + s + b)
  {
  }

  lemma {:induction false} ItemsOneLine(v: Json, i: nat)
    requires v.Arr? && i <= |v.items|
    ensures OneLine(PrintItems(v, i))
    decreases v, 0, |v.items| - i
  {
    if i < |v.items| {
      PrintOneLine(v.items[i]);
      if i + 1 < |v.items| {
        ItemsOneLine(v, i + 1);
      }
    }
  }

  lemma {:induction false} FieldsOneLine(v: Json, keys: seq<string>)
    requires HasKeys(v, keys)
    ensures OneLine(PrintFields(v, keys))
    decreases v, 0, |keys|
  {
    if keys != [] {
      EscapeOneLine(keys[0]);
      PrintOneLine(v.fields[keys[0]]);
      OneLineAround(Quote(keys[0]), [':'], Print(v.fields[keys[0]]));
      if |keys| > 1 {
        FieldsOneLine(v, keys[1..]);
        OneLineAround(Quote(keys[0]) + [':'] + Print(v.fields[keys[0]]), [','], PrintFields(v, keys[1..]));
        assert PrintFields(v, keys) ==
               Quote(keys[0]) + [':'] + Print(v.fields[keys[0]]) + [','] + PrintFields(v, keys[1..]);
      }
    }
  }

  // -------------------------------------------------- parsed values are within the limit

  lemma {:induction false} ParsedFits(s: string, depth: nat)
    ensures var r := ParseValue(s, depth); r.Done? ==> Fits(r.value, depth)
    decreases |s|, 3
  {
    var t := SkipSpace(s);
    if t == "" {
      assert ParseValue(s, depth) == Fail;
    } else if t[0] == '[' {
      ParsedArrayFits(t[1..], depth);
    } else if t[0] == '{' {
      ParsedObjectFits(t[1..], depth);
    } else {
      ScalarsFit(t, depth);
    }
  }

  lemma {:induction false} ParsedArrayFits(s: string, depth: nat)
    ensures var r := ParseArray(s, depth); r.Done? ==> Fits(r.value, depth)
    decreases |s|, 6
  {
    if depth >= 2 {
      ParsedItemsFit(SkipSpace(s), depth - 1);
    }
  }

  lemma {:induction false} ParsedObjectFits(s: string, depth: nat)
    ensures var r := ParseObject(s, depth); r.Done? ==> Fits(r.value, depth)
    decreases |s|, 6
  {
    if depth >= 2 {
      ParsedFieldsFit(SkipSpace(s), depth - 1);
    }
  }

  lemma ScalarsFit(s: string, depth: nat)
    requires s != ""
    ensures var r := ParseScalar(s); r.Done? ==> Fits(r.value, depth)
  {
  }

  ghost predicate ItemsFit(items: seq<Json>, depth: nat) {
    forall i :: 0 <= i < |items| ==> Fits(items[i], depth)
  }

  lemma {:induction false} ParsedItemsFit(s: string, depth: nat)
    ensures var r := ParseItems(s, depth); r.Done? ==> ItemsFit(r.value, depth)
    decreases |s|, 4
  {
    var all := ParseItems(s, depth);
    if all.Done? {
      ParsedFits(s, depth);
      var first := ParseValue(s, depth);
      var rest := SkipSpace(first.rest);
      if rest[0] == ',' {
        ParsedItemsFit(rest[1..], depth);
        var more := ParseItems(rest[1..], depth).value;
        assert ItemsFit(more, depth);
        assert all.value == [first.value] + more;
      } else {
        assert all.value == [first.value];
      }
    }
  }

  ghost predicate ValuesFit(fields: map<string, Json>, depth: nat) {
    forall k :: k in fields ==> Fits(fields[k], depth)
  }

  lemma {:induction false} ParsedFieldsFit(s: string, depth: nat)
    ensures var r := ParseFields(s, depth); r.Done? ==> ValuesFit(r.value, depth)
    decreases |s|, 5
  {
    var all := ParseFields(s, depth);
    if all.Done? {
      ParsedMemberFits(s, depth);
      var first := ParseMember(s, depth);
      var rest := SkipSpace(first.rest);
      if rest[0] == ',' {
        ParsedFieldsFit(rest[1..], depth);
        var more := ParseFields(rest[1..], depth).value;
        assert ValuesFit(more, depth);
        assert all.value == map[first.value.0 := first.value.1] + more;
      } else {
        assert all.value == map[first.value.0 := first.value.1];
      }
    }
  }

  lemma {:induction false} ParsedMemberFits(s: string, depth: nat)
    ensures var r := ParseMember(s, depth); r.Done? ==> Fits(r.value.1, depth)
    decreases |s|, 4
  {
    var t := SkipSpace(s);
    if t != "" && t[0] == '\"' {
      var key := ParseChars(t[1..]);
      if key.Done? {
        var rest := SkipSpace(key.rest);
        if rest != "" && rest[0] == ':' {
          ParsedFits(rest[1..], depth);
        }
      }
    }
  }

  /** A value that was read can be printed and read again. */
  lemma ParsedReparses(s: string)
    ensures Parse(s).Some? ==> Parse(Print(Parse(s).value)) == Parse(s)
  {
    ParsedFits(s, RECURSION_LIMIT);
    if Parse(s).Some? {
      RoundTrip(Parse(s).value);
    }
  }
}
