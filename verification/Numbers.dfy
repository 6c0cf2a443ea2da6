/** Number literals of JSON text: their grammar, the ones that are 64-bit integers, and how the
    JSON library reads the others as floats. */
module Numbers {
  import opened Wrappers

  predicate IsDigit(c: char) {
    '0' <= c <= '9'
  }

  predicate InLiteral(c: char) {
    IsDigit(c) || c in {'-', '+', '.', 'e', 'E'}
  }

  /** How many digits the text begins with. */
  function DigitRun(s: string): (k: nat)
    ensures k <= |s|
    ensures forall i :: 0 <= i < k ==> IsDigit(s[i])
    ensures k < |s| ==> !IsDigit(s[k])
  {
    if s != "" && IsDigit(s[0]) then 1 + DigitRun(s[1..]) else 0
  }

  /** Where the digits that start at `p` end; None if there are none. */
  function DigitsEnd(s: string, p: nat): (r: Option<nat>)
    requires p <= |s|
    ensures r.Some? ==> p < r.value <= |s| && forall i :: p <= i < r.value ==> IsDigit(s[i])
  {
    var k := DigitRun(s[p..]);
    assert forall i :: p <= i < p + k ==> s[i] == s[p..][i - p];
    if k == 0 then None else Some(p + k)
  }

  function SignEnd(s: string): (r: nat)
    ensures r <= |s| && r <= 1
  {
    if s != "" && s[0] == '-' then 1 else 0
  }

  /** The whole part: no leading zero. */
  function WholeEnd(s: string): (r: Option<nat>)
    ensures r.Some? ==> SignEnd(s) < r.value <= |s| && forall i :: SignEnd(s) <= i < r.value ==> IsDigit(s[i])
  {
    match DigitsEnd(s, SignEnd(s))
    case None => None
    case Some(end) => if s[SignEnd(s)] == '0' && end > SignEnd(s) + 1 then None else Some(end)
  }

  function FractionEnd(s: string, p: nat): (r: Option<nat>)
    requires p <= |s|
    ensures r.Some? ==> p <= r.value <= |s| && forall i :: p <= i < r.value ==> InLiteral(s[i])
  {
    if p < |s| && s[p] == '.' then DigitsEnd(s, p + 1) else Some(p)
  }

  function ExponentEnd(s: string, p: nat): (r: Option<nat>)
    requires p <= |s|
    ensures r.Some? ==> p <= r.value <= |s| && forall i :: p <= i < r.value ==> InLiteral(s[i])
  {
    if p < |s| && s[p] in {'e', 'E'} then
      DigitsEnd(s, if p + 1 < |s| && s[p + 1] in {'+', '-'} then p + 2 else p + 1)
    else Some(p)
  }

  /** Where the number literal at the start of the text ends (RFC 8259, section 6). */
  function LiteralEnd(s: string): (r: Option<nat>)
    ensures r.Some? ==> 0 < r.value <= |s| && forall i :: 0 <= i < r.value ==> InLiteral(s[i])
    ensures r.Some? ==> s[0] == '-' || IsDigit(s[0])
  {
    match WholeEnd(s)
    case None => None
    case Some(p) =>
      match FractionEnd(s, p)
      case None => None
      case Some(q) => ExponentEnd(s, q)
  }

  predicate IsLiteral(l: string) {
    LiteralEnd(l) == Some(|l|)
  }

  /** What may not follow a number literal. */
  predicate Stops(rest: string) {
    rest == "" || (!IsDigit(rest[0]) && rest[0] !in {'.', 'e', 'E'})
  }

  lemma {:induction false} DigitRunAppend(s: string, rest: string)
    requires rest == "" || !IsDigit(rest[0])
    ensures DigitRun(s + rest) == DigitRun(s)
  {
    if s == "" {
      assert s + rest == rest;
    } else {
      assert (s + rest)[1..] == s[1..] + rest;
      DigitRunAppend(s[1..], rest);
    }
  }

  lemma DigitsEndAppend(s: string, rest: string, p: nat)
    requires Stops(rest) && p <= |s|
    ensures DigitsEnd(s + rest, p) == DigitsEnd(s, p)
  {
    assert (s + rest)[p..] == s[p..] + rest;
    DigitRunAppend(s[p..], rest);
  }

  lemma WholeEndAppend(s: string, rest: string)
    requires Stops(rest) && WholeEnd(s).Some?
    ensures WholeEnd(s + rest) == WholeEnd(s)
  {
    DigitsEndAppend(s, rest, SignEnd(s));
  }

  lemma FractionEndAppend(s: string, rest: string, p: nat)
    requires Stops(rest) && p <= |s| && FractionEnd(s, p).Some?
    ensures FractionEnd(s + rest, p) == FractionEnd(s, p)
  {
    if p < |s| {
      DigitsEndAppend(s, rest, p + 1);
    }
  }

  lemma ExponentEndAppend(s: string, rest: string, p: nat)
    requires Stops(rest) && p <= |s| && ExponentEnd(s, p).Some?
    ensures ExponentEnd(s + rest, p) == ExponentEnd(s, p)
  {
    if p + 1 < |s| {
      DigitsEndAppend(s, rest, p + 1);
      DigitsEndAppend(s, rest, p + 2);
    }
  }

  /** A literal is found whatever stands after it. */
  lemma LiteralThenRest(l: string, rest: string)
    requires IsLiteral(l) && Stops(rest)
    ensures LiteralEnd(l + rest) == Some(|l|)
  {
    var p := WholeEnd(l).value;
    var q := FractionEnd(l, p).value;
    WholeEndAppend(l, rest);
    FractionEndAppend(l, rest, p);
    ExponentEndAppend(l, rest, q);
  }

  lemma WholeEndCut(s: string, n: nat)
    requires n <= |s| && WholeEnd(s).Some? && WholeEnd(s).value <= n
    ensures WholeEnd(s[..n]) == WholeEnd(s)
  {
    DigitsEndCut(s, n, SignEnd(s));
  }

  lemma FractionEndCut(s: string, n: nat, p: nat)
    requires p <= n <= |s| && FractionEnd(s, p).Some? && FractionEnd(s, p).value <= n
    ensures FractionEnd(s[..n], p) == FractionEnd(s, p)
  {
    if p < n {
      DigitsEndCut(s, n, p + 1);
    }
  }

  lemma ExponentEndCut(s: string, n: nat, p: nat)
    requires p <= n <= |s| && ExponentEnd(s, p) == Some(n)
    ensures ExponentEnd(s[..n], p) == Some(n)
  {
    if p + 1 < n {
      DigitsEndCut(s, n, p + 1);
      DigitsEndCut(s, n, p + 2);
    }
  }

  /** Cut off at its end, it is a literal. */
  lemma LiteralAlone(s: string)
    requires LiteralEnd(s).Some?
    ensures IsLiteral(s[..LiteralEnd(s).value])
  {
    var n, p := LiteralEnd(s).value, WholeEnd(s).value;
    var q := FractionEnd(s, p).value;
    WholeEndCut(s, n);
    FractionEndCut(s, n, p);
    ExponentEndCut(s, n, q);
  }

  lemma DigitsEndCut(s: string, n: nat, p: nat)
    requires p <= n <= |s|
    ensures DigitsEnd(s, p).Some? && DigitsEnd(s, p).value <= n ==> DigitsEnd(s[..n], p) == DigitsEnd(s, p)
  {
    if DigitsEnd(s, p).Some? && DigitsEnd(s, p).value <= n {
      var k := DigitRun(s[p..]);
      assert s[p..] == s[p..n] + s[n..] && s[..n][p..] == s[p..n];
      assert DigitRun(s[p..n]) == k by {
        assert forall i :: 0 <= i < k ==> s[p..n][i] == s[p..][i];
        assert k < n - p ==> s[p..n][k] == s[p..][k];
        RunIs(s[p..n], k);
      }
    }
  }

  lemma {:induction false} RunIs(s: string, k: nat)
    requires k <= |s| && (forall i :: 0 <= i < k ==> IsDigit(s[i])) && (k < |s| ==> !IsDigit(s[k]))
    ensures DigitRun(s) == k
  {
  }

  // ----------------------------------------------------------------------- integers

  const U64_BOUND: int := 0x1_0000_0000_0000_0000
  const I64_MIN: int := -0x8000_0000_0000_0000

  function ValueOf(digits: string): nat
    requires forall i :: 0 <= i < |digits| ==> IsDigit(digits[i])
  {
    if digits == "" then 0
    else
      var last := |digits| - 1;
      assert IsDigit(digits[last]);
      10 * ValueOf(digits[..last]) + (digits[last] as int - '0' as int)
  }

  function Digit(d: nat): (c: char)
    requires d < 10
    ensures '0' <= c <= '9'
  {
    '0' + d as char
  }

  function Digits(n: nat): (r: string)
    ensures |r| > 0 && (forall i :: 0 <= i < |r| ==> '0' <= r[i] <= '9')
    ensures n > 0 ==> r[0] != '0'
  {
    if n < 10 then [Digit(n)] else Digits(n / 10) + [Digit(n % 10)]
  }

  lemma {:induction false} DigitsValue(n: nat)
    ensures ValueOf(Digits(n)) == n
  {
    if n >= 10 {
      DigitsValue(n / 10);
      assert Digits(n)[..|Digits(n)| - 1] == Digits(n / 10);
    }
  }

  /** The literal as a 64-bit integer, unless it has a fraction or an exponent, is beyond 64 bits or
      is `-0`. */
  function IntegerOf(l: string): (r: Option<int>)
    requires IsLiteral(l)
    ensures r.Some? ==> I64_MIN <= r.value < U64_BOUND
  {
    if WholeEnd(l) != Some(|l|) then None
    else if l[0] == '-' then
      var m := 0 - ValueOf(l[1..]);
      if I64_MIN <= m < 0 then Some(m) else None
    else
      assert l == l[0..];
      var m := ValueOf(l);
      if m < U64_BOUND then Some(m) else None
  }

  // ------------------------------------------------------------------------- floats

  /** The bit patterns of the finite 64-bit floats. */
  predicate IsPattern(b: int) {
    0 <= b < 0x7ff0_0000_0000_0000 || 0x8000_0000_0000_0000 <= b < 0xfff0_0000_0000_0000
  }

  type Float = b: int | 0 <= b < 0x7ff0_0000_0000_0000 || 0x8000_0000_0000_0000 <= b < 0xfff0_0000_0000_0000

  /** How a library prints floats and reads float literals; None is a literal it refuses, as too
      large. */
  datatype Library = Library(show: Float -> string, read: string -> Option<Float>)

  predicate IsFloatLiteral(l: string) {
    IsLiteral(l) && IntegerOf(l).None?
  }

  /** What is asked of a library: it prints every float as a float literal, and reads that literal
      as the same float. */
  ghost predicate ReadsBack(lib: Library, x: Float) {
    IsFloatLiteral(lib.show(x)) && lib.read(lib.show(x)) == Some(x)
  }

  ghost predicate ReadsAllBack(lib: Library) {
    forall x: Float :: ReadsBack(lib, x)
  }

  type FaithfulLibrary = lib: Library | ReadsAllBack(lib) witness NumberingLibrary()

  /** The JSON library: some faithful one, of which nothing else is known. */
  const LIBRARY: FaithfulLibrary

  function FloatText(x: Float): string {
    LIBRARY.show(x)
  }

  function ReadFloat(l: string): Option<Float> {
    LIBRARY.read(l)
  }

  lemma FloatReadsItself(x: Float)
    ensures ReadFloat(FloatText(x)) == Some(x) && IsFloatLiteral(FloatText(x))
  {
    assert ReadsBack(LIBRARY, x);
  }

  // There is such a library: one that writes down the number of the pattern.

  function PrintPattern(x: Float): string {
    Digits(x) + ['.', '0']
  }

  function ReadPattern(l: string): Option<Float> {
    if |l| < 2 || (exists i :: 0 <= i < |l| - 2 && !IsDigit(l[i])) then None
    else if IsPattern(ValueOf(l[..|l| - 2])) then Some(ValueOf(l[..|l| - 2]))
    else None
  }

  function NumberingLibrary(): (lib: Library)
    ensures ReadsAllBack(lib)
  {
    var lib := Library(PrintPattern, ReadPattern);
    assert forall x: Float :: ReadsBack(lib, x) by {
      forall x: Float
        ensures ReadsBack(lib, x)
      {
        PatternReadsBack(x);
      }
    }
    lib
  }

  lemma PatternReadsBack(x: Float)
    ensures IsFloatLiteral(PrintPattern(x)) && ReadPattern(PrintPattern(x)) == Some(x)
  {
    var d, l := Digits(x), PrintPattern(x);
    DigitsValue(x);
    assert l[..|l| - 2] == d;
    assert |d| > 1 ==> x > 0;
    DigitsThenZero(d);
  }

  lemma DigitsThenZero(d: string)
    requires d != "" && (forall i :: 0 <= i < |d| ==> IsDigit(d[i])) && (|d| > 1 ==> d[0] != '0')
    ensures IsFloatLiteral(d + ['.', '0'])
  {
    var l := d + ['.', '0'];
    assert l[0..] == l && l[|d| + 1..] == ['0'];
    RunIs(l, |d|);
    RunIs(l[|d| + 1..], 1);
    assert WholeEnd(l) == Some(|d|);
  }
}
