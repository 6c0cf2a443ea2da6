/** Splitting, joining and trimming of strings. */
module Text {

  /** `s.split(c)`: the pieces between separators; never empty. */
  function Split(s: string, c: char): (r: seq<string>)
    ensures |r| > 0
    ensures |r| == 1 <==> c !in s
  {
    if s == "" then [""]
    else
      var rest := Split(s[1..], c);
      if s[0] == c then [""] + rest
      else [[s[0]] + rest[0]] + rest[1..]
  }

  /** `parts.join(sep)`. */
  function Join(parts: seq<string>, sep: string): string {
    if |parts| == 0 then ""
    else if |parts| == 1 then parts[0]
    else parts[0] + sep + Join(parts[1..], sep)
  }

  /** `parts.concat()`. */
  function Concat(parts: seq<string>): string {
    if parts == [] then "" else parts[0] + Concat(parts[1..])
  }

  lemma {:induction false} ConcatSplit(a: seq<string>, b: seq<string>)
    ensures Concat(a + b) == Concat(a) + Concat(b)
  {
    if a == [] {
      assert a + b == b;
    } else {
      assert (a + b)[1..] == a[1..] + b;
      ConcatSplit(a[1..], b);
    }
  }

  /** Parts joined by a separator that stands in none of them can be told apart again. */
  lemma {:induction false} JoinSplits(parts: seq<string>, c: char)
    requires parts != [] && forall p :: p in parts ==> c !in p
    ensures Split(Join(parts, [c]), c) == parts
  {
    if |parts| == 1 {
      SplitNone(parts[0], c);
    } else {
      JoinSplits(parts[1..], c);
      SplitFirst(parts[0], c, Join(parts[1..], [c]));
    }
  }

  lemma {:induction false} SplitNone(s: string, c: char)
    requires c !in s
    ensures Split(s, c) == [s]
  {
    if s != "" {
      SplitNone(s[1..], c);
      assert [s[0]] + s[1..] == s;
    }
  }

  // ------------------------------------------------------------------ white space

  /** Unicode white space, as `char::is_whitespace` has it. */
  predicate IsWhite(c: char) {
    '\U{09}' <= c <= '\U{0D}' || c == ' ' || c == '\U{85}' || c == '\U{A0}' || c == '\U{1680}' ||
    '\U{2000}' <= c <= '\U{200A}' || c == '\U{2028}' || c == '\U{2029}' || c == '\U{202F}' ||
    c == '\U{205F}' || c == '\U{3000}'
  }

  function TrimStart(s: string): string {
    if s != "" && IsWhite(s[0]) then TrimStart(s[1..]) else s
  }

  function TrimEnd(s: string): string {
    if s != "" && IsWhite(s[|s| - 1]) then TrimEnd(s[..|s| - 1]) else s
  }

  function Trim(s: string): string {
    TrimEnd(TrimStart(s))
  }

  /** A string that neither starts nor ends with white space. */
  predicate Tight(s: string) {
    s != "" && !IsWhite(s[0]) && !IsWhite(s[|s| - 1])
  }

  lemma TrimTight(s: string)
    requires Tight(s)
    ensures Trim(s) == s
    ensures Trim([' '] + s) == s
  {
    assert ([' '] + s)[1..] == s;
  }

  ghost predicate AllWhite(s: string) {
    forall c :: c in s ==> IsWhite(c)
  }

  lemma {:induction false} TrimStartExactly(s: string) returns (a: string)
    ensures s == a + TrimStart(s) && AllWhite(a) && (TrimStart(s) != "" ==> !IsWhite(TrimStart(s)[0]))
  {
    a := "";
    if s != "" && IsWhite(s[0]) {
      a := TrimStartExactly(s[1..]);
      assert s == [s[0]] + s[1..];
      a := [s[0]] + a;
    }
  }

  lemma {:induction false} TrimEndExactly(s: string) returns (b: string)
    ensures s == TrimEnd(s) + b && AllWhite(b) && (TrimEnd(s) != "" ==> !IsWhite(TrimEnd(s)[|TrimEnd(s)| - 1]))
  {
    b := "";
    if s != "" && IsWhite(s[|s| - 1]) {
      b := TrimEndExactly(s[..|s| - 1]);
      assert s == s[..|s| - 1] + [s[|s| - 1]];
      b := b + [s[|s| - 1]];
    }
  }

  /** Trimming takes white space off both ends, all of it and nothing else. */
  lemma TrimExactly(s: string) returns (a: string, b: string)
    ensures s == a + Trim(s) + b && AllWhite(a) && AllWhite(b) && (Trim(s) == "" || Tight(Trim(s)))
  {
    a := TrimStartExactly(s);
    b := TrimEndExactly(TrimStart(s));
    assert Trim(s) != "" ==> Trim(s)[0] == TrimStart(s)[0];
  }

  // ------------------------------------------------------------------------ lines

  function StripReturn(line: string): string {
    if line != "" && line[|line| - 1] == '\r' then line[..|line| - 1] else line
  }

  function LinesOf(pieces: seq<string>): seq<string> {
    if pieces == [] || pieces == [""] then []
    else if |pieces| == 1 then pieces
    else [StripReturn(pieces[0])] + LinesOf(pieces[1..])
  }

  /** `s.lines()`: the text between line feeds, without a carriage return before one; nothing
      after a final line feed. */
  function Lines(s: string): seq<string> {
    LinesOf(Split(s, '\n'))
  }

  lemma {:induction false} SplitFirst(line: string, c: char, rest: string)
    requires c !in line
    ensures Split(line + [c] + rest, c) == [line] + Split(rest, c)
  {
    var s := line + [c] + rest;
    if line == "" {
      assert s[0] == c && s[1..] == rest;
    } else {
      assert s[1..] == line[1..] + [c] + rest;
      SplitFirst(line[1..], c, rest);
      assert [line[0]] + line[1..] == line;
      assert s[0] == line[0];
    }
  }

  lemma LinesFirst(line: string, rest: string)
    requires '\n' !in line && StripReturn(line) == line
    ensures Lines(line + ['\n'] + rest) == [line] + Lines(rest)
  {
    SplitFirst(line, '\n', rest);
    var pieces := Split(rest, '\n');
    assert ([line] + pieces)[1..] == pieces;
  }

  /** A line may also end in a carriage return and a line feed. */
  lemma LinesFirstReturn(line: string, rest: string)
    requires '\n' !in line
    ensures Lines(line + ['\r'] + ['\n'] + rest) == [line] + Lines(rest)
  {
    var first, pieces := line + ['\r'], Split(rest, '\n');
    SplitFirst(first, '\n', rest);
    assert ([first] + pieces)[1..] == pieces;
    assert StripReturn(first) == line;
  }
}
