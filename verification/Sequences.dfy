/** Lists built by a loop that appends what each element contributes. */
module Sequences {

  /** The contributions of all elements, in order. */
  function FlatMap<S, T>(s: seq<S>, f: S -> seq<T>): seq<T> {
    if s == [] then [] else FlatMap(s[..|s| - 1], f) + f(s[|s| - 1])
  }

  lemma FlatMapStep<S, T>(s: seq<S>, i: nat, f: S -> seq<T>)
    requires i < |s|
    ensures FlatMap(s[..i + 1], f) == FlatMap(s[..i], f) + f(s[i])
  {
    assert s[..i + 1][..i] == s[..i];
  }

  lemma {:induction false} FlatMapAppend<S, T>(a: seq<S>, b: seq<S>, f: S -> seq<T>)
    ensures FlatMap(a + b, f) == FlatMap(a, f) + FlatMap(b, f)
  {
    if b == [] {
      assert a + b == a;
    } else {
      assert (a + b)[..|a + b| - 1] == a + b[..|b| - 1];
      FlatMapAppend(a, b[..|b| - 1], f);
    }
  }

  lemma FlatMapOne<S, T>(x: S, f: S -> seq<T>)
    ensures FlatMap([x], f) == f(x)
  {
    assert [x][..0] == [];
  }

  lemma FlatMapLast<S, T>(s: seq<S>, x: S, f: S -> seq<T>)
    ensures FlatMap(s + [x], f) == FlatMap(s, f) + f(x)
  {
    FlatMapAppend(s, [x], f);
    FlatMapOne(x, f);
  }

  lemma FlatMapFirst<S, T>(x: S, s: seq<S>, f: S -> seq<T>)
    ensures FlatMap([x] + s, f) == f(x) + FlatMap(s, f)
  {
    FlatMapAppend([x], s, f);
    FlatMapOne(x, f);
  }

  lemma FlatMapFront<S, T>(s: seq<S>, f: S -> seq<T>)
    requires s != []
    ensures FlatMap(s, f) == f(s[0]) + FlatMap(s[1..], f)
  {
    FlatMapFirst(s[0], s[1..], f);
    assert [s[0]] + s[1..] == s;
  }

  /** Contributions of contributions, taken element by element. */
  lemma {:induction false} FlatMapNested<S, T, U>(s: seq<S>, f: S -> seq<T>, g: T -> seq<U>, h: S -> seq<U>)
    requires forall x :: x in s ==> FlatMap(f(x), g) == h(x)
    ensures FlatMap(FlatMap(s, f), g) == FlatMap(s, h)
  {
    if s != [] {
      var init := s[..|s| - 1];
      FlatMapNested(init, f, g, h);
      FlatMapAppend(FlatMap(init, f), f(s[|s| - 1]), g);
    }
  }

  /** Elements that contribute nothing leave nothing. */
  lemma {:induction false} FlatMapNone<S, T>(s: seq<S>, f: S -> seq<T>)
    requires forall x :: x in s ==> f(x) == []
    ensures FlatMap(s, f) == []
  {
    if s != [] {
      FlatMapNone(s[..|s| - 1], f);
    }
  }

  /** One contribution from each element. */
  lemma {:induction false} FlatMapSingles<S, T>(s: seq<S>, f: S -> seq<T>)
    requires forall x :: x in s ==> |f(x)| == 1
    ensures |FlatMap(s, f)| == |s|
    ensures forall i :: 0 <= i < |s| ==> FlatMap(s, f)[i] == f(s[i])[0]
  {
    if s != [] {
      FlatMapSingles(s[..|s| - 1], f);
    }
  }
}
