/** The stable sort of the standard library, as a function, and what pins it down. */
module Sorting {

  /** `le` orders any two elements, possibly both ways. */
  ghost predicate Orders<T(!new)>(le: (T, T) -> bool) {
    (forall a, b :: le(a, b) || le(b, a)) && (forall a, b, c :: le(a, b) && le(b, c) ==> le(a, c))
  }

  ghost predicate Sorted<T>(s: seq<T>, le: (T, T) -> bool) {
    forall i, j :: 0 <= i < j < |s| ==> le(s[i], s[j])
  }

  /** Puts `x` before everything it is not after. */
  function Insert<T>(x: T, s: seq<T>, le: (T, T) -> bool): seq<T> {
    if s == [] || le(x, s[0]) then [x] + s else [s[0]] + Insert(x, s[1..], le)
  }

  function StableSort<T>(s: seq<T>, le: (T, T) -> bool): seq<T> {
    if s == [] then [] else Insert(s[0], StableSort(s[1..], le), le)
  }

  function Keep<T>(s: seq<T>, p: T -> bool): seq<T> {
    if s == [] then [] else (if p(s[0]) then [s[0]] else []) + Keep(s[1..], p)
  }

  lemma {:induction false} InsertSorted<T(!new)>(x: T, s: seq<T>, le: (T, T) -> bool)
    requires Orders(le) && Sorted(s, le)
    ensures Sorted(Insert(x, s, le), le)
    ensures multiset(Insert(x, s, le)) == multiset{x} + multiset(s)
  {
    if s == [] || le(x, s[0]) {
      assert forall i :: 0 <= i < |s| ==> le(x, s[i]) by {
        forall i | 0 <= i < |s|
          ensures le(x, s[i])
        {
          assert i == 0 || le(s[0], s[i]);
        }
      }
    } else {
      InsertSorted(x, s[1..], le);
      var t := Insert(x, s[1..], le);
      assert s == [s[0]] + s[1..];
      forall i | 0 <= i < |t|
        ensures le(s[0], t[i])
      {
        assert t[i] in multiset(t);
        assert t[i] == x || t[i] in multiset(s[1..]);
        if t[i] != x {
          var j :| 0 <= j < |s[1..]| && s[1..][j] == t[i];
          assert s[j + 1] == t[i];
        }
      }
    }
  }

  /** Sorting is a sorted permutation. */
  lemma {:induction false} SortSorts<T(!new)>(s: seq<T>, le: (T, T) -> bool)
    requires Orders(le)
    ensures Sorted(StableSort(s, le), le) && multiset(StableSort(s, le)) == multiset(s)
  {
    if s != [] {
      SortSorts(s[1..], le);
      InsertSorted(s[0], StableSort(s[1..], le), le);
      assert s == [s[0]] + s[1..];
    }
  }

  /** A condition that, once true along the order, stays true. */
  ghost predicate Upward<T(!new)>(p: T -> bool, le: (T, T) -> bool) {
    forall a, b :: p(a) && le(a, b) ==> p(b)
  }

  lemma {:induction false} KeepAll<T>(s: seq<T>, p: T -> bool)
    requires forall x :: x in s ==> p(x)
    ensures Keep(s, p) == s
  {
    if s != [] {
      KeepAll(s[1..], p);
    }
  }

  /** What remains of a sorted list under an upward condition is its end. */
  lemma {:induction false} KeepIsSuffix<T(!new)>(s: seq<T>, p: T -> bool, le: (T, T) -> bool) returns (k: nat)
    requires Sorted(s, le) && Upward(p, le)
    ensures k <= |s| && Keep(s, p) == s[k..]
  {
    if s == [] {
      k := 0;
    } else if p(s[0]) {
      forall x | x in s
        ensures p(x)
      {
        var i :| 0 <= i < |s| && s[i] == x;
        assert i == 0 || le(s[0], s[i]);
      }
      KeepAll(s, p);
      k := 0;
    } else {
      k := KeepIsSuffix(s[1..], p, le);
      k := k + 1;
    }
  }

  lemma {:induction false} KeepInsert<T(!new)>(x: T, s: seq<T>, p: T -> bool, le: (T, T) -> bool)
    requires Orders(le) && Sorted(s, le) && Upward(p, le)
    ensures Keep(Insert(x, s, le), p) == if p(x) then Insert(x, Keep(s, p), le) else Keep(s, p)
  {
    if s == [] {
    } else if le(x, s[0]) {
      assert ([x] + s)[1..] == s;
      if p(x) {
        var k := KeepIsSuffix(s, p, le);
        assert p(s[0]);
        KeepFirst(s, p, le);
      }
    } else {
      assert Sorted(s[1..], le) by {
        assert forall i :: 0 <= i < |s[1..]| ==> s[1..][i] == s[i + 1];
      }
      KeepInsert(x, s[1..], p, le);
      assert Insert(x, s, le)[1..] == Insert(x, s[1..], le);
      if p(s[0]) {
        KeepFirst(s, p, le);
        assert le(s[0], x);
      } else if p(x) {
        assert Keep(s, p) == Keep(s[1..], p);
      }
    }
  }

  lemma KeepFirst<T(!new)>(s: seq<T>, p: T -> bool, le: (T, T) -> bool)
    requires s != [] && p(s[0]) && Sorted(s, le) && Upward(p, le)
    ensures Keep(s, p) == s && Keep(s[1..], p) == s[1..]
  {
    forall x | x in s
      ensures p(x)
    {
      var i :| 0 <= i < |s| && s[i] == x;
      assert i == 0 || le(s[0], s[i]);
    }
    KeepAll(s, p);
    KeepAll(s[1..], p);
  }

  /** Dropping the low end before or after sorting is the same. */
  lemma {:induction false} KeepSort<T(!new)>(s: seq<T>, p: T -> bool, le: (T, T) -> bool)
    requires Orders(le) && Upward(p, le)
    ensures StableSort(Keep(s, p), le) == Keep(StableSort(s, le), p)
  {
    if s != [] {
      KeepSort(s[1..], p, le);
      SortSorts(s[1..], le);
      KeepInsert(s[0], StableSort(s[1..], le), p, le);
      assert Keep(s, p) == (if p(s[0]) then [s[0]] else []) + Keep(s[1..], p);
      if p(s[0]) {
        assert Keep(s, p)[0] == s[0] && Keep(s, p)[1..] == Keep(s[1..], p);
      } else {
        assert Keep(s, p) == Keep(s[1..], p);
      }
    }
  }

  /** Elements the order does not tell apart from `x`. */
  function Alike<T>(x: T, le: (T, T) -> bool): T -> bool {
    y => le(x, y) && le(y, x)
  }

  lemma {:induction false} InsertStable<T(!new)>(y: T, x: T, s: seq<T>, le: (T, T) -> bool)
    requires Orders(le) && Sorted(s, le)
    ensures Keep(Insert(x, s, le), Alike(y, le)) ==
      (if Alike(y, le)(x) then [x] else []) + Keep(s, Alike(y, le))
  {
    if s == [] || le(x, s[0]) {
      assert ([x] + s)[1..] == s;
    } else {
      InsertStable(y, x, s[1..], le);
      assert Insert(x, s, le)[1..] == Insert(x, s[1..], le);
      assert !(Alike(y, le)(x) && Alike(y, le)(s[0]));
    }
  }

  /** Elements the order does not tell apart keep their relative order. */
  lemma {:induction false} SortStable<T(!new)>(y: T, s: seq<T>, le: (T, T) -> bool)
    requires Orders(le)
    ensures Keep(StableSort(s, le), Alike(y, le)) == Keep(s, Alike(y, le))
  {
    if s != [] {
      SortStable(y, s[1..], le);
      SortSorts(s[1..], le);
      InsertStable(y, s[0], StableSort(s[1..], le), le);
    }
  }
}
