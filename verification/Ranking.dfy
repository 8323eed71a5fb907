/** The stable ascending sort of Python's `list.sort` and `sorted`, for any comparison
    that is a strict weak order. Later elements move left past strictly larger ones only,
    so equal elements keep their order. */
module Ranking {
  import opened Prelude

  ghost predicate StrictWeak<T(!new)>(lt: (T, T) -> bool) {
    && (forall x, y :: lt(x, y) ==> !lt(y, x))
    && (forall x, y, z :: !lt(x, y) && !lt(y, z) ==> !lt(x, z))
  }

  ghost predicate Ordered<T>(s: seq<T>, lt: (T, T) -> bool) {
    forall i, j | 0 <= i < j < |s| :: !lt(s[j], s[i])
  }

  function Insert<T>(s: seq<T>, x: T, lt: (T, T) -> bool): (r: seq<T>)
    ensures multiset(r) == multiset(s) + multiset{x}
  {
    if s == [] then [x]
    else
      var n := |s| - 1;
      assert s == s[..n] + [s[n]];
      if lt(x, s[n]) then Insert(s[..n], x, lt) + [s[n]] else s + [x]
  }

  function Sort<T>(s: seq<T>, lt: (T, T) -> bool): (r: seq<T>)
    ensures multiset(r) == multiset(s)
    ensures |r| == |s|
  {
    if s == [] then []
    else
      var n := |s| - 1;
      assert s == s[..n] + [s[n]];
      var r := Insert(Sort(s[..n], lt), s[n], lt);
      assert |multiset(r)| == |multiset(s)|;
      r
  }

  lemma {:induction false} InsertOrdered<T(!new)>(s: seq<T>, x: T, lt: (T, T) -> bool)
    requires StrictWeak(lt) && Ordered(s, lt)
    ensures Ordered(Insert(s, x, lt), lt)
  {
    if s != [] {
      var n := |s| - 1;
      if lt(x, s[n]) {
        InsertOrdered(s[..n], x, lt);
        var r := Insert(s[..n], x, lt);
        forall i | 0 <= i < |r| ensures !lt(s[n], r[i]) {
          assert r[i] in multiset(r);
          assert r[i] == x || r[i] in multiset(s[..n]);
        }
      }
    }
  }

  lemma {:induction false} SortOrdered<T(!new)>(s: seq<T>, lt: (T, T) -> bool)
    requires StrictWeak(lt)
    ensures Ordered(Sort(s, lt), lt)
  {
    if s != [] {
      var n := |s| - 1;
      SortOrdered(s[..n], lt);
      InsertOrdered(Sort(s[..n], lt), s[n], lt);
    }
  }

  /** What is in order stays as it is. */
  lemma {:induction false} SortOfOrdered<T(!new)>(s: seq<T>, lt: (T, T) -> bool)
    requires Ordered(s, lt)
    ensures Sort(s, lt) == s
  {
    if s != [] {
      var front, last := s[..|s| - 1], s[|s| - 1];
      SortOfOrdered(front, lt);
      InsertLast(front, last, lt);
      FrontAndLast(s);
      SortStep(s, lt);
    }
  }

  lemma SortStep<T>(s: seq<T>, lt: (T, T) -> bool)
    requires s != []
    ensures Sort(s, lt) == Insert(Sort(s[..|s| - 1], lt), s[|s| - 1], lt)
  {
  }

  lemma InsertLast<T(!new)>(s: seq<T>, x: T, lt: (T, T) -> bool)
    requires s != [] ==> !lt(x, s[|s| - 1])
    ensures Insert(s, x, lt) == s + [x]
  {
  }

  /** `x` stands somewhere before `y`. */
  ghost predicate Before<T>(s: seq<T>, x: T, y: T) {
    exists i, j :: 0 <= i < j < |s| && s[i] == x && s[j] == y
  }

  lemma BeforeAppend<T>(s: seq<T>, z: T, x: T, y: T)
    requires Before(s, x, y) || (y == z && x in s)
    ensures Before(s + [z], x, y)
  {
    if Before(s, x, y) {
      var i, j :| 0 <= i < j < |s| && s[i] == x && s[j] == y;
      assert (s + [z])[i] == x && (s + [z])[j] == y;
    } else {
      var i :| 0 <= i < |s| && s[i] == x;
      assert (s + [z])[i] == x && (s + [z])[|s|] == y;
    }
  }

  lemma {:induction false} InsertAfter<T(!new)>(s: seq<T>, x: T, y: T, lt: (T, T) -> bool)
    requires x in s && !lt(y, x)
    ensures Before(Insert(s, y, lt), x, y)
  {
    var n := |s| - 1;
    if lt(y, s[n]) {
      InsertAfter(s[..n], x, y, lt);
      BeforeAppend(Insert(s[..n], y, lt), s[n], x, y);
    } else {
      BeforeAppend(s, y, x, y);
    }
  }

  lemma {:induction false} InsertKeeps<T(!new)>(s: seq<T>, x: T, y: T, z: T, lt: (T, T) -> bool)
    requires Before(s, x, y)
    ensures Before(Insert(s, z, lt), x, y)
  {
    var n := |s| - 1;
    var i, j :| 0 <= i < j < |s| && s[i] == x && s[j] == y;
    if lt(z, s[n]) {
      var r := Insert(s[..n], z, lt);
      if j < n {
        assert s[..n][i] == x && s[..n][j] == y;
        InsertKeeps(s[..n], x, y, z, lt);
      } else {
        assert s[..n][i] == x;
        assert x in multiset(r);
      }
      BeforeAppend(r, s[n], x, y);
    } else {
      BeforeAppend(s, z, x, y);
    }
  }

  lemma BeforeFront<T>(s: seq<T>, x: T, y: T)
    requires Before(s, x, y)
    ensures var front, last := s[..|s| - 1], s[|s| - 1]; Before(front, x, y) || (y == last && x in front)
  {
    var i, j :| 0 <= i < j < |s| && s[i] == x && s[j] == y;
    var front := s[..|s| - 1];
    assert front[i] == x;
    assert j < |front| ==> front[j] == y;
  }

  /** Sorting is stable: what need not change places does not. */
  lemma {:induction false} SortStable<T(!new)>(s: seq<T>, lt: (T, T) -> bool, x: T, y: T)
    ensures Before(s, x, y) && !lt(y, x) ==> Before(Sort(s, lt), x, y)
  {
    if Before(s, x, y) && !lt(y, x) {
      var front, last := s[..|s| - 1], s[|s| - 1];
      BeforeFront(s, x, y);
      SortStep(s, lt);
      if Before(front, x, y) {
        SortStable(front, lt, x, y);
        InsertKeeps(Sort(front, lt), x, y, last, lt);
      } else {
        SortMembers(front, lt, x);
        InsertAfter(Sort(front, lt), x, y, lt);
      }
    }
  }

  lemma NotBefore<T>(s: seq<T>, i: nat, j: nat)
    requires Distinct(s) && i < j < |s|
    ensures !Before(s, s[j], s[i])
  {
  }

  lemma SortDistinct<T(!new)>(s: seq<T>, lt: (T, T) -> bool)
    requires Distinct(s)
    ensures Distinct(Sort(s, lt))
  {
    DistinctPermutation(s, Sort(s, lt));
  }

  lemma SortMembers<T>(s: seq<T>, lt: (T, T) -> bool, x: T)
    ensures x in Sort(s, lt) <==> x in s
  {
    assert x in Sort(s, lt) <==> x in multiset(Sort(s, lt));
    assert x in s <==> x in multiset(s);
  }

  /** Lexicographic order of strings by code point. */
  predicate TextLess(a: string, b: string) {
    if b == [] then false
    else if a == [] then true
    else a[0] < b[0] || (a[0] == b[0] && TextLess(a[1..], b[1..]))
  }

  lemma {:induction false} TextLessAsymmetric(a: string, b: string)
    requires TextLess(a, b)
    ensures !TextLess(b, a)
  {
    if a != [] && a[0] == b[0] {
      TextLessAsymmetric(a[1..], b[1..]);
    }
  }

  lemma {:induction false} TextLessNegative(a: string, b: string, c: string)
    requires !TextLess(a, b) && !TextLess(b, c)
    ensures !TextLess(a, c)
  {
    if a != [] && b != [] && c != [] && a[0] == b[0] == c[0] {
      TextLessNegative(a[1..], b[1..], c[1..]);
    }
  }

  lemma {:induction false} TextLessTotal(a: string, b: string)
    requires !TextLess(a, b) && !TextLess(b, a)
    ensures a == b
  {
    if a != [] && b != [] {
      TextLessTotal(a[1..], b[1..]);
      assert a == [a[0]] + a[1..] && b == [b[0]] + b[1..];
    }
  }
}
