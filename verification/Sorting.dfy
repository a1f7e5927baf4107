/** Stable sorting by a comparison, and counting that ignores order. */
module Sorting {

  function InsertBy<T>(s: seq<T>, x: T, less: (T, T) -> bool): (r: seq<T>)
    ensures multiset(r) == multiset(s) + multiset{x}
  {
    if s == [] then [x]
    else if !less(s[0], x) then [x] + s
    else
      assert s == [s[0]] + s[1..];
      [s[0]] + InsertBy(s[1..], x, less)
  }

  function SortBy<T>(s: seq<T>, less: (T, T) -> bool): (r: seq<T>)
    ensures multiset(r) == multiset(s)
    ensures |r| == |s|
  {
    if s == [] then []
    else
      assert s == [s[0]] + s[1..];
      var r := InsertBy(SortBy(s[1..], less), s[0], less);
      assert |multiset(r)| == |multiset(s)|;
      r
  }

  lemma SortMembers<T>(s: seq<T>, less: (T, T) -> bool)
    ensures forall x :: x in SortBy(s, less) <==> x in s
  {
    forall x
      ensures x in SortBy(s, less) <==> x in s
    {
      assert x in multiset(SortBy(s, less)) <==> x in multiset(s);
    }
  }

  function Count<T>(s: seq<T>, p: T -> bool): nat {
    if s == [] then 0 else Count(s[..|s| - 1], p) + if p(s[|s| - 1]) then 1 else 0
  }

  lemma {:induction false} CountConcat<T>(a: seq<T>, b: seq<T>, p: T -> bool)
    ensures Count(a + b, p) == Count(a, p) + Count(b, p)
  {
    if b == [] {
      assert a + b == a;
    } else {
      assert (a + b)[..|a + b| - 1] == a + b[..|b| - 1];
      CountConcat(a, b[..|b| - 1], p);
    }
  }

  lemma CountOne<T>(x: T, p: T -> bool)
    ensures Count([x], p) == if p(x) then 1 else 0
  {
    assert [x][..0] == [];
  }

  lemma CountRemove<T>(b: seq<T>, i: nat, p: T -> bool)
    requires i < |b|
    ensures Count(b, p) == Count(b[..i] + b[i + 1..], p) + if p(b[i]) then 1 else 0
  {
    hide Count;
    var x, e, y := b[..i], b[i], b[i + 1..];
    assert b == (x + [e]) + y;
    CountConcat(x + [e], y, p);
    CountConcat(x, [e], p);
    CountConcat(x, y, p);
    CountOne(e, p);
  }

  lemma WithoutOne<T>(b: seq<T>, i: nat)
    requires i < |b|
    ensures multiset(b) == multiset(b[..i] + b[i + 1..]) + multiset{b[i]}
  {
    assert b == b[..i] + [b[i]] + b[i + 1..];
  }

  lemma {:induction false} CountPermutation<T>(a: seq<T>, b: seq<T>, p: T -> bool)
    requires multiset(a) == multiset(b)
    ensures Count(a, p) == Count(b, p)
  {
    if a == [] {
      assert |multiset(b)| == 0;
    } else {
      var n := |a| - 1;
      CountRemove(a, n, p);
      WithoutOne(a, n);
      assert a[..n] + a[n + 1..] == a[..n];
      assert a[n] in multiset(b);
      var i :| 0 <= i < |b| && b[i] == a[n];
      CountRemove(b, i, p);
      WithoutOne(b, i);
      var b' := b[..i] + b[i + 1..];
      assert multiset(b') == multiset(b) - multiset{a[n]} == multiset(a[..n]);
      CountPermutation(a[..n], b', p);
    }
  }

  // ---- Sorting by a strict order ----

  ghost predicate StrictOrder<T(!new)>(less: (T, T) -> bool) {
    (forall x :: !less(x, x)) && (forall x, y, z :: less(x, y) && less(y, z) ==> less(x, z))
  }

  ghost predicate Increasing<T>(s: seq<T>, less: (T, T) -> bool) {
    forall i, j :: 0 <= i < j < |s| ==> less(s[i], s[j])
  }

  /** Sorted, possibly with elements the order does not separate. */
  ghost predicate NotDescending<T>(s: seq<T>, less: (T, T) -> bool) {
    forall i, j :: 0 <= i < j < |s| ==> !less(s[j], s[i])
  }

  /** Incomparability is transitive: what separates x from z separates one of them from any y. */
  ghost predicate WeakOrder<T(!new)>(less: (T, T) -> bool) {
    StrictOrder(less) && forall x, y, z :: less(x, z) ==> less(x, y) || less(y, z)
  }

  lemma Between<T(!new)>(x: T, y: T, z: T, less: (T, T) -> bool)
    requires WeakOrder(less)
    ensures less(x, z) ==> less(x, y) || less(y, z)
  {
  }

  lemma {:induction false} InsertNotDescending<T(!new)>(s: seq<T>, x: T, less: (T, T) -> bool)
    requires WeakOrder(less) && NotDescending(s, less)
    ensures NotDescending(InsertBy(s, x, less), less)
  {
    if s != [] && less(s[0], x) {
      InsertNotDescending(s[1..], x, less);
      var r := InsertBy(s[1..], x, less);
      forall j | 0 <= j < |r|
        ensures !less(r[j], s[0])
      {
        assert r[j] in multiset(r);
        if r[j] != x {
          assert r[j] in s[1..];
        }
      }
    } else if s != [] {
      forall j | 0 <= j < |s|
        ensures !less(s[j], x)
      {
        Between(s[j], s[0], x, less);
      }
    }
  }

  lemma {:induction false} SortNotDescending<T(!new)>(s: seq<T>, less: (T, T) -> bool)
    requires WeakOrder(less)
    ensures NotDescending(SortBy(s, less), less)
  {
    if s != [] {
      SortNotDescending(s[1..], less);
      InsertNotDescending(SortBy(s[1..], less), s[0], less);
    }
  }

  /** Sorting elements that the order separates pairwise. */
  lemma SortIncreasing<T(!new)>(s: seq<T>, less: (T, T) -> bool)
    requires WeakOrder(less)
    requires forall i, j :: 0 <= i < j < |s| ==> less(s[i], s[j]) || less(s[j], s[i])
    ensures Increasing(SortBy(s, less), less)
  {
    var r := SortBy(s, less);
    SortNotDescending(s, less);
    forall i, j | 0 <= i < j < |r|
      ensures less(r[i], r[j])
    {
      TwoPlaces(r, s, i, j);
    }
  }

  /** Two places of a permutation hold what two places of the original hold. */
  lemma TwoPlaces<T>(r: seq<T>, s: seq<T>, i: nat, j: nat)
    requires multiset(r) == multiset(s) && i < j < |r|
    ensures exists a, b :: 0 <= a < |s| && 0 <= b < |s| && a != b && s[a] == r[i] && s[b] == r[j]
  {
    assert r == r[..i] + [r[i]] + r[i + 1..];
    assert r[i] in multiset(s) && r[j] in multiset(s);
    var a :| 0 <= a < |s| && s[a] == r[i];
    WithoutOne(s, a);
    WithoutOne(r, i);
    var rest := s[..a] + s[a + 1..];
    assert (r[..i] + r[i + 1..])[j - 1] == r[j];
    assert r[j] in multiset(rest);
    var k :| 0 <= k < |rest| && rest[k] == r[j];
    var b := if k < a then k else k + 1;
    assert s[b] == r[j];
  }

  /** A prefix that increases goes on increasing exactly when the next element follows the last one. */
  lemma IncreasingNext<T(!new)>(s: seq<T>, i: nat, less: (T, T) -> bool)
    requires StrictOrder(less) && i < |s| && Increasing(s[..i], less)
    ensures Increasing(s[..i + 1], less) <==> i == 0 || less(s[i - 1], s[i])
  {
    var next := s[..i + 1];
    if i > 0 {
      assert next[i - 1] == s[i - 1] && next[i] == s[i];
      if less(s[i - 1], s[i]) {
        forall a, b | 0 <= a < b < |next|
          ensures less(next[a], next[b])
        {
          assert a < i - 1 ==> less(s[..i][a], s[..i][i - 1]);
          assert b < i ==> less(s[..i][a], s[..i][b]);
        }
      }
    }
  }

  lemma IncreasingPrefix<T>(s: seq<T>, i: nat, less: (T, T) -> bool)
    requires i <= |s| && Increasing(s, less)
    ensures Increasing(s[..i], less)
  {
  }

  /** An increasing sequence is determined by its members. */
  lemma {:induction false} IncreasingUnique<T(!new)>(a: seq<T>, b: seq<T>, less: (T, T) -> bool)
    requires StrictOrder(less) && Increasing(a, less) && Increasing(b, less)
    requires forall x :: x in a <==> x in b
    ensures a == b
  {
    assert |b| > 0 ==> b[0] in b;
    assert |a| > 0 ==> a[0] in a;
    if a != [] {
      FirstOfIncreasing(a, b[0], less);
      FirstOfIncreasing(b, a[0], less);
      assert a[0] == b[0];
      TailOfIncreasing(a, less);
      TailOfIncreasing(b, less);
      IncreasingUnique(a[1..], b[1..], less);
      assert a == [a[0]] + a[1..] && b == [b[0]] + b[1..];
    }
  }

  lemma FirstOfIncreasing<T(!new)>(s: seq<T>, x: T, less: (T, T) -> bool)
    requires StrictOrder(less) && Increasing(s, less) && x in s
    ensures x == s[0] || less(s[0], x)
  {
  }

  lemma TailOfIncreasing<T(!new)>(s: seq<T>, less: (T, T) -> bool)
    requires StrictOrder(less) && Increasing(s, less) && s != []
    ensures Increasing(s[1..], less)
    ensures forall x :: x in s[1..] <==> x in s && x != s[0]
  {
    forall x
      ensures x in s[1..] <==> x in s && x != s[0]
    {
      if x in s[1..] {
        var k :| 0 <= k < |s[1..]| && s[1..][k] == x;
        assert less(s[0], s[k + 1]);
      }
      if x in s && x != s[0] {
        var k :| 0 <= k < |s| && s[k] == x;
        assert s[1..][k - 1] == x;
      }
    }
  }
}
