/** The byte-wise string order of Go, and sequences sorted by it. */
module Ordering {

  predicate Less(a: string, b: string) {
    b != [] && (a == [] || a[0] < b[0] || (a[0] == b[0] && Less(a[1..], b[1..])))
  }

  lemma {:induction false} LessIrreflexive(a: string)
    ensures !Less(a, a)
  {
    if a != [] {
      LessIrreflexive(a[1..]);
    }
  }

  lemma {:induction false} LessTransitive(a: string, b: string, c: string)
    requires Less(a, b) && Less(b, c)
    ensures Less(a, c)
  {
    if a != [] && a[0] == b[0] && b[0] == c[0] {
      LessTransitive(a[1..], b[1..], c[1..]);
    }
  }

  lemma {:induction false} LessTotal(a: string, b: string)
    ensures Less(a, b) || a == b || Less(b, a)
  {
    if a != [] && b != [] && a[0] == b[0] {
      LessTotal(a[1..], b[1..]);
      assert a == [a[0]] + a[1..] && b == [b[0]] + b[1..];
    }
  }

  lemma LessAsymmetric(a: string, b: string)
    requires Less(a, b)
    ensures !Less(b, a) && a != b
  {
    LessIrreflexive(a);
    if Less(b, a) {
      LessTransitive(a, b, a);
    }
  }

  ghost predicate StrictlySorted(s: seq<string>) {
    forall i, j :: 0 <= i < j < |s| ==> Less(s[i], s[j])
  }

  ghost function Elements<T>(s: seq<T>): set<T> {
    set x | x in s
  }

  /** A strictly sorted sequence is determined by its elements. */
  lemma {:induction false} SortedUnique(a: seq<string>, b: seq<string>)
    requires StrictlySorted(a) && StrictlySorted(b)
    requires Elements(a) == Elements(b)
    ensures a == b
  {
    assert b != [] ==> b[0] in Elements(b);
    if a != [] {
      assert a[0] in Elements(b) && b[0] in Elements(a);
      var i :| 0 <= i < |b| && b[i] == a[0];
      var j :| 0 <= j < |a| && a[j] == b[0];
      if a[0] != b[0] {
        LessAsymmetric(b[0], a[0]);
        assert false;
      }
      SortedTail(a);
      SortedTail(b);
      SortedUnique(a[1..], b[1..]);
      assert a == [a[0]] + a[1..] && b == [b[0]] + b[1..];
    }
  }

  lemma SortedTail(s: seq<string>)
    requires s != [] && StrictlySorted(s)
    ensures StrictlySorted(s[1..])
    ensures Elements(s[1..]) == Elements(s) - {s[0]}
  {
    forall x | x in s[1..]
      ensures x in Elements(s) - {s[0]}
    {
      var i :| 0 <= i < |s[1..]| && s[1..][i] == x;
      assert s[i + 1] == x;
      LessAsymmetric(s[0], s[i + 1]);
    }
    forall x | x in Elements(s) - {s[0]}
      ensures x in s[1..]
    {
      var i :| 0 <= i < |s| && s[i] == x;
      assert s[1..][i - 1] == x;
    }
  }

  /** Inserting into a sorted, duplicate-free sequence. */
  function Insert(s: seq<string>, x: string): (r: seq<string>)
    ensures Elements(r) == Elements(s) + {x}
  {
    if s == [] then [x]
    else if x == s[0] then s
    else if Less(x, s[0]) then [x] + s
    else
      var r := [s[0]] + Insert(s[1..], x);
      assert s == [s[0]] + s[1..];
      assert Elements(r) == {s[0]} + Elements(Insert(s[1..], x));
      assert Elements(s) == {s[0]} + Elements(s[1..]);
      r
  }

  lemma {:induction false} InsertSorted(s: seq<string>, x: string)
    requires StrictlySorted(s)
    ensures StrictlySorted(Insert(s, x))
  {
    if s != [] && x != s[0] {
      LessTotal(x, s[0]);
      if Less(x, s[0]) {
        forall j | 0 <= j < |s|
          ensures Less(x, s[j])
        {
          if j > 0 {
            LessTransitive(x, s[0], s[j]);
          }
        }
      } else {
        SortedTail(s);
        InsertSorted(s[1..], x);
        var r := Insert(s[1..], x);
        forall j | 0 <= j < |r|
          ensures Less(s[0], r[j])
        {
          assert r[j] in Elements(r);
          if r[j] != x {
            var k :| 0 <= k < |s[1..]| && s[1..][k] == r[j];
            assert s[k + 1] == r[j];
          }
        }
      }
    }
  }

  /** The distinct elements of a list in ascending order. */
  function SortedDistinct(s: seq<string>): (r: seq<string>)
    ensures Elements(r) == Elements(s)
    ensures StrictlySorted(r)
  {
    if s == [] then []
    else
      var rest := SortedDistinct(s[1..]);
      InsertSorted(rest, s[0]);
      assert Elements(s) == {s[0]} + Elements(s[1..]) by { assert s == [s[0]] + s[1..]; }
      Insert(rest, s[0])
  }

  /** The elements of a set in ascending order. */
  ghost function SortedSet(s: set<string>): (r: seq<string>)
    ensures Elements(r) == s && StrictlySorted(r)
  {
    if s == {} then []
    else
      var x :| x in s;
      InsertSorted(SortedSet(s - {x}), x);
      Insert(SortedSet(s - {x}), x)
  }

  /** Collecting a set in any order and sorting it gives the one ascending listing. */
  method ListSorted(s: set<string>) returns (r: seq<string>)
    ensures r == SortedSet(s)
  {
    var collected: seq<string> := [];
    var todo := s;
    while todo != {}
      invariant Elements(collected) == s - todo && todo <= s
      decreases todo
    {
      var x :| x in todo;
      assert Elements(collected + [x]) == Elements(collected) + {x};
      collected := collected + [x];
      todo := todo - {x};
    }
    r := SortedDistinct(collected);
    SortedUnique(r, SortedSet(s));
  }
}
