/** Merging the observations of one candidate: one observation for each statement, in order. */
module CandidateMerge {
  import opened Primitives
  import opened Ordering
  import opened Sorting
  import opened CandidateTypes

  predicate SameKey(a: Observation, b: Observation) {
    a.episodeID == b.episodeID && a.statementID == b.statementID
  }

  predicate ObservationLess(a: Observation, b: Observation) {
    if a.episodeID != b.episodeID then Less(a.episodeID, b.episodeID) else Less(a.statementID, b.statementID)
  }

  const BY_STATEMENT: (Observation, Observation) -> bool := (a, b) => ObservationLess(a, b)

  lemma ObservationOrder()
    ensures WeakOrder(BY_STATEMENT)
    ensures forall a, b :: BY_STATEMENT(a, b) || BY_STATEMENT(b, a) <==> !SameKey(a, b)
  {
    forall a: Observation, b: Observation, c: Observation
      ensures !ObservationLess(a, a)
      ensures ObservationLess(a, b) && ObservationLess(b, c) ==> ObservationLess(a, c)
      ensures ObservationLess(a, b) || ObservationLess(b, a) <==> !SameKey(a, b)
      ensures ObservationLess(a, c) ==> ObservationLess(a, b) || ObservationLess(b, c)
    {
      StringOrder(a.episodeID, b.episodeID, c.episodeID);
      StringOrder(a.statementID, b.statementID, c.statementID);
    }
  }

  lemma LessSeparates(a: Observation, b: Observation)
    requires ObservationLess(a, b)
    ensures !SameKey(a, b)
  {
    StringOrder(a.episodeID, b.episodeID, b.episodeID);
    StringOrder(a.statementID, b.statementID, b.statementID);
  }

  lemma LessChains(a: Observation, b: Observation, c: Observation)
    requires ObservationLess(a, b) && ObservationLess(b, c)
    ensures ObservationLess(a, c)
  {
    StringOrder(a.episodeID, b.episodeID, c.episodeID);
    StringOrder(a.statementID, b.statementID, c.statementID);
  }

  lemma LessOrSame(a: Observation, b: Observation)
    requires !ObservationLess(b, a)
    ensures SameKey(a, b) || ObservationLess(a, b)
  {
    StringOrder(a.episodeID, b.episodeID, b.episodeID);
    StringOrder(a.statementID, b.statementID, b.statementID);
  }

  lemma StringOrder(a: string, b: string, c: string)
    ensures !Less(a, a) && (Less(a, b) ==> a != b) && (a != b ==> Less(a, b) || Less(b, a))
    ensures Less(b, c) ==> b != c
    ensures Less(a, c) ==> a != c
    ensures Less(a, b) && Less(b, c) ==> Less(a, c)
    ensures Less(a, c) ==> Less(a, b) || Less(b, c)
  {
    LessIrreflexive(a);
    LessIrreflexive(b);
    LessIrreflexive(c);
    LessTotal(a, b);
    LessTotal(b, c);
    if Less(a, b) && Less(b, c) {
      LessTransitive(a, b, c);
    }
    if Less(a, c) && Less(c, b) {
      LessTransitive(a, c, b);
    }
  }

  /** An observation with each of its lists sorted and free of repetition. */
  function Normalized(o: Observation): Observation {
    o.(evidence := AppendUnique([], o.evidence), corrections := AppendUnique([], o.corrections),
       supports := SortedSupports(set x | x in o.supports))
  }

  function Combined(a: Observation, b: Observation): Observation {
    a.(evidence := AppendUnique(a.evidence, b.evidence), corrections := AppendUnique(a.corrections, b.corrections),
       supports := SortedSupports(set x | x in a.supports + b.supports),
       firstSeen := if b.firstSeen < a.firstSeen then b.firstSeen else a.firstSeen,
       lastSeen := if b.lastSeen > a.lastSeen then b.lastSeen else a.lastSeen)
  }

  /** What merging has to yield: the merged observation of each statement collects everything its observations
      say, over the widest range of times. */
  ghost predicate Collects(m: Observation, from: set<Observation>) {
    StrictlySorted(m.evidence) && StrictlySorted(m.corrections) && SupportsAscending(m.supports) &&
    (forall e :: e in m.evidence <==> e != "" && exists o :: o in from && SameKey(o, m) && e in o.evidence) &&
    (forall e :: e in m.corrections <==> e != "" && exists o :: o in from && SameKey(o, m) && e in o.corrections) &&
    (forall t :: t in m.supports <==> exists o :: o in from && SameKey(o, m) && t in o.supports) &&
    (exists o :: o in from && SameKey(o, m) && o.statementKind == m.statementKind) &&
    (exists o :: o in from && SameKey(o, m) && o.firstSeen == m.firstSeen) &&
    (exists o :: o in from && SameKey(o, m) && o.lastSeen == m.lastSeen) &&
    forall o :: o in from && SameKey(o, m) ==> m.firstSeen <= o.firstSeen && o.lastSeen <= m.lastSeen
  }

  ghost predicate IsMerge(merged: seq<Observation>, from: set<Observation>) {
    Increasing(merged, BY_STATEMENT) && (forall m :: m in merged ==> Collects(m, from)) &&
    forall o :: o in from ==> exists m :: m in merged && SameKey(o, m)
  }

  /** The observations of one statement all say the same about its kind. */
  ghost predicate KindsAgree(from: set<Observation>) {
    forall a, b :: a in from && b in from && SameKey(a, b) ==> a.statementKind == b.statementKind
  }

  lemma CollectsUnique(a: Observation, b: Observation, from: set<Observation>)
    requires Collects(a, from) && Collects(b, from) && SameKey(a, b) && KindsAgree(from)
    ensures a == b
  {
    SortedUnique(a.evidence, b.evidence);
    SortedUnique(a.corrections, b.corrections);
    RankUnique(a.supports, b.supports, x => SupportRank(x));
  }

  /** Merging does not depend on the order in which the observations were staged. */
  lemma MergeUnique(a: seq<Observation>, b: seq<Observation>, from: set<Observation>)
    requires IsMerge(a, from) && IsMerge(b, from) && KindsAgree(from)
    ensures a == b
  {
    ObservationOrder();
    MergeSubset(a, b, from);
    MergeSubset(b, a, from);
    IncreasingUnique(a, b, BY_STATEMENT);
  }

  lemma MergeSubset(a: seq<Observation>, b: seq<Observation>, from: set<Observation>)
    requires IsMerge(a, from) && IsMerge(b, from) && KindsAgree(from)
    ensures forall m :: m in a ==> m in b
  {
    hide Collects, KindsAgree;
    forall m | m in a
      ensures m in b
    {
      var o := SomeCollected(m, from);
      var n :| n in b && SameKey(o, n);
      CollectsUnique(m, n, from);
    }
  }

  lemma SomeCollected(m: Observation, from: set<Observation>) returns (o: Observation)
    requires Collects(m, from)
    ensures o in from && SameKey(o, m)
  {
    o :| o in from && SameKey(o, m) && o.statementKind == m.statementKind;
  }

  lemma CollectsOne(o: Observation, from: set<Observation>)
    requires forall x :: x in from ==> !SameKey(x, o)
    ensures Collects(Normalized(o), from + {o})
  {
    SortedSupportsAscend(set x | x in o.supports);
    var m := Normalized(o);
    assert SameKey(o, m);
    assert forall x :: x in from + {o} && SameKey(x, m) ==> x == o;
  }

  lemma CollectsMore(m: Observation, o: Observation, from: set<Observation>)
    requires Collects(m, from) && SameKey(m, o)
    ensures Collects(Combined(m, Normalized(o)), from + {o})
  {
    var n := Normalized(o);
    var r := Combined(m, n);
    SortedSupportsAscend(set x | x in m.supports + n.supports);
    assert SameKey(o, r);
    assert forall x :: SameKey(x, r) <==> SameKey(x, m);
  }

  /** Observations of other statements do not matter. */
  lemma CollectsOther(m: Observation, o: Observation, from: set<Observation>)
    requires Collects(m, from) && !SameKey(m, o)
    ensures Collects(m, from + {o})
  {
    assert forall x :: x in from + {o} && SameKey(x, m) <==> x in from && SameKey(x, m);
  }

  /** One step: a statement seen before absorbs the observation, a new one is appended. */
  function MergeInto(merged: seq<Observation>, o: Observation): seq<Observation> {
    var n := |merged| - 1;
    if merged == [] || !SameKey(merged[n], o) then merged + [Normalized(o)]
    else merged[n := Combined(merged[n], Normalized(o))]
  }

  function MergeAll(s: seq<Observation>): seq<Observation> {
    if s == [] then [] else MergeInto(MergeAll(s[..|s| - 1]), s[|s| - 1])
  }

  /** mergeObservations as a function: sort by statement, then merge neighbours. */
  function Merged(observations: seq<Observation>): seq<Observation> {
    MergeAll(SortBy(observations, BY_STATEMENT))
  }

  method MergeObservations(observations: seq<Observation>) returns (result: seq<Observation>)
    ensures result == Merged(observations)
  {
    hide SortBy, AppendUnique, SortedSupports, Combined;
    var sorted := SortBy(observations, BY_STATEMENT);
    result := [];
    var i := 0;
    while i < |sorted|
      invariant 0 <= i <= |sorted|
      invariant result == MergeAll(sorted[..i])
    {
      assert sorted[..i + 1][..i] == sorted[..i];
      var o := Normalized(sorted[i]);
      if |result| == 0 || result[|result| - 1].episodeID != o.episodeID ||
         result[|result| - 1].statementID != o.statementID {
        result := result + [o];
      } else {
        var last := |result| - 1;
        result := result[last := Combined(result[last], o)];
      }
      i := i + 1;
    }
    assert sorted[..i] == sorted;
  }

  ghost predicate LastIs(merged: seq<Observation>, o: Observation) {
    merged != [] && SameKey(merged[|merged| - 1], o)
  }

  /** Everything merged so far comes before a statement that comes after the last one. */
  lemma AllBefore(merged: seq<Observation>, o: Observation)
    requires Increasing(merged, BY_STATEMENT) && (merged != [] ==> ObservationLess(merged[|merged| - 1], o))
    ensures forall k :: 0 <= k < |merged| ==> ObservationLess(merged[k], o) && !SameKey(merged[k], o)
  {
    forall k | 0 <= k < |merged|
      ensures ObservationLess(merged[k], o) && !SameKey(merged[k], o)
    {
      if k < |merged| - 1 {
        assert BY_STATEMENT(merged[k], merged[|merged| - 1]);
        LessChains(merged[k], merged[|merged| - 1], o);
      }
      LessSeparates(merged[k], o);
    }
  }

  lemma NewStatement(merged: seq<Observation>, from: set<Observation>, o: Observation)
    requires IsMerge(merged, from) && (merged != [] ==> ObservationLess(merged[|merged| - 1], o))
    ensures IsMerge(merged + [Normalized(o)], from + {o})
  {
    hide Collects, Less;
    AllBefore(merged, o);
    var more := merged + [Normalized(o)];
    forall x | x in from
      ensures !SameKey(x, o)
    {
      var m :| m in merged && SameKey(x, m);
    }
    CollectsOne(o, from);
    forall m | m in more
      ensures Collects(m, from + {o})
    {
      if m in merged {
        CollectsOther(m, o, from);
      }
    }
    forall x | x in from + {o}
      ensures exists m :: m in more && SameKey(x, m)
    {
      if x in from {
        var m :| m in merged && SameKey(x, m);
        assert m in more;
      } else {
        var m := more[|merged|];
        assert m in more && SameKey(x, m);
      }
    }
  }

  /** Replacing the last observation by one of the same statement keeps the order and the statements. */
  lemma ReplaceLast(merged: seq<Observation>, c: Observation)
    requires LastIs(merged, c) && Increasing(merged, BY_STATEMENT)
    ensures var more := merged[|merged| - 1 := c];
            Increasing(more, BY_STATEMENT) &&
            (forall x, m :: m in merged && SameKey(x, m) ==> exists m' :: m' in more && SameKey(x, m')) &&
            forall m :: m in more ==> m == c || (m in merged && !SameKey(m, c))
  {
    hide Less;
    var n := |merged| - 1;
    var more := merged[n := c];
    forall x, m | m in merged && SameKey(x, m)
      ensures exists m' :: m' in more && SameKey(x, m')
    {
      var k :| 0 <= k <= n && merged[k] == m;
      var m' := more[k];
      assert m' in more && SameKey(x, m');
    }
    forall m | m in more
      ensures m == c || (m in merged && !SameKey(m, c))
    {
      var k :| 0 <= k <= n && more[k] == m;
      if k < n {
        assert BY_STATEMENT(merged[k], merged[n]);
        LessSeparates(merged[k], merged[n]);
      }
    }
    assert forall i :: 0 <= i < n ==> BY_STATEMENT(merged[i], merged[n]);
  }

  lemma KnownStatement(merged: seq<Observation>, from: set<Observation>, o: Observation)
    requires IsMerge(merged, from) && LastIs(merged, o)
    ensures var n := |merged| - 1;
            IsMerge(merged[n := Combined(merged[n], Normalized(o))], from + {o})
  {
    hide Collects, Increasing;
    var n := |merged| - 1;
    var c := Combined(merged[n], Normalized(o));
    var more := merged[n := c];
    ReplaceLast(merged, c);
    CollectsMore(merged[n], o, from);
    forall m | m in more
      ensures Collects(m, from + {o})
    {
      if m != c {
        CollectsOther(m, o, from);
      }
    }
    assert more[n] == c && SameKey(o, c);
  }

  lemma {:induction false} MergeAllIsMerge(s: seq<Observation>)
    requires NotDescending(s, BY_STATEMENT)
    ensures IsMerge(MergeAll(s), Elements(s))
    ensures s != [] ==> LastIs(MergeAll(s), s[|s| - 1])
  {
    hide Collects, IsMerge, ObservationLess, SameKey, MergeInto;
    if s == [] {
      NothingMerged();
      assert Elements(s) == {};
    } else {
      var n := |s| - 1;
      MergeAllIsMerge(s[..n]);
      var merged := MergeAll(s[..n]);
      assert s == s[..n] + [s[n]];
      assert Elements(s) == Elements(s[..n]) + {s[n]};
      if LastIs(merged, s[n]) {
        KnownStatement(merged, Elements(s[..n]), s[n]);
      } else {
        if n > 0 {
          assert !BY_STATEMENT(s[n], s[n - 1]);
          LessOrSame(s[n - 1], s[n]);
          SameKeyLess(merged[|merged| - 1], s[n - 1], s[n]);
        }
        NewStatement(merged, Elements(s[..n]), s[n]);
      }
      MergedLast(merged, s[n]);
    }
  }

  lemma MergedLast(merged: seq<Observation>, o: Observation)
    ensures LastIs(MergeInto(merged, o), o)
    ensures MergeInto(merged, o) == if LastIs(merged, o)
                                    then merged[|merged| - 1 := Combined(merged[|merged| - 1], Normalized(o))]
                                    else merged + [Normalized(o)]
  {
  }

  lemma SameKeyLess(a: Observation, b: Observation, c: Observation)
    requires SameKey(a, b)
    ensures ObservationLess(a, c) <==> ObservationLess(b, c)
    ensures SameKey(a, c) <==> SameKey(b, c)
  {
  }

  lemma NothingMerged()
    ensures IsMerge([], {})
  {
  }

  /** Whatever was staged, merging yields the merge. */
  lemma MergedIsMerge(observations: seq<Observation>)
    ensures IsMerge(Merged(observations), Elements(observations))
  {
    hide IsMerge;
    ObservationOrder();
    SortNotDescending(observations, BY_STATEMENT);
    SortMembers(observations, BY_STATEMENT);
    MergeAllIsMerge(SortBy(observations, BY_STATEMENT));
    assert Elements(SortBy(observations, BY_STATEMENT)) == Elements(observations);
  }
}
