/** Building a generation through shards: partition by semantic key, aggregate, re-partition by id, concatenate. */
module CandidateBuild {
  import opened Primitives
  import opened Ordering
  import opened Sorting
  import opened CandidateTypes
  import opened CandidateMerge
  import opened CandidateAggregate
  import opened CandidateDerive
  import opened CandidateMeaning
  import opened CandidateShards

  // ---- The build ----

  const DEFAULT_SHARDS := 64

  datatype BuildResult = BuildResult(episodes: nat, observations: nat, candidates: seq<Candidate>, reviewReady: nat,
                                     untrusted: nat, quarantined: nat, conflictGroups: nat)

  lemma InShardNext(records: seq<Staged>, r: Staged, count: nat, k: nat)
    ensures InShard(records + [r], count, k) ==
            InShard(records, count, k) + if ShardForHex(r.key, count) == Some(k) then [r] else []
  {
    assert (records + [r])[..|records|] == records;
  }

  ghost predicate Partitioned(shards: seq<seq<Staged>>, records: seq<Staged>) {
    forall k :: 0 <= k < |shards| ==> shards[k] == InShard(records, |shards|, k)
  }

  lemma PartitionNext(shards: seq<seq<Staged>>, records: seq<Staged>, r: Staged, index: nat)
    requires Partitioned(shards, records) && index < |shards| && ShardForHex(r.key, |shards|) == Some(index)
    ensures Partitioned(shards[index := shards[index] + [r]], records + [r])
  {
    hide ShardForHex, InShard;
    forall k | 0 <= k < |shards|
      ensures shards[index := shards[index] + [r]][k] == InShard(records + [r], |shards|, k)
    {
      InShardNext(records, r, |shards|, k);
    }
  }

  /** The first pass: every derived observation goes to the shard of its semantic key. */
  method StageObservations(rules: Rules, episodes: seq<Episode>, shards: array<seq<Staged>>) returns (observations: nat)
    requires RulesOk(rules) && ValidShardCount(shards.Length)
    requires forall k :: 0 <= k < shards.Length ==> shards[k] == []
    modifies shards
    ensures Partitioned(shards[..], AllStaged(rules, episodes)) && observations == |AllStaged(rules, episodes)|
  {
    hide RulesOk, StagedOk, ShardForHex, Derived, InShard, ValidShardCount, AllStaged, Partitioned;
    observations := 0;
    ghost var records: seq<Staged> := [];
    NothingStaged(rules, shards[..]);
    var i := 0;
    while i < |episodes|
      invariant 0 <= i <= |episodes|
      invariant records == AllStaged(rules, episodes[..i])
      invariant Partitioned(shards[..], records) && observations == |records|
    {
      var derived := DeriveEpisodeObservations(rules, episodes[i]);
      DerivedStaged(rules, episodes[i]);
      AllStagedNext(rules, episodes, i);
      ghost var start := records;
      var j := 0;
      while j < |derived|
        invariant 0 <= j <= |derived|
        invariant records == start + derived[..j]
        invariant Partitioned(shards[..], records) && observations == |records|
      {
        var record := derived[j];
        StagedShards(rules, record, shards.Length);
        var index := ShardForHex(record.key, shards.Length).value;
        PartitionNext(shards[..], records, record, index);
        ghost var after := shards[..][index := shards[index] + [record]];
        shards[index] := shards[index] + [record];
        assert shards[..] == after;
        records := records + [record];
        observations := observations + 1;
        j := j + 1;
      }
      assert derived[..j] == derived;
      i := i + 1;
    }
    assert episodes[..i] == episodes;
  }

  lemma NothingStaged(rules: Rules, shards: seq<seq<Staged>>)
    requires forall k :: 0 <= k < |shards| ==> shards[k] == []
    ensures Partitioned(shards, []) && AllStaged(rules, []) == []
  {
  }

  lemma AllStagedNext(rules: Rules, episodes: seq<Episode>, i: nat)
    requires i < |episodes|
    ensures AllStaged(rules, episodes[..i + 1]) == AllStaged(rules, episodes[..i]) + Derived(rules, episodes[i])
    ensures AllStaged(rules, episodes[..0]) == []
  {
    assert episodes[..i + 1][..i] == episodes[..i];
  }

  /** What one final shard holds once the shards below `done` are aggregated: their candidates with that id shard. */
  ghost predicate FiledIn(rules: Rules, records: seq<Staged>, final: seq<Candidate>, count: nat, done: nat, f: nat) {
    (forall c :: c in final <==> HasFile(rules, records, count, done, f, c)) &&
    forall i, j :: 0 <= i < j < |final| ==> final[i].candidateID != final[j].candidateID
  }

  ghost predicate HasFile(rules: Rules, records: seq<Staged>, count: nat, done: nat, f: nat, c: Candidate) {
    exists id :: Files(rules, records, count, done, f, id, c)
  }

  /** The candidate of `id`, when its records are in shard `i` and its id in shard `f`. */
  ghost predicate Moves(rules: Rules, records: seq<Staged>, count: nat, i: nat, f: nat, id: string, c: Candidate) {
    id in IDs(records) && KeyShard(records, id, count) == Some(i) && CandidateShard(id, count) == Some(f) &&
    c == CandidateOf(rules, records, id)
  }

  ghost predicate Files(rules: Rules, records: seq<Staged>, count: nat, done: nat, f: nat, id: string, c: Candidate) {
    id in IDs(records) && c == CandidateOf(rules, records, id) && CandidateShard(id, count) == Some(f) &&
    KeyShard(records, id, count).Some? && KeyShard(records, id, count).value < done
  }

  function ToShard(candidates: seq<Candidate>, count: nat, f: nat): seq<Candidate> {
    if candidates == [] then []
    else
      var n := |candidates| - 1;
      ToShard(candidates[..n], count, f) +
      if CandidateShard(candidates[n].candidateID, count) == Some(f) then [candidates[n]] else []
  }

  lemma {:induction false} ToShardMembers(candidates: seq<Candidate>, count: nat, f: nat)
    requires Increasing(candidates, BY_ID)
    ensures Increasing(ToShard(candidates, count, f), BY_ID)
    ensures forall c :: c in ToShard(candidates, count, f) <==>
              c in candidates && CandidateShard(c.candidateID, count) == Some(f)
  {
    hide CandidateShard, CandidateLess;
    if candidates != [] {
      var n := |candidates| - 1;
      assert candidates == candidates[..n] + [candidates[n]];
      ToShardMembers(candidates[..n], count, f);
      var front := ToShard(candidates[..n], count, f);
      forall i | 0 <= i < |front|
        ensures BY_ID(front[i], candidates[n])
      {
        assert front[i] in candidates[..n];
      }
    }
  }

  /** The candidates of shard `i`, in terms of all records. */
  lemma ShardAggregate(rules: Rules, records: seq<Staged>, count: nat, i: nat, derived: seq<Candidate>)
    requires AllDerived(rules, records) && IsAggregate(rules, InShard(records, count, i), derived)
    ensures Increasing(derived, BY_ID)
    ensures forall c :: c in derived <==>
              exists id :: id in IDs(records) && KeyShard(records, id, count) == Some(i) &&
                c == CandidateOf(rules, records, id)
  {
    hide AllDerived, CandidateOf, KeyShard, IDs, InShard, Increasing;
    forall id
      ensures id in IDs(InShard(records, count, i)) <==> id in IDs(records) && KeyShard(records, id, count) == Some(i)
      ensures id in IDs(InShard(records, count, i)) ==>
                CandidateOf(rules, InShard(records, count, i), id) == CandidateOf(rules, records, id)
    {
      ShardCandidate(rules, records, count, i, id);
    }
  }

  lemma CandidateKeepsID(rules: Rules, records: seq<Staged>, id: string)
    requires id in IDs(records)
    ensures CandidateOf(rules, records, id).candidateID == id
  {
    HashedCandidate(rules, records, id);
  }

  /** Filing the candidates of shard `i` moves on to the next shard. */
  lemma FiledNext(rules: Rules, records: seq<Staged>, final: seq<Candidate>, count: nat, i: nat, f: nat,
                  derived: seq<Candidate>)
    requires AllDerived(rules, records) && FiledIn(rules, records, final, count, i, f)
    requires IsAggregate(rules, InShard(records, count, i), derived)
    ensures FiledIn(rules, records, final + ToShard(derived, count, f), count, i + 1, f)
  {
    hide AllDerived, CandidateOf, KeyShard, IDs, InShard, CandidateShard, ToShard, IsAggregate;
    ShardAggregate(rules, records, count, i, derived);
    ToShardMembers(derived, count, f);
    var more, added := final + ToShard(derived, count, f), ToShard(derived, count, f);
    forall c
      ensures c in added <==> exists id :: Moves(rules, records, count, i, f, id, c)
    {
      AddedExactly(rules, records, count, i, f, derived, added, c);
    }
    forall c
      ensures c in more <==> HasFile(rules, records, count, i + 1, f, c)
    {
      FilesNext(rules, records, count, i, f, c);
    }
    forall a, b | a in final && b in added
      ensures a.candidateID != b.candidateID
    {
      var x :| Files(rules, records, count, i, f, x, a);
      var y :| Moves(rules, records, count, i, f, y, b);
      CandidateKeepsID(rules, records, x);
      CandidateKeepsID(rules, records, y);
    }
    IncreasingDistinct(added);
  }

  lemma IncreasingDistinct(candidates: seq<Candidate>)
    requires Increasing(candidates, BY_ID)
    ensures forall i, j :: 0 <= i < j < |candidates| ==> candidates[i].candidateID != candidates[j].candidateID
  {
    forall i, j | 0 <= i < j < |candidates|
      ensures candidates[i].candidateID != candidates[j].candidateID
    {
      assert BY_ID(candidates[i], candidates[j]);
      LessIrreflexive(candidates[i].candidateID);
    }
  }

  lemma AddedExactly(rules: Rules, records: seq<Staged>, count: nat, i: nat, f: nat, derived: seq<Candidate>,
                     added: seq<Candidate>, c: Candidate)
    requires forall x :: x in added <==> x in derived && CandidateShard(x.candidateID, count) == Some(f)
    requires forall x :: x in derived <==>
               exists id :: id in IDs(records) && KeyShard(records, id, count) == Some(i) &&
                 x == CandidateOf(rules, records, id)
    ensures c in added <==> exists id :: Moves(rules, records, count, i, f, id, c)
  {
    hide CandidateOf, KeyShard, IDs, CandidateShard;
    if c in added {
      var id :| id in IDs(records) && KeyShard(records, id, count) == Some(i) && c == CandidateOf(rules, records, id);
      CandidateKeepsID(rules, records, id);
      assert Moves(rules, records, count, i, f, id, c);
    }
    if id :| Moves(rules, records, count, i, f, id, c) {
      CandidateKeepsID(rules, records, id);
    }
  }

  lemma FilesNext(rules: Rules, records: seq<Staged>, count: nat, i: nat, f: nat, c: Candidate)
    ensures HasFile(rules, records, count, i + 1, f, c) <==>
            HasFile(rules, records, count, i, f, c) || exists id :: Moves(rules, records, count, i, f, id, c)
  {
    hide CandidateOf, KeyShard, IDs, CandidateShard;
    var n := i + 1;
    if HasFile(rules, records, count, n, f, c) {
      var id :| Files(rules, records, count, n, f, id, c);
      assert Files(rules, records, count, i, f, id, c) || Moves(rules, records, count, i, f, id, c);
    }
    if HasFile(rules, records, count, i, f, c) {
      var id :| Files(rules, records, count, i, f, id, c);
      assert Files(rules, records, count, n, f, id, c);
    }
    if id :| Moves(rules, records, count, i, f, id, c) {
      assert Files(rules, records, count, n, f, id, c);
    }
  }

  /** The finished shards after `candidates` have been filed, from what they held before. */
  ghost predicate FiledFrom(start: seq<seq<Candidate>>, finals: seq<seq<Candidate>>, candidates: seq<Candidate>) {
    |finals| == |start| &&
    forall f :: 0 <= f < |finals| ==> finals[f] == start[f] + ToShard(candidates, |finals|, f)
  }

  lemma FiledFromNext(start: seq<seq<Candidate>>, finals: seq<seq<Candidate>>, candidates: seq<Candidate>, j: nat,
                      index: nat)
    requires j < |candidates| && FiledFrom(start, finals, candidates[..j]) && index < |finals|
    requires CandidateShard(candidates[j].candidateID, |finals|) == Some(index)
    ensures FiledFrom(start, finals[index := finals[index] + [candidates[j]]], candidates[..j + 1])
  {
    hide CandidateShard;
    assert candidates[..j + 1][..j] == candidates[..j];
    forall f | 0 <= f < |finals|
      ensures finals[index := finals[index] + [candidates[j]]][f] == start[f] + ToShard(candidates[..j + 1], |finals|, f)
    {
    }
  }

  /** Every candidate of a shard has a shard of its own. */
  lemma DerivedShard(rules: Rules, records: seq<Staged>, count: nat, i: nat, derived: seq<Candidate>, c: Candidate)
    requires WellStaged(rules, records) && ValidShardCount(count) && c in derived
    requires IsAggregate(rules, InShard(records, count, i), derived)
    ensures CandidateShard(c.candidateID, count).Some? && CandidateShard(c.candidateID, count).value < count
  {
    hide CandidateOf, IDs, InShard, CandidateShard, ValidShardCount, WellStaged, Increasing, Collides;
    var shard := InShard(records, count, i);
    ShardStaged(rules, records, count, i);
    var id :| id in IDs(shard) && c == CandidateOf(rules, shard, id);
    CandidateKeepsID(rules, shard, id);
    BaseShards(rules, shard, id, count);
  }

  lemma BaseShards(rules: Rules, records: seq<Staged>, id: string, count: nat)
    requires WellStaged(rules, records) && ValidShardCount(count) && id in IDs(records)
    ensures KeyShard(records, id, count).Some? && KeyShard(records, id, count).value < count
    ensures CandidateShard(id, count).Some? && CandidateShard(id, count).value < count
  {
    hide RulesOk, ShardForHex, ValidShardCount, IDs, Base, CandidateShard;
    BaseStaged(rules, records, id);
    StagedShards(rules, Base(records, id), count);
  }

  // ---- What the passes write ----

  /** One aggregate for each shard below `|aggregates|`. */
  ghost predicate Aggregated(rules: Rules, records: seq<Staged>, count: nat, aggregates: seq<seq<Candidate>>) {
    |aggregates| <= count &&
    forall i :: 0 <= i < |aggregates| ==> IsAggregate(rules, InShard(records, count, i), aggregates[i])
  }

  /** The final shard `f` after these aggregates were filed. */
  function Filing(aggregates: seq<seq<Candidate>>, count: nat, f: nat): seq<Candidate> {
    if aggregates == [] then []
    else
      var n := |aggregates| - 1;
      Filing(aggregates[..n], count, f) + ToShard(aggregates[n], count, f)
  }

  /** The final shards below `n`, each sorted, one after the other. */
  function Emission(aggregates: seq<seq<Candidate>>, count: nat, n: nat): seq<Candidate> {
    if n == 0 then [] else Emission(aggregates, count, n - 1) + SortBy(Filing(aggregates, count, n - 1), BY_ID)
  }

  /** The conflict groups that the shards below `n` count. */
  ghost function ConflictSum(records: seq<Staged>, count: nat, n: nat): nat {
    if n == 0 then 0 else ConflictSum(records, count, n - 1) + |ConflictGroups(InShard(records, count, n - 1))|
  }

  ghost predicate FinalsHold(finals: seq<seq<Candidate>>, aggregates: seq<seq<Candidate>>) {
    forall f :: 0 <= f < |finals| ==> finals[f] == Filing(aggregates, |finals|, f)
  }

  ghost predicate SomeShardCollides(records: seq<Staged>, count: nat) {
    exists k: nat :: k < count && Collides(InShard(records, count, k))
  }

  lemma FilingNext(start: seq<seq<Candidate>>, finals: seq<seq<Candidate>>, aggregates: seq<seq<Candidate>>,
                   derived: seq<Candidate>)
    requires FinalsHold(start, aggregates) && FiledFrom(start, finals, derived)
    ensures FinalsHold(finals, aggregates + [derived])
  {
    hide ToShard;
    assert (aggregates + [derived])[..|aggregates|] == aggregates;
  }

  /** The candidates of one shard, filed by the shard of their id. */
  method FileShard(rules: Rules, ghost records: seq<Staged>, ghost aggregates: seq<seq<Candidate>>,
                   derived: seq<Candidate>, finals: array<seq<Candidate>>)
    requires WellStaged(rules, records) && ValidShardCount(finals.Length) && FinalsHold(finals[..], aggregates)
    requires IsAggregate(rules, InShard(records, finals.Length, |aggregates|), derived)
    modifies finals
    ensures FinalsHold(finals[..], aggregates + [derived])
  {
    hide WellStaged, FinalsHold, IsAggregate, InShard, ValidShardCount, CandidateShard, ToShard, FiledFrom;
    ghost var start := finals[..];
    NothingFiled(start);
    var j := 0;
    while j < |derived|
      invariant 0 <= j <= |derived|
      invariant FiledFrom(start, finals[..], derived[..j])
    {
      var c := derived[j];
      DerivedShard(rules, records, finals.Length, |aggregates|, derived, c);
      var index := CandidateShard(c.candidateID, finals.Length).value;
      FiledFromNext(start, finals[..], derived, j, index);
      ghost var after := finals[..][index := finals[index] + [c]];
      finals[index] := finals[index] + [c];
      assert finals[..] == after;
      j := j + 1;
    }
    assert derived[..j] == derived;
    FilingNext(start, finals[..], aggregates, derived);
  }

  lemma NothingFiled(start: seq<seq<Candidate>>)
    ensures FiledFrom(start, start, [])
  {
  }

  /** The conflict groups of the shards below `done`. */
  ghost function ConflictsBelow(rules: Rules, records: seq<Staged>, count: nat, done: nat): set<Group> {
    set g | g in ConflictGroups(records) && GroupShard(rules, g, count).Some? && GroupShard(rules, g, count).value < done
  }

  lemma ConflictsAdd(rules: Rules, records: seq<Staged>, count: nat, i: nat)
    requires AllDerived(rules, records)
    ensures |ConflictsBelow(rules, records, count, i + 1)| ==
            |ConflictsBelow(rules, records, count, i)| + |ConflictGroups(InShard(records, count, i))|
  {
    hide AllDerived, InShard, GroupShard, ConflictGroups;
    ShardConflicts(rules, records, count, i);
    var below, here := ConflictsBelow(rules, records, count, i), ConflictGroups(InShard(records, count, i));
    assert ConflictsBelow(rules, records, count, i + 1) == below + here;
    assert below !! here;
  }

  lemma AllConflicts(rules: Rules, records: seq<Staged>, count: nat)
    requires AllDerived(rules, records) && ValidShardCount(count)
    ensures ConflictsBelow(rules, records, count, count) == ConflictGroups(records)
    ensures ConflictsBelow(rules, records, count, 0) == {}
  {
    hide ShardForHex, ValidShardCount, OpposedTo, IDs, Base, RulesOk, StagedOk, CandidateShard;
    forall g | g in ConflictGroups(records)
      ensures GroupShard(rules, g, count).Some? && GroupShard(rules, g, count).value < count
    {
      var id :| id in IDs(records) && OpposedTo(records, id) != {} && GroupOf(Base(records, id)) == g;
      BaseStaged(rules, records, id);
      KeyOfGroup(rules, Base(records, id));
      StagedShards(rules, Base(records, id), count);
    }
  }

  /** The second pass: every shard is aggregated on its own, up to the first that holds a collision. */
  method AggregateShards(rules: Rules, ghost records: seq<Staged>, shards: array<seq<Staged>>,
                         finals: array<seq<Candidate>>)
    returns (conflicts: Option<nat>, ghost aggregates: seq<seq<Candidate>>)
    requires WellStaged(rules, records) && ValidShardCount(shards.Length) && finals.Length == shards.Length
    requires Partitioned(shards[..], records) && forall f :: 0 <= f < finals.Length ==> finals[f] == []
    modifies finals
    ensures conflicts.None? <==> SomeShardCollides(records, shards.Length)
    ensures conflicts.Some? ==>
              |aggregates| == shards.Length && Aggregated(rules, records, shards.Length, aggregates) &&
              FinalsHold(finals[..], aggregates) && conflicts.value == ConflictSum(records, shards.Length, shards.Length)
  {
    hide WellStaged, FinalsHold, IsAggregate, InShard, ValidShardCount, ConflictGroups, Collides, IDs, Aggregated;
    aggregates := [];
    NothingDone(rules, records, finals[..], shards.Length);
    var counted := 0;
    var i := 0;
    while i < shards.Length
      invariant 0 <= i <= shards.Length && Partitioned(shards[..], records) && |aggregates| == i
      invariant Aggregated(rules, records, shards.Length, aggregates) && FinalsHold(finals[..], aggregates)
      invariant counted == ConflictSum(records, shards.Length, i)
      invariant forall k: nat :: k < i ==> !Collides(InShard(records, shards.Length, k))
    {
      assert shards[i] == shards[..][i] == InShard(records, shards.Length, i);
      ShardStaged(rules, records, shards.Length, i);
      var aggregated := AggregateCandidates(rules, shards[i]);
      if aggregated.Err? {
        return None, aggregates;
      }
      var derived := aggregated.value.0;
      counted := counted + aggregated.value.1;
      FileShard(rules, records, aggregates, derived, finals);
      AggregatedNext(rules, records, shards.Length, aggregates, derived);
      aggregates := aggregates + [derived];
      i := i + 1;
    }
    conflicts := Some(counted);
  }

  lemma AggregatedNext(rules: Rules, records: seq<Staged>, count: nat, aggregates: seq<seq<Candidate>>,
                       derived: seq<Candidate>)
    requires Aggregated(rules, records, count, aggregates) && |aggregates| < count
    requires IsAggregate(rules, InShard(records, count, |aggregates|), derived)
    ensures Aggregated(rules, records, count, aggregates + [derived])
  {
    hide IsAggregate, InShard;
  }

  lemma NothingDone(rules: Rules, records: seq<Staged>, finals: seq<seq<Candidate>>, count: nat)
    requires forall f :: 0 <= f < |finals| ==> finals[f] == []
    ensures FinalsHold(finals, []) && Aggregated(rules, records, count, []) && ConflictSum(records, count, 0) == 0
  {
  }

  // ---- Without a collision, the shards together are one aggregation ----

  lemma {:induction false} FilingIn(rules: Rules, records: seq<Staged>, count: nat, aggregates: seq<seq<Candidate>>,
                                    f: nat)
    requires AllDerived(rules, records) && Aggregated(rules, records, count, aggregates)
    ensures FiledIn(rules, records, Filing(aggregates, count, f), count, |aggregates|, f)
  {
    hide AllDerived, IsAggregate, InShard, FiledIn, ToShard;
    if aggregates == [] {
      NoneFiled(rules, records, count, f);
    } else {
      var n := |aggregates| - 1;
      FilingIn(rules, records, count, aggregates[..n], f);
      FiledNext(rules, records, Filing(aggregates[..n], count, f), count, n, f, aggregates[n]);
    }
  }

  lemma NoneFiled(rules: Rules, records: seq<Staged>, count: nat, f: nat)
    ensures FiledIn(rules, records, [], count, 0, f)
  {
    hide CandidateOf, KeyShard, IDs, CandidateShard;
  }

  lemma {:induction false} ConflictsSummed(rules: Rules, records: seq<Staged>, count: nat, n: nat)
    requires AllDerived(rules, records) && ValidShardCount(count)
    ensures ConflictSum(records, count, n) == |ConflictsBelow(rules, records, count, n)|
  {
    hide AllDerived, InShard, ConflictGroups, ConflictsBelow, ValidShardCount;
    if n == 0 {
      AllConflicts(rules, records, count);
    } else {
      ConflictsSummed(rules, records, count, n - 1);
      ConflictsAdd(rules, records, count, n - 1);
    }
  }

  lemma {:induction false} EmissionEmits(rules: Rules, records: seq<Staged>, count: nat, aggregates: seq<seq<Candidate>>,
                                         n: nat)
    requires AllDerived(rules, records) && ValidShardCount(count) && n <= count == |aggregates|
    requires Aggregated(rules, records, count, aggregates)
    ensures Emitted(rules, records, count, n, Emission(aggregates, count, n))
  {
    hide AllDerived, ValidShardCount, Aggregated, Emitted, FiledIn, SortBy, Filing;
    if n == 0 {
      NothingEmitted(rules, records, count);
    } else {
      EmissionEmits(rules, records, count, aggregates, n - 1);
      FilingIn(rules, records, count, aggregates, n - 1);
      EmitShard(rules, records, count, n - 1, Emission(aggregates, count, n - 1), Filing(aggregates, count, n - 1));
    }
  }

  /** Sharding does not matter: without a collision, what the shards write is the one aggregate of all records, and they
      count its conflict groups. */
  lemma ShardsAgree(rules: Rules, records: seq<Staged>, count: nat, aggregates: seq<seq<Candidate>>)
    requires AllDerived(rules, records) && ValidShardCount(count) && |aggregates| == count
    requires Aggregated(rules, records, count, aggregates)
    ensures IsAggregate(rules, records, Emission(aggregates, count, count))
    ensures ConflictSum(records, count, count) == |ConflictGroups(records)|
  {
    hide AllDerived, ValidShardCount, Aggregated, Emitted, IsAggregate, ConflictGroups, ConflictsBelow, Emission,
         ConflictSum;
    EmissionEmits(rules, records, count, aggregates, count);
    AllEmitted(rules, records, count, Emission(aggregates, count, count));
    ConflictsSummed(rules, records, count, count);
    AllConflicts(rules, records, count);
  }

  ghost predicate Emits(rules: Rules, records: seq<Staged>, count: nat, done: nat, id: string, c: Candidate) {
    id in IDs(records) && c == CandidateOf(rules, records, id) &&
    CandidateShard(id, count).Some? && CandidateShard(id, count).value < done
  }

  /** The concatenated output after the shards below `done`: everything filed there, in id order. */
  ghost predicate Emitted(rules: Rules, records: seq<Staged>, count: nat, done: nat, output: seq<Candidate>) {
    Increasing(output, BY_ID) &&
    forall c :: c in output <==> exists id :: Emits(rules, records, count, done, id, c)
  }

  lemma FiledHas(rules: Rules, records: seq<Staged>, final: seq<Candidate>, count: nat, f: nat, c: Candidate)
    requires AllDerived(rules, records) && ValidShardCount(count) && FiledIn(rules, records, final, count, count, f)
    ensures c in final <==>
              exists id :: id in IDs(records) && c == CandidateOf(rules, records, id) && CandidateShard(id, count) == Some(f)
  {
    hide CandidateOf, KeyShard, IDs, CandidateShard, ValidShardCount;
    if id :| id in IDs(records) && c == CandidateOf(rules, records, id) && CandidateShard(id, count) == Some(f) {
      KeyShardKnown(rules, records, count, id);
      assert Files(rules, records, count, count, f, id, c);
    }
    if c in final {
      var id :| Files(rules, records, count, count, f, id, c);
    }
  }

  lemma KeyShardKnown(rules: Rules, records: seq<Staged>, count: nat, id: string)
    requires AllDerived(rules, records) && ValidShardCount(count) && id in IDs(records)
    ensures KeyShard(records, id, count).Some? && KeyShard(records, id, count).value < count
    ensures CandidateShard(id, count).Some? && CandidateShard(id, count).value < count
  {
    hide WellStaged, Collides, KeyShard, CandidateShard, ValidShardCount;
    BaseShards(rules, records, id, count);
  }

  /** A sorted shard extends the sorted output. */
  lemma EmitShard(rules: Rules, records: seq<Staged>, count: nat, i: nat, output: seq<Candidate>, final: seq<Candidate>)
    requires AllDerived(rules, records) && ValidShardCount(count) && Emitted(rules, records, count, i, output)
    requires FiledIn(rules, records, final, count, count, i)
    ensures Emitted(rules, records, count, i + 1, output + SortBy(final, BY_ID))
  {
    hide CandidateOf, KeyShard, IDs, CandidateShard, ValidShardCount, AllDerived, SortBy, FiledIn, CandidateLess;
    var sorted, n := SortBy(final, BY_ID), i + 1;
    SortedShard(rules, records, count, i, final);
    forall a, b | a in output && b in sorted
      ensures BY_ID(a, b)
    {
      var x :| Emits(rules, records, count, i, x, a);
      FiledHas(rules, records, final, count, i, b);
      var y :| y in IDs(records) && b == CandidateOf(rules, records, y) && CandidateShard(y, count) == Some(i);
      EarlierShard(rules, records, count, x, y, a, b);
    }
    forall c
      ensures c in output + sorted <==> exists id :: Emits(rules, records, count, n, id, c)
    {
      FiledHas(rules, records, final, count, i, c);
      EmitsNext(rules, records, count, i, c);
    }
  }

  lemma EmitsNext(rules: Rules, records: seq<Staged>, count: nat, i: nat, c: Candidate)
    ensures var n := i + 1;
            (exists id :: Emits(rules, records, count, n, id, c)) <==>
            ((exists id :: Emits(rules, records, count, i, id, c)) ||
             exists id :: id in IDs(records) && c == CandidateOf(rules, records, id) && CandidateShard(id, count) == Some(i))
  {
    hide CandidateOf, IDs, CandidateShard;
    var n := i + 1;
    if id :| Emits(rules, records, count, n, id, c) {
      assert Emits(rules, records, count, i, id, c) || CandidateShard(id, count) == Some(i);
    }
    if id :| Emits(rules, records, count, i, id, c) {
      assert Emits(rules, records, count, n, id, c);
    }
    if id :| id in IDs(records) && c == CandidateOf(rules, records, id) && CandidateShard(id, count) == Some(i) {
      assert Emits(rules, records, count, n, id, c);
    }
  }

  lemma SortedShard(rules: Rules, records: seq<Staged>, count: nat, i: nat, final: seq<Candidate>)
    requires FiledIn(rules, records, final, count, count, i)
    ensures Increasing(SortBy(final, BY_ID), BY_ID) && forall c :: c in SortBy(final, BY_ID) <==> c in final
  {
    hide HasFile, SortBy;
    CandidateOrder();
    SortMembers(final, BY_ID);
    forall a, b | 0 <= a < b < |final|
      ensures BY_ID(final[a], final[b]) || BY_ID(final[b], final[a])
    {
      LessTotal(final[a].candidateID, final[b].candidateID);
    }
    SortIncreasing(final, BY_ID);
  }

  lemma EarlierShard(rules: Rules, records: seq<Staged>, count: nat, x: string, y: string, a: Candidate, b: Candidate)
    requires AllDerived(rules, records) && ValidShardCount(count) && x in IDs(records) && y in IDs(records)
    requires a == CandidateOf(rules, records, x) && b == CandidateOf(rules, records, y)
    requires CandidateShard(x, count).Some? && CandidateShard(y, count).Some?
    requires CandidateShard(x, count).value < CandidateShard(y, count).value
    ensures BY_ID(a, b)
  {
    hide CandidateOf, IDs, CandidateShard, ValidShardCount, RulesOk, StagedOk, Base;
    CandidateKeepsID(rules, records, x);
    CandidateKeepsID(rules, records, y);
    BaseStaged(rules, records, x);
    BaseStaged(rules, records, y);
    ShardOrder(rules, Base(records, x), Base(records, y), count);
  }

  lemma AllEmitted(rules: Rules, records: seq<Staged>, count: nat, output: seq<Candidate>)
    requires AllDerived(rules, records) && ValidShardCount(count) && Emitted(rules, records, count, count, output)
    ensures IsAggregate(rules, records, output)
  {
    hide CandidateOf, IDs, CandidateShard, ValidShardCount, AllDerived, CandidateLess;
    forall id | id in IDs(records)
      ensures CandidateOf(rules, records, id) in output
    {
      KeyShardKnown(rules, records, count, id);
      assert Emits(rules, records, count, count, id, CandidateOf(rules, records, id));
    }
  }

  function WithStatus(candidates: seq<Candidate>, status: ReviewStatus): nat {
    Count(candidates, (c: Candidate) => c.validation.status == status)
  }

  lemma WithStatusNext(candidates: seq<Candidate>, c: Candidate, status: ReviewStatus)
    ensures WithStatus(candidates + [c], status) ==
            WithStatus(candidates, status) + if c.validation.status == status then 1 else 0
  {
    assert (candidates + [c])[..|candidates|] == candidates;
  }

  /** The third pass: the shards of the ids are sorted one by one, concatenated and counted. */
  method Concatenate(finals: array<seq<Candidate>>, ghost aggregates: seq<seq<Candidate>>)
    returns (output: seq<Candidate>, reviewReady: nat, untrusted: nat, quarantined: nat)
    requires FinalsHold(finals[..], aggregates)
    ensures output == Emission(aggregates, finals.Length, finals.Length)
    ensures reviewReady == WithStatus(output, ReviewReady) && untrusted == WithStatus(output, Untrusted)
    ensures quarantined == WithStatus(output, Quarantined)
  {
    hide SortBy, WithStatus, Filing;
    output, reviewReady, untrusted, quarantined := [], 0, 0, 0;
    NothingCounted();
    var i := 0;
    while i < finals.Length
      invariant 0 <= i <= finals.Length && output == Emission(aggregates, finals.Length, i)
      invariant reviewReady == WithStatus(output, ReviewReady) && untrusted == WithStatus(output, Untrusted)
      invariant quarantined == WithStatus(output, Quarantined)
    {
      var sorted := SortBy(finals[i], BY_ID);
      assert finals[..][i] == finals[i];
      ghost var start := output;
      var j := 0;
      while j < |sorted|
        invariant 0 <= j <= |sorted| && output == start + sorted[..j]
        invariant reviewReady == WithStatus(output, ReviewReady) && untrusted == WithStatus(output, Untrusted)
        invariant quarantined == WithStatus(output, Quarantined)
      {
        var c := sorted[j];
        WithStatusNext(output, c, ReviewReady);
        WithStatusNext(output, c, Untrusted);
        WithStatusNext(output, c, Quarantined);
        output := output + [c];
        match c.validation.status {
          case ReviewReady => reviewReady := reviewReady + 1;
          case Untrusted => untrusted := untrusted + 1;
          case Quarantined => quarantined := quarantined + 1;
        }
        j := j + 1;
      }
      assert sorted[..j] == sorted;
      i := i + 1;
    }
  }

  lemma NothingCounted()
    ensures forall s :: WithStatus([], s) == 0
  {
  }

  lemma NothingEmitted(rules: Rules, records: seq<Staged>, count: nat)
    ensures Emitted(rules, records, count, 0, []) && forall s :: WithStatus([], s) == 0
  {
    hide CandidateOf, IDs, CandidateShard;
  }

  // ---- A collision that no shard notices ----

  lemma {:induction false} FilingTwo(aggregates: seq<seq<Candidate>>, count: nat, f: nat, i: nat, k: nat, a: Candidate,
                                     b: Candidate)
    returns (p: nat, q: nat)
    requires i < k < |aggregates| && a in aggregates[i] && b in aggregates[k]
    requires CandidateShard(a.candidateID, count) == CandidateShard(b.candidateID, count) == Some(f)
    ensures p < q < |Filing(aggregates, count, f)|
    ensures Filing(aggregates, count, f)[p] == a && Filing(aggregates, count, f)[q] == b
  {
    hide CandidateShard;
    var n := |aggregates| - 1;
    if k < n {
      p, q := FilingTwo(aggregates[..n], count, f, i, k, a, b);
    } else {
      p := FilingOne(aggregates[..n], count, f, i, a);
      q := ToShardHas(aggregates[n], count, f, b);
      q := |Filing(aggregates[..n], count, f)| + q;
    }
  }

  lemma {:induction false} FilingOne(aggregates: seq<seq<Candidate>>, count: nat, f: nat, i: nat, a: Candidate)
    returns (p: nat)
    requires i < |aggregates| && a in aggregates[i] && CandidateShard(a.candidateID, count) == Some(f)
    ensures p < |Filing(aggregates, count, f)| && Filing(aggregates, count, f)[p] == a
  {
    hide CandidateShard;
    var n := |aggregates| - 1;
    if i < n {
      p := FilingOne(aggregates[..n], count, f, i, a);
    } else {
      p := ToShardHas(aggregates[n], count, f, a);
      p := |Filing(aggregates[..n], count, f)| + p;
    }
  }

  lemma {:induction false} ToShardHas(candidates: seq<Candidate>, count: nat, f: nat, c: Candidate) returns (p: nat)
    requires c in candidates && CandidateShard(c.candidateID, count) == Some(f)
    ensures p < |ToShard(candidates, count, f)| && ToShard(candidates, count, f)[p] == c
  {
    hide CandidateShard;
    var n := |candidates| - 1;
    if c == candidates[n] {
      p := |ToShard(candidates[..n], count, f)|;
    } else {
      assert candidates == candidates[..n] + [candidates[n]];
      p := ToShardHas(candidates[..n], count, f, c);
    }
  }

  /** Two places of one final shard with one id stay two places of the output. */
  lemma {:induction false} EmissionTwo(aggregates: seq<seq<Candidate>>, count: nat, n: nat, f: nat, p: nat, q: nat)
    requires f < n && p < q < |Filing(aggregates, count, f)|
    requires Filing(aggregates, count, f)[p].candidateID == Filing(aggregates, count, f)[q].candidateID
    ensures !Increasing(Emission(aggregates, count, n), BY_ID)
  {
    hide Filing, SortBy, Increasing;
    var sorted := SortBy(Filing(aggregates, count, n - 1), BY_ID);
    if f < n - 1 {
      EmissionTwo(aggregates, count, n - 1, f, p, q);
      IncreasingPart(Emission(aggregates, count, n - 1), sorted);
    } else {
      SortMembers(Filing(aggregates, count, f), BY_ID);
      TwoPlaces(Filing(aggregates, count, f), sorted, p, q);
      SameIDTwice(sorted, Filing(aggregates, count, f)[p], Filing(aggregates, count, f)[q]);
      IncreasingPart(Emission(aggregates, count, n - 1), sorted);
    }
  }

  lemma IncreasingPart(a: seq<Candidate>, b: seq<Candidate>)
    ensures Increasing(a + b, BY_ID) ==> Increasing(a, BY_ID) && Increasing(b, BY_ID)
  {
    hide CandidateLess;
    if Increasing(a + b, BY_ID) {
      forall i, j | 0 <= i < j < |a|
        ensures BY_ID(a[i], a[j])
      {
        assert (a + b)[i] == a[i] && (a + b)[j] == a[j];
      }
      forall i, j | 0 <= i < j < |b|
        ensures BY_ID(b[i], b[j])
      {
        assert (a + b)[|a| + i] == b[i] && (a + b)[|a| + j] == b[j];
      }
    }
  }

  lemma SameIDTwice(candidates: seq<Candidate>, a: Candidate, b: Candidate)
    requires a.candidateID == b.candidateID
    requires exists i, j ::
               0 <= i < |candidates| && 0 <= j < |candidates| && i != j && candidates[i] == a && candidates[j] == b
    ensures !Increasing(candidates, BY_ID)
  {
    LessIrreflexive(a.candidateID);
  }

  /** A collision that no shard notices puts one id twice into the output, which is then not ascending. */
  lemma UnnoticedCollision(rules: Rules, records: seq<Staged>, count: nat, aggregates: seq<seq<Candidate>>)
    requires WellStaged(rules, records) && ValidShardCount(count) && |aggregates| == count
    requires Aggregated(rules, records, count, aggregates)
    requires Collides(records) && !SomeShardCollides(records, count)
    ensures !Increasing(Emission(aggregates, count, count), BY_ID)
  {
    hide StagedOk, RulesOk, ShardForHex, CandidateShard, ValidShardCount, Aggregated, Emission, Filing, Increasing,
         InShard, SameIdentity, Collides;
    var r, q := Colliding(records);
    StagedShards(rules, r, count);
    StagedShards(rules, q, count);
    var i, k := ShardForHex(r.key, count).value, ShardForHex(q.key, count).value;
    if i == k {
      CollisionSeenExactly(records, count, i);
      assert false;
    }
    var a := ShardHas(rules, records, count, aggregates, r, i);
    var b := ShardHas(rules, records, count, aggregates, q, k);
    var f := CandidateShard(r.candidateID, count).value;
    var m, n;
    if i < k {
      m, n := FilingTwo(aggregates, count, f, i, k, a, b);
    } else {
      m, n := FilingTwo(aggregates, count, f, k, i, b, a);
    }
    EmissionTwo(aggregates, count, count, f, m, n);
  }

  lemma Colliding(records: seq<Staged>) returns (r: Staged, q: Staged)
    requires Collides(records)
    ensures r in records && q in records && r.candidateID == q.candidateID && !SameIdentity(r, q)
  {
    r, q :| r in records && q in records && r.candidateID == q.candidateID && !SameIdentity(r, q);
  }

  lemma ShardHas(rules: Rules, records: seq<Staged>, count: nat, aggregates: seq<seq<Candidate>>, r: Staged, i: nat)
    returns (c: Candidate)
    requires Aggregated(rules, records, count, aggregates) && i < |aggregates| && r in records
    requires ShardForHex(r.key, count) == Some(i)
    ensures c in aggregates[i] && c.candidateID == r.candidateID
  {
    hide ShardForHex, CandidateOf, Increasing;
    var shard := InShard(records, count, i);
    InShardMembers(records, count, i);
    assert r.candidateID in IDs(shard);
    c := CandidateOf(rules, shard, r.candidateID);
    CandidateKeepsID(rules, shard, r.candidateID);
    assert IsAggregate(rules, shard, aggregates[i]);
  }

  // ---- The build as a whole ----

  lemma StagedAreWell(rules: Rules, episodes: seq<Episode>)
    requires RulesOk(rules)
    ensures WellStaged(rules, AllStaged(rules, episodes))
  {
    hide RulesOk, StagedOk, AllStaged;
    AllStagedMembers(rules, episodes);
  }

  lemma StagedAreDerived(rules: Rules, episodes: seq<Episode>)
    requires RulesOk(rules) && !Collides(AllStaged(rules, episodes))
    ensures AllDerived(rules, AllStaged(rules, episodes))
  {
    hide RulesOk, WellStaged, AllStaged, Collides;
    StagedAreWell(rules, episodes);
  }

  datatype BuildError = BadShardCount | IdentityCollision

  function CountFor(shardCount: int): int {
    if shardCount == 0 then DEFAULT_SHARDS else shardCount
  }

  /** What a build writes: the sorted candidates of every shard's own aggregate. */
  ghost predicate WrittenFrom(rules: Rules, records: seq<Staged>, count: nat, candidates: seq<Candidate>) {
    exists aggregates :: |aggregates| == count && Aggregated(rules, records, count, aggregates) &&
      candidates == Emission(aggregates, count, count)
  }

  /** Build; zero asks for the default count. It refuses a bad count and a collision within one shard. Otherwise it writes
      the shards' own aggregates, and these are one aggregation of all observations, whatever the count, exactly when no
      two observations collide; a collision across shards leaves an output that is not in ascending id order. */
  method Build(rules: Rules, episodes: seq<Episode>, shardCount: int) returns (r: Result<BuildResult, BuildError>)
    requires RulesOk(rules)
    ensures r == Err(BadShardCount) <==> shardCount !in {0, 1, 2, 4, 8, 16, 32, 64, 128, 256}
    ensures ValidShardCount(CountFor(shardCount)) ==>
              (r == Err(IdentityCollision) <==> SomeShardCollides(AllStaged(rules, episodes), CountFor(shardCount)))
    ensures r.Ok? ==> Counted(r.value, |episodes|, |AllStaged(rules, episodes)|) && ValidShardCount(CountFor(shardCount)) &&
                      WrittenFrom(rules, AllStaged(rules, episodes), CountFor(shardCount), r.value.candidates)
    ensures r.Ok? ==> forall c :: c in r.value.candidates ==> CountsFollow(c) && StateFollows(c)
    ensures r.Ok? && !Collides(AllStaged(rules, episodes)) ==>
              IsAggregate(rules, AllStaged(rules, episodes), r.value.candidates) &&
              r.value.conflictGroups == |ConflictGroups(AllStaged(rules, episodes))|
    ensures r.Ok? && Collides(AllStaged(rules, episodes)) ==> !Increasing(r.value.candidates, BY_ID)
    ensures !Collides(AllStaged(rules, episodes)) && ValidShardCount(CountFor(shardCount)) ==> r.Ok?
  {
    hide WellStaged, IsAggregate, RulesOk, AllStaged, ConflictGroups, WithStatus, ValidShardCount, Collides, Aggregated,
         FinalsHold, Emission, SomeShardCollides, Increasing, ConflictSum, CountsFollow, StateFollows;
    var count := CountFor(shardCount);
    CountsAllowed(shardCount);
    var valid := CheckShardCount(count);
    if !valid {
      return Err(BadShardCount);
    }
    StagedAreWell(rules, episodes);
    ghost var records := AllStaged(rules, episodes);
    var shards := new seq<Staged>[count](_ => []);
    var observations := StageObservations(rules, episodes, shards);
    var finals := new seq<Candidate>[count](_ => []);
    ghost var aggregates;
    var conflicts;
    conflicts, aggregates := AggregateShards(rules, records, shards, finals);
    SeenIsReal(records, count);
    if conflicts.None? {
      return Err(IdentityCollision);
    }
    var candidates, reviewReady, untrusted, quarantined := Concatenate(finals, aggregates);
    BuildWrites(rules, records, count, aggregates);
    EmissionFollows(rules, records, count, aggregates);
    r := Ok(BuildResult(|episodes|, observations, candidates, reviewReady, untrusted, quarantined, conflicts.value));
  }

  lemma {:induction false} FilingMembers(rules: Rules, records: seq<Staged>, count: nat, aggregates: seq<seq<Candidate>>,
                                         f: nat)
    requires Aggregated(rules, records, count, aggregates)
    ensures forall c :: c in Filing(aggregates, count, f) ==>
              exists i :: 0 <= i < |aggregates| && c in aggregates[i]
  {
    hide ToShard, Increasing, IsAggregate;
    if aggregates != [] {
      var n := |aggregates| - 1;
      FilingMembers(rules, records, count, aggregates[..n], f);
      InAggregate(rules, InShard(records, count, n), aggregates[n], count, f);
    }
  }

  lemma InAggregate(rules: Rules, records: seq<Staged>, candidates: seq<Candidate>, count: nat, f: nat)
    requires IsAggregate(rules, records, candidates)
    ensures forall c :: c in ToShard(candidates, count, f) ==> c in candidates
  {
    hide CandidateOf, IDs, Increasing;
    ToShardMembers(candidates, count, f);
  }

  lemma {:induction false} EmissionMembers(rules: Rules, records: seq<Staged>, count: nat, aggregates: seq<seq<Candidate>>,
                                           n: nat)
    requires Aggregated(rules, records, count, aggregates)
    ensures forall c :: c in Emission(aggregates, count, n) ==>
              exists i :: 0 <= i < |aggregates| && c in aggregates[i]
  {
    hide Filing, IsAggregate, Aggregated, SortBy, CandidateLess;
    if n > 0 {
      var filed := Filing(aggregates, count, n - 1);
      EmissionMembers(rules, records, count, aggregates, n - 1);
      FilingMembers(rules, records, count, aggregates, n - 1);
      SortMembers(filed, BY_ID);
      forall c | c in Emission(aggregates, count, n)
        ensures exists i :: 0 <= i < |aggregates| && c in aggregates[i]
      {
        assert c in Emission(aggregates, count, n - 1) || c in filed;
      }
    }
  }

  /** Whatever the shards write follows from its own observations. */
  lemma EmissionFollows(rules: Rules, records: seq<Staged>, count: nat, aggregates: seq<seq<Candidate>>)
    requires Aggregated(rules, records, count, aggregates)
    ensures forall c :: c in Emission(aggregates, count, count) ==> CountsFollow(c) && StateFollows(c)
  {
    hide Emission, CountsFollow, StateFollows, CandidateOf, IDs, Increasing, InShard;
    EmissionMembers(rules, records, count, aggregates, count);
    forall c | c in Emission(aggregates, count, count)
      ensures CountsFollow(c) && StateFollows(c)
    {
      var i :| 0 <= i < |aggregates| && c in aggregates[i];
      assert IsAggregate(rules, InShard(records, count, i), aggregates[i]);
      var id :| id in IDs(InShard(records, count, i)) && c == CandidateOf(rules, InShard(records, count, i), id);
      CandidateFollows(rules, InShard(records, count, i), id);
    }
  }

  /** The counters of a result count its own candidates. */
  predicate Counted(b: BuildResult, episodes: nat, observations: nat) {
    b.episodes == episodes && b.observations == observations && b.reviewReady == WithStatus(b.candidates, ReviewReady) &&
    b.untrusted == WithStatus(b.candidates, Untrusted) && b.quarantined == WithStatus(b.candidates, Quarantined)
  }

  lemma SeenIsReal(records: seq<Staged>, count: nat)
    ensures SomeShardCollides(records, count) ==> Collides(records)
  {
    hide ShardForHex, SameIdentity;
    if k: nat :| k < count && Collides(InShard(records, count, k)) {
      CollisionSeenExactly(records, count, k);
    }
  }

  lemma BuildWrites(rules: Rules, records: seq<Staged>, count: nat, aggregates: seq<seq<Candidate>>)
    requires WellStaged(rules, records) && ValidShardCount(count) && |aggregates| == count
    requires Aggregated(rules, records, count, aggregates) && !SomeShardCollides(records, count)
    ensures var output := Emission(aggregates, count, count);
            WrittenFrom(rules, records, count, output) &&
            (!Collides(records) ==> IsAggregate(rules, records, output) &&
                                    ConflictSum(records, count, count) == |ConflictGroups(records)|) &&
            (Collides(records) ==> !Increasing(output, BY_ID))
  {
    hide WellStaged, ValidShardCount, Aggregated, SomeShardCollides, Emission, IsAggregate, Collides, ConflictSum,
         Increasing, ConflictGroups;
    if Collides(records) {
      UnnoticedCollision(rules, records, count, aggregates);
    } else {
      ShardsAgree(rules, records, count, aggregates);
    }
  }

  /** The bounds and the power of two that the build asks for. */
  method CheckShardCount(count: int) returns (valid: bool)
    ensures valid <==> ValidShardCount(count)
    ensures valid ==> count > 0
  {
    var power, b := 1, 0;
    while b < 8 && power < count
      invariant 0 <= b <= 8 && power == Pow2(b)
      invariant forall k: nat :: k < b ==> Pow2(k) != count
      decreases 8 - b
    {
      power := 2 * power;
      b := b + 1;
    }
    valid := power == count;
    if !valid && ValidShardCount(count) {
      var k: nat :| k <= 8 && count == Pow2(k);
      if b < k {
        PowersGrow(b, k);
      }
      assert Pow2(k) != count;
    }
  }

  lemma {:induction false} PowersGrow(a: nat, b: nat)
    requires a < b
    ensures Pow2(a) < Pow2(b)
  {
    if a + 1 < b {
      PowersGrow(a, b - 1);
    }
  }

  lemma CountsAllowed(shardCount: int)
    ensures ValidShardCount(CountFor(shardCount)) <==> shardCount in {0, 1, 2, 4, 8, 16, 32, 64, 128, 256}
  {
    PowersTo8();
  }

  lemma DefaultIsValid()
    ensures ValidShardCount(DEFAULT_SHARDS)
  {
    assert Pow2(6) == 64;
  }
}
