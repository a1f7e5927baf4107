/** The producer meets the verifier: a generation built from well-formed episodes is accepted. */
module CandidateAccept {
  import opened Primitives
  import opened Ordering
  import opened Sorting
  import opened CandidateTypes
  import opened CandidateMerge
  import opened CandidateAggregate
  import opened CandidateDerive
  import opened CandidateMeaning
  import opened CandidateShards
  import opened CandidateBuild
  import opened CandidateVerify

  // ---- Well-formed episodes ----

  predicate EventListOk(events: seq<string>) {
    forall e :: e in events && e != "" ==> !Blank(e)
  }

  predicate StatementOk(s: Statement) {
    ValidPrefixedHash(s.id, "statement-") && !s.kind.OtherStatement? && s.firstSeen != ZERO_TIME &&
    s.lastSeen != ZERO_TIME && s.firstSeen <= s.lastSeen && EventListOk(s.evidence) && exists e :: e in s.evidence && e != ""
  }

  predicate EpisodeOk(e: Episode) {
    ValidPrefixedHash(e.id, "episode-") && ValidAgent(e.agent) && (forall s :: s in e.statements ==> StatementOk(s)) &&
    forall p, c :: p in e.compactions && c in p.checks ==> EventListOk(c.correctionEvents)
  }

  type StatementKey = (string, string)

  function KeyOf(r: Staged): StatementKey {
    (r.observation.episodeID, r.observation.statementID)
  }

  /** How often a statement occurs in the episodes. */
  function Occurrences(episodes: seq<Episode>, key: StatementKey): nat {
    if episodes == [] then 0
    else
      var n := |episodes| - 1;
      Occurrences(episodes[..n], key) +
      if episodes[n].id == key.0 then Count(episodes[n].statements, (s: Statement) => s.id == key.1) else 0
  }

  /** No (episode, statement) pair occurs twice, and everything is well formed. */
  ghost predicate WellFormed(episodes: seq<Episode>) {
    (forall e :: e in episodes ==> EpisodeOk(e)) && forall key :: Occurrences(episodes, key) <= 1
  }

  function RecordsWith(records: seq<Staged>, key: StatementKey): nat {
    Count(records, (r: Staged) => KeyOf(r) == key)
  }

  lemma {:induction false} DeriveAllOnce(rules: Rules, e: Episode, statements: seq<Statement>, key: StatementKey)
    ensures RecordsWith(DeriveAll(rules, e, statements), key) <=
            if e.id == key.0 then Count(statements, (s: Statement) => s.id == key.1) else 0
  {
    hide DeriveStatement, AppendUnique, CorrectionsOf;
    if statements != [] {
      var n := |statements| - 1;
      DeriveAllOnce(rules, e, statements[..n], key);
      var front := DeriveAll(rules, e, statements[..n]);
      var staged := RecordOf(rules, e, statements[n]);
      RecordStaged(rules, e, statements[n]);
      assert staged.Some? ==> (front + [staged.value])[..|front|] == front;
      assert front + [] == front;
    }
  }

  lemma {:induction false} AllStagedOnce(rules: Rules, episodes: seq<Episode>, key: StatementKey)
    ensures RecordsWith(AllStaged(rules, episodes), key) <= Occurrences(episodes, key)
  {
    hide DeriveAll, SortBy;
    if episodes != [] {
      var n := |episodes| - 1;
      var e := episodes[n];
      AllStagedOnce(rules, episodes[..n], key);
      DeriveAllOnce(rules, e, e.statements, key);
      CountPermutation(Derived(rules, e), DeriveAll(rules, e, e.statements), (r: Staged) => KeyOf(r) == key);
      CountConcat(AllStaged(rules, episodes[..n]), Derived(rules, e), (r: Staged) => KeyOf(r) == key);
    }
  }

  lemma {:induction false} CountTwo<T>(s: seq<T>, i: nat, j: nat, p: T -> bool)
    requires i < j < |s| && p(s[i]) && p(s[j])
    ensures Count(s, p) >= 2
  {
    var n := |s| - 1;
    if j < n {
      CountTwo(s[..n], i, j, p);
    } else {
      CountOneOf(s[..n], i, p);
    }
  }

  lemma {:induction false} CountOneOf<T>(s: seq<T>, i: nat, p: T -> bool)
    requires i < |s| && p(s[i])
    ensures Count(s, p) >= 1
  {
    var n := |s| - 1;
    if i < n {
      CountOneOf(s[..n], i, p);
    }
  }

  ghost predicate KeysDistinct(records: seq<Staged>) {
    forall i, j :: 0 <= i < j < |records| ==> KeyOf(records[i]) != KeyOf(records[j])
  }

  /** Distinct statements yield records with distinct keys. */
  lemma StagedDistinct(rules: Rules, episodes: seq<Episode>)
    requires WellFormed(episodes)
    ensures KeysDistinct(AllStaged(rules, episodes))
  {
    hide AllStaged, Occurrences, EpisodeOk;
    var records := AllStaged(rules, episodes);
    forall i, j | 0 <= i < j < |records|
      ensures KeyOf(records[i]) != KeyOf(records[j])
    {
      AllStagedOnce(rules, episodes, KeyOf(records[i]));
      if KeyOf(records[i]) == KeyOf(records[j]) {
        CountTwo(records, i, j, (r: Staged) => KeyOf(r) == KeyOf(records[i]));
      }
    }
  }

  // ---- Every derived record is well formed ----

  /** A record whose observation the checker accepts and whose lists are already normalized. */
  ghost predicate RecordOk(rules: Rules, r: Staged) {
    StagedOk(rules, r) && ValidAgent(r.agent) && ValidObservation(r.observation) && Normalized(r.observation) == r.observation
  }

  lemma {:induction false} CorrectionsInOk(checks: seq<Check>, id: string)
    requires forall c :: c in checks ==> EventListOk(c.correctionEvents)
    ensures EventListOk(CorrectionsIn(checks, id))
  {
    if checks != [] {
      var n := |checks| - 1;
      assert checks[n] in checks && forall c :: c in checks[..n] ==> c in checks;
      CorrectionsInOk(checks[..n], id);
    }
  }

  lemma {:induction false} CorrectionsOk(compactions: seq<Checkpoint>, id: string)
    requires forall p, c :: p in compactions && c in p.checks ==> EventListOk(c.correctionEvents)
    ensures EventListOk(CorrectionsOf(compactions, id))
  {
    if compactions != [] {
      var n := |compactions| - 1;
      assert compactions[n] in compactions && forall p :: p in compactions[..n] ==> p in compactions;
      CorrectionsOk(compactions[..n], id);
      CorrectionsInOk(compactions[n].checks, id);
    }
  }

  lemma UniqueListOk(events: seq<string>)
    requires EventListOk(events)
    ensures SortedUniqueStrings(AppendUnique([], events), true)
    ensures AppendUnique([], AppendUnique([], events)) == AppendUnique([], events)
    ensures (exists e :: e in events && e != "") ==> AppendUnique([], events) != []
  {
    var r := AppendUnique([], events);
    AdjacentIsSorted(r);
    SortedUnique(AppendUnique([], r), r);
  }

  lemma SupportsOk(types: set<SupportType>)
    requires types != {}
    ensures AscendingSupports(SortedSupports(types))
    ensures SortedSupports(set x | x in SortedSupports(types)) == SortedSupports(types)
  {
    SortedSupportsAscend(types);
    var t :| t in types;
    assert t in SortedSupports(types);
    assert (set x | x in SortedSupports(types)) == types;
  }

  lemma SupportNotEmpty(rules: Rules, s: Statement, corrections: seq<string>)
    ensures SupportOf(rules, s, corrections).Some? ==> SupportOf(rules, s, corrections).value.1 != {}
  {
    if rules.remembers(s.text) {
      assert SupportOf(rules, s, corrections).Some? ==> ExplicitRemember in SupportOf(rules, s, corrections).value.1;
    } else if corrections != [] {
      assert SupportOf(rules, s, corrections).Some? ==> UserCorrection in SupportOf(rules, s, corrections).value.1;
    }
  }

  lemma RecordIsOk(rules: Rules, e: Episode, s: Statement)
    requires EpisodeOk(e) && s in e.statements && RecordOf(rules, e, s).Some?
    ensures RecordOk(rules, RecordOf(rules, e, s).value)
  {
    hide SortedSupports, AppendUnique, SupportOf, CorrectionsOf, StagedOk, EventListOk;
    var corrections := AppendUnique([], CorrectionsOf(e.compactions, s.id));
    RecordStaged(rules, e, s);
    SupportNotEmpty(rules, s, corrections);
    SupportsOk(SupportOf(rules, s, corrections).value.1);
    CorrectionsOk(e.compactions, s.id);
    UniqueListOk(CorrectionsOf(e.compactions, s.id));
    UniqueListOk(s.evidence);
  }

  lemma StagedRecordsOk(rules: Rules, episodes: seq<Episode>)
    requires WellFormed(episodes)
    ensures forall r :: r in AllStaged(rules, episodes) ==> RecordOk(rules, r)
  {
    hide AllStaged, Occurrences, EpisodeOk, RecordOk, Derived, RecordOf;
    AllStagedMembers(rules, episodes);
    forall r | r in AllStaged(rules, episodes)
      ensures RecordOk(rules, r)
    {
      var e :| e in episodes && r in Derived(rules, e);
      DerivedMembers(rules, e);
      var s :| s in e.statements && RecordOf(rules, e, s) == Some(r);
      RecordIsOk(rules, e, s);
    }
  }

  // ---- Each candidate is valid ----

  /** Observations of distinct statements are merged into themselves. */
  lemma MergedIsSame(observations: seq<Observation>)
    requires forall i, j :: 0 <= i < j < |observations| ==> !SameKey(observations[i], observations[j])
    requires forall o :: o in observations ==> Normalized(o) == o
    ensures forall m :: m in Merged(observations) <==> m in observations
    ensures Increasing(Merged(observations), BY_STATEMENT)
  {
    hide Merged, Collects;
    var from := Elements(observations);
    MergedIsMerge(observations);
    forall a, b | a in from && b in from && SameKey(a, b)
      ensures a == b
    {
      var i :| 0 <= i < |observations| && observations[i] == a;
      var j :| 0 <= j < |observations| && observations[j] == b;
      SamePlace(observations, i, j);
    }
    forall m, o | m in Merged(observations) && o in from && SameKey(o, m)
      ensures m == o
    {
      CollectsOne(o, from - {o});
      assert from - {o} + {o} == from;
      CollectsUnique(m, o, from);
    }
    forall m | m in Merged(observations)
      ensures m in observations
    {
      var o := SomeCollected(m, from);
      assert m == o;
    }
    forall o | o in observations
      ensures o in Merged(observations)
    {
      assert o in from;
      var m :| m in Merged(observations) && SameKey(o, m);
    }
  }

  /** Records as a build stages them from well-formed episodes. */
  ghost predicate Good(rules: Rules, records: seq<Staged>) {
    AllDerived(rules, records) && (forall r :: r in records ==> RecordOk(rules, r)) && KeysDistinct(records)
  }

  lemma {:induction false} OwnKeysDistinct(records: seq<Staged>, id: string)
    requires KeysDistinct(records)
    ensures KeysDistinct(Own(records, id))
  {
    if records != [] {
      var n := |records| - 1;
      OwnKeysDistinct(records[..n], id);
      var front := Own(records[..n], id);
      forall i | 0 <= i < |front|
        ensures KeyOf(front[i]) != KeyOf(records[n])
      {
        assert front[i] in records[..n];
        var k :| 0 <= k < n && records[k] == front[i];
      }
    }
  }

  lemma CandidateObservations(rules: Rules, records: seq<Staged>, id: string)
    requires Good(rules, records) && id in IDs(records)
    ensures var c := CandidateOf(rules, records, id);
            (forall o :: o in c.observations <==> exists r :: r in records && r.candidateID == id && r.observation == o) &&
            Increasing(c.observations, BY_STATEMENT) && c.observations != [] &&
            c.observations == Merged(ObservationsOf(Own(records, id)))
  {
    hide Merged, TotalsOf, ValidationFor, RelatedTo, OpposedTo, RulesOk, StagedOk, LeastText, ValidObservation,
         Quarantine;
    var own := Own(records, id);
    var observations := ObservationsOf(own);
    OwnKeysDistinct(records, id);
    ElementsOf(own);
    forall o | o in observations
      ensures Normalized(o) == o
    {
      assert o in Elements(observations);
      var r :| r in own && r.observation == o;
      assert r in records;
    }
    MergedIsSame(observations);
    MergedNonEmpty(observations);
    assert forall o :: o in observations <==> o in Elements(observations);
  }

  /** The records of a candidate agree on everything but their texts, and the texts normalize alike. */
  lemma OwnAgree(rules: Rules, records: seq<Staged>, id: string)
    requires Good(rules, records) && id in IDs(records)
    ensures var own := Own(records, id);
            own[0] in records && own[0].candidateID == id && rules.normalize(LeastText(own)) == own[0].normalized &&
            (NeedsApproval(own) <==> own[0].approval)
  {
    hide RulesOk, KeysDistinct, RecordOk, Collides;
    var own := Own(records, id);
    assert own[0] in own;
    forall x | x in own
      ensures x.approval == own[0].approval && rules.normalize(x.text) == own[0].normalized
    {
      SameIDSameIdentity(rules, records, x, own[0]);
    }
  }

  lemma CandidateIdentity(rules: Rules, records: seq<Staged>, id: string)
    requires Good(rules, records) && id in IDs(records)
    ensures IdentityValid(rules, CandidateOf(rules, records, id))
  {
    hide Merged, TotalsOf, ValidationFor, RelatedTo, OpposedTo, ValidObservation, SortedSupports, Quarantine,
         KeysDistinct, Own, LeastText, NeedsApproval, Collides;
    OwnAgree(rules, records, id);
    assert RecordOk(rules, Own(records, id)[0]);
    IDHasPrefix(rules, Own(records, id)[0]);
  }

  lemma IDHasPrefix(rules: Rules, r: Staged)
    requires RulesOk(rules) && StagedOk(rules, r)
    ensures ValidPrefixedHash(r.candidateID, CANDIDATE_PREFIX)
  {
    assert r.candidateID[|CANDIDATE_PREFIX|..] == rules.idHash(r.kind, r.agent, r.normalized);
  }

  lemma RelationIDs(rules: Rules, records: seq<Staged>, ids: set<string>)
    requires AllDerived(rules, records) && ids <= IDs(records)
    ensures SortedUniqueIDs(SortedSet(ids)) && (SortedSet(ids) != [] <==> ids != {})
  {
    hide RulesOk, StagedOk;
    var s := SortedSet(ids);
    AdjacentIsSorted(s);
    forall x | x in s
      ensures ValidPrefixedHash(x, CANDIDATE_PREFIX)
    {
      assert x in Elements(s);
      var r :| r in records && r.candidateID == x;
      IDHasPrefix(rules, r);
    }
    assert s != [] ==> s[0] in Elements(s);
    assert ids != {} ==> exists x :: x in Elements(s);
  }

  /** The parts of a candidate, in terms of its base, its observations and its links. */
  ghost predicate PartsOk(rules: Rules, c: Candidate, base: Staged, observations: seq<Observation>, related: set<string>,
                          opposed: set<string>)
  {
    observations != [] &&
    var t := TotalsOf(observations);
    var plain := ValidationFor(SupportSet(t), c.approval);
    c.agent == base.agent && c.key == base.key && c.polarity == base.polarity && ExpectedTotals(c, t) &&
    c.related == SortedSet(related) && c.conflicting == SortedSet(opposed) &&
    c.conflictGroup == (if opposed == {} then "" else ConflictID(rules, base.agent, base.core)) &&
    c.validation == (if opposed == {} then plain else Quarantine(plain))
  }

  lemma CandidateParts(rules: Rules, records: seq<Staged>, id: string)
    requires AllDerived(rules, records) && id in IDs(records)
    ensures PartsOk(rules, CandidateOf(rules, records, id), Base(records, id),
                    Merged(ObservationsOf(Own(records, id))), RelatedTo(records, id), OpposedTo(records, id))
  {
    hide Merged, TotalsOf, ValidationFor, RelatedTo, OpposedTo, RulesOk, StagedOk, LeastText, SortedSupports,
         Quarantine, IDs, NeedsApproval, WellStaged;
    MergedNonEmpty(ObservationsOf(Own(records, id)));
    BaseStaged(rules, records, id);
  }

  lemma NoOpposedNoList(ids: set<string>)
    ensures ids == {} ==> SortedSet(ids) == []
  {
    assert forall x :: x in SortedSet(ids) <==> x in Elements(SortedSet(ids));
    if SortedSet(ids) != [] {
      assert SortedSet(ids)[0] in SortedSet(ids);
    }
  }

  ghost predicate StateOk(rules: Rules, c: Candidate) {
    c.observations != [] && ExpectedTotals(c, TotalsOf(c.observations)) && ExpectedState(rules, c, TotalsOf(c.observations))
  }

  lemma PartsAreState(rules: Rules, c: Candidate, base: Staged, related: set<string>, opposed: set<string>)
    requires PartsOk(rules, c, base, c.observations, related, opposed)
    requires rules.core(rules.normalize(c.text)) == base.core
    requires SortedUniqueIDs(SortedSet(related)) && SortedUniqueIDs(SortedSet(opposed))
    ensures StateOk(rules, c)
  {
    hide TotalsOf, ValidationFor, SortedSupports, Quarantine, ExpectedTotals, SortedUniqueIDs;
    NoOpposedNoList(opposed);
    assert opposed != {} ==> exists x :: x in Elements(SortedSet(opposed));
  }

  lemma CandidateState(rules: Rules, records: seq<Staged>, id: string)
    requires Good(rules, records) && id in IDs(records)
    ensures StateOk(rules, CandidateOf(rules, records, id))
  {
    hide Merged, KeysDistinct, RecordOk, CandidateOf, IDs, Base, PartsOk, StateOk, SortedUniqueIDs, AllDerived,
         Increasing;
    CandidateObservations(rules, records, id);
    CandidateParts(rules, records, id);
    CandidateCore(rules, records, id);
    RelationIDs(rules, records, RelatedTo(records, id));
    RelationIDs(rules, records, OpposedTo(records, id));
    PartsAreState(rules, CandidateOf(rules, records, id), Base(records, id), RelatedTo(records, id), OpposedTo(records, id));
  }

  lemma CandidateCore(rules: Rules, records: seq<Staged>, id: string)
    requires Good(rules, records) && id in IDs(records)
    ensures rules.core(rules.normalize(CandidateOf(rules, records, id).text)) == Base(records, id).core
  {
    hide Merged, TotalsOf, ValidationFor, RelatedTo, OpposedTo, ValidObservation, SortedSupports, Quarantine,
         KeysDistinct, Own, LeastText, NeedsApproval, Collides;
    OwnAgree(rules, records, id);
  }

  lemma CandidateTimes(observations: seq<Observation>, c: Candidate)
    requires observations != [] && forall o :: o in observations ==> ValidObservation(o)
    requires ExpectedTotals(c, TotalsOf(observations))
    ensures c.firstSeen != ZERO_TIME && c.lastSeen != ZERO_TIME && c.firstSeen <= c.lastSeen
  {
    hide SortedUniqueStrings, AscendingSupports, ValidPrefixedHash, TotalsOf, EpisodesIn, EventsIn;
    TotalsMean(observations);
    assert observations[0] in observations;
  }

  /** Every candidate of a build passes validateCandidate. */
  lemma BuiltCandidateValid(rules: Rules, records: seq<Staged>, id: string)
    requires Good(rules, records) && id in IDs(records)
    ensures CandidateValid(rules, CandidateOf(rules, records, id))
  {
    hide Merged, TotalsOf, IdentityValid, ExpectedState, CandidateOf, IDs, StagedOk, RulesOk, ValidObservation,
         KeysDistinct, Increasing, ExpectedTotals;
    var c := CandidateOf(rules, records, id);
    CandidateObservations(rules, records, id);
    CandidateIdentity(rules, records, id);
    CandidateState(rules, records, id);
    forall o | o in c.observations
      ensures ValidObservation(o)
    {
      var r :| r in records && r.candidateID == id && r.observation == o;
      assert RecordOk(rules, r);
    }
    CandidateTimes(c.observations, c);
  }

  // ---- The links are valid ----

  lemma SortedSetMembers(ids: set<string>)
    ensures forall x :: x in SortedSet(ids) <==> x in ids
  {
    assert forall x :: x in SortedSet(ids) <==> x in Elements(SortedSet(ids));
  }

  lemma {:induction false} MetadataAll(candidates: seq<Candidate>)
    requires Increasing(candidates, BY_ID)
    ensures forall c :: c in candidates ==>
              c.candidateID in AllMetadata(candidates) && AllMetadata(candidates)[c.candidateID] == MetadataOf(c)
    ensures forall id :: id in AllMetadata(candidates) ==> exists c :: c in candidates && c.candidateID == id
  {
    hide CandidateLess, MetadataOf, AllMetadata, Increasing;
    if candidates == [] {
      MetadataNone();
    } else {
      var n := |candidates| - 1;
      LastIsApart(candidates);
      MetadataAll(candidates[..n]);
      MetadataLast(candidates);
    }
  }

  lemma MetadataNone()
    ensures AllMetadata([]) == map[]
  {
  }

  lemma MetadataLast(candidates: seq<Candidate>)
    requires candidates != []
    ensures var n := |candidates| - 1;
            AllMetadata(candidates) == AllMetadata(candidates[..n])[candidates[n].candidateID := MetadataOf(candidates[n])]
  {
  }

  lemma LastIsApart(candidates: seq<Candidate>)
    requires candidates != [] && Increasing(candidates, BY_ID)
    ensures var n := |candidates| - 1;
            Increasing(candidates[..n], BY_ID) &&
            (forall c :: c in candidates <==> c in candidates[..n] || c == candidates[n]) &&
            forall c :: c in candidates[..n] ==> c.candidateID != candidates[n].candidateID
  {
    hide CandidateLess;
    var n := |candidates| - 1;
    assert candidates == candidates[..n] + [candidates[n]];
    IncreasingDistinct(candidates);
    forall c | c in candidates[..n]
      ensures c.candidateID != candidates[n].candidateID
    {
      var i :| 0 <= i < n && candidates[i] == c;
    }
  }

  ghost predicate DescribesOne(m: Metadata, rules: Rules, base: Staged, related: set<string>, opposed: set<string>) {
    m.key == base.key && m.polarity == base.polarity && m.related == SortedSet(related) &&
    m.conflicting == SortedSet(opposed) &&
    m.group == if opposed == {} then "" else ConflictID(rules, base.agent, base.core)
  }

  /** The metadata of a generation, candidate by candidate. */
  ghost predicate Describes(metadata: map<string, Metadata>, rules: Rules, records: seq<Staged>) {
    metadata.Keys == IDs(records) &&
    forall id :: id in metadata ==>
      DescribesOne(metadata[id], rules, Base(records, id), RelatedTo(records, id), OpposedTo(records, id))
  }

  lemma MetadataIs(rules: Rules, records: seq<Staged>, candidates: seq<Candidate>)
    requires IsAggregate(rules, records, candidates)
    ensures AllMetadata(candidates).Keys == IDs(records)
    ensures forall id :: id in IDs(records) ==> AllMetadata(candidates)[id] == MetadataOf(CandidateOf(rules, records, id))
  {
    hide CandidateOf, IDs, AllMetadata, IsAggregate, MetadataOf;
    var metadata := AllMetadata(candidates);
    forall id | id in IDs(records)
      ensures id in metadata && metadata[id] == MetadataOf(CandidateOf(rules, records, id))
    {
      MetadataHas(rules, records, candidates, id);
    }
    forall id | id in metadata
      ensures id in IDs(records)
    {
      MetadataOnly(rules, records, candidates, id);
    }
  }

  lemma MetadataHas(rules: Rules, records: seq<Staged>, candidates: seq<Candidate>, id: string)
    requires IsAggregate(rules, records, candidates) && id in IDs(records)
    ensures id in AllMetadata(candidates) && AllMetadata(candidates)[id] == MetadataOf(CandidateOf(rules, records, id))
  {
    hide CandidateOf, IDs, AllMetadata, Increasing, MetadataOf;
    MetadataAll(candidates);
    CandidateKeepsID(rules, records, id);
    assert CandidateOf(rules, records, id) in candidates;
  }

  lemma MetadataOnly(rules: Rules, records: seq<Staged>, candidates: seq<Candidate>, id: string)
    requires IsAggregate(rules, records, candidates) && id in AllMetadata(candidates)
    ensures id in IDs(records)
  {
    hide CandidateOf, IDs, AllMetadata, Increasing, MetadataOf;
    MetadataAll(candidates);
    var c :| c in candidates && c.candidateID == id;
    var x :| x in IDs(records) && c == CandidateOf(rules, records, x);
    CandidateKeepsID(rules, records, x);
  }

  lemma PartsDescribe(rules: Rules, c: Candidate, base: Staged, observations: seq<Observation>, related: set<string>,
                      opposed: set<string>)
    requires PartsOk(rules, c, base, observations, related, opposed)
    ensures DescribesOne(MetadataOf(c), rules, base, related, opposed)
  {
    hide TotalsOf, ExpectedTotals, ValidationFor, Quarantine;
  }

  lemma AggregateMetadata(rules: Rules, records: seq<Staged>, candidates: seq<Candidate>)
    requires AllDerived(rules, records) && IsAggregate(rules, records, candidates)
    ensures Describes(AllMetadata(candidates), rules, records)
  {
    hide AllDerived, CandidateOf, IDs, Base, RelatedTo, OpposedTo, AllMetadata, DescribesOne, PartsOk, Own, Merged,
         IsAggregate, MetadataOf;
    MetadataIs(rules, records, candidates);
    forall id | id in IDs(records)
      ensures DescribesOne(AllMetadata(candidates)[id], rules, Base(records, id), RelatedTo(records, id),
                           OpposedTo(records, id))
    {
      CandidateParts(rules, records, id);
      PartsDescribe(rules, CandidateOf(rules, records, id), Base(records, id),
                    Merged(ObservationsOf(Own(records, id))), RelatedTo(records, id), OpposedTo(records, id));
    }
  }

  /** The digests tell the groups of the records apart. */
  ghost predicate GroupsApart(rules: Rules, records: seq<Staged>) {
    forall r, q :: r in records && q in records && (r.agent, r.core) != (q.agent, q.core) ==>
      r.key != q.key && rules.conflictHash(r.agent, r.core) != rules.conflictHash(q.agent, q.core)
  }

  lemma SameKeySameGroup(rules: Rules, records: seq<Staged>, x: string, y: string)
    requires AllDerived(rules, records) && GroupsApart(rules, records) && x in IDs(records) && y in IDs(records)
    ensures Base(records, x).key == Base(records, y).key <==> GroupOf(Base(records, x)) == GroupOf(Base(records, y))
  {
    hide IDs, Base;
    BaseStaged(rules, records, x);
    BaseStaged(rules, records, y);
    KeyOfGroup(rules, Base(records, x));
    KeyOfGroup(rules, Base(records, y));
  }

  lemma ConflictLinks(rules: Rules, records: seq<Staged>, metadata: map<string, Metadata>, id: string, other: string)
    requires AllDerived(rules, records) && GroupsApart(rules, records) && Describes(metadata, rules, records)
    requires id in metadata && other in metadata[id].conflicting
    ensures ConflictLinkOk(metadata, id, other)
  {
    hide AllDerived, GroupsApart, IDs, Base, RelatedTo;
    SortedSetMembers(OpposedTo(records, id));
    SameKeySameGroup(rules, records, id, other);
    SortedSetMembers(OpposedTo(records, other));
    assert id in OpposedTo(records, other) && other in OpposedTo(records, id);
  }

  lemma RelatedLinks(rules: Rules, records: seq<Staged>, metadata: map<string, Metadata>, id: string, other: string)
    requires AllDerived(rules, records) && GroupsApart(rules, records) && Describes(metadata, rules, records)
    requires id in metadata && other in metadata[id].related
    ensures RelatedLinkOk(metadata, id, other)
  {
    hide AllDerived, GroupsApart, IDs, Base, OpposedTo, ConflictID;
    SortedSetMembers(RelatedTo(records, id));
    SameKeySameGroup(rules, records, id, other);
    SortedSetMembers(RelatedTo(records, other));
    assert id in RelatedTo(records, other);
  }

  lemma PairLinks(rules: Rules, records: seq<Staged>, metadata: map<string, Metadata>, left: string, right: string)
    requires AllDerived(rules, records) && GroupsApart(rules, records) && Describes(metadata, rules, records)
    requires left in metadata && right in metadata
    ensures PairLinked(metadata, left, right)
  {
    hide AllDerived, GroupsApart, IDs, Base;
    SameKeySameGroup(rules, records, left, right);
    SortedSetMembers(RelatedTo(records, left));
    SortedSetMembers(OpposedTo(records, left));
    if left != right && metadata[left].key == metadata[right].key {
      if Opposed(metadata[left].polarity, metadata[right].polarity) {
        assert right in OpposedTo(records, left) && left in OpposedTo(records, right);
      }
      if metadata[left].polarity == metadata[right].polarity {
        assert right in RelatedTo(records, left);
      }
    }
  }

  /** Related and conflict links are symmetric and complete. */
  lemma BuiltLinksValid(rules: Rules, records: seq<Staged>, candidates: seq<Candidate>)
    requires AllDerived(rules, records) && GroupsApart(rules, records) && IsAggregate(rules, records, candidates)
    ensures LinksValid(AllMetadata(candidates))
  {
    hide AllDerived, GroupsApart, IsAggregate, Describes, ConflictLinkOk, RelatedLinkOk, PairLinked, AllMetadata;
    AggregateMetadata(rules, records, candidates);
    var metadata := AllMetadata(candidates);
    forall id, other | id in metadata && other in metadata[id].conflicting
      ensures ConflictLinkOk(metadata, id, other)
    {
      ConflictLinks(rules, records, metadata, id, other);
    }
    forall id, other | id in metadata && other in metadata[id].related
      ensures RelatedLinkOk(metadata, id, other)
    {
      RelatedLinks(rules, records, metadata, id, other);
    }
    forall left, right | left in metadata && right in metadata
      ensures PairLinked(metadata, left, right)
    {
      PairLinks(rules, records, metadata, left, right);
    }
  }

  // ---- The manifest matches ----

  function ConflictIDs(rules: Rules, groups: set<Group>): set<string> {
    set g | g in groups :: ConflictID(rules, g.0, g.1)
  }

  lemma {:induction false} ConflictIDsInjective(rules: Rules, groups: set<Group>)
    requires forall g, h :: g in groups && h in groups && g != h ==>
               rules.conflictHash(g.0, g.1) != rules.conflictHash(h.0, h.1)
    ensures |ConflictIDs(rules, groups)| == |groups|
    decreases groups
  {
    if groups != {} {
      var g :| g in groups;
      var rest := groups - {g};
      ConflictIDsInjective(rules, rest);
      forall h | h in rest
        ensures ConflictID(rules, h.0, h.1) != ConflictID(rules, g.0, g.1)
      {
        DistinctConflictIDs(rules, g, h);
      }
      assert ConflictIDs(rules, groups) == ConflictIDs(rules, rest) + {ConflictID(rules, g.0, g.1)};
    }
  }

  lemma DistinctConflictIDs(rules: Rules, g: Group, h: Group)
    requires rules.conflictHash(g.0, g.1) != rules.conflictHash(h.0, h.1)
    ensures ConflictID(rules, g.0, g.1) != ConflictID(rules, h.0, h.1)
  {
    assert ConflictID(rules, g.0, g.1)[|CONFLICT_PREFIX|..] == rules.conflictHash(g.0, g.1);
    assert ConflictID(rules, h.0, h.1)[|CONFLICT_PREFIX|..] == rules.conflictHash(h.0, h.1);
  }

  lemma ConflictsApart(rules: Rules, records: seq<Staged>)
    requires AllDerived(rules, records) && GroupsApart(rules, records)
    ensures |ConflictIDs(rules, ConflictGroups(records))| == |ConflictGroups(records)|
  {
    hide IDs, Base, OpposedTo, StagedOk, RulesOk, Collides, ConflictID;
    forall g | g in ConflictGroups(records)
      ensures exists r :: r in records && GroupOf(r) == g
    {
      var id :| id in IDs(records) && OpposedTo(records, id) != {} && GroupOf(Base(records, id)) == g;
      BaseStaged(rules, records, id);
    }
    ConflictIDsInjective(rules, ConflictGroups(records));
  }

  lemma BuiltGroups(rules: Rules, records: seq<Staged>, candidates: seq<Candidate>)
    requires AllDerived(rules, records) && IsAggregate(rules, records, candidates)
    ensures GroupIDs(candidates) == ConflictIDs(rules, ConflictGroups(records))
  {
    hide AllDerived, CandidateOf, IDs, Base, RelatedTo, OpposedTo, TotalsOf, ExpectedTotals, ValidationFor, Increasing,
         Merged, Quarantine;
    forall id | id in IDs(records)
      ensures CandidateOf(rules, records, id).conflictGroup ==
              if OpposedTo(records, id) == {} then "" else ConflictID(rules, Base(records, id).agent, Base(records, id).core)
    {
      CandidateParts(rules, records, id);
    }
    forall x | x in ConflictIDs(rules, ConflictGroups(records))
      ensures x in GroupIDs(candidates)
    {
      var id :| id in IDs(records) && OpposedTo(records, id) != {} &&
                x == ConflictID(rules, Base(records, id).agent, Base(records, id).core);
      assert CandidateOf(rules, records, id) in candidates;
    }
    forall x | x in GroupIDs(candidates)
      ensures x in ConflictIDs(rules, ConflictGroups(records))
    {
      var c :| c in candidates && c.conflictGroup != "" && c.conflictGroup == x;
      var id :| id in IDs(records) && c == CandidateOf(rules, records, id);
      assert GroupOf(Base(records, id)) in ConflictGroups(records);
    }
  }

  // ---- The provenance is valid ----

  lemma {:induction false} WantedMembers(records: seq<Staged>, selected: set<string>)
    ensures forall r :: r in Wanted(records, selected) <==> r in records && r.candidateID in selected
    ensures KeysDistinct(records) ==> KeysDistinct(Wanted(records, selected))
  {
    hide KeyOf;
    if records != [] {
      var n := |records| - 1;
      assert records == records[..n] + [records[n]];
      WantedMembers(records[..n], selected);
      var front := Wanted(records[..n], selected);
      if KeysDistinct(records) {
        forall i | 0 <= i < |front|
          ensures KeyOf(front[i]) != KeyOf(records[n])
        {
          assert front[i] in records[..n];
          var k :| 0 <= k < n && records[k] == front[i];
        }
      }
    }
  }

  /** Whatever candidates of the generation are selected, each of their observations is proved exactly once. */
  lemma BuiltProvenanceValid(rules: Rules, episodes: seq<Episode>, selected: map<string, Candidate>)
    requires Good(rules, AllStaged(rules, episodes))
    requires forall id :: id in selected ==>
               id in IDs(AllStaged(rules, episodes)) && selected[id] == CandidateOf(rules, AllStaged(rules, episodes), id)
    ensures ProvenanceValid(rules, selected, episodes)
  {
    hide AllStaged, CandidateOf, IDs, AllDerived, RecordOk, Wanted;
    var all := AllStaged(rules, episodes);
    var records := Wanted(all, selected.Keys);
    WantedMembers(all, selected.Keys);
    forall id | id in selected
      ensures forall o :: o in selected[id].observations <==>
                exists r :: r in all && r.candidateID == id && r.observation == o
      ensures Increasing(selected[id].observations, BY_STATEMENT)
    {
      CandidateObservations(rules, all, id);
    }
    forall id, i, j | id in selected && 0 <= i < j < |selected[id].observations|
      ensures !SameKey(selected[id].observations[i], selected[id].observations[j])
    {
      assert BY_STATEMENT(selected[id].observations[i], selected[id].observations[j]);
      LessSeparates(selected[id].observations[i], selected[id].observations[j]);
    }
    assert forall r :: r in records ==> Claims(selected, r.candidateID, r.observation);
    forall id, o | Claims(selected, id, o)
      ensures exists r :: r in records && r.candidateID == id && r.observation == o
    {
      var r :| r in all && r.candidateID == id && r.observation == o;
      assert r in records;
    }
    assert ProofKeysDistinct(records);
  }

  // ---- The producer meets the verifier ----

  lemma GoodBuild(rules: Rules, episodes: seq<Episode>)
    requires RulesOk(rules) && WellFormed(episodes) && !Collides(AllStaged(rules, episodes))
    ensures Good(rules, AllStaged(rules, episodes))
  {
    hide RulesOk, WellFormed, Collides, GroupsApart, AllStaged, KeysDistinct, RecordOk;
    StagedAreDerived(rules, episodes);
    StagedDistinct(rules, episodes);
    StagedRecordsOk(rules, episodes);
  }

  /** No two different identities, and no two different groups, of the derived records share a digest. */
  ghost predicate DigestsApart(rules: Rules, episodes: seq<Episode>) {
    !Collides(AllStaged(rules, episodes)) && GroupsApart(rules, AllStaged(rules, episodes))
  }

  /** The generation that a build writes. */
  function GenerationOf(b: BuildResult, episodes: seq<Episode>): Generation {
    Generation(Manifest(b.candidates, episodes, |b.candidates|, b.reviewReady, b.untrusted, b.quarantined,
                        b.conflictGroups), b.candidates)
  }

  lemma BuiltGenerationValid(rules: Rules, episodes: seq<Episode>, b: BuildResult)
    requires RulesOk(rules) && WellFormed(episodes) && DigestsApart(rules, episodes)
    requires IsAggregate(rules, AllStaged(rules, episodes), b.candidates)
    requires b.conflictGroups == |ConflictGroups(AllStaged(rules, episodes))|
    requires b.reviewReady == WithStatus(b.candidates, ReviewReady) && b.untrusted == WithStatus(b.candidates, Untrusted)
    requires b.quarantined == WithStatus(b.candidates, Quarantined)
    ensures GenerationValid(rules, GenerationOf(b, episodes))
  {
    hide RulesOk, WellFormed, Collides, GroupsApart, AllStaged, Good, CandidateOf, IDs, CandidateValid, ConflictGroups,
         WithStatus, LinksValid, GroupIDs, AllMetadata, Increasing, AllDerived;
    var records := AllStaged(rules, episodes);
    GoodBuild(rules, episodes);
    StagedAreDerived(rules, episodes);
    forall c | c in b.candidates
      ensures CandidateValid(rules, c)
    {
      var id :| id in IDs(records) && c == CandidateOf(rules, records, id);
      BuiltCandidateValid(rules, records, id);
    }
    BuiltLinksValid(rules, records, b.candidates);
    BuiltGroups(rules, records, b.candidates);
    ConflictsApart(rules, records);
  }

  lemma ChosenAreBuilt(rules: Rules, records: seq<Staged>, candidates: seq<Candidate>, wanted: set<string>)
    requires AllDerived(rules, records) && IsAggregate(rules, records, candidates) && wanted <= IDs(records)
    ensures Chosen(candidates, wanted).Keys == wanted
    ensures forall id :: id in wanted ==>
              Chosen(candidates, wanted)[id] == CandidateOf(rules, records, id) && ValidPrefixedHash(id, CANDIDATE_PREFIX)
  {
    hide CandidateOf, IDs, Chosen, Increasing, RulesOk, StagedOk, ValidPrefixedHash;
    forall id | id in wanted
      ensures id in Chosen(candidates, wanted) && Chosen(candidates, wanted)[id] == CandidateOf(rules, records, id)
      ensures ValidPrefixedHash(id, CANDIDATE_PREFIX)
    {
      CandidateKeepsID(rules, records, id);
      assert CandidateOf(rules, records, id) in candidates;
      var c := Chosen(candidates, wanted)[id];
      var x :| x in IDs(records) && c == CandidateOf(rules, records, x);
      CandidateKeepsID(rules, records, x);
      BaseStaged(rules, records, id);
      IDHasPrefix(rules, Base(records, id));
    }
  }

  /** The other way round: where two observations collide and no shard notices it, the verifier refuses what is written. */
  lemma UnnoticedIsRefused(rules: Rules, episodes: seq<Episode>, count: nat, g: Generation)
    requires RulesOk(rules) && ValidShardCount(count) && Collides(AllStaged(rules, episodes))
    requires !SomeShardCollides(AllStaged(rules, episodes), count)
    requires WrittenFrom(rules, AllStaged(rules, episodes), count, g.candidates)
    ensures !GenerationValid(rules, g)
  {
    hide RulesOk, Collides, AllStaged, SomeShardCollides, Aggregated, Emission, Increasing, ValidShardCount, WellStaged,
         LinksValid, CandidateValid, CountsMatch;
    var records := AllStaged(rules, episodes);
    StagedAreWell(rules, episodes);
    var aggregates :| |aggregates| == count && Aggregated(rules, records, count, aggregates) &&
                      g.candidates == Emission(aggregates, count, count);
    UnnoticedCollision(rules, records, count, aggregates);
  }

  /** Build, then Select: for every valid shard count, well-formed episodes and any choice of the generation's ids,
      the checker accepts and hands out exactly the candidates of those ids, and the conflict groups. */
  method BuildThenSelect(rules: Rules, episodes: seq<Episode>, shardCount: int, wanted: set<string>)
    returns (r: Option<Selection>)
    requires RulesOk(rules) && WellFormed(episodes) && DigestsApart(rules, episodes)
    requires shardCount in {0, 1, 2, 4, 8, 16, 32, 64, 128, 256}
    requires wanted <= IDs(AllStaged(rules, episodes))
    ensures r.Some? && r.value.candidates.Keys == wanted
    ensures forall id :: id in wanted ==> r.value.candidates[id] == CandidateOf(rules, AllStaged(rules, episodes), id)
    ensures r.value.conflictGroups.Keys == ConflictIDs(rules, ConflictGroups(AllStaged(rules, episodes)))
  {
    hide RulesOk, WellFormed, Collides, GroupsApart, AllStaged, Good, CandidateOf, IDs, ConflictGroups, WithStatus,
         AllDerived, GenerationValid, ProvenanceValid, Chosen, IsAggregate, ValidShardCount, ValidPrefixedHash,
         GroupIDs, ConflictIDs, InGroup;
    CountsAllowed(shardCount);
    var built := Build(rules, episodes, shardCount);
    var g := GenerationOf(built.value, episodes);
    BuiltGenerationValid(rules, episodes, built.value);
    GoodBuild(rules, episodes);
    StagedAreDerived(rules, episodes);
    ChosenAreBuilt(rules, AllStaged(rules, episodes), g.candidates, wanted);
    BuiltGroups(rules, AllStaged(rules, episodes), g.candidates);
    BuiltProvenanceValid(rules, episodes, Chosen(g.candidates, wanted));
    r := Select(rules, g, wanted, episodes);
  }

  lemma DistinctKeysAgree(records: seq<Staged>)
    requires KeysDistinct(records)
    ensures StatementsAgree(records)
  {
    forall r, q | r in records && q in records && SameStatement(r, q)
      ensures r == q
    {
      var i :| 0 <= i < |records| && records[i] == r;
      var j :| 0 <= j < |records| && records[j] == q;
      assert KeyOf(records[i]) == KeyOf(records[j]);
      SameRecord(records, i, j);
    }
  }

  lemma SameRecord(records: seq<Staged>, i: nat, j: nat)
    requires KeysDistinct(records) && i < |records| && j < |records| && KeyOf(records[i]) == KeyOf(records[j])
    ensures i == j
  {
  }

  /** Whatever the shard counts and whatever the order of the episodes, two builds write the same candidates. */
  lemma BuildsAgree(rules: Rules, a: seq<Episode>, b: seq<Episode>, x: seq<Candidate>, y: seq<Candidate>)
    requires RulesOk(rules) && WellFormed(a) && !Collides(AllStaged(rules, a)) && forall e :: e in a <==> e in b
    requires IsAggregate(rules, AllStaged(rules, a), x) && IsAggregate(rules, AllStaged(rules, b), y)
    ensures x == y && ConflictGroups(AllStaged(rules, a)) == ConflictGroups(AllStaged(rules, b))
  {
    hide RulesOk, WellFormed, Collides, GroupsApart, AllStaged, KeysDistinct, RecordOk, Derived, IsAggregate, StagedOk,
         ConflictGroups;
    GoodBuild(rules, a);
    DistinctKeysAgree(AllStaged(rules, a));
    AllStagedMembers(rules, a);
    AllStagedMembers(rules, b);
    OrderIrrelevant(rules, AllStaged(rules, a), AllStaged(rules, b));
    AggregateUnique(rules, AllStaged(rules, b), x, y);
  }

  // ---- The assumptions can be met ----

  function Hash(c: char): string
  {
    seq(64, i => c)
  }

  function ConstantRules(): Rules {
    Rules(t => if Blank(t) then "" else t, t => t, t => false, t => false, t => false, (k, a, n) => Hash('1'),
          (a, c) => Hash('2'), (a, c) => Hash('3'), (k, t, p, a) => Hash('4'))
  }

  function OneStatement(): Statement {
    Statement("statement-" + Hash('5'), ConstraintStatement, "x", ["event"], 1, 2)
  }

  function OneEpisode(): Episode {
    Episode("episode-" + Hash('6'), Codex, [], [OneStatement()])
  }

  lemma HashIsValid(c: char, prefix: string)
    requires IsLowerHex(c)
    ensures ValidHash(Hash(c)) && ValidPrefixedHash(prefix + Hash(c), prefix)
  {
    assert (prefix + Hash(c))[|prefix|..] == Hash(c);
  }

  lemma OneIsWellFormed()
    ensures WellFormed([OneEpisode()])
  {
    HashIsValid('5', "statement-");
    HashIsValid('6', "episode-");
    var s := OneStatement();
    assert "event" in s.evidence && "event"[0] == 'e' && !IsSpace('e');
    assert StatementOk(s);
    forall key
      ensures Occurrences([OneEpisode()], key) <= 1
    {
      assert Occurrences([], key) == 0;
      CountOne(s, (s: Statement) => s.id == key.1);
    }
  }

  lemma ConstantRulesOk()
    ensures RulesOk(ConstantRules())
  {
    HashIsValid('1', "");
    HashIsValid('2', "");
    HashIsValid('4', "");
  }

  /** Episodes and rules that meet every assumption made above, and from which something is derived. */
  lemma AssumptionsMet() returns (rules: Rules, episodes: seq<Episode>)
    ensures RulesOk(rules) && WellFormed(episodes) && DigestsApart(rules, episodes) && AllStaged(rules, episodes) != []
  {
    hide RulesOk, WellFormed, StagedOk, Derived, AllStaged, RecordOf, ConstantRules, OneEpisode, OneStatement;
    rules, episodes := ConstantRules(), [OneEpisode()];
    ConstantRulesOk();
    OneIsWellFormed();
    var r := OneRecord();
    assert r in AllStaged(rules, episodes);
  }

  /** Exactly one record is staged. */
  lemma OneRecord() returns (record: Staged)
    ensures forall r :: r in AllStaged(ConstantRules(), [OneEpisode()]) <==> r == record
  {
    hide StagedOk, Derived, AllStaged, RecordOf, ConstantRules, OneStatement;
    var rules, episodes := ConstantRules(), [OneEpisode()];
    AllStagedMembers(rules, episodes);
    DerivedMembers(rules, OneEpisode());
    SomethingDerived();
    record := RecordOf(rules, OneEpisode(), OneStatement()).value;
    assert OneStatement() in OneEpisode().statements && OneEpisode() in episodes;
    forall r
      ensures r in AllStaged(rules, episodes) <==> r in Derived(rules, OneEpisode())
    {
      assert r in AllStaged(rules, episodes) <==> exists e :: e in episodes && r in Derived(rules, e);
    }
  }

  lemma SomethingDerived()
    ensures RecordOf(ConstantRules(), OneEpisode(), OneStatement()).Some?
  {
    hide AppendUnique, SortedSupports;
    assert "x"[0] == 'x' && !IsSpace('x');
    assert CorrectionsOf([], OneStatement().id) == [];
  }
}
