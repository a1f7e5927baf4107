/** Aggregating staged observations into candidates, and linking the candidates of one semantic group. */
module CandidateAggregate {
  import opened Primitives
  import opened Ordering
  import opened Sorting
  import opened CandidateTypes
  import opened CandidateMerge

  // ---- What the observations of a candidate amount to ----

  datatype Totals = Totals(episodes: set<string>, events: set<string>, supports: set<SupportType>, firstSeen: Time,
                           lastSeen: Time)

  function EventsOf(o: Observation): set<string> {
    (set e | e in o.evidence) + (set e | e in o.corrections)
  }

  function TotalsOf(observations: seq<Observation>): Totals
    requires observations != []
  {
    var o := observations[|observations| - 1];
    var supports := set s | s in o.supports;
    if |observations| == 1 then Totals({o.episodeID}, EventsOf(o), supports, o.firstSeen, o.lastSeen)
    else
      var t := TotalsOf(observations[..|observations| - 1]);
      Totals(t.episodes + {o.episodeID}, t.events + EventsOf(o), t.supports + supports,
             if o.firstSeen < t.firstSeen then o.firstSeen else t.firstSeen,
             if o.lastSeen > t.lastSeen then o.lastSeen else t.lastSeen)
  }

  method Summarize(observations: seq<Observation>) returns (t: Totals)
    requires observations != []
    ensures t == TotalsOf(observations)
  {
    var o := observations[0];
    t := Totals({}, {}, {}, o.firstSeen, o.lastSeen);
    var i := 0;
    while i < |observations|
      invariant 0 <= i <= |observations|
      invariant if i == 0 then t == Totals({}, {}, {}, o.firstSeen, o.lastSeen) else t == TotalsOf(observations[..i])
    {
      var x := observations[i];
      assert i > 0 ==> observations[..i + 1][..i] == observations[..i];
      t := Totals(t.episodes + {x.episodeID}, t.events + EventsOf(x), t.supports + (set s | s in x.supports),
                  if x.firstSeen < t.firstSeen then x.firstSeen else t.firstSeen,
                  if x.lastSeen > t.lastSeen then x.lastSeen else t.lastSeen);
      i := i + 1;
    }
    assert observations[..i] == observations;
  }

  /** Two episodes make a repetition. */
  function SupportSet(t: Totals): set<SupportType> {
    t.supports + if |t.episodes| >= 2 then {StableRepetition} else {}
  }

  function ReasonOf(s: SupportType): set<Reason> {
    match s
    case ExplicitRemember => {ExplicitUserRemember}
    case UserCorrection => {Correction}
    case CompactionDrift => {DriftWithCorrection}
    case StableRepetition => {Repetition}
    case UserInstruction => {}
  }

  predicate Strong(supports: set<SupportType>) {
    exists s :: s in supports && ReasonOf(s) != {}
  }

  /** validationFor. */
  function ValidationFor(supports: set<SupportType>, approval: bool): Validation {
    var reasons := {ScopeConfirmation} + (set s, r | s in supports && r in ReasonOf(s) :: r) +
                   (if Strong(supports) then {} else {SingleTaskOnly}) +
                   if approval then {RuleChangeApproval} else {};
    Validation(if Strong(supports) then ReviewReady else Untrusted, SortedReasons(reasons), true, false)
  }

  /** A conflict quarantines a candidate. */
  function Quarantine(v: Validation): Validation {
    v.(status := Quarantined, reasons := SortedReasons((set r | r in v.reasons) + {SemanticConflict}))
  }

  // ---- The records of one candidate ----

  function IDs(records: seq<Staged>): set<string> {
    set r | r in records :: r.candidateID
  }

  /** The records staged for a candidate, in order. */
  function Own(records: seq<Staged>, id: string): (own: seq<Staged>)
    ensures forall r :: r in own <==> r in records && r.candidateID == id
    ensures own != [] <==> id in IDs(records)
  {
    if records == [] then []
    else
      var n := |records| - 1;
      assert records == records[..n] + [records[n]];
      var r := Own(records[..n], id) + if records[n].candidateID == id then [records[n]] else [];
      assert r != [] ==> r[|r| - 1] in r;
      assert id in IDs(records) ==> exists x :: x in records && x.candidateID == id;
      r
  }

  function ObservationsOf(own: seq<Staged>): (r: seq<Observation>)
    ensures |r| == |own| && forall i :: 0 <= i < |own| ==> r[i] == own[i].observation
  {
    seq(|own|, i requires 0 <= i < |own| => own[i].observation)
  }

  /** The smallest text of the records. */
  function LeastText(own: seq<Staged>): (t: string)
    requires own != []
    ensures exists r :: r in own && r.text == t
  {
    var last := own[|own| - 1];
    assert last in own;
    if |own| == 1 then last.text
    else
      var t := LeastText(own[..|own| - 1]);
      if Less(last.text, t) then last.text else t
  }

  function NeedsApproval(own: seq<Staged>): bool {
    exists r :: r in own && r.approval
  }

  datatype Aggregate = Aggregate(base: Staged, observations: seq<Observation>)

  /** What is gathered of a candidate: its first record with the smallest text, and every observation. */
  function Gathered(own: seq<Staged>): Aggregate
    requires own != []
  {
    Aggregate(own[0].(text := LeastText(own), approval := NeedsApproval(own)), ObservationsOf(own))
  }

  /** finalizeCandidate as a function of what was gathered. */
  function Finalized(a: Aggregate): Candidate
    requires Merged(a.observations) != []
  {
    var merged := Merged(a.observations);
    var t := TotalsOf(merged);
    var b := a.base;
    Candidate(b.candidateID, "", b.key, b.kind, b.text, b.polarity, b.agent, true, SortedSupports(SupportSet(t)), merged,
              |t.episodes|, |t.events|, t.firstSeen, t.lastSeen, ValidationFor(SupportSet(t), b.approval), "", [], [],
              b.approval)
  }

  lemma MergedNonEmpty(observations: seq<Observation>)
    requires observations != []
    ensures Merged(observations) != []
  {
    MergedIsMerge(observations);
    assert observations[0] in Elements(observations);
  }

  method FinalizeCandidate(a: Aggregate) returns (c: Candidate)
    requires a.observations != []
    ensures Merged(a.observations) != [] && c == Finalized(a)
  {
    hide Merged, TotalsOf, ValidationFor, SortedSupports;
    MergedNonEmpty(a.observations);
    var observations := MergeObservations(a.observations);
    var t := Summarize(observations);
    var support := SupportSet(t);
    var b := a.base;
    c := Candidate(b.candidateID, "", b.key, b.kind, b.text, b.polarity, b.agent, true, SortedSupports(support),
                   observations, |t.episodes|, |t.events|, t.firstSeen, t.lastSeen, ValidationFor(support, b.approval),
                   "", [], [], b.approval);
  }

  // ---- The candidates of a list of records ----

  /** The candidate before it is linked to others. */
  function Unlinked(records: seq<Staged>, id: string): Candidate
    requires id in IDs(records)
  {
    MergedNonEmpty(ObservationsOf(Own(records, id)));
    Finalized(Gathered(Own(records, id)))
  }

  function Base(records: seq<Staged>, id: string): Staged
    requires id in IDs(records)
  {
    Own(records, id)[0]
  }

  type Group = (Agent, string)

  function GroupOf(r: Staged): Group {
    (r.agent, r.core)
  }

  predicate Opposed(p: Polarity, q: Polarity) {
    (p.Affirmative? && q.Prohibitive?) || (p.Prohibitive? && q.Affirmative?)
  }

  /** The other candidates of the same semantic group with the same polarity. */
  ghost function RelatedTo(records: seq<Staged>, id: string): set<string>
    requires id in IDs(records)
  {
    set y | y in IDs(records) && y != id && GroupOf(Base(records, y)) == GroupOf(Base(records, id)) &&
            Base(records, y).polarity == Base(records, id).polarity
  }

  /** Those with the opposite polarity. */
  ghost function OpposedTo(records: seq<Staged>, id: string): set<string>
    requires id in IDs(records)
  {
    set y | y in IDs(records) && GroupOf(Base(records, y)) == GroupOf(Base(records, id)) &&
            Opposed(Base(records, id).polarity, Base(records, y).polarity)
  }

  /** A candidate with its links; one that conflicts is quarantined and names its conflict group. */
  ghost function Linked(rules: Rules, c: Candidate, group: Group, related: set<string>, opposed: set<string>): Candidate {
    var d := c.(related := SortedSet(related), conflicting := SortedSet(opposed));
    if opposed == {} then d
    else d.(conflictGroup := ConflictID(rules, group.0, group.1), validation := Quarantine(d.validation))
  }

  function WithContent(rules: Rules, c: Candidate): Candidate {
    c.(content := rules.contentHash(c.kind, c.text, c.polarity, c.agent))
  }

  ghost function CandidateOf(rules: Rules, records: seq<Staged>, id: string): Candidate
    requires id in IDs(records)
  {
    WithContent(rules, Linked(rules, Unlinked(records, id), GroupOf(Base(records, id)), RelatedTo(records, id),
                              OpposedTo(records, id)))
  }

  predicate CandidateLess(a: Candidate, b: Candidate) {
    Less(a.candidateID, b.candidateID)
  }

  const BY_ID: (Candidate, Candidate) -> bool := (a, b) => CandidateLess(a, b)

  /** What aggregation means: the candidates of the records, each once, in id order. */
  ghost predicate IsAggregate(rules: Rules, records: seq<Staged>, candidates: seq<Candidate>) {
    Increasing(candidates, BY_ID) &&
    forall c :: c in candidates <==> exists id :: id in IDs(records) && c == CandidateOf(rules, records, id)
  }

  /** The groups in which both polarities occur. */
  ghost function ConflictGroups(records: seq<Staged>): set<Group> {
    set id | id in IDs(records) && OpposedTo(records, id) != {} :: GroupOf(Base(records, id))
  }

  lemma CandidateOrder()
    ensures WeakOrder(BY_ID)
  {
    forall a: Candidate, b: Candidate, c: Candidate
      ensures !CandidateLess(a, a)
      ensures CandidateLess(a, b) && CandidateLess(b, c) ==> CandidateLess(a, c)
      ensures CandidateLess(a, c) ==> CandidateLess(a, b) || CandidateLess(b, c)
    {
      StringOrder(a.candidateID, b.candidateID, c.candidateID);
    }
  }

  lemma AggregateUnique(rules: Rules, records: seq<Staged>, a: seq<Candidate>, b: seq<Candidate>)
    requires IsAggregate(rules, records, a) && IsAggregate(rules, records, b)
    ensures a == b
  {
    hide CandidateOf, IDs;
    CandidateOrder();
    IncreasingUnique(a, b, BY_ID);
  }

  /** Two records that claim one candidate id but say different things. */
  ghost predicate Collides(records: seq<Staged>) {
    exists r, q :: r in records && q in records && r.candidateID == q.candidateID && !SameIdentity(r, q)
  }

  predicate SameIdentity(r: Staged, q: Staged) {
    r.normalized == q.normalized && r.kind == q.kind && r.agent == q.agent
  }

  function IDHash(rules: Rules, r: Staged): string {
    rules.idHash(r.kind, r.agent, r.normalized)
  }

  /** Derived records collide exactly when two different identities among them have one digest. */
  lemma CollidesExactly(rules: Rules, records: seq<Staged>)
    requires forall r :: r in records ==> StagedOk(rules, r)
    ensures Collides(records) <==>
            exists r, q :: r in records && q in records && IDHash(rules, r) == IDHash(rules, q) && !SameIdentity(r, q)
  {
    forall r, q | r in records && q in records
      ensures r.candidateID == q.candidateID <==> IDHash(rules, r) == IDHash(rules, q)
    {
      assert r.candidateID[|CANDIDATE_PREFIX|..] == IDHash(rules, r);
      assert q.candidateID[|CANDIDATE_PREFIX|..] == IDHash(rules, q);
    }
  }

  lemma SameIDSameIdentity(rules: Rules, records: seq<Staged>, r: Staged, q: Staged)
    requires !Collides(records) && r in records && q in records && r.candidateID == q.candidateID
    requires StagedOk(rules, r) && StagedOk(rules, q)
    ensures SameIdentity(r, q) && r.core == q.core && r.key == q.key && r.polarity == q.polarity &&
            r.approval == q.approval
  {
  }

  // ---- Gathering ----

  lemma OwnNext(records: seq<Staged>, r: Staged)
    ensures IDs(records + [r]) == IDs(records) + {r.candidateID}
    ensures forall id :: Own(records + [r], id) ==
              if id == r.candidateID then Own(records, id) + [r] else Own(records, id)
  {
    assert (records + [r])[..|records|] == records;
  }

  function GatherOne(a: Aggregate, r: Staged): Aggregate {
    Aggregate(a.base.(text := if Less(r.text, a.base.text) then r.text else a.base.text,
                      approval := a.base.approval || r.approval),
              a.observations + [r.observation])
  }

  lemma GatheredNext(own: seq<Staged>, r: Staged)
    requires own != []
    ensures Gathered(own + [r]) == GatherOne(Gathered(own), r)
  {
    assert (own + [r])[..|own|] == own;
    assert ObservationsOf(own + [r]) == ObservationsOf(own) + [r.observation];
    assert NeedsApproval(own + [r]) <==> NeedsApproval(own) || r.approval by {
      assert r in own + [r];
      assert forall x :: x in own + [r] <==> x in own || x == r;
    }
  }

  lemma GatheredFirst(r: Staged)
    ensures Gathered([r]) == Aggregate(r, [r.observation])
  {
    assert NeedsApproval([r]) <==> r.approval by {
      assert r in [r];
    }
  }

  ghost predicate GatheredAll(byID: map<string, Aggregate>, records: seq<Staged>) {
    byID.Keys == IDs(records) && forall id :: id in byID ==> byID[id] == Gathered(Own(records, id))
  }

  lemma GatheredAllNext(byID: map<string, Aggregate>, records: seq<Staged>, r: Staged)
    requires GatheredAll(byID, records)
    ensures GatheredAll(byID[r.candidateID := if r.candidateID in byID then GatherOne(byID[r.candidateID], r)
                                              else Aggregate(r, [r.observation])], records + [r])
  {
    hide Gathered, Own, GatherOne, IDs;
    OwnNext(records, r);
    if r.candidateID in byID {
      GatheredNext(Own(records, r.candidateID), r);
    } else {
      GatheredFirst(r);
      assert Own(records, r.candidateID) + [r] == [r];
    }
  }

  lemma CollidesNext(records: seq<Staged>, r: Staged)
    requires !Collides(records)
    ensures Collides(records + [r]) <==> r.candidateID in IDs(records) && !SameIdentity(Own(records, r.candidateID)[0], r)
  {
    hide Own;
    if r.candidateID in IDs(records) {
      var first := Own(records, r.candidateID)[0];
      assert first in Own(records, r.candidateID);
      assert r in records + [r] && first in records + [r];
    }
  }

  lemma CollisionStays(records: seq<Staged>, i: nat)
    requires i <= |records| && Collides(records[..i])
    ensures Collides(records)
  {
  }

  /** The first loop: one aggregate for each candidate id. */
  method Gather(records: seq<Staged>) returns (r: Result<map<string, Aggregate>, string>)
    ensures r.Err? <==> Collides(records)
    ensures r.Ok? ==> GatheredAll(r.value, records)
  {
    hide Gathered, Own, IDs, GatheredAll, Collides;
    var byID: map<string, Aggregate> := map[];
    NothingGathered();
    var i := 0;
    while i < |records|
      invariant 0 <= i <= |records|
      invariant GatheredAll(byID, records[..i]) && !Collides(records[..i])
    {
      var record := records[i];
      assert records[..i + 1] == records[..i] + [record];
      CollidesNext(records[..i], record);
      BaseFields(byID, records[..i], record.candidateID);
      GatheredAllNext(byID, records[..i], record);
      if record.candidateID !in byID {
        byID := byID[record.candidateID := Aggregate(record, [record.observation])];
      } else {
        var a := byID[record.candidateID];
        if a.base.normalized != record.normalized || a.base.kind != record.kind || a.base.agent != record.agent {
          CollisionStays(records, i + 1);
          return Err(record.candidateID);
        }
        byID := byID[record.candidateID := GatherOne(a, record)];
      }
      i := i + 1;
    }
    assert records[..i] == records;
    r := Ok(byID);
  }

  lemma NothingGathered()
    ensures GatheredAll(map[], []) && !Collides([])
  {
  }

  lemma BaseFields(byID: map<string, Aggregate>, records: seq<Staged>, id: string)
    requires GatheredAll(byID, records)
    ensures id in byID <==> id in IDs(records)
    ensures id in byID ==> SameIdentity(byID[id].base, Own(records, id)[0])
  {
  }

  // ---- Linking the candidates of one group ----

  datatype LinkKind = Related | Conflicting

  predicate Linkable(kind: LinkKind, self: Candidate, other: Candidate) {
    other.candidateID != self.candidateID &&
    match kind
    case Related => other.polarity == self.polarity
    case Conflicting => Opposed(self.polarity, other.polarity)
  }

  /** The ids of the members that `self` is linked to. */
  ghost function LinksOf(kind: LinkKind, self: Candidate, members: seq<Candidate>): set<string> {
    set c | c in members && Linkable(kind, self, c) :: c.candidateID
  }

  lemma LinksNext(kind: LinkKind, self: Candidate, members: seq<Candidate>, c: Candidate)
    ensures LinksOf(kind, self, members + [c]) ==
            LinksOf(kind, self, members) + if Linkable(kind, self, c) then {c.candidateID} else {}
  {
  }

  lemma AppendElement(s: seq<string>, x: string)
    requires x != "" && "" !in s
    ensures Elements(AppendUnique(s, [x])) == Elements(s) + {x} && "" !in AppendUnique(s, [x])
  {
  }

  /** The inner loop over the other members of a group. */
  method CollectLinks(kind: LinkKind, self: Candidate, members: seq<Candidate>) returns (links: seq<string>)
    requires forall c :: c in members ==> c.candidateID != ""
    ensures links == SortedSet(LinksOf(kind, self, members))
  {
    hide LinksOf, Linkable, AppendUnique;
    links := [];
    NoLinks(kind, self);
    var i := 0;
    while i < |members|
      invariant 0 <= i <= |members|
      invariant StrictlySorted(links) && "" !in links
      invariant Elements(links) == LinksOf(kind, self, members[..i])
    {
      assert members[..i + 1] == members[..i] + [members[i]];
      LinksNext(kind, self, members[..i], members[i]);
      if Linkable(kind, self, members[i]) {
        assert members[i] in members;
        AppendElement(links, members[i].candidateID);
        links := AppendUnique(links, [members[i].candidateID]);
      }
      i := i + 1;
    }
    assert members[..i] == members;
    SortedUnique(links, SortedSet(LinksOf(kind, self, members)));
  }

  lemma NoLinks(kind: LinkKind, self: Candidate)
    ensures LinksOf(kind, self, []) == {} && Elements<string>([]) == {}
  {
  }

  predicate BothPolarities(members: seq<Candidate>) {
    (exists c :: c in members && c.polarity.Affirmative?) && (exists c :: c in members && c.polarity.Prohibitive?)
  }

  predicate DistinctMembers(members: seq<Candidate>) {
    forall c, d :: c in members && d in members && c.candidateID == d.candidateID ==> c == d
  }

  lemma ConflictsNeedBoth(c: Candidate, members: seq<Candidate>)
    requires c in members && DistinctMembers(members)
    ensures LinksOf(Conflicting, c, members) != {} <==> BothPolarities(members) && !c.polarity.UnknownPolarity?
  {
    var links := LinksOf(Conflicting, c, members);
    if links != {} {
      var id :| id in links;
      var d :| d in members && Linkable(Conflicting, c, d) && d.candidateID == id;
    }
    if BothPolarities(members) && !c.polarity.UnknownPolarity? {
      var d :| d in members && if c.polarity.Affirmative? then d.polarity.Prohibitive? else d.polarity.Affirmative?;
      assert d.candidateID != c.candidateID;
      assert Linkable(Conflicting, c, d);
      assert d.candidateID in links;
    }
  }

  function At(candidates: seq<Candidate>, indices: seq<nat>): (members: seq<Candidate>)
    requires forall i :: 0 <= i < |indices| ==> indices[i] < |candidates|
    ensures |members| == |indices| && forall i :: 0 <= i < |indices| ==> members[i] == candidates[indices[i]]
  {
    seq(|indices|, i requires 0 <= i < |indices| => candidates[indices[i]])
  }

  /** The candidates after a loop over `indices` has changed each of them to `f` of what it was. */
  ghost predicate Updated(before: seq<Candidate>, after: seq<Candidate>, indices: seq<nat>, f: Candidate -> Candidate) {
    |after| == |before| &&
    forall k: nat :: k < |before| ==> after[k] == if k in indices then f(before[k]) else before[k]
  }

  ghost predicate NoRepeats(indices: seq<nat>) {
    forall i, j :: 0 <= i < j < |indices| ==> indices[i] != indices[j]
  }

  lemma UpdatedNext(before: seq<Candidate>, after: seq<Candidate>, indices: seq<nat>, i: nat, f: Candidate -> Candidate)
    requires i < |indices| && indices[i] < |before| && NoRepeats(indices) && Updated(before, after, indices[..i], f)
    ensures after[indices[i]] == before[indices[i]]
    ensures Updated(before, after[indices[i] := f(before[indices[i]])], indices[..i + 1], f)
  {
    assert indices[..i + 1] == indices[..i] + [indices[i]];
    assert indices[i] !in indices[..i];
  }

  /** Every member learns its related ids. */
  method RelateAll(candidates: seq<Candidate>, indices: seq<nat>) returns (after: seq<Candidate>)
    requires NoRepeats(indices) && forall i :: 0 <= i < |indices| ==> indices[i] < |candidates|
    requires forall c :: c in candidates ==> c.candidateID != ""
    ensures var members := At(candidates, indices);
            Updated(candidates, after, indices, (c: Candidate) => c.(related := SortedSet(LinksOf(Related, c, members))))
  {
    hide LinksOf;
    var members := At(candidates, indices);
    ghost var f := (c: Candidate) => c.(related := SortedSet(LinksOf(Related, c, members)));
    after := candidates;
    var i := 0;
    while i < |indices|
      invariant 0 <= i <= |indices|
      invariant Updated(candidates, after, indices[..i], f)
    {
      var k := indices[i];
      UpdatedNext(candidates, after, indices, i, f);
      var related := CollectLinks(Related, candidates[k], members);
      after := after[k := after[k].(related := related)];
      i := i + 1;
    }
    assert indices[..i] == indices;
  }

  ghost function Conflicted(rules: Rules, group: Group, c: Candidate, members: seq<Candidate>): Candidate {
    var opposed := LinksOf(Conflicting, c, members);
    if opposed == {} then c
    else c.(conflicting := SortedSet(opposed), conflictGroup := ConflictID(rules, group.0, group.1),
            validation := Quarantine(c.validation))
  }

  /** In a group with both polarities, every member that takes a side learns its conflicts. */
  method ConflictAll(rules: Rules, group: Group, candidates: seq<Candidate>, indices: seq<nat>)
    returns (after: seq<Candidate>, conflict: bool)
    requires NoRepeats(indices) && forall i :: 0 <= i < |indices| ==> indices[i] < |candidates|
    requires forall c :: c in candidates ==> c.candidateID != ""
    requires DistinctMembers(At(candidates, indices))
    ensures var members := At(candidates, indices);
            Updated(candidates, after, indices, c => Conflicted(rules, group, c, members)) &&
            (conflict <==> BothPolarities(members))
  {
    hide LinksOf, Quarantine, Linkable, DistinctMembers;
    var members := At(candidates, indices);
    ghost var f := c => Conflicted(rules, group, c, members);
    conflict := HasBoth(members);
    after := candidates;
    if !conflict {
      forall k | 0 <= k < |indices|
        ensures LinksOf(Conflicting, members[k], members) == {}
      {
        ConflictsNeedBoth(members[k], members);
      }
      return;
    }
    var i := 0;
    while i < |indices|
      invariant 0 <= i <= |indices|
      invariant Updated(candidates, after, indices[..i], f)
    {
      var k := indices[i];
      UpdatedNext(candidates, after, indices, i, f);
      assert members[i] == candidates[k];
      ConflictsNeedBoth(candidates[k], members);
      if candidates[k].polarity.Affirmative? || candidates[k].polarity.Prohibitive? {
        var opposed := CollectLinks(Conflicting, candidates[k], members);
        after := after[k := after[k].(conflicting := opposed, conflictGroup := ConflictID(rules, group.0, group.1),
                                      validation := Quarantine(after[k].validation))];
      } else {
        assert after[k := f(candidates[k])] == after;
      }
      i := i + 1;
    }
    assert indices[..i] == indices;
  }

  method HasBoth(members: seq<Candidate>) returns (both: bool)
    ensures both <==> BothPolarities(members)
  {
    var affirmative, prohibitive := false, false;
    var i := 0;
    while i < |members|
      invariant 0 <= i <= |members|
      invariant affirmative <==> exists c :: c in members[..i] && c.polarity.Affirmative?
      invariant prohibitive <==> exists c :: c in members[..i] && c.polarity.Prohibitive?
    {
      assert members[..i + 1] == members[..i] + [members[i]];
      affirmative := affirmative || members[i].polarity.Affirmative?;
      prohibitive := prohibitive || members[i].polarity.Prohibitive?;
      i := i + 1;
    }
    assert members[..i] == members;
    both := affirmative && prohibitive;
  }

  // ---- The candidates of all groups ----

  ghost function LinkedBy(rules: Rules, records: seq<Staged>, id: string): Candidate
    requires id in IDs(records)
  {
    Linked(rules, Unlinked(records, id), GroupOf(Base(records, id)), RelatedTo(records, id), OpposedTo(records, id))
  }

  lemma UnlinkedFields(records: seq<Staged>, id: string)
    requires id in IDs(records)
    ensures var c := Unlinked(records, id);
            c.candidateID == id && c.polarity == Base(records, id).polarity && c.related == [] == c.conflicting &&
            c.conflictGroup == ""
  {
    hide Merged, TotalsOf, ValidationFor, SortedSupports, LeastText;
    assert Base(records, id) in Own(records, id);
  }

  /** The members of a group are the unlinked candidates of the ids in it. */
  ghost predicate MembersOf(records: seq<Staged>, g: Group, members: seq<Candidate>) {
    forall c :: c in members <==>
      exists id :: id in IDs(records) && GroupOf(Base(records, id)) == g && c == Unlinked(records, id)
  }

  lemma LinksAreRelations(records: seq<Staged>, g: Group, members: seq<Candidate>, id: string)
    requires MembersOf(records, g, members) && id in IDs(records) && GroupOf(Base(records, id)) == g
    ensures LinksOf(Related, Unlinked(records, id), members) == RelatedTo(records, id)
    ensures LinksOf(Conflicting, Unlinked(records, id), members) == OpposedTo(records, id)
  {
    hide Unlinked, Base, IDs;
    var c := Unlinked(records, id);
    UnlinkedFields(records, id);
    forall kind: LinkKind, y
      ensures y in LinksOf(kind, c, members) <==>
              y in IDs(records) && y != id && GroupOf(Base(records, y)) == g &&
              match kind
              case Related => Base(records, y).polarity == Base(records, id).polarity
              case Conflicting => Opposed(Base(records, id).polarity, Base(records, y).polarity)
    {
      if y in IDs(records) {
        UnlinkedFields(records, y);
      }
      if y in LinksOf(kind, c, members) {
        var d :| d in members && Linkable(kind, c, d) && d.candidateID == y;
        var z :| z in IDs(records) && GroupOf(Base(records, z)) == g && d == Unlinked(records, z);
        UnlinkedFields(records, z);
      } else if y in IDs(records) && GroupOf(Base(records, y)) == g {
        assert Unlinked(records, y) in members;
      }
    }
    assert !Opposed(Base(records, id).polarity, Base(records, id).polarity);
  }

  lemma DistinctUnlinked(records: seq<Staged>, g: Group, members: seq<Candidate>)
    requires MembersOf(records, g, members)
    ensures DistinctMembers(members)
  {
    hide Unlinked, Base, IDs;
    forall c, d | c in members && d in members && c.candidateID == d.candidateID
      ensures c == d
    {
      var x :| x in IDs(records) && GroupOf(Base(records, x)) == g && c == Unlinked(records, x);
      var y :| y in IDs(records) && GroupOf(Base(records, y)) == g && d == Unlinked(records, y);
      UnlinkedFields(records, x);
      UnlinkedFields(records, y);
    }
  }

  /** Links depend on ids and polarities only. */
  lemma LinksIgnoreLinks(kind: LinkKind, c: Candidate, d: Candidate, members: seq<Candidate>, others: seq<Candidate>)
    requires c.candidateID == d.candidateID && c.polarity == d.polarity && |members| == |others|
    requires forall i :: 0 <= i < |members| ==>
               members[i].candidateID == others[i].candidateID && members[i].polarity == others[i].polarity
    ensures LinksOf(kind, c, members) == LinksOf(kind, d, others)
  {
    forall y
      ensures y in LinksOf(kind, c, members) <==> y in LinksOf(kind, d, others)
    {
      if y in LinksOf(kind, c, members) {
        var i :| 0 <= i < |members| && Linkable(kind, c, members[i]) && members[i].candidateID == y;
        assert others[i] in others;
      }
      if y in LinksOf(kind, d, others) {
        var i :| 0 <= i < |others| && Linkable(kind, d, others[i]) && others[i].candidateID == y;
        assert members[i] in members;
      }
    }
  }

  /** Which candidate stands at which index, and which indices each group holds. */
  ghost predicate Indexed(records: seq<Staged>, order: seq<string>, groups: map<Group, seq<nat>>) {
    (forall i, j :: 0 <= i < j < |order| ==> order[i] != order[j]) &&
    (forall k :: 0 <= k < |order| ==>
       order[k] in IDs(records) && GroupOf(Base(records, order[k])) in groups &&
       k in groups[GroupOf(Base(records, order[k]))]) &&
    forall g :: g in groups ==>
      groups[g] != [] && NoRepeats(groups[g]) &&
      forall i :: 0 <= i < |groups[g]| ==> groups[g][i] < |order| && GroupOf(Base(records, order[groups[g][i]])) == g
  }

  lemma IndexedNext(records: seq<Staged>, order: seq<string>, groups: map<Group, seq<nat>>, id: string)
    requires Indexed(records, order, groups) && id in IDs(records) && id !in order
    ensures var g := GroupOf(Base(records, id));
            Indexed(records, order + [id],
                    groups[g := (if g in groups then groups[g] else []) + [|order|]])
  {
    hide IDs, Base;
    var g := GroupOf(Base(records, id));
    var more := groups[g := (if g in groups then groups[g] else []) + [|order|]];
    forall k | 0 <= k < |order| + 1
      ensures k in more[GroupOf(Base(records, (order + [id])[k]))]
    {
      if k == |order| {
        assert more[g][|more[g]| - 1] == k;
      }
    }
  }

  /** Every candidate unlinked while its group waits, linked once its group is done. */
  ghost predicate Stage(rules: Rules, records: seq<Staged>, order: seq<string>, candidates: seq<Candidate>,
                        waiting: set<Group>)
  {
    |candidates| == |order| &&
    forall k :: 0 <= k < |order| ==>
      order[k] in IDs(records) &&
      candidates[k] == if GroupOf(Base(records, order[k])) in waiting then Unlinked(records, order[k])
                       else LinkedBy(rules, records, order[k])
  }

  /** The second loop: every aggregate finalized, in no particular order, and its index filed under its group. */
  method FinalizeAll(rules: Rules, records: seq<Staged>, byID: map<string, Aggregate>)
    returns (candidates: seq<Candidate>, groups: map<Group, seq<nat>>, ghost order: seq<string>)
    requires GatheredAll(byID, records)
    ensures Elements(order) == IDs(records) && Indexed(records, order, groups)
    ensures Stage(rules, records, order, candidates, groups.Keys)
  {
    hide GatheredAll, Gathered, Own, IDs, Indexed, Unlinked, Base, Merged, Finalized;
    candidates, groups, order := [], map[], [];
    NothingIndexed(records);
    assert byID.Keys == IDs(records) by { GatheredKeys(byID, records); }
    var todo := byID.Keys;
    while todo != {}
      invariant todo <= IDs(records) && byID.Keys == IDs(records)
      invariant Elements(order) == IDs(records) - todo && Indexed(records, order, groups)
      invariant |candidates| == |order|
      invariant forall k :: 0 <= k < |order| ==> order[k] in IDs(records) && candidates[k] == Unlinked(records, order[k])
      decreases todo
    {
      var id :| id in todo;
      assert id !in Elements(order);
      IndexedNext(records, order, groups, id);
      AggregateFields(byID, records, id);
      var candidate := FinalizeCandidate(byID[id]);
      var g := (candidate.agent, byID[id].base.core);
      groups := groups[g := (if g in groups then groups[g] else []) + [|candidates|]];
      candidates := candidates + [candidate];
      assert Elements(order + [id]) == Elements(order) + {id};
      order := order + [id];
      todo := todo - {id};
    }
    IndexedKeys(records, order, groups);
  }

  lemma NothingIndexed(records: seq<Staged>)
    ensures Indexed(records, [], map[]) && Elements<string>([]) == {}
  {
  }

  lemma GatheredKeys(byID: map<string, Aggregate>, records: seq<Staged>)
    requires GatheredAll(byID, records)
    ensures byID.Keys == IDs(records)
  {
  }

  lemma AggregateFields(byID: map<string, Aggregate>, records: seq<Staged>, id: string)
    requires GatheredAll(byID, records) && id in IDs(records)
    ensures id in byID && byID[id].observations != [] && Merged(byID[id].observations) != []
    ensures Finalized(byID[id]) == Unlinked(records, id)
    ensures (Finalized(byID[id]).agent, byID[id].base.core) == GroupOf(Base(records, id))
  {
    hide Merged, TotalsOf, ValidationFor, SortedSupports, LeastText, NeedsApproval;
    MergedNonEmpty(byID[id].observations);
  }

  lemma IndexedKeys(records: seq<Staged>, order: seq<string>, groups: map<Group, seq<nat>>)
    requires Indexed(records, order, groups)
    ensures forall k :: 0 <= k < |order| ==> order[k] in IDs(records) && GroupOf(Base(records, order[k])) in groups
  {
  }

  /** A group that waits, in the middle of the third loop. */
  ghost predicate Waiting(rules: Rules, records: seq<Staged>, order: seq<string>, groups: map<Group, seq<nat>>,
                          candidates: seq<Candidate>, waiting: set<Group>, g: Group)
  {
    Elements(order) == IDs(records) && Indexed(records, order, groups) && g in groups && g in waiting &&
    Stage(rules, records, order, candidates, waiting)
  }

  /** The members of a waiting group are unlinked, and their indices are those filed for it. */
  lemma WaitingMembers(rules: Rules, records: seq<Staged>, order: seq<string>, groups: map<Group, seq<nat>>,
                       candidates: seq<Candidate>, waiting: set<Group>, g: Group)
    requires Waiting(rules, records, order, groups, candidates, waiting, g)
    ensures NoRepeats(groups[g]) && groups[g] != [] && forall i :: 0 <= i < |groups[g]| ==> groups[g][i] < |candidates|
    ensures |candidates| == |order| && |At(candidates, groups[g])| == |groups[g]|
    ensures forall i :: 0 <= i < |groups[g]| ==>
              var id := order[groups[g][i]];
              id in IDs(records) && GroupOf(Base(records, id)) == g && At(candidates, groups[g])[i] == Unlinked(records, id)
    ensures forall k :: 0 <= k < |order| && order[k] in IDs(records) && GroupOf(Base(records, order[k])) == g ==>
              k in groups[g]
  {
    hide Unlinked, Base, IDs, LinkedBy;
  }

  lemma MembersAt(rules: Rules, records: seq<Staged>, order: seq<string>, groups: map<Group, seq<nat>>,
                  candidates: seq<Candidate>, waiting: set<Group>, g: Group)
    requires Waiting(rules, records, order, groups, candidates, waiting, g)
    ensures NoRepeats(groups[g]) && groups[g] != [] && forall i :: 0 <= i < |groups[g]| ==> groups[g][i] < |candidates|
    ensures MembersOf(records, g, At(candidates, groups[g]))
  {
    hide Unlinked, Base, IDs, LinkedBy, Stage, Indexed, NoRepeats, At;
    WaitingMembers(rules, records, order, groups, candidates, waiting, g);
    var members := At(candidates, groups[g]);
    forall id | id in IDs(records) && GroupOf(Base(records, id)) == g
      ensures Unlinked(records, id) in members
    {
      assert id in Elements(order);
      var k :| 0 <= k < |order| && order[k] == id;
      var i :| 0 <= i < |groups[g]| && groups[g][i] == k;
      assert members[i] == Unlinked(records, id);
    }
    forall c | c in members
      ensures exists id :: id in IDs(records) && GroupOf(Base(records, id)) == g && c == Unlinked(records, id)
    {
      var i :| 0 <= i < |members| && members[i] == c;
      assert c == Unlinked(records, order[groups[g][i]]);
    }
  }

  lemma IDsNonEmpty(rules: Rules, records: seq<Staged>, order: seq<string>, candidates: seq<Candidate>,
                    waiting: set<Group>)
    requires Stage(rules, records, order, candidates, waiting) && "" !in IDs(records)
    ensures forall c :: c in candidates ==> c.candidateID != ""
  {
    hide Unlinked, Base, IDs;
    forall c | c in candidates
      ensures c.candidateID != ""
    {
      var k :| 0 <= k < |candidates| && candidates[k] == c;
      UnlinkedFields(records, order[k]);
    }
  }

  /** A group of one has nothing to link. */
  lemma AloneIsLinked(rules: Rules, records: seq<Staged>, g: Group, c: Candidate, id: string)
    requires MembersOf(records, g, [c]) && id in IDs(records) && GroupOf(Base(records, id)) == g
    ensures LinkedBy(rules, records, id) == Unlinked(records, id)
  {
    hide Unlinked, Base, IDs;
    UnlinkedFields(records, id);
    LinksAreRelations(records, g, [c], id);
    assert Unlinked(records, id) in [c];
    assert forall kind :: LinksOf(kind, c, [c]) == {};
  }

  /** Both passes together give a member exactly its links. */
  lemma PassesLink(rules: Rules, records: seq<Staged>, g: Group, members: seq<Candidate>, mid: seq<Candidate>, id: string)
    requires MembersOf(records, g, members) && id in IDs(records) && GroupOf(Base(records, id)) == g
    requires |mid| == |members| && forall i :: 0 <= i < |members| ==>
               mid[i] == members[i].(related := SortedSet(LinksOf(Related, members[i], members)))
    ensures var c := Unlinked(records, id);
            Conflicted(rules, g, c.(related := SortedSet(LinksOf(Related, c, members))), mid) ==
            LinkedBy(rules, records, id)
  {
    hide Unlinked, Base, IDs, LinksOf, RelatedTo, OpposedTo, MembersOf;
    var c := Unlinked(records, id);
    UnlinkedFields(records, id);
    LinksAreRelations(records, g, members, id);
    LinksIgnoreLinks(Conflicting, c.(related := SortedSet(LinksOf(Related, c, members))), c, mid, members);
  }

  lemma ConflictIsGroup(records: seq<Staged>, g: Group, members: seq<Candidate>)
    requires MembersOf(records, g, members)
    ensures BothPolarities(members) <==> g in ConflictGroups(records)
  {
    hide Unlinked, Base, IDs, LinksOf;
    DistinctUnlinked(records, g, members);
    if BothPolarities(members) {
      var c :| c in members && c.polarity.Affirmative?;
      var id :| id in IDs(records) && GroupOf(Base(records, id)) == g && c == Unlinked(records, id);
      ConflictsNeedBoth(c, members);
      LinksAreRelations(records, g, members, id);
    }
    if g in ConflictGroups(records) {
      var id :| id in IDs(records) && OpposedTo(records, id) != {} && GroupOf(Base(records, id)) == g;
      var c := Unlinked(records, id);
      assert c in members;
      LinksAreRelations(records, g, members, id);
      ConflictsNeedBoth(c, members);
    }
  }

  lemma SamePolarities(a: seq<Candidate>, b: seq<Candidate>)
    requires |a| == |b| && forall i :: 0 <= i < |a| ==> a[i].polarity == b[i].polarity
    requires forall i :: 0 <= i < |a| ==> a[i].candidateID == b[i].candidateID
    ensures BothPolarities(a) ==> BothPolarities(b)
  {
    if BothPolarities(a) {
      var c :| c in a && c.polarity.Affirmative?;
      var i :| 0 <= i < |a| && a[i] == c;
      assert b[i] in b;
      var d :| d in a && d.polarity.Prohibitive?;
      var j :| 0 <= j < |a| && a[j] == d;
      assert b[j] in b;
    }
  }

  lemma StageDone(rules: Rules, records: seq<Staged>, order: seq<string>, groups: map<Group, seq<nat>>,
                  before: seq<Candidate>, after: seq<Candidate>, waiting: set<Group>, g: Group)
    requires Waiting(rules, records, order, groups, before, waiting, g) && |after| == |before|
    requires forall k: nat :: k < |before| ==>
               order[k] in IDs(records) &&
               after[k] == if k in groups[g] then LinkedBy(rules, records, order[k]) else before[k]
    ensures Stage(rules, records, order, after, waiting - {g})
  {
    hide Unlinked, Base, IDs, LinkedBy;
    forall k: nat | k < |order|
      ensures after[k] == if GroupOf(Base(records, order[k])) in waiting - {g} then Unlinked(records, order[k])
                          else LinkedBy(rules, records, order[k])
    {
      if k in groups[g] {
        var i :| 0 <= i < |groups[g]| && groups[g][i] == k;
      }
    }
  }

  lemma RelatedAt(candidates: seq<Candidate>, mid: seq<Candidate>, indices: seq<nat>)
    requires forall i :: 0 <= i < |indices| ==> indices[i] < |candidates|
    requires Updated(candidates, mid, indices,
                     (c: Candidate) => c.(related := SortedSet(LinksOf(Related, c, At(candidates, indices)))))
    ensures |mid| == |candidates| && |At(mid, indices)| == |At(candidates, indices)| == |indices|
    ensures var members, others := At(candidates, indices), At(mid, indices);
            forall i :: 0 <= i < |indices| ==>
              others[i] == members[i].(related := SortedSet(LinksOf(Related, members[i], members)))
    ensures forall k :: 0 <= k < |mid| ==> mid[k].candidateID == candidates[k].candidateID
  {
    hide LinksOf;
    var members, others := At(candidates, indices), At(mid, indices);
    forall i | 0 <= i < |indices|
      ensures others[i] == members[i].(related := SortedSet(LinksOf(Related, members[i], members)))
    {
      assert indices[i] in indices;
    }
  }

  lemma RelatedKeepsMembers(candidates: seq<Candidate>, mid: seq<Candidate>, indices: seq<nat>)
    requires forall i :: 0 <= i < |indices| ==> indices[i] < |candidates|
    requires Updated(candidates, mid, indices,
                     (c: Candidate) => c.(related := SortedSet(LinksOf(Related, c, At(candidates, indices)))))
    requires DistinctMembers(At(candidates, indices)) && forall c :: c in candidates ==> c.candidateID != ""
    ensures |mid| == |candidates| && DistinctMembers(At(mid, indices)) && forall c :: c in mid ==> c.candidateID != ""
    ensures var members, others := At(candidates, indices), At(mid, indices);
            forall i :: 0 <= i < |indices| ==>
              others[i] == members[i].(related := SortedSet(LinksOf(Related, members[i], members)))
  {
    hide LinksOf, Updated, At;
    RelatedAt(candidates, mid, indices);
    var members, others := At(candidates, indices), At(mid, indices);
    forall c, d | c in others && d in others && c.candidateID == d.candidateID
      ensures c == d
    {
      var i :| 0 <= i < |others| && others[i] == c;
      var j :| 0 <= j < |others| && others[j] == d;
      assert members[i] in members && members[j] in members;
    }
    forall c | c in mid
      ensures c.candidateID != ""
    {
      var k :| 0 <= k < |mid| && mid[k] == c;
      assert candidates[k] in candidates;
    }
  }

  /** What both passes over a group leave behind. */
  lemma LinkedGroup(rules: Rules, records: seq<Staged>, order: seq<string>, groups: map<Group, seq<nat>>,
                    candidates: seq<Candidate>, mid: seq<Candidate>, after: seq<Candidate>, waiting: set<Group>, g: Group)
    requires Waiting(rules, records, order, groups, candidates, waiting, g)
    requires forall i :: 0 <= i < |groups[g]| ==> groups[g][i] < |candidates|
    requires var members := At(candidates, groups[g]);
             MembersOf(records, g, members) &&
             Updated(candidates, mid, groups[g],
                     (c: Candidate) => c.(related := SortedSet(LinksOf(Related, c, members))))
    requires var others := At(mid, groups[g]);
             Updated(mid, after, groups[g], c => Conflicted(rules, g, c, others)) &&
             forall i :: 0 <= i < |groups[g]| ==>
               others[i] == candidates[groups[g][i]].(related := SortedSet(LinksOf(Related, candidates[groups[g][i]],
                                                                                   At(candidates, groups[g]))))
    ensures Stage(rules, records, order, after, waiting - {g})
  {
    hide Unlinked, Base, IDs, LinkedBy, LinksOf, Conflicted, MembersOf;
    var members, others := At(candidates, groups[g]), At(mid, groups[g]);
    forall k: nat | k < |candidates|
      ensures order[k] in IDs(records)
      ensures after[k] == if k in groups[g] then LinkedBy(rules, records, order[k]) else candidates[k]
    {
      if k in groups[g] {
        var i :| 0 <= i < |groups[g]| && groups[g][i] == k;
        PassesLink(rules, records, g, members, others, order[k]);
      }
    }
    StageDone(rules, records, order, groups, candidates, after, waiting, g);
  }

  /** The body of the third loop. */
  method LinkOne(rules: Rules, ghost records: seq<Staged>, ghost order: seq<string>, groups: map<Group, seq<nat>>,
                 candidates: seq<Candidate>, ghost waiting: set<Group>, g: Group)
    returns (after: seq<Candidate>, conflict: bool)
    requires g in groups && Waiting(rules, records, order, groups, candidates, waiting, g) && "" !in IDs(records)
    ensures Stage(rules, records, order, after, waiting - {g})
    ensures conflict <==> g in ConflictGroups(records)
  {
    hide Waiting, Stage, MembersOf, Updated, LinksOf, ConflictGroups, IDs, DistinctMembers, BothPolarities, NoRepeats;
    var indices := groups[g];
    MembersAt(rules, records, order, groups, candidates, waiting, g);
    WaitingStage(rules, records, order, groups, candidates, waiting, g);
    IDsNonEmpty(rules, records, order, candidates, waiting);
    ghost var members := At(candidates, indices);
    DistinctUnlinked(records, g, members);
    ConflictIsGroup(records, g, members);
    if |indices| < 2 {
      assert members == [members[0]];
      AloneDone(rules, records, order, groups, candidates, waiting, g);
      return candidates, false;
    }
    var mid := RelateAll(candidates, indices);
    RelatedKeepsMembers(candidates, mid, indices);
    ghost var others := At(mid, indices);
    SamePolarities(members, others);
    SamePolarities(others, members);
    after, conflict := ConflictAll(rules, g, mid, indices);
    LinkedGroup(rules, records, order, groups, candidates, mid, after, waiting, g);
  }

  lemma WaitingStage(rules: Rules, records: seq<Staged>, order: seq<string>, groups: map<Group, seq<nat>>,
                     candidates: seq<Candidate>, waiting: set<Group>, g: Group)
    requires Waiting(rules, records, order, groups, candidates, waiting, g)
    ensures Stage(rules, records, order, candidates, waiting)
  {
    hide Stage;
  }

  lemma AloneDone(rules: Rules, records: seq<Staged>, order: seq<string>, groups: map<Group, seq<nat>>,
                  candidates: seq<Candidate>, waiting: set<Group>, g: Group)
    requires Waiting(rules, records, order, groups, candidates, waiting, g)
    requires |groups[g]| == 1 && groups[g][0] < |candidates| && MembersOf(records, g, [candidates[groups[g][0]]])
    ensures Stage(rules, records, order, candidates, waiting - {g})
    ensures !BothPolarities([candidates[groups[g][0]]])
  {
    hide Unlinked, Base, IDs, LinkedBy, MembersOf;
    var k := groups[g][0];
    AloneIsLinked(rules, records, g, candidates[k], order[k]);
    StageDone(rules, records, order, groups, candidates, candidates, waiting, g);
  }

  /** The conflict groups that the third loop has been through. */
  ghost function Found(keys: set<Group>, todo: set<Group>, records: seq<Staged>): set<Group> {
    (keys - todo) * ConflictGroups(records)
  }

  lemma FoundNext(keys: set<Group>, todo: set<Group>, records: seq<Staged>, g: Group)
    requires todo <= keys && g in todo
    ensures |Found(keys, todo - {g}, records)| ==
            |Found(keys, todo, records)| + if g in ConflictGroups(records) then 1 else 0
  {
    hide ConflictGroups;
    var before, after := Found(keys, todo, records), Found(keys, todo - {g}, records);
    assert after == before + if g in ConflictGroups(records) then {g} else {};
  }

  lemma FoundAll(records: seq<Staged>, order: seq<string>, groups: map<Group, seq<nat>>)
    requires Elements(order) == IDs(records) && Indexed(records, order, groups)
    ensures Found(groups.Keys, {}, records) == ConflictGroups(records) && Found(groups.Keys, groups.Keys, records) == {}
  {
    hide ConflictGroups, Indexed, IDs;
    GroupsCoverConflicts(records, order, groups);
  }

  lemma StageWaits(rules: Rules, records: seq<Staged>, order: seq<string>, groups: map<Group, seq<nat>>,
                   candidates: seq<Candidate>, waiting: set<Group>, g: Group)
    requires Elements(order) == IDs(records) && Indexed(records, order, groups) && waiting <= groups.Keys && g in waiting
    requires Stage(rules, records, order, candidates, waiting)
    ensures Waiting(rules, records, order, groups, candidates, waiting, g)
  {
    hide Stage, Indexed, IDs;
  }

  /** The third loop: every group is linked once, in no particular order, and the conflicts are counted. */
  method LinkAll(rules: Rules, ghost records: seq<Staged>, ghost order: seq<string>, groups: map<Group, seq<nat>>,
                 candidates: seq<Candidate>)
    returns (after: seq<Candidate>, conflicts: nat)
    requires Elements(order) == IDs(records) && Indexed(records, order, groups) && "" !in IDs(records)
    requires Stage(rules, records, order, candidates, groups.Keys)
    ensures Stage(rules, records, order, after, {}) && conflicts == |ConflictGroups(records)|
  {
    hide Stage, Indexed, IDs, ConflictGroups, Found, Waiting;
    after, conflicts := candidates, 0;
    var todo := groups.Keys;
    FoundAll(records, order, groups);
    while todo != {}
      invariant todo <= groups.Keys
      invariant Stage(rules, records, order, after, todo)
      invariant conflicts == |Found(groups.Keys, todo, records)|
      decreases todo
    {
      var g :| g in todo;
      var conflict;
      StageWaits(rules, records, order, groups, after, todo, g);
      after, conflict := LinkOne(rules, records, order, groups, after, todo, g);
      FoundNext(groups.Keys, todo, records, g);
      if conflict {
        conflicts := conflicts + 1;
      }
      todo := todo - {g};
    }
  }

  lemma GroupsCoverConflicts(records: seq<Staged>, order: seq<string>, groups: map<Group, seq<nat>>)
    requires Elements(order) == IDs(records) && Indexed(records, order, groups)
    ensures ConflictGroups(records) <= groups.Keys
  {
    hide Base, IDs, OpposedTo;
    forall g | g in ConflictGroups(records)
      ensures g in groups
    {
      var id :| id in IDs(records) && OpposedTo(records, id) != {} && GroupOf(Base(records, id)) == g;
      assert id in Elements(order);
      var k :| 0 <= k < |order| && order[k] == id;
    }
  }

  /** The last loop: the content hash of every candidate. */
  method HashAll(rules: Rules, candidates: seq<Candidate>) returns (after: seq<Candidate>)
    ensures |after| == |candidates| && forall k :: 0 <= k < |after| ==> after[k] == WithContent(rules, candidates[k])
  {
    after := [];
    var i := 0;
    while i < |candidates|
      invariant 0 <= i <= |candidates| && |after| == i
      invariant forall k :: 0 <= k < i ==> after[k] == WithContent(rules, candidates[k])
    {
      var c := candidates[i];
      after := after + [c.(content := rules.contentHash(c.kind, c.text, c.polarity, c.agent))];
      i := i + 1;
    }
  }

  lemma SortedAggregate(rules: Rules, records: seq<Staged>, order: seq<string>, linked: seq<Candidate>,
                        hashed: seq<Candidate>)
    requires Elements(order) == IDs(records) && Stage(rules, records, order, linked, {})
    requires forall i, j :: 0 <= i < j < |order| ==> order[i] != order[j]
    requires |hashed| == |linked| && forall k :: 0 <= k < |hashed| ==> hashed[k] == WithContent(rules, linked[k])
    ensures IsAggregate(rules, records, SortBy(hashed, BY_ID))
  {
    hide Stage, WithContent, CandidateOf, IDs, LinkedBy, SortBy, Increasing, Elements;
    HashedAre(rules, records, order, linked, hashed);
    HashedMembers(rules, records, order, hashed);
    HashedSorted(rules, records, order, hashed);
    SortMembers(hashed, BY_ID);
  }

  lemma HashedAre(rules: Rules, records: seq<Staged>, order: seq<string>, linked: seq<Candidate>, hashed: seq<Candidate>)
    requires Stage(rules, records, order, linked, {})
    requires |hashed| == |linked| && forall k :: 0 <= k < |hashed| ==> hashed[k] == WithContent(rules, linked[k])
    ensures |hashed| == |order| && forall k :: 0 <= k < |order| ==>
              order[k] in IDs(records) && hashed[k] == WithContent(rules, LinkedBy(rules, records, order[k]))
  {
    hide Unlinked, Base, IDs, LinkedBy, WithContent;
  }

  lemma HashedCandidate(rules: Rules, records: seq<Staged>, id: string)
    requires id in IDs(records)
    ensures WithContent(rules, LinkedBy(rules, records, id)) == CandidateOf(rules, records, id)
    ensures CandidateOf(rules, records, id).candidateID == id
  {
    UnlinkedFields(records, id);
    hide Unlinked, Base, IDs, RelatedTo, OpposedTo;
  }

  lemma HashedMembers(rules: Rules, records: seq<Staged>, order: seq<string>, hashed: seq<Candidate>)
    requires Elements(order) == IDs(records) && |hashed| == |order|
    requires forall k :: 0 <= k < |order| ==>
               order[k] in IDs(records) && hashed[k] == WithContent(rules, LinkedBy(rules, records, order[k]))
    ensures forall c :: c in hashed <==> exists id :: id in IDs(records) && c == CandidateOf(rules, records, id)
  {
    hide LinkedBy, CandidateOf, IDs, WithContent;
    forall c | c in hashed
      ensures exists id :: id in IDs(records) && c == CandidateOf(rules, records, id)
    {
      var k :| 0 <= k < |hashed| && hashed[k] == c;
      HashedCandidate(rules, records, order[k]);
    }
    forall id | id in IDs(records)
      ensures CandidateOf(rules, records, id) in hashed
    {
      assert id in Elements(order);
      var k :| 0 <= k < |order| && order[k] == id;
      HashedCandidate(rules, records, order[k]);
      assert hashed[k] in hashed;
    }
  }

  lemma HashedSorted(rules: Rules, records: seq<Staged>, order: seq<string>, hashed: seq<Candidate>)
    requires |hashed| == |order| && forall i, j :: 0 <= i < j < |order| ==> order[i] != order[j]
    requires forall k :: 0 <= k < |order| ==>
               order[k] in IDs(records) && hashed[k] == WithContent(rules, LinkedBy(rules, records, order[k]))
    ensures Increasing(SortBy(hashed, BY_ID), BY_ID)
  {
    hide LinkedBy, CandidateOf, IDs, WithContent, SortBy;
    CandidateOrder();
    forall i, j | 0 <= i < j < |hashed|
      ensures BY_ID(hashed[i], hashed[j]) || BY_ID(hashed[j], hashed[i])
    {
      HashedCandidate(rules, records, order[i]);
      HashedCandidate(rules, records, order[j]);
      LessTotal(order[i], order[j]);
    }
    SortIncreasing(hashed, BY_ID);
  }

  /** aggregateCandidates: the aggregate of the records and the number of their conflict groups, or a collision. */
  method AggregateCandidates(rules: Rules, records: seq<Staged>) returns (r: Result<(seq<Candidate>, nat), string>)
    requires "" !in IDs(records)
    ensures r.Err? <==> Collides(records)
    ensures r.Ok? ==> IsAggregate(rules, records, r.value.0) && r.value.1 == |ConflictGroups(records)|
  {
    hide Stage, IDs, ConflictGroups, GatheredAll, IsAggregate, Collides, SortBy;
    var byID := Gather(records);
    if byID.Err? {
      return Err(byID.error);
    }
    var candidates, groups, order := FinalizeAll(rules, records, byID.value);
    var linked, conflicts := LinkAll(rules, records, order, groups, candidates);
    var hashed := HashAll(rules, linked);
    StageLength(rules, records, order, linked);
    SortedAggregate(rules, records, order, linked, hashed);
    r := Ok((SortBy(hashed, BY_ID), conflicts));
  }

  lemma StageLength(rules: Rules, records: seq<Staged>, order: seq<string>, candidates: seq<Candidate>)
    requires Stage(rules, records, order, candidates, {})
    ensures |candidates| == |order|
  {
  }

  // ---- The order of the records does not matter ----

  lemma {:induction false} LeastTextIsLeast(own: seq<Staged>)
    requires own != []
    ensures forall r :: r in own ==> !Less(r.text, LeastText(own))
  {
    var n := |own| - 1;
    assert own == own[..n] + [own[n]];
    LessIrreflexive(own[n].text);
    if n > 0 {
      LeastTextIsLeast(own[..n]);
      var t := LeastText(own[..n]);
      forall r | r in own
        ensures !Less(r.text, LeastText(own))
      {
        StringOrder(r.text, t, own[n].text);
        StringOrder(r.text, own[n].text, t);
      }
    }
  }

  lemma SameLeastText(a: seq<Staged>, b: seq<Staged>)
    requires a != [] && b != [] && forall r :: r in a <==> r in b
    ensures LeastText(a) == LeastText(b)
  {
    LeastTextIsLeast(a);
    LeastTextIsLeast(b);
    LessTotal(LeastText(a), LeastText(b));
  }

  predicate SameStatement(r: Staged, q: Staged) {
    r.candidateID == q.candidateID && SameKey(r.observation, q.observation)
  }

  /** Records of one candidate that speak of one statement agree on its kind. */
  ghost predicate StatementsAgree(records: seq<Staged>) {
    forall r, q :: r in records && q in records && SameStatement(r, q) ==>
      r.observation.statementKind == q.observation.statementKind
  }

  lemma SameMerge(a: seq<Staged>, b: seq<Staged>)
    requires (forall r :: r in a <==> r in b) && StatementsAgree(a)
    requires forall r, q :: r in a && q in a ==> r.candidateID == q.candidateID
    ensures Merged(ObservationsOf(a)) == Merged(ObservationsOf(b))
  {
    hide IsMerge, Merged;
    var x, y := ObservationsOf(a), ObservationsOf(b);
    ElementsOf(a);
    ElementsOf(b);
    assert Elements(x) == Elements(y);
    MergedIsMerge(x);
    MergedIsMerge(y);
    forall o, p | o in Elements(x) && p in Elements(x) && SameKey(o, p)
      ensures o.statementKind == p.statementKind
    {
      var r :| r in a && r.observation == o;
      var q :| q in a && q.observation == p;
    }
    MergeUnique(Merged(x), Merged(y), Elements(x));
  }

  lemma ElementsOf(own: seq<Staged>)
    ensures forall o :: o in Elements(ObservationsOf(own)) <==> exists r :: r in own && r.observation == o
  {
    var x := ObservationsOf(own);
    forall o | exists r :: r in own && r.observation == o
      ensures o in Elements(x)
    {
      var r :| r in own && r.observation == o;
      var i :| 0 <= i < |own| && own[i] == r;
      assert x[i] == o;
    }
    forall o | o in Elements(x)
      ensures exists r :: r in own && r.observation == o
    {
      var i :| 0 <= i < |x| && x[i] == o;
      assert own[i] in own;
    }
  }

  /** Records as the derivation stages them, whatever their order. */
  ghost predicate SameRecords(rules: Rules, a: seq<Staged>, b: seq<Staged>) {
    (forall r :: r in a <==> r in b) && (forall r :: r in a ==> StagedOk(rules, r)) && !Collides(a) && StatementsAgree(a)
  }

  lemma SameOwn(rules: Rules, a: seq<Staged>, b: seq<Staged>, id: string)
    requires SameRecords(rules, a, b) && id in IDs(a)
    ensures id in IDs(b) && Base(a, id).candidateID == Base(b, id).candidateID == id
    ensures GroupOf(Base(a, id)) == GroupOf(Base(b, id)) && Base(a, id).polarity == Base(b, id).polarity
    ensures Unlinked(a, id) == Unlinked(b, id)
  {
    hide StagedOk, Collides, Merged, TotalsOf, ValidationFor, SortedSupports, LeastText;
    var x, y := Own(a, id), Own(b, id);
    assert forall r :: r in x <==> r in y;
    assert x[0] in x && y[0] in y;
    assert StagedOk(rules, x[0]) && StagedOk(rules, y[0]);
    SameIDSameIdentity(rules, a, x[0], y[0]);
    SameLeastText(x, y);
    assert StatementsAgree(x);
    SameMerge(x, y);
    assert NeedsApproval(x) <==> NeedsApproval(y);
  }

  lemma SameRecordsFlip(rules: Rules, a: seq<Staged>, b: seq<Staged>)
    requires SameRecords(rules, a, b)
    ensures SameRecords(rules, b, a) && IDs(a) == IDs(b)
  {
    hide StagedOk;
  }

  /** Permuting, or repeating, the records changes no candidate and no conflict group. */
  lemma OrderIrrelevant(rules: Rules, a: seq<Staged>, b: seq<Staged>)
    requires SameRecords(rules, a, b)
    ensures IDs(a) == IDs(b) && ConflictGroups(a) == ConflictGroups(b)
    ensures forall id :: id in IDs(a) ==> CandidateOf(rules, a, id) == CandidateOf(rules, b, id)
    ensures forall candidates :: IsAggregate(rules, a, candidates) <==> IsAggregate(rules, b, candidates)
  {
    hide SameRecords, IDs, Base, Unlinked, Linked, Increasing;
    SameRecordsFlip(rules, a, b);
    forall id | id in IDs(a)
      ensures GroupOf(Base(a, id)) == GroupOf(Base(b, id)) && Base(a, id).polarity == Base(b, id).polarity
      ensures Unlinked(a, id) == Unlinked(b, id)
    {
      SameOwn(rules, a, b, id);
    }
    forall id | id in IDs(a)
      ensures RelatedTo(a, id) == RelatedTo(b, id) && OpposedTo(a, id) == OpposedTo(b, id)
    {
    }
    assert ConflictGroups(a) == ConflictGroups(b);
  }
}
