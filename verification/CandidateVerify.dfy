/** The independent checker of a generation: candidates, links, manifest and provenance. */
module CandidateVerify {
  import opened Primitives
  import opened Ordering
  import opened Sorting
  import opened CandidateTypes
  import opened CandidateMerge
  import opened CandidateAggregate
  import opened CandidateDerive
  import opened CandidateMeaning
  import opened CandidateBuild

  // ---- One candidate ----

  predicate Adjacent(s: seq<string>) {
    forall i :: 0 < i < |s| ==> Less(s[i - 1], s[i])
  }

  lemma {:induction false} AdjacentIsSorted(s: seq<string>)
    ensures Adjacent(s) <==> StrictlySorted(s)
  {
    if Adjacent(s) && |s| > 1 {
      var n := |s| - 1;
      assert forall i :: 0 < i < n ==> Less(s[..n][i - 1], s[..n][i]);
      AdjacentIsSorted(s[..n]);
      forall i | 0 <= i < n
        ensures Less(s[i], s[n])
      {
        assert s[..n][i] == s[i] && s[..n][n - 1] == s[n - 1];
        if i < n - 1 {
          LessTransitive(s[i], s[n - 1], s[n]);
        }
      }
      forall i, j | 0 <= i < j < |s|
        ensures Less(s[i], s[j])
      {
        assert j < n ==> s[..n][i] == s[i] && s[..n][j] == s[j];
      }
    }
  }

  /** sortedUniqueStrings, with or without an empty list. */
  predicate SortedUniqueStrings(s: seq<string>, allowEmpty: bool) {
    (allowEmpty || s != []) && (forall x :: x in s ==> !Blank(x)) && Adjacent(s)
  }

  predicate SortedUniqueIDs(s: seq<string>) {
    (forall x :: x in s ==> ValidPrefixedHash(x, CANDIDATE_PREFIX)) && Adjacent(s)
  }

  predicate AscendingSupports(s: seq<SupportType>) {
    s != [] && forall i :: 0 < i < |s| ==> SupportRank(s[i - 1]) < SupportRank(s[i])
  }

  predicate ValidAgent(a: Agent) {
    !a.OtherAgent?
  }

  predicate ValidObservation(o: Observation) {
    ValidPrefixedHash(o.episodeID, "episode-") && ValidPrefixedHash(o.statementID, "statement-") &&
    !o.statementKind.OtherStatement? && o.firstSeen != ZERO_TIME && o.lastSeen != ZERO_TIME &&
    o.firstSeen <= o.lastSeen && SortedUniqueStrings(o.evidence, false) && SortedUniqueStrings(o.corrections, true) &&
    AscendingSupports(o.supports)
  }

  /** The identity that the text, the kind and the agent of a candidate determine. */
  predicate IdentityValid(rules: Rules, c: Candidate) {
    var n := rules.normalize(c.text);
    !Blank(c.text) && ValidHash(c.content) && ValidHash(c.key) && ValidPrefixedHash(c.candidateID, CANDIDATE_PREFIX) &&
    ValidAgent(c.agent) && c.scopeUnconfirmed &&
    c.candidateID == CandidateID(rules, c.kind, c.agent, n) && c.key == rules.keyHash(c.agent, rules.core(n)) &&
    c.polarity == DetectPolarity(rules, n) && c.approval == rules.changesRules(n) &&
    c.content == rules.contentHash(c.kind, c.text, c.polarity, c.agent)
  }

  predicate ExpectedTotals(c: Candidate, t: Totals) {
    c.episodeCount == |t.episodes| && c.eventCount == |t.events| && c.firstSeen == t.firstSeen &&
    c.lastSeen == t.lastSeen && c.supports == SortedSupports(SupportSet(t))
  }

  predicate ExpectedState(rules: Rules, c: Candidate, t: Totals) {
    var plain := ValidationFor(SupportSet(t), c.approval);
    SortedUniqueIDs(c.conflicting) && SortedUniqueIDs(c.related) &&
    if c.conflicting != [] then
      c.conflictGroup == ConflictID(rules, c.agent, rules.core(rules.normalize(c.text))) &&
      c.validation == Quarantine(plain)
    else c.conflictGroup == "" && c.validation == plain
  }

  /** What validateCandidate accepts. */
  ghost predicate CandidateValid(rules: Rules, c: Candidate) {
    IdentityValid(rules, c) && c.observations != [] && c.firstSeen != ZERO_TIME && c.lastSeen != ZERO_TIME &&
    c.firstSeen <= c.lastSeen && Increasing(c.observations, BY_STATEMENT) &&
    (forall o :: o in c.observations ==> ValidObservation(o)) &&
    ExpectedTotals(c, TotalsOf(c.observations)) && ExpectedState(rules, c, TotalsOf(c.observations))
  }

  method ValidateObservations(observations: seq<Observation>) returns (ok: bool)
    ensures ok <==> Increasing(observations, BY_STATEMENT) && forall o :: o in observations ==> ValidObservation(o)
  {
    hide ValidObservation, Increasing, ObservationLess, WeakOrder, StrictOrder;
    ObservationOrder();
    WeakIsStrict(BY_STATEMENT);
    NothingIncreases(observations, BY_STATEMENT);
    var i := 0;
    while i < |observations|
      invariant 0 <= i <= |observations|
      invariant Increasing(observations[..i], BY_STATEMENT)
      invariant forall o :: o in observations[..i] ==> ValidObservation(o)
    {
      assert observations[..i + 1] == observations[..i] + [observations[i]];
      IncreasingNext(observations, i, BY_STATEMENT);
      if i > 0 && !ObservationLess(observations[i - 1], observations[i]) {
        if Increasing(observations, BY_STATEMENT) {
          IncreasingPrefix(observations, i + 1, BY_STATEMENT);
        }
        return false;
      }
      if !ValidObservation(observations[i]) {
        return false;
      }
      i := i + 1;
    }
    assert observations[..i] == observations;
    ok := true;
  }

  lemma NothingIncreases<T>(s: seq<T>, less: (T, T) -> bool)
    ensures Increasing(s[..0], less)
  {
  }

  lemma WeakIsStrict<T(!new)>(less: (T, T) -> bool)
    requires WeakOrder(less)
    ensures StrictOrder(less)
  {
  }

  /** validateCandidate. */
  method ValidateCandidate(rules: Rules, c: Candidate) returns (ok: bool)
    ensures ok <==> CandidateValid(rules, c)
    ensures ok ==> CountsFollow(c) && StateFollows(c)
  {
    hide IdentityValid, ExpectedTotals, ExpectedState, Increasing, ValidObservation, TotalsOf, CountsFollow, StateFollows;
    if !IdentityValid(rules, c) || c.observations == [] || c.firstSeen == ZERO_TIME || c.lastSeen == ZERO_TIME ||
       c.lastSeen < c.firstSeen {
      return false;
    }
    var valid := ValidateObservations(c.observations);
    if !valid {
      return false;
    }
    var t := Summarize(c.observations);
    ok := ExpectedTotals(c, t) && ExpectedState(rules, c, t);
    if ok {
      ValidFollows(rules, c);
    }
  }

  lemma ValidFollows(rules: Rules, c: Candidate)
    requires CandidateValid(rules, c)
    ensures CountsFollow(c) && StateFollows(c)
  {
    hide ValidationFor, Quarantine, SortedSupports, TotalsOf, CountsFollow, StateFollows, Increasing, ValidObservation,
         SortedUniqueIDs;
    ComputedFollows(c);
  }

  // ---- Links ----

  datatype Metadata = Metadata(key: string, polarity: Polarity, group: string, conflicting: seq<string>,
                               related: seq<string>)

  predicate ConflictLinkOk(metadata: map<string, Metadata>, id: string, other: string)
    requires id in metadata
  {
    other in metadata && metadata[other].group == metadata[id].group && metadata[other].key == metadata[id].key &&
    metadata[other].polarity != metadata[id].polarity && id in metadata[other].conflicting
  }

  predicate RelatedLinkOk(metadata: map<string, Metadata>, id: string, other: string)
    requires id in metadata
  {
    other != id && other in metadata && metadata[other].key == metadata[id].key &&
    metadata[other].polarity == metadata[id].polarity && id in metadata[other].related
  }

  /** Two candidates of one key are linked as their polarities demand. */
  predicate PairLinked(metadata: map<string, Metadata>, left: string, right: string)
    requires left in metadata && right in metadata
  {
    var l, r := metadata[left], metadata[right];
    left == right || l.key != r.key ||
    ((l.polarity == r.polarity ==> right in l.related) &&
     (Opposed(l.polarity, r.polarity) ==> l.group != "" && l.group == r.group && right in l.conflicting))
  }

  /** Links are symmetric and complete within a semantic key. */
  ghost predicate LinksValid(metadata: map<string, Metadata>) {
    (forall id, other :: id in metadata && other in metadata[id].conflicting ==> ConflictLinkOk(metadata, id, other)) &&
    (forall id, other :: id in metadata && other in metadata[id].related ==> RelatedLinkOk(metadata, id, other)) &&
    forall left, right :: left in metadata && right in metadata ==> PairLinked(metadata, left, right)
  }

  predicate LinksOkAt(metadata: map<string, Metadata>, id: string)
    requires id in metadata
  {
    (forall other :: other in metadata[id].conflicting ==> ConflictLinkOk(metadata, id, other)) &&
    forall other :: other in metadata[id].related ==> RelatedLinkOk(metadata, id, other)
  }

  /** validateCandidateLinks. */
  method ValidateLinks(metadata: map<string, Metadata>) returns (ok: bool)
    ensures ok <==> LinksValid(metadata)
  {
    hide ConflictLinkOk, RelatedLinkOk, PairLinked;
    var todo := metadata.Keys;
    while todo != {}
      invariant todo <= metadata.Keys
      invariant forall id :: id in metadata && id !in todo ==> LinksOkAt(metadata, id)
      decreases todo
    {
      var id :| id in todo;
      if !LinksOkAt(metadata, id) {
        return false;
      }
      todo := todo - {id};
    }
    todo := metadata.Keys;
    while todo != {}
      invariant todo <= metadata.Keys
      invariant forall left, right :: left in metadata && left !in todo && right in metadata ==>
                  PairLinked(metadata, left, right)
      decreases todo
    {
      var left :| left in todo;
      var others := metadata.Keys;
      while others != {}
        invariant others <= metadata.Keys
        invariant forall right :: right in metadata && right !in others ==> PairLinked(metadata, left, right)
        decreases others
      {
        var right :| right in others;
        if !PairLinked(metadata, left, right) {
          return false;
        }
        others := others - {right};
      }
      todo := todo - {left};
    }
    ok := true;
  }

  // ---- Provenance ----

  /** What identifies an observation of a candidate. */
  type ProofKey = (string, string, string)

  function ProofKeyOf(id: string, o: Observation): ProofKey {
    (id, o.episodeID, o.statementID)
  }

  datatype Proof = Proof(observation: Observation, found: bool)

  /** The derived records of the selected candidates, in order. */
  function Wanted(records: seq<Staged>, selected: set<string>): seq<Staged> {
    if records == [] then []
    else
      var n := |records| - 1;
      Wanted(records[..n], selected) + if records[n].candidateID in selected then [records[n]] else []
  }

  ghost predicate ProofKeysDistinct(records: seq<Staged>) {
    forall i, j :: 0 <= i < j < |records| ==>
      ProofKeyOf(records[i].candidateID, records[i].observation) !=
      ProofKeyOf(records[j].candidateID, records[j].observation)
  }

  ghost predicate Claims(selected: map<string, Candidate>, id: string, o: Observation) {
    id in selected && o in selected[id].observations
  }

  ghost predicate ClaimsDistinct(selected: map<string, Candidate>) {
    forall id, i, j :: id in selected && 0 <= i < j < |selected[id].observations| ==>
      !SameKey(selected[id].observations[i], selected[id].observations[j])
  }

  /** Each claimed observation is proved exactly once by the derivation, and nothing derived is omitted. */
  ghost predicate ProvenanceValid(rules: Rules, selected: map<string, Candidate>, episodes: seq<Episode>) {
    var records := Wanted(AllStaged(rules, episodes), selected.Keys);
    ClaimsDistinct(selected) && ProofKeysDistinct(records) &&
    (forall r :: r in records ==> Claims(selected, r.candidateID, r.observation)) &&
    forall id, o :: Claims(selected, id, o) ==>
      exists r :: r in records && r.candidateID == id && r.observation == o
  }

  /** The open proofs of the candidates in `ids`. */
  ghost predicate ProofsOf(selected: map<string, Candidate>, ids: set<string>, proofs: map<ProofKey, Proof>) {
    (forall id, o :: id in ids && Claims(selected, id, o) ==>
       ProofKeyOf(id, o) in proofs && proofs[ProofKeyOf(id, o)] == Proof(o, false)) &&
    forall k :: k in proofs ==> k.0 in ids && exists o :: Claims(selected, k.0, o) && ProofKeyOf(k.0, o) == k
  }

  /** The proofs with those of the first observations of one candidate added. */
  ghost predicate Opened(id: string, observations: seq<Observation>, before: map<ProofKey, Proof>,
                         after: map<ProofKey, Proof>)
  {
    (forall k :: k in after <==> k in before || exists o :: o in observations && ProofKeyOf(id, o) == k) &&
    (forall k :: k in before ==> after[k] == before[k]) &&
    forall o :: o in observations ==> after[ProofKeyOf(id, o)] == Proof(o, false)
  }

  lemma OpenedNext(id: string, observations: seq<Observation>, before: map<ProofKey, Proof>, after: map<ProofKey, Proof>,
                   o: Observation)
    requires Opened(id, observations, before, after) && ProofKeyOf(id, o) !in after
    ensures Opened(id, observations + [o], before, after[ProofKeyOf(id, o) := Proof(o, false)])
  {
    var more := after[ProofKeyOf(id, o) := Proof(o, false)];
    forall k
      ensures k in more <==> k in before || exists x :: x in observations + [o] && ProofKeyOf(id, x) == k
    {
      if x :| x in observations && ProofKeyOf(id, x) == k {
        assert x in observations + [o];
      }
      assert o in observations + [o];
    }
  }

  /** The proofs of one candidate; fails on a repeated key. */
  method OpenProofs(id: string, observations: seq<Observation>, proofs: map<ProofKey, Proof>)
    returns (ok: bool, more: map<ProofKey, Proof>)
    requires forall k :: k in proofs ==> k.0 != id
    ensures ok <==> forall i, j :: 0 <= i < j < |observations| ==> !SameKey(observations[i], observations[j])
    ensures ok ==> Opened(id, observations, proofs, more)
  {
    hide Opened;
    more := proofs;
    NothingOpened(id, proofs);
    var i := 0;
    while i < |observations|
      invariant 0 <= i <= |observations|
      invariant forall a, b :: 0 <= a < b < i ==> !SameKey(observations[a], observations[b])
      invariant Opened(id, observations[..i], proofs, more)
    {
      assert observations[..i + 1] == observations[..i] + [observations[i]];
      KnownKey(id, observations[..i], proofs, more, observations[i]);
      if ProofKeyOf(id, observations[i]) in more {
        return false, more;
      }
      OpenedNext(id, observations[..i], proofs, more, observations[i]);
      more := more[ProofKeyOf(id, observations[i]) := Proof(observations[i], false)];
      i := i + 1;
    }
    assert observations[..i] == observations;
    ok := true;
  }

  lemma NothingOpened(id: string, proofs: map<ProofKey, Proof>)
    ensures Opened(id, [], proofs, proofs)
  {
  }

  lemma KnownKey(id: string, observations: seq<Observation>, before: map<ProofKey, Proof>, after: map<ProofKey, Proof>,
                 o: Observation)
    requires Opened(id, observations, before, after) && forall k :: k in before ==> k.0 != id
    ensures ProofKeyOf(id, o) in after <==> exists a :: 0 <= a < |observations| && SameKey(observations[a], o)
  {
    if ProofKeyOf(id, o) in after {
      var x :| x in observations && ProofKeyOf(id, x) == ProofKeyOf(id, o);
      assert SameKey(x, o);
    }
    if a :| 0 <= a < |observations| && SameKey(observations[a], o) {
      assert observations[a] in observations;
    }
  }

  /** The state of the proofs after some derived records. */
  ghost predicate ProofState(selected: map<string, Candidate>, proofs: map<ProofKey, Proof>, records: seq<Staged>) {
    (forall id, o :: Claims(selected, id, o) ==>
       ProofKeyOf(id, o) in proofs && proofs[ProofKeyOf(id, o)].observation == o) &&
    (forall k :: k in proofs ==>
       ProofKeyOf(k.0, proofs[k].observation) == k && Claims(selected, k.0, proofs[k].observation)) &&
    forall k :: k in proofs ==>
      (proofs[k].found <==> exists r :: r in records && ProofKeyOf(r.candidateID, r.observation) == k)
  }

  method CollectProofs(selected: map<string, Candidate>) returns (ok: bool, proofs: map<ProofKey, Proof>)
    ensures ok <==> ClaimsDistinct(selected)
    ensures ok ==> ProofState(selected, proofs, [])
  {
    proofs := map[];
    var todo := selected.Keys;
    while todo != {}
      invariant todo <= selected.Keys
      invariant ProofsOf(selected, selected.Keys - todo, proofs)
      invariant forall id, i, j ::
                  id in selected && id !in todo && 0 <= i < j < |selected[id].observations| ==>
                    !SameKey(selected[id].observations[i], selected[id].observations[j])
      decreases todo
    {
      var id :| id in todo;
      var before := proofs;
      ok, proofs := OpenProofs(id, selected[id].observations, proofs);
      if !ok {
        return;
      }
      ProofsNext(selected, selected.Keys - todo, before, id, proofs);
      assert selected.Keys - todo + {id} == selected.Keys - (todo - {id});
      todo := todo - {id};
    }
    ok := true;
    ProofsStart(selected, proofs);
  }

  lemma ProofsNext(selected: map<string, Candidate>, ids: set<string>, before: map<ProofKey, Proof>, id: string,
                   after: map<ProofKey, Proof>)
    requires ProofsOf(selected, ids, before) && id in selected && id !in ids
    requires Opened(id, selected[id].observations, before, after)
    ensures ProofsOf(selected, ids + {id}, after)
  {
    forall k | k in after
      ensures k.0 in ids + {id} && exists o :: Claims(selected, k.0, o) && ProofKeyOf(k.0, o) == k
    {
      if k !in before {
        var o :| o in selected[id].observations && ProofKeyOf(id, o) == k;
        assert Claims(selected, k.0, o);
      }
    }
  }

  lemma ProofsStart(selected: map<string, Candidate>, proofs: map<ProofKey, Proof>)
    requires ProofsOf(selected, selected.Keys, proofs)
    ensures ProofState(selected, proofs, [])
  {
    forall k | k in proofs
      ensures ProofKeyOf(k.0, proofs[k].observation) == k && Claims(selected, k.0, proofs[k].observation)
      ensures !proofs[k].found
    {
      var o :| Claims(selected, k.0, o) && ProofKeyOf(k.0, o) == k;
    }
  }

  lemma WantedNext(records: seq<Staged>, r: Staged, selected: set<string>)
    ensures Wanted(records + [r], selected) == Wanted(records, selected) + if r.candidateID in selected then [r] else []
  {
    assert (records + [r])[..|records|] == records;
  }

  ghost predicate Proved(selected: map<string, Candidate>, records: seq<Staged>) {
    ProofKeysDistinct(records) && forall r :: r in records ==> Claims(selected, r.candidateID, r.observation)
  }

  /** Proving one more record succeeds exactly when it is claimed and its key is new. */
  lemma ProveNext(selected: map<string, Candidate>, proofs: map<ProofKey, Proof>, records: seq<Staged>, r: Staged)
    requires ProofState(selected, proofs, records) && Proved(selected, records) && r.candidateID in selected
    ensures var key := ProofKeyOf(r.candidateID, r.observation);
            var proves := key in proofs && !proofs[key].found && proofs[key].observation == r.observation;
            (proves <==> Proved(selected, records + [r])) &&
            (proves ==> ProofState(selected, proofs[key := proofs[key].(found := true)], records + [r]))
  {
    var key := ProofKeyOf(r.candidateID, r.observation);
    var more := records + [r];
    var proves := key in proofs && !proofs[key].found && proofs[key].observation == r.observation;
    assert forall x :: x in more <==> x in records || x == r;
    if proves {
      assert forall i :: 0 <= i < |records| ==> records[i] in records;
      assert Proved(selected, more);
    }
    if Proved(selected, more) {
      assert more[|records|] == r && r in more;
      forall x | x in records
        ensures ProofKeyOf(x.candidateID, x.observation) != key
      {
        var i :| 0 <= i < |records| && records[i] == x;
        assert more[i] == x;
      }
    }
  }

  lemma ProvedPrefix(selected: map<string, Candidate>, records: seq<Staged>, r: Staged)
    requires Proved(selected, records + [r])
    ensures Proved(selected, records)
  {
    hide Claims;
    var more := records + [r];
    assert forall i :: 0 <= i < |records| ==> more[i] == records[i];
    assert forall x :: x in records ==> x in more;
  }

  lemma {:induction false} NotProved(selected: map<string, Candidate>, records: seq<Staged>, i: nat)
    requires i <= |records| && !Proved(selected, Wanted(records[..i], selected.Keys))
    ensures !Proved(selected, Wanted(records, selected.Keys))
    decreases |records| - i
  {
    hide Proved, Wanted;
    if i == |records| {
      assert records[..i] == records;
    } else {
      assert records[..i + 1] == records[..i] + [records[i]];
      WantedNext(records[..i], records[i], selected.Keys);
      var w := Wanted(records[..i], selected.Keys);
      assert w + [] == w;
      if Proved(selected, w + [records[i]]) {
        ProvedPrefix(selected, w, records[i]);
      }
      NotProved(selected, records, i + 1);
    }
  }

  /** One episode: every derived record of a selected candidate proves its observation. */
  method ProveEpisode(rules: Rules, e: Episode, ghost before: seq<Staged>, selected: map<string, Candidate>,
                      start: map<ProofKey, Proof>)
    returns (ok: bool, proofs: map<ProofKey, Proof>)
    requires ProofState(selected, start, Wanted(before, selected.Keys)) && Proved(selected, Wanted(before, selected.Keys))
    ensures ok <==> Proved(selected, Wanted(before + Derived(rules, e), selected.Keys))
    ensures ok ==> ProofState(selected, proofs, Wanted(before + Derived(rules, e), selected.Keys))
  {
    hide ProofState, Proved, Wanted, Derived;
    proofs := start;
    var derived := DeriveEpisodeObservations(rules, e);
    ghost var all := before + derived;
    assert all[..|before|] == before;
    var j := 0;
    while j < |derived|
      invariant 0 <= j <= |derived|
      invariant ProofState(selected, proofs, Wanted(all[..|before| + j], selected.Keys))
      invariant Proved(selected, Wanted(all[..|before| + j], selected.Keys))
    {
      var r := derived[j];
      ghost var now := all[..|before| + j];
      assert all[..|before| + j + 1] == now + [r];
      WantedNext(now, r, selected.Keys);
      if r.candidateID in selected {
        var key := ProofKeyOf(r.candidateID, r.observation);
        ProveNext(selected, proofs, Wanted(now, selected.Keys), r);
        if key !in proofs || proofs[key].found || proofs[key].observation != r.observation {
          NotProved(selected, all, |before| + j + 1);
          return false, proofs;
        }
        proofs := proofs[key := proofs[key].(found := true)];
      } else {
        assert Wanted(now, selected.Keys) + [] == Wanted(now, selected.Keys);
      }
      j := j + 1;
    }
    assert all[..|before| + j] == all;
    ok := true;
  }

  /** verifySelectedProvenance. */
  method VerifyProvenance(rules: Rules, selected: map<string, Candidate>, episodes: seq<Episode>) returns (ok: bool)
    ensures ok <==> ProvenanceValid(rules, selected, episodes)
  {
    hide ProofState, Proved, Wanted, Derived, AllStaged, ClaimsDistinct;
    var proofs;
    ok, proofs := CollectProofs(selected);
    ValidIsProved(rules, selected, episodes);
    if !ok {
      return;
    }
    NothingProved(rules, selected);
    ghost var all := AllStaged(rules, episodes);
    var i := 0;
    while i < |episodes|
      invariant 0 <= i <= |episodes|
      invariant ProofState(selected, proofs, Wanted(AllStaged(rules, episodes[..i]), selected.Keys))
      invariant Proved(selected, Wanted(AllStaged(rules, episodes[..i]), selected.Keys))
    {
      AllStagedNext(rules, episodes, i);
      ok, proofs := ProveEpisode(rules, episodes[i], AllStaged(rules, episodes[..i]), selected, proofs);
      if !ok {
        StagedPrefix(rules, episodes, i + 1);
        ghost var prefix := AllStaged(rules, episodes[..i + 1]);
        assert all[..|prefix|] == prefix;
        NotProved(selected, all, |prefix|);
        return;
      }
      i := i + 1;
    }
    assert episodes[..i] == episodes;
    AllFound(selected, proofs, Wanted(all, selected.Keys));
    ok := forall k :: k in proofs ==> proofs[k].found;
  }

  lemma {:induction false} StagedPrefix(rules: Rules, episodes: seq<Episode>, i: nat)
    requires i <= |episodes|
    ensures AllStaged(rules, episodes[..i]) <= AllStaged(rules, episodes)
    decreases |episodes| - i
  {
    hide Derived;
    if i == |episodes| {
      assert episodes[..i] == episodes;
    } else {
      AllStagedNext(rules, episodes, i);
      StagedPrefix(rules, episodes, i + 1);
    }
  }

  lemma NothingProved(rules: Rules, selected: map<string, Candidate>)
    ensures Wanted([], selected.Keys) == [] && AllStaged(rules, []) == [] && Proved(selected, [])
  {
  }

  lemma ValidIsProved(rules: Rules, selected: map<string, Candidate>, episodes: seq<Episode>)
    ensures var records := Wanted(AllStaged(rules, episodes), selected.Keys);
            ProvenanceValid(rules, selected, episodes) <==>
            (ClaimsDistinct(selected) && Proved(selected, records) &&
             forall id, o :: Claims(selected, id, o) ==>
               exists r :: r in records && r.candidateID == id && r.observation == o)
  {
    hide Wanted, AllStaged, ClaimsDistinct, ProofKeysDistinct, Claims;
  }

  lemma AllFound(selected: map<string, Candidate>, proofs: map<ProofKey, Proof>, records: seq<Staged>)
    requires ProofState(selected, proofs, records) && Proved(selected, records) && ClaimsDistinct(selected)
    ensures (forall k :: k in proofs ==> proofs[k].found) <==>
            (forall id, o :: Claims(selected, id, o) ==>
               exists r :: r in records && r.candidateID == id && r.observation == o)
  {
    if forall k :: k in proofs ==> proofs[k].found {
      forall id, o | Claims(selected, id, o)
        ensures exists r :: r in records && r.candidateID == id && r.observation == o
      {
        var k := ProofKeyOf(id, o);
        var r :| r in records && ProofKeyOf(r.candidateID, r.observation) == k;
        OneClaim(selected, id, o, r.observation);
      }
    }
    if forall id, o :: Claims(selected, id, o) ==>
         exists r :: r in records && r.candidateID == id && r.observation == o {
      forall k | k in proofs
        ensures proofs[k].found
      {
        var o := proofs[k].observation;
        assert Claims(selected, k.0, o);
        var r :| r in records && r.candidateID == k.0 && r.observation == o;
      }
    }
  }

  lemma SamePlace(observations: seq<Observation>, i: nat, j: nat)
    requires forall i, j :: 0 <= i < j < |observations| ==> !SameKey(observations[i], observations[j])
    requires i < |observations| && j < |observations| && SameKey(observations[i], observations[j])
    ensures i == j
  {
  }

  /** One candidate claims at most one observation of a statement. */
  lemma OneClaim(selected: map<string, Candidate>, id: string, a: Observation, b: Observation)
    requires ClaimsDistinct(selected) && Claims(selected, id, a) && Claims(selected, id, b) && SameKey(a, b)
    ensures a == b
  {
    var observations := selected[id].observations;
    var i :| 0 <= i < |observations| && observations[i] == a;
    var j :| 0 <= j < |observations| && observations[j] == b;
    SamePlace(observations, i, j);
  }

  // ---- A generation ----

  /** The manifest; a digest is taken as what was digested. */
  datatype Manifest = Manifest(content: seq<Candidate>, source: seq<Episode>, candidates: nat, reviewReady: nat,
                               untrusted: nat, quarantined: nat, conflictGroups: nat)

  datatype Generation = Generation(manifest: Manifest, candidates: seq<Candidate>)

  function MetadataOf(c: Candidate): Metadata {
    Metadata(c.key, c.polarity, c.conflictGroup, c.conflicting, c.related)
  }

  function AllMetadata(candidates: seq<Candidate>): map<string, Metadata> {
    if candidates == [] then map[]
    else
      var n := |candidates| - 1;
      AllMetadata(candidates[..n])[candidates[n].candidateID := MetadataOf(candidates[n])]
  }

  function GroupIDs(candidates: seq<Candidate>): set<string> {
    set c | c in candidates && c.conflictGroup != "" :: c.conflictGroup
  }

  ghost predicate CountsMatch(m: Manifest, candidates: seq<Candidate>) {
    m.content == candidates && m.candidates == |candidates| && m.reviewReady == WithStatus(candidates, ReviewReady) &&
    m.untrusted == WithStatus(candidates, Untrusted) && m.quarantined == WithStatus(candidates, Quarantined) &&
    m.conflictGroups == |GroupIDs(candidates)|
  }

  /** What Select checks of a generation before it looks at the selected candidates. */
  ghost predicate GenerationValid(rules: Rules, g: Generation) {
    (forall c :: c in g.candidates ==> CandidateValid(rules, c)) && Increasing(g.candidates, BY_ID) &&
    CountsMatch(g.manifest, g.candidates) && LinksValid(AllMetadata(g.candidates))
  }

  function Chosen(candidates: seq<Candidate>, wanted: set<string>): (m: map<string, Candidate>)
    ensures forall id :: id in m ==> id in wanted && m[id] in candidates && m[id].candidateID == id
    ensures forall c :: c in candidates && c.candidateID in wanted ==> c.candidateID in m
  {
    if candidates == [] then map[]
    else
      var n := |candidates| - 1;
      assert candidates == candidates[..n] + [candidates[n]];
      var m := Chosen(candidates[..n], wanted);
      if candidates[n].candidateID in wanted then m[candidates[n].candidateID := candidates[n]] else m
  }

  /** The candidates of a conflict group. */
  function InGroup(candidates: seq<Candidate>, group: string): set<string> {
    set c | c in candidates && c.conflictGroup == group :: c.candidateID
  }

  /** The conflict groups and their candidates, in the order in which they are read. */
  function GroupLists(candidates: seq<Candidate>): (m: map<string, seq<string>>)
    ensures m.Keys == GroupIDs(candidates)
    ensures forall group :: group in m ==> Elements(m[group]) == InGroup(candidates, group)
  {
    if candidates == [] then map[]
    else
      var n := |candidates| - 1;
      assert candidates == candidates[..n] + [candidates[n]];
      var before := GroupLists(candidates[..n]);
      GroupNext(candidates[..n], candidates[n]);
      if candidates[n].conflictGroup == "" then before else AddTo(before, candidates[n])
  }

  function ListIn(groups: map<string, seq<string>>, group: string): seq<string> {
    if group in groups then groups[group] else []
  }

  function AddTo(groups: map<string, seq<string>>, c: Candidate): map<string, seq<string>> {
    groups[c.conflictGroup := ListIn(groups, c.conflictGroup) + [c.candidateID]]
  }

  lemma GroupNext(candidates: seq<Candidate>, c: Candidate)
    ensures GroupIDs(candidates + [c]) == GroupIDs(candidates) + if c.conflictGroup == "" then {} else {c.conflictGroup}
    ensures forall group :: InGroup(candidates + [c], group) ==
              InGroup(candidates, group) + if c.conflictGroup == group then {c.candidateID} else {}
    ensures forall group :: group != "" && group !in GroupIDs(candidates) ==> InGroup(candidates, group) == {}
  {
    assert forall x :: x in candidates + [c] <==> x in candidates || x == c;
  }

  /** The counters kept while a generation is read. */
  datatype Tally = Tally(count: nat, reviewReady: nat, untrusted: nat, quarantined: nat,
                         groups: map<string, seq<string>>,
                         metadata: map<string, Metadata>, chosen: map<string, Candidate>)

  ghost predicate TallyOf(t: Tally, candidates: seq<Candidate>, wanted: set<string>) {
    t.count == |candidates| && t.reviewReady == WithStatus(candidates, ReviewReady) &&
    t.untrusted == WithStatus(candidates, Untrusted) && t.quarantined == WithStatus(candidates, Quarantined) &&
    t.groups == GroupLists(candidates) && t.metadata == AllMetadata(candidates) && t.chosen == Chosen(candidates, wanted)
  }

  function TallyNext(t: Tally, c: Candidate, wanted: set<string>): Tally {
    var u := match c.validation.status
             case ReviewReady => t.(reviewReady := t.reviewReady + 1)
             case Untrusted => t.(untrusted := t.untrusted + 1)
             case Quarantined => t.(quarantined := t.quarantined + 1);
    u.(count := t.count + 1, groups := if c.conflictGroup == "" then t.groups else AddTo(t.groups, c),
       metadata := t.metadata[c.candidateID := MetadataOf(c)],
       chosen := if c.candidateID in wanted then t.chosen[c.candidateID := c] else t.chosen)
  }

  lemma TallyStep(t: Tally, candidates: seq<Candidate>, c: Candidate, wanted: set<string>)
    requires TallyOf(t, candidates, wanted)
    ensures TallyOf(TallyNext(t, c, wanted), candidates + [c], wanted)
  {
    hide WithStatus, AddTo;
    assert (candidates + [c])[..|candidates|] == candidates;
    WithStatusNext(candidates, c, ReviewReady);
    WithStatusNext(candidates, c, Untrusted);
    WithStatusNext(candidates, c, Quarantined);
  }

  /** The loop over the candidates of a generation. */
  method ReadGeneration(rules: Rules, candidates: seq<Candidate>, wanted: set<string>)
    returns (ok: bool, t: Tally)
    ensures ok <==> (forall c :: c in candidates ==> CandidateValid(rules, c)) && Increasing(candidates, BY_ID)
    ensures ok ==> TallyOf(t, candidates, wanted)
  {
    hide CandidateValid, TallyOf, TallyNext, Increasing, WeakOrder, StrictOrder;
    CandidateOrder();
    WeakIsStrict(BY_ID);
    t := Tally(0, 0, 0, 0, map[], map[], map[]);
    NothingRead(candidates, wanted);
    var i := 0;
    while i < |candidates|
      invariant 0 <= i <= |candidates|
      invariant forall c :: c in candidates[..i] ==> CandidateValid(rules, c)
      invariant Increasing(candidates[..i], BY_ID) && TallyOf(t, candidates[..i], wanted)
    {
      var c := candidates[i];
      assert candidates[..i + 1] == candidates[..i] + [c];
      var valid := ValidateCandidate(rules, c);
      if !valid {
        return false, t;
      }
      IncreasingNext(candidates, i, BY_ID);
      if i > 0 && !Less(candidates[i - 1].candidateID, c.candidateID) {
        if Increasing(candidates, BY_ID) {
          IncreasingPrefix(candidates, i + 1, BY_ID);
        }
        return false, t;
      }
      TallyStep(t, candidates[..i], c, wanted);
      t := TallyNext(t, c, wanted);
      i := i + 1;
    }
    assert candidates[..i] == candidates;
    ok := true;
  }

  lemma NothingRead(candidates: seq<Candidate>, wanted: set<string>)
    ensures TallyOf(Tally(0, 0, 0, 0, map[], map[], map[]), candidates[..0], wanted)
    ensures Increasing(candidates[..0], BY_ID)
  {
  }

  /** What Select hands out: the wanted candidates, and all conflict groups of the generation. */
  datatype Selection = Selection(candidates: map<string, Candidate>, conflictGroups: map<string, seq<string>>)

  /** Every conflict group with its candidates in ascending order. */
  ghost predicate GroupsListed(groups: map<string, seq<string>>, candidates: seq<Candidate>) {
    groups.Keys == GroupIDs(candidates) &&
    forall group :: group in groups ==> groups[group] == SortedSet(InGroup(candidates, group))
  }

  /** The loop that sorts the groups, which hold no id twice. */
  method SortGroups(groups: map<string, seq<string>>) returns (sorted: map<string, seq<string>>)
    ensures sorted.Keys == groups.Keys
    ensures forall group :: group in groups ==> sorted[group] == SortedSet(Elements(groups[group]))
  {
    sorted := map[];
    var todo := groups.Keys;
    while todo != {}
      invariant todo <= groups.Keys && sorted.Keys == groups.Keys - todo
      invariant forall group :: group in sorted ==> sorted[group] == SortedSet(Elements(groups[group]))
      decreases todo
    {
      var group :| group in todo;
      var ids := ListSorted(set x | x in groups[group]);
      assert (set x | x in groups[group]) == Elements(groups[group]);
      sorted := sorted[group := ids];
      todo := todo - {group};
    }
  }

  /** Select: the wanted candidates of a generation and its conflict groups, once everything checks. */
  method Select(rules: Rules, g: Generation, wanted: set<string>, episodes: seq<Episode>)
    returns (r: Option<Selection>)
    ensures r.Some? <==>
              (forall id :: id in wanted ==> ValidPrefixedHash(id, CANDIDATE_PREFIX)) && GenerationValid(rules, g) &&
              wanted <= Chosen(g.candidates, wanted).Keys && g.manifest.source == episodes &&
              ProvenanceValid(rules, Chosen(g.candidates, wanted), episodes)
    ensures r.Some? ==> r.value.candidates == Chosen(g.candidates, wanted) &&
                        GroupsListed(r.value.conflictGroups, g.candidates)
  {
    hide InGroup, CandidateValid, Increasing, LinksValid, ProvenanceValid, Chosen, AllMetadata, WithStatus, GroupIDs,
         ValidPrefixedHash;
    if exists id :: id in wanted && !ValidPrefixedHash(id, CANDIDATE_PREFIX) {
      return None;
    }
    var ok, t := ReadGeneration(rules, g.candidates, wanted);
    if !ok {
      return None;
    }
    var m := g.manifest;
    if m.content != g.candidates || t.count != m.candidates || t.reviewReady != m.reviewReady ||
       t.untrusted != m.untrusted || t.quarantined != m.quarantined || |t.groups.Keys| != m.conflictGroups {
      return None;
    }
    ok := ValidateLinks(t.metadata);
    if !ok || !(wanted <= t.chosen.Keys) || m.source != episodes {
      return None;
    }
    var groups := SortGroups(t.groups);
    ok := VerifyProvenance(rules, t.chosen, episodes);
    r := if ok then Some(Selection(t.chosen, groups)) else None;
  }
}
