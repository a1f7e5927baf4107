/** Deriving staged observations from an episode. */
module CandidateDerive {
  import opened Primitives
  import opened Ordering
  import opened Sorting
  import opened CandidateTypes
  import opened CandidateMerge
  import opened CandidateAggregate

  // ---- Corrections after a compaction ----

  function CorrectionsIn(checks: seq<Check>, id: string): seq<string> {
    if checks == [] then []
    else
      var n := |checks| - 1;
      CorrectionsIn(checks[..n], id) +
      if checks[n].corrects && checks[n].statementID == id then checks[n].correctionEvents else []
  }

  /** Every event by which the user corrected the statement after a compaction that drifted. */
  function CorrectionsOf(compactions: seq<Checkpoint>, id: string): seq<string> {
    if compactions == [] then []
    else
      var n := |compactions| - 1;
      CorrectionsOf(compactions[..n], id) + if compactions[n].drift then CorrectionsIn(compactions[n].checks, id) else []
  }

  type Evidence = map<string, seq<string>>

  function EvidenceFor(evidence: Evidence, id: string): seq<string> {
    if id in evidence then evidence[id] else []
  }

  /** The map holds, for each statement, its corrections sorted and without repetition. */
  ghost predicate Holds(evidence: Evidence, events: string -> seq<string>) {
    forall id :: EvidenceFor(evidence, id) == AppendUnique([], events(id))
  }

  lemma AppendUniqueTwice(values: seq<string>, added: seq<string>)
    ensures AppendUnique(AppendUnique([], values), added) == AppendUnique([], values + added)
  {
    SortedUnique(AppendUnique(AppendUnique([], values), added), AppendUnique([], values + added));
  }

  lemma AppendNothing(values: seq<string>)
    ensures AppendUnique([], values + []) == AppendUnique([], values) && AppendUnique([], []) == []
  {
    assert values + [] == values;
    assert NonEmpty([] + []) == [];
  }

  method CollectEvidence(compactions: seq<Checkpoint>) returns (evidence: Evidence)
    ensures Holds(evidence, id => CorrectionsOf(compactions, id))
  {
    hide AppendUnique, CorrectionsIn, CorrectionsOf;
    evidence := map[];
    NothingHeld(evidence, compactions);
    var i := 0;
    while i < |compactions|
      invariant 0 <= i <= |compactions|
      invariant Holds(evidence, id => CorrectionsOf(compactions[..i], id))
    {
      ghost var before := compactions[..i];
      var checks := compactions[i].checks;
      var j := 0;
      CheckpointStarts(evidence, compactions, i);
      while compactions[i].drift && j < |checks|
        invariant 0 <= j <= |checks| && (!compactions[i].drift ==> j == 0)
        invariant Holds(evidence, id => CorrectionsOf(before, id) + CorrectionsIn(checks[..j], id))
        decreases |checks| - j
      {
        var check := checks[j];
        CheckNext(evidence, before, checks, j);
        if check.corrects {
          evidence := evidence[check.statementID := AppendUnique(EvidenceFor(evidence, check.statementID),
                                                                 check.correctionEvents)];
        }
        j := j + 1;
      }
      CheckpointEnds(evidence, compactions, i, j);
      i := i + 1;
    }
    assert compactions[..i] == compactions;
  }

  lemma NothingHeld(evidence: Evidence, compactions: seq<Checkpoint>)
    requires evidence == map[]
    ensures Holds(evidence, id => CorrectionsOf(compactions[..0], id))
  {
    AppendNothing([]);
  }

  lemma CheckpointStarts(evidence: Evidence, compactions: seq<Checkpoint>, i: nat)
    requires i < |compactions| && Holds(evidence, id => CorrectionsOf(compactions[..i], id))
    ensures Holds(evidence, id => CorrectionsOf(compactions[..i], id) + CorrectionsIn(compactions[i].checks[..0], id))
  {
    hide AppendUnique;
    var events := id => CorrectionsOf(compactions[..i], id);
    forall id
      ensures EvidenceFor(evidence, id) ==
              AppendUnique([], CorrectionsOf(compactions[..i], id) + CorrectionsIn(compactions[i].checks[..0], id))
    {
      assert EvidenceFor(evidence, id) == AppendUnique([], events(id));
      AppendNothing(CorrectionsOf(compactions[..i], id));
    }
  }

  lemma CheckNext(evidence: Evidence, before: seq<Checkpoint>, checks: seq<Check>, j: nat)
    requires j < |checks| && Holds(evidence, id => CorrectionsOf(before, id) + CorrectionsIn(checks[..j], id))
    ensures var c := checks[j];
            Holds(if c.corrects
                  then evidence[c.statementID := AppendUnique(EvidenceFor(evidence, c.statementID), c.correctionEvents)]
                  else evidence,
                  id => CorrectionsOf(before, id) + CorrectionsIn(checks[..j + 1], id))
  {
    hide AppendUnique, CorrectionsOf;
    var c := checks[j];
    var events := id => CorrectionsOf(before, id) + CorrectionsIn(checks[..j], id);
    assert checks[..j + 1][..j] == checks[..j];
    forall id
      ensures AppendUnique([], CorrectionsOf(before, id) + CorrectionsIn(checks[..j + 1], id)) ==
              if c.corrects && c.statementID == id then AppendUnique(EvidenceFor(evidence, id), c.correctionEvents)
              else EvidenceFor(evidence, id)
    {
      var x, y := CorrectionsOf(before, id), CorrectionsIn(checks[..j], id);
      assert EvidenceFor(evidence, id) == AppendUnique([], events(id));
      AppendUniqueTwice(x + y, c.correctionEvents);
      AppendNothing(x + y);
      assert x + (y + c.correctionEvents) == (x + y) + c.correctionEvents;
      assert x + (y + []) == (x + y) + [];
    }
  }

  lemma CheckpointEnds(evidence: Evidence, compactions: seq<Checkpoint>, i: nat, j: nat)
    requires i < |compactions| && j <= |compactions[i].checks|
    requires Holds(evidence, id => CorrectionsOf(compactions[..i], id) + CorrectionsIn(compactions[i].checks[..j], id))
    requires if compactions[i].drift then j == |compactions[i].checks| else j == 0
    ensures Holds(evidence, id => CorrectionsOf(compactions[..i + 1], id))
  {
    hide AppendUnique;
    var checks := compactions[i].checks;
    var events := id => CorrectionsOf(compactions[..i], id) + CorrectionsIn(checks[..j], id);
    assert compactions[..i + 1][..i] == compactions[..i];
    assert checks[..|checks|] == checks;
    forall id
      ensures EvidenceFor(evidence, id) == AppendUnique([], CorrectionsOf(compactions[..i + 1], id))
    {
      assert EvidenceFor(evidence, id) == AppendUnique([], events(id));
    }
  }

  // ---- One statement ----

  /** What a statement supports: its kind of candidate and the support types, or nothing. */
  function SupportOf(rules: Rules, s: Statement, corrections: seq<string>): Option<(CandidateKind, set<SupportType>)> {
    var base: Option<CandidateKind> := match s.kind
                                       case ConstraintStatement => Some(KindConstraint)
                                       case CorrectionStatement => Some(KindCorrection)
                                       case _ => None;
    var support := match s.kind
                   case ConstraintStatement => {UserInstruction}
                   case CorrectionStatement => {UserCorrection}
                   case _ => {};
    var remember := rules.remembers(s.text);
    var kind := if remember then Some(KindDirective)
                else if base.None? && corrections != [] then Some(KindConstraint) else base;
    if kind.None? then None
    else Some((kind.value, support + (if remember then {ExplicitRemember} else {}) +
                           if corrections != [] then {UserCorrection, CompactionDrift} else {}))
  }

  function DeriveStatement(rules: Rules, e: Episode, s: Statement, corrections: seq<string>): Option<Staged> {
    var support := SupportOf(rules, s, corrections);
    var normalized := rules.normalize(s.text);
    if support.None? || normalized == "" then None
    else
      var (kind, types) := support.value;
      var core := rules.core(normalized);
      Some(Staged(CandidateID(rules, kind, e.agent, normalized), normalized, core, rules.keyHash(e.agent, core), kind,
                  s.text, DetectPolarity(rules, normalized), e.agent, rules.changesRules(normalized),
                  Observation(e.id, s.id, s.kind, AppendUnique([], s.evidence), AppendUnique([], corrections),
                              SortedSupports(types), s.firstSeen, s.lastSeen)))
  }

  function DeriveAll(rules: Rules, e: Episode, statements: seq<Statement>): seq<Staged> {
    if statements == [] then []
    else
      var n := |statements| - 1;
      DeriveAll(rules, e, statements[..n]) +
      match DeriveStatement(rules, e, statements[n], AppendUnique([], CorrectionsOf(e.compactions, statements[n].id)))
      case None => []
      case Some(r) => [r]
  }

  predicate StagedLess(a: Staged, b: Staged) {
    if a.candidateID != b.candidateID then Less(a.candidateID, b.candidateID)
    else ObservationLess(a.observation, b.observation)
  }

  const BY_CANDIDATE: (Staged, Staged) -> bool := (a, b) => StagedLess(a, b)

  function Derived(rules: Rules, e: Episode): seq<Staged> {
    SortBy(DeriveAll(rules, e, e.statements), BY_CANDIDATE)
  }

  /** deriveEpisodeObservations. */
  method DeriveEpisodeObservations(rules: Rules, e: Episode) returns (result: seq<Staged>)
    ensures result == Derived(rules, e) && InRecordOrder(result)
  {
    hide DeriveStatement, AppendUnique, CorrectionsOf, SortBy;
    var evidence := CollectEvidence(e.compactions);
    result := [];
    var i := 0;
    while i < |e.statements|
      invariant 0 <= i <= |e.statements|
      invariant result == DeriveAll(rules, e, e.statements[..i])
    {
      var s := e.statements[i];
      assert e.statements[..i + 1][..i] == e.statements[..i];
      HeldAt(evidence, e.compactions, s.id);
      var staged := DeriveStatement(rules, e, s, EvidenceFor(evidence, s.id));
      if staged.Some? {
        result := result + [staged.value];
      }
      i := i + 1;
    }
    assert e.statements[..i] == e.statements;
    DerivedInOrder(result);
    result := SortBy(result, BY_CANDIDATE);
  }

  /** By candidate, and the records of one candidate by episode and statement. */
  ghost predicate InRecordOrder(records: seq<Staged>) {
    forall i, j :: 0 <= i < j < |records| ==>
      Less(records[i].candidateID, records[j].candidateID) ||
      (records[i].candidateID == records[j].candidateID && !ObservationLess(records[j].observation, records[i].observation))
  }

  lemma RecordOrder()
    ensures WeakOrder(BY_CANDIDATE)
  {
    forall a: Staged, b: Staged, c: Staged
      ensures !StagedLess(a, a)
      ensures StagedLess(a, b) && StagedLess(b, c) ==> StagedLess(a, c)
      ensures StagedLess(a, c) ==> StagedLess(a, b) || StagedLess(b, c)
    {
      hide Less, ObservationLess;
      StringOrder(a.candidateID, b.candidateID, c.candidateID);
      LessLaws(a.observation, b.observation, c.observation);
    }
  }

  lemma LessLaws(a: Observation, b: Observation, c: Observation)
    ensures !ObservationLess(a, a)
    ensures ObservationLess(a, b) && ObservationLess(b, c) ==> ObservationLess(a, c)
    ensures ObservationLess(a, c) ==> ObservationLess(a, b) || ObservationLess(b, c)
  {
    hide ObservationLess;
    ObservationOrder();
    assert BY_STATEMENT(a, b) == ObservationLess(a, b);
    assert BY_STATEMENT(b, c) == ObservationLess(b, c) && BY_STATEMENT(a, c) == ObservationLess(a, c);
    assert BY_STATEMENT(a, a) == ObservationLess(a, a);
  }

  lemma DerivedInOrder(records: seq<Staged>)
    ensures InRecordOrder(SortBy(records, BY_CANDIDATE))
  {
    hide Less, ObservationLess, SortBy, WeakOrder;
    RecordOrder();
    SortNotDescending(records, BY_CANDIDATE);
    var r := SortBy(records, BY_CANDIDATE);
    forall i, j | 0 <= i < j < |r|
      ensures Less(r[i].candidateID, r[j].candidateID) ||
              (r[i].candidateID == r[j].candidateID && !ObservationLess(r[j].observation, r[i].observation))
    {
      assert !BY_CANDIDATE(r[j], r[i]);
      StringOrder(r[i].candidateID, r[j].candidateID, r[j].candidateID);
    }
  }

  lemma HeldAt(evidence: Evidence, compactions: seq<Checkpoint>, id: string)
    requires Holds(evidence, id => CorrectionsOf(compactions, id))
    ensures EvidenceFor(evidence, id) == AppendUnique([], CorrectionsOf(compactions, id))
  {
    hide AppendUnique, CorrectionsOf;
    var events := id => CorrectionsOf(compactions, id);
    assert EvidenceFor(evidence, id) == AppendUnique([], events(id));
  }

  // ---- What the derivation guarantees ----

  /** The record of a statement, if it yields one. */
  function RecordOf(rules: Rules, e: Episode, s: Statement): Option<Staged> {
    DeriveStatement(rules, e, s, AppendUnique([], CorrectionsOf(e.compactions, s.id)))
  }

  lemma {:induction false} DeriveAllMembers(rules: Rules, e: Episode, statements: seq<Statement>)
    ensures forall r :: r in DeriveAll(rules, e, statements) <==>
              exists s :: s in statements && RecordOf(rules, e, s) == Some(r)
  {
    hide DeriveStatement, AppendUnique, CorrectionsOf;
    if statements != [] {
      var n := |statements| - 1;
      assert statements == statements[..n] + [statements[n]];
      DeriveAllMembers(rules, e, statements[..n]);
      assert RecordOf(rules, e, statements[n]) ==
             DeriveStatement(rules, e, statements[n], AppendUnique([], CorrectionsOf(e.compactions, statements[n].id)));
    }
  }

  lemma DerivedMembers(rules: Rules, e: Episode)
    ensures forall r :: r in Derived(rules, e) <==> exists s :: s in e.statements && RecordOf(rules, e, s) == Some(r)
  {
    DeriveAllMembers(rules, e, e.statements);
    SortMembers(DeriveAll(rules, e, e.statements), BY_CANDIDATE);
  }

  /** Every derived field is the one the rules prescribe. */
  lemma RecordStaged(rules: Rules, e: Episode, s: Statement)
    ensures RecordOf(rules, e, s).Some? ==>
              StagedOk(rules, RecordOf(rules, e, s).value) && RecordOf(rules, e, s).value.candidateID != "" &&
              RecordOf(rules, e, s).value.observation.episodeID == e.id &&
              RecordOf(rules, e, s).value.observation.statementID == s.id
  {
    hide AppendUnique, CorrectionsOf, SupportOf;
  }

  function AllStaged(rules: Rules, episodes: seq<Episode>): seq<Staged> {
    if episodes == [] then []
    else AllStaged(rules, episodes[..|episodes| - 1]) + Derived(rules, episodes[|episodes| - 1])
  }

  lemma {:induction false} AllStagedMembers(rules: Rules, episodes: seq<Episode>)
    ensures forall r :: r in AllStaged(rules, episodes) <==>
              exists e :: e in episodes && r in Derived(rules, e)
    ensures forall r :: r in AllStaged(rules, episodes) ==> StagedOk(rules, r) && r.candidateID != ""
  {
    hide Derived, StagedOk;
    if episodes != [] {
      var n := |episodes| - 1;
      assert episodes == episodes[..n] + [episodes[n]];
      AllStagedMembers(rules, episodes[..n]);
      DerivedStaged(rules, episodes[n]);
    }
  }

  lemma DerivedStaged(rules: Rules, e: Episode)
    ensures forall r :: r in Derived(rules, e) ==>
              StagedOk(rules, r) && r.candidateID != "" && r.observation.episodeID == e.id
  {
    hide Derived, StagedOk, RecordOf;
    DerivedMembers(rules, e);
    forall r | r in Derived(rules, e)
      ensures StagedOk(rules, r) && r.candidateID != "" && r.observation.episodeID == e.id
    {
      var s :| s in e.statements && RecordOf(rules, e, s) == Some(r);
      RecordStaged(rules, e, s);
    }
  }
}
