/** From statements to candidates: what a build writes, told by the statements of the episodes alone. */
module CandidateOrigin {
  import opened Primitives
  import opened Ordering
  import opened Sorting
  import opened CandidateTypes
  import opened CandidateMerge
  import opened CandidateAggregate
  import opened CandidateDerive
  import opened CandidateMeaning
  import opened CandidateShards
  import opened CandidateBuild
  import opened CandidateVerify
  import opened CandidateAccept

  // ---- What a statement yields ----

  /** With this event the user corrected the statement after a compaction that drifted. */
  ghost predicate CorrectedBy(compactions: seq<Checkpoint>, id: string, event: string) {
    event != "" && exists p, c :: p in compactions && p.drift && c in p.checks && c.corrects && c.statementID == id &&
                                  event in c.correctionEvents
  }

  ghost predicate WasCorrected(e: Episode, s: Statement) {
    exists event :: CorrectedBy(e.compactions, s.id, event)
  }

  /** Constraints and corrections are kept, and whatever the user asks to remember or had to correct again. */
  ghost predicate Kept(rules: Rules, e: Episode, s: Statement) {
    rules.normalize(s.text) != "" &&
    (s.kind.ConstraintStatement? || s.kind.CorrectionStatement? || rules.remembers(s.text) || WasCorrected(e, s))
  }

  predicate HasKind(rules: Rules, s: Statement, kind: CandidateKind) {
    match kind
    case KindDirective => rules.remembers(s.text)
    case KindCorrection => !rules.remembers(s.text) && s.kind.CorrectionStatement?
    case KindConstraint => !rules.remembers(s.text) && !s.kind.CorrectionStatement?
  }

  ghost predicate Supports(rules: Rules, e: Episode, s: Statement, t: SupportType) {
    match t
    case UserInstruction => s.kind.ConstraintStatement?
    case UserCorrection => s.kind.CorrectionStatement? || WasCorrected(e, s)
    case ExplicitRemember => rules.remembers(s.text)
    case CompactionDrift => WasCorrected(e, s)
    case StableRepetition => false
  }

  /** The observation of a statement. */
  ghost predicate Observes(rules: Rules, e: Episode, s: Statement, o: Observation) {
    o.episodeID == e.id && o.statementID == s.id && o.statementKind == s.kind && o.firstSeen == s.firstSeen &&
    o.lastSeen == s.lastSeen && StrictlySorted(o.evidence) && (forall x :: x in o.evidence <==> x in s.evidence && x != "") &&
    StrictlySorted(o.corrections) && (forall x :: x in o.corrections <==> CorrectedBy(e.compactions, s.id, x)) &&
    SupportsAscending(o.supports) && forall t :: t in o.supports <==> Supports(rules, e, s, t)
  }

  lemma {:induction false} CorrectionsInMean(checks: seq<Check>, id: string)
    ensures forall x :: x in CorrectionsIn(checks, id) <==>
              exists c :: c in checks && c.corrects && c.statementID == id && x in c.correctionEvents
  {
    if checks != [] {
      var n := |checks| - 1;
      assert checks == checks[..n] + [checks[n]];
      CorrectionsInMean(checks[..n], id);
    }
  }

  lemma {:induction false} CorrectionsMean(compactions: seq<Checkpoint>, id: string)
    ensures forall x :: x in CorrectionsOf(compactions, id) && x != "" <==> CorrectedBy(compactions, id, x)
  {
    if compactions != [] {
      var n := |compactions| - 1;
      var p := compactions[n];
      assert compactions == compactions[..n] + [p];
      CorrectionsMean(compactions[..n], id);
      CorrectionsInMean(p.checks, id);
      hide CorrectionsIn;
      forall x
        ensures CorrectedBy(compactions, id, x) <==>
                CorrectedBy(compactions[..n], id, x) || (p.drift && x != "" && x in CorrectionsIn(p.checks, id))
      {
      }
    }
  }

  lemma CorrectedExactly(e: Episode, s: Statement)
    ensures var corrections := AppendUnique([], CorrectionsOf(e.compactions, s.id));
            StrictlySorted(corrections) && (forall x :: x in corrections <==> CorrectedBy(e.compactions, s.id, x)) &&
            (corrections != [] <==> WasCorrected(e, s)) && AppendUnique([], corrections) == corrections
  {
    hide CorrectionsOf, CorrectedBy, AppendUnique;
    var corrections := AppendUnique([], CorrectionsOf(e.compactions, s.id));
    CorrectionsMean(e.compactions, s.id);
    if corrections != [] {
      assert corrections[0] in corrections;
    }
    CorrectedNotBlank(e.compactions, s.id);
    SortedUnique(AppendUnique([], corrections), corrections);
  }

  lemma CorrectedNotBlank(compactions: seq<Checkpoint>, id: string)
    ensures !CorrectedBy(compactions, id, "")
  {
  }

  /** A statement yields a record exactly when it is kept, and the record observes it. */
  lemma DerivesExactly(rules: Rules, e: Episode, s: Statement)
    ensures RecordOf(rules, e, s).Some? <==> Kept(rules, e, s)
    ensures Kept(rules, e, s) ==>
              var r := RecordOf(rules, e, s).value;
              HasKind(rules, s, r.kind) && r.text == s.text && r.agent == e.agent && Observes(rules, e, s, r.observation)
  {
    hide CorrectionsOf, AppendUnique, SortedSupports, CorrectedBy, WasCorrected, CandidateID, DetectPolarity,
         SupportsAscending;
    var corrections := AppendUnique([], CorrectionsOf(e.compactions, s.id));
    CorrectedExactly(e, s);
    var support := SupportOf(rules, s, corrections);
    if support.Some? {
      SortedSupportsAscend(support.value.1);
    }
  }

  lemma ObservesOne(rules: Rules, e: Episode, s: Statement, a: Observation, b: Observation)
    requires Observes(rules, e, s, a) && Observes(rules, e, s, b)
    ensures a == b
  {
    hide CorrectedBy, Supports;
    SortedUnique(a.evidence, b.evidence);
    SortedUnique(a.corrections, b.corrections);
    RankUnique(a.supports, b.supports, x => SupportRank(x));
  }

  // ---- The statements behind a candidate ----

  /** The statement speaks for the candidate: same kind, same agent, same normalized text. */
  ghost predicate SpeaksFor(rules: Rules, e: Episode, s: Statement, c: Candidate) {
    Kept(rules, e, s) && HasKind(rules, s, c.kind) && e.agent == c.agent &&
    rules.normalize(s.text) == rules.normalize(c.text)
  }

  /** The candidate has one observation for each statement that speaks for it, its text is the smallest of theirs, and
      its digests, its polarity and whether it needs approval are what its kind, its agent and that text make them. */
  ghost predicate FromStatements(rules: Rules, episodes: seq<Episode>, c: Candidate) {
    (forall o :: o in c.observations <==>
       exists e, s :: e in episodes && s in e.statements && SpeaksFor(rules, e, s, c) && Observes(rules, e, s, o)) &&
    (exists e, s :: e in episodes && s in e.statements && SpeaksFor(rules, e, s, c) && s.text == c.text) &&
    (forall e, s :: e in episodes && s in e.statements && SpeaksFor(rules, e, s, c) ==> !Less(s.text, c.text)) &&
    var n := rules.normalize(c.text);
    c.candidateID == "candidate-" + rules.idHash(c.kind, c.agent, n) &&
    c.key == rules.keyHash(c.agent, rules.core(n)) &&
    (c.polarity.Prohibitive? <==> rules.prohibits(n)) && (c.polarity.Affirmative? <==> !rules.prohibits(n)) &&
    (c.approval <==> rules.changesRules(n)) && c.content == rules.contentHash(c.kind, c.text, c.polarity, c.agent)
  }

  /** Two candidates of one agent that say the same, or the opposite. */
  predicate Together(rules: Rules, c: Candidate, d: Candidate) {
    c.agent == d.agent && rules.core(rules.normalize(c.text)) == rules.core(rules.normalize(d.text))
  }

  predicate Disagree(c: Candidate, d: Candidate) {
    (c.polarity.Affirmative? && d.polarity.Prohibitive?) || (c.polarity.Prohibitive? && d.polarity.Affirmative?)
  }

  /** The links of a candidate are those its polarity and those of the others demand. */
  ghost predicate LinksFollow(rules: Rules, candidates: seq<Candidate>, c: Candidate) {
    StrictlySorted(c.related) && StrictlySorted(c.conflicting) &&
    (forall x :: x in c.related <==> exists d :: d in candidates && d.candidateID == x && d != c && Together(rules, c, d) &&
                                                 c.polarity == d.polarity) &&
    (forall x :: x in c.conflicting <==> exists d :: d in candidates && d.candidateID == x && Together(rules, c, d) &&
                                                     Disagree(c, d)) &&
    c.conflictGroup == if c.conflicting == [] then ""
                       else "candidate-conflict-" + rules.conflictHash(c.agent, rules.core(rules.normalize(c.text)))
  }

  // ---- Proofs ----

  lemma SourceOf(rules: Rules, episodes: seq<Episode>, r: Staged)
    ensures r in AllStaged(rules, episodes) <==>
            exists e, s :: e in episodes && s in e.statements && RecordOf(rules, e, s) == Some(r)
  {
    hide AllStaged, Derived, RecordOf, StagedOk;
    AllStagedMembers(rules, episodes);
    if r in AllStaged(rules, episodes) {
      var e :| e in episodes && r in Derived(rules, e);
      DerivedMembers(rules, e);
      var s :| s in e.statements && RecordOf(rules, e, s) == Some(r);
    }
    if e, s :| e in episodes && s in e.statements && RecordOf(rules, e, s) == Some(r) {
      DerivedMembers(rules, e);
      assert r in Derived(rules, e);
    }
  }

  /** What a candidate takes from its first record. */
  lemma CandidateBase(rules: Rules, records: seq<Staged>, id: string)
    requires Good(rules, records) && id in IDs(records)
    ensures var c, b := CandidateOf(rules, records, id), Base(records, id);
            b in records && b.candidateID == id && StagedOk(rules, b) && c.candidateID == id && c.kind == b.kind &&
            c.agent == b.agent && rules.normalize(c.text) == b.normalized && c.text == LeastText(Own(records, id)) &&
            c.polarity == b.polarity && IdentityValid(rules, c)
  {
    hide Merged, TotalsOf, ValidationFor, RelatedTo, OpposedTo, SortedSupports, Quarantine, KeysDistinct, Own, LeastText,
         NeedsApproval, Collides, IdentityValid, StagedOk, RecordOk, IDs, RulesOk;
    OwnAgree(rules, records, id);
    CandidateIdentity(rules, records, id);
    BaseStaged(rules, records, id);
  }

  lemma OneKind(rules: Rules, s: Statement, a: CandidateKind, b: CandidateKind)
    requires HasKind(rules, s, a) && HasKind(rules, s, b)
    ensures a == b
  {
  }

  /** The statements that speak for a candidate are those whose records carry its id. */
  lemma SpeaksExactly(rules: Rules, episodes: seq<Episode>, e: Episode, s: Statement, id: string)
    requires Good(rules, AllStaged(rules, episodes)) && id in IDs(AllStaged(rules, episodes))
    requires e in episodes && s in e.statements
    ensures SpeaksFor(rules, e, s, CandidateOf(rules, AllStaged(rules, episodes), id)) <==>
            RecordOf(rules, e, s).Some? && RecordOf(rules, e, s).value.candidateID == id
    ensures RecordOf(rules, e, s).Some? ==>
              RecordOf(rules, e, s).value in AllStaged(rules, episodes) && RecordOf(rules, e, s).value.text == s.text
  {
    hide AllStaged, CandidateOf, IDs, RecordOf, Kept, HasKind, Observes, KeysDistinct, RecordOk, RulesOk, Collides, Own,
         LeastText;
    var records := AllStaged(rules, episodes);
    var c, b := CandidateOf(rules, records, id), Base(records, id);
    CandidateBase(rules, records, id);
    DerivesExactly(rules, e, s);
    RecordStaged(rules, e, s);
    if RecordOf(rules, e, s).Some? {
      var r := RecordOf(rules, e, s).value;
      SourceOf(rules, episodes, r);
      if r.candidateID == id {
        SameIDSameIdentity(rules, records, r, b);
      }
      if SpeaksFor(rules, e, s, c) {
        OneKind(rules, s, r.kind, c.kind);
      }
    }
  }

  lemma ObservedStatements(rules: Rules, episodes: seq<Episode>, id: string, o: Observation)
    requires Good(rules, AllStaged(rules, episodes)) && id in IDs(AllStaged(rules, episodes))
    ensures var c := CandidateOf(rules, AllStaged(rules, episodes), id);
            o in c.observations <==>
            exists e, s :: e in episodes && s in e.statements && SpeaksFor(rules, e, s, c) && Observes(rules, e, s, o)
  {
    hide AllStaged, CandidateOf, IDs, RecordOf, Kept, HasKind, Observes, Good, SpeaksFor;
    var records := AllStaged(rules, episodes);
    var c := CandidateOf(rules, records, id);
    CandidateObservations(rules, records, id);
    if o in c.observations {
      var r :| r in records && r.candidateID == id && r.observation == o;
      SourceOf(rules, episodes, r);
      var e, s :| e in episodes && s in e.statements && RecordOf(rules, e, s) == Some(r);
      SpeaksExactly(rules, episodes, e, s, id);
      DerivesExactly(rules, e, s);
    }
    if e, s :| e in episodes && s in e.statements && SpeaksFor(rules, e, s, c) && Observes(rules, e, s, o) {
      SpeaksExactly(rules, episodes, e, s, id);
      DerivesExactly(rules, e, s);
      ObservesOne(rules, e, s, o, RecordOf(rules, e, s).value.observation);
    }
  }

  /** The smallest text among the statements. */
  lemma TextOfStatements(rules: Rules, episodes: seq<Episode>, id: string)
    requires Good(rules, AllStaged(rules, episodes)) && id in IDs(AllStaged(rules, episodes))
    ensures var c := CandidateOf(rules, AllStaged(rules, episodes), id);
            (exists e, s :: e in episodes && s in e.statements && SpeaksFor(rules, e, s, c) && s.text == c.text) &&
            forall e, s :: e in episodes && s in e.statements && SpeaksFor(rules, e, s, c) ==> !Less(s.text, c.text)
  {
    hide AllStaged, CandidateOf, IDs, RecordOf, Kept, HasKind, Observes, Good, SpeaksFor, IdentityValid, Less, StagedOk;
    var records := AllStaged(rules, episodes);
    var c, own := CandidateOf(rules, records, id), Own(records, id);
    CandidateBase(rules, records, id);
    LeastTextIsLeast(own);
    var r :| r in own && r.text == LeastText(own);
    SourceOf(rules, episodes, r);
    var e, s :| e in episodes && s in e.statements && RecordOf(rules, e, s) == Some(r);
    SpeaksExactly(rules, episodes, e, s, id);
    forall e, s | e in episodes && s in e.statements && SpeaksFor(rules, e, s, c)
      ensures !Less(s.text, c.text)
    {
      SpeaksExactly(rules, episodes, e, s, id);
      assert RecordOf(rules, e, s).value in own;
    }
  }

  lemma PolarityMeans(rules: Rules, c: Candidate)
    requires IdentityValid(rules, c)
    ensures var n := rules.normalize(c.text);
            c.candidateID == "candidate-" + rules.idHash(c.kind, c.agent, n) &&
            c.key == rules.keyHash(c.agent, rules.core(n)) &&
            (c.polarity.Prohibitive? <==> rules.prohibits(n)) && (c.polarity.Affirmative? <==> !rules.prohibits(n)) &&
            (c.approval <==> rules.changesRules(n)) && c.content == rules.contentHash(c.kind, c.text, c.polarity, c.agent)
  {
  }

  /** Every candidate is told by the statements of the episodes. */
  lemma CandidateFromStatements(rules: Rules, episodes: seq<Episode>, id: string)
    requires Good(rules, AllStaged(rules, episodes)) && id in IDs(AllStaged(rules, episodes))
    ensures FromStatements(rules, episodes, CandidateOf(rules, AllStaged(rules, episodes), id))
  {
    hide AllStaged, CandidateOf, IDs, Observes, Good, SpeaksFor, IdentityValid, Less, Own, LeastText, StagedOk;
    var c := CandidateOf(rules, AllStaged(rules, episodes), id);
    CandidateBase(rules, AllStaged(rules, episodes), id);
    PolarityMeans(rules, c);
    TextOfStatements(rules, episodes, id);
    forall o
      ensures o in c.observations <==>
              exists e, s :: e in episodes && s in e.statements && SpeaksFor(rules, e, s, c) && Observes(rules, e, s, o)
    {
      ObservedStatements(rules, episodes, id, o);
    }
  }

  /** Same group of records, same group of candidates. */
  lemma TogetherMeans(rules: Rules, records: seq<Staged>, x: string, y: string)
    requires Good(rules, records) && x in IDs(records) && y in IDs(records)
    ensures var c, d := CandidateOf(rules, records, x), CandidateOf(rules, records, y);
            (Together(rules, c, d) <==> GroupOf(Base(records, x)) == GroupOf(Base(records, y))) &&
            (Disagree(c, d) <==> Opposed(Base(records, x).polarity, Base(records, y).polarity)) &&
            (c.polarity == d.polarity <==> Base(records, x).polarity == Base(records, y).polarity)
  {
    hide CandidateOf, IDs, Base, Own, LeastText, IdentityValid, Good;
    CandidateBase(rules, records, x);
    CandidateBase(rules, records, y);
  }

  lemma LinkFields(rules: Rules, records: seq<Staged>, id: string)
    requires Good(rules, records) && id in IDs(records)
    ensures var c, b := CandidateOf(rules, records, id), Base(records, id);
            c.related == SortedSet(RelatedTo(records, id)) && c.conflicting == SortedSet(OpposedTo(records, id)) &&
            (c.conflicting == [] <==> OpposedTo(records, id) == {}) && c.agent == b.agent &&
            rules.core(rules.normalize(c.text)) == b.core &&
            c.conflictGroup == if c.conflicting == [] then "" else "candidate-conflict-" + rules.conflictHash(b.agent, b.core)
  {
    hide CandidateOf, IDs, Base, RelatedTo, OpposedTo, TotalsOf, ExpectedTotals, ValidationFor, Quarantine, RecordOk,
         KeysDistinct, AllDerived, Merged, Own;
    CandidateParts(rules, records, id);
    CandidateCore(rules, records, id);
    NoLinksNoList(OpposedTo(records, id));
  }

  lemma CandidateLinks(rules: Rules, records: seq<Staged>, candidates: seq<Candidate>, id: string)
    requires Good(rules, records) && IsAggregate(rules, records, candidates) && id in IDs(records)
    ensures LinksFollow(rules, candidates, CandidateOf(rules, records, id))
  {
    hide CandidateOf, IDs, Base, Good, Together, Disagree, Increasing, GroupOf, Opposed, Less;
    var c := CandidateOf(rules, records, id);
    LinkFields(rules, records, id);
    SortedSetMembers(RelatedTo(records, id));
    SortedSetMembers(OpposedTo(records, id));
    CandidateKeepsID(rules, records, id);
    forall x
      ensures x in c.related <==> exists d :: d in candidates && d.candidateID == x && d != c && Together(rules, c, d) &&
                                              c.polarity == d.polarity
      ensures x in c.conflicting <==> exists d :: d in candidates && d.candidateID == x && Together(rules, c, d) &&
                                                  Disagree(c, d)
    {
      LinkedAt(rules, records, candidates, id, x);
    }
  }

  lemma LinkedAt(rules: Rules, records: seq<Staged>, candidates: seq<Candidate>, id: string, x: string)
    requires Good(rules, records) && IsAggregate(rules, records, candidates) && id in IDs(records)
    ensures var c := CandidateOf(rules, records, id);
            (x in RelatedTo(records, id) <==> exists d :: d in candidates && d.candidateID == x && d != c &&
                                                          Together(rules, c, d) && c.polarity == d.polarity) &&
            (x in OpposedTo(records, id) <==> exists d :: d in candidates && d.candidateID == x && Together(rules, c, d) &&
                                                          Disagree(c, d))
  {
    hide CandidateOf, IDs, Base, Good, Together, Disagree, Increasing, GroupOf, Opposed, Less;
    var c := CandidateOf(rules, records, id);
    CandidateKeepsID(rules, records, id);
    if x in IDs(records) {
      CandidateKeepsID(rules, records, x);
      TogetherMeans(rules, records, id, x);
      assert CandidateOf(rules, records, x) in candidates;
    }
    forall d | d in candidates && d.candidateID == x
      ensures x in IDs(records) && d == CandidateOf(rules, records, x)
    {
      var y :| y in IDs(records) && d == CandidateOf(rules, records, y);
      CandidateKeepsID(rules, records, y);
    }
  }

  /** Everything that a build writes, told by the statements of its episodes: each kept statement speaks for a candidate,
      each candidate is what its statements make it, and each link is what the candidates demand. */
  lemma BuiltMeans(rules: Rules, episodes: seq<Episode>, candidates: seq<Candidate>)
    requires RulesOk(rules) && WellFormed(episodes) && !Collides(AllStaged(rules, episodes))
    requires IsAggregate(rules, AllStaged(rules, episodes), candidates)
    ensures forall c :: c in candidates ==>
              FromStatements(rules, episodes, c) && LinksFollow(rules, candidates, c) && CountsFollow(c) && StateFollows(c)
    ensures forall e, s :: e in episodes && s in e.statements && Kept(rules, e, s) ==>
              exists c :: c in candidates && SpeaksFor(rules, e, s, c)
  {
    hide RulesOk, WellFormed, Collides, AllStaged, Good, FromStatements, LinksFollow, CountsFollow, StateFollows, Kept,
         SpeaksFor, Increasing, RecordOf, IDs, CandidateOf;
    var records := AllStaged(rules, episodes);
    GoodBuild(rules, episodes);
    forall c | c in candidates
      ensures FromStatements(rules, episodes, c) && LinksFollow(rules, candidates, c) && CountsFollow(c) && StateFollows(c)
    {
      var id :| id in IDs(records) && c == CandidateOf(rules, records, id);
      CandidateFromStatements(rules, episodes, id);
      CandidateLinks(rules, records, candidates, id);
      CandidateFollows(rules, records, id);
    }
    forall e, s | e in episodes && s in e.statements && Kept(rules, e, s)
      ensures exists c :: c in candidates && SpeaksFor(rules, e, s, c)
    {
      var id := SpokenFor(rules, episodes, e, s);
      assert CandidateOf(rules, records, id) in candidates;
    }
  }

  lemma SpokenFor(rules: Rules, episodes: seq<Episode>, e: Episode, s: Statement) returns (id: string)
    requires Good(rules, AllStaged(rules, episodes)) && e in episodes && s in e.statements && Kept(rules, e, s)
    ensures id in IDs(AllStaged(rules, episodes))
    ensures SpeaksFor(rules, e, s, CandidateOf(rules, AllStaged(rules, episodes), id))
  {
    hide AllStaged, CandidateOf, RecordOf, Kept, Good, SpeaksFor;
    DerivesExactly(rules, e, s);
    var r := RecordOf(rules, e, s).value;
    SourceOf(rules, episodes, r);
    id := r.candidateID;
    assert id in IDs(AllStaged(rules, episodes));
    SpeaksExactly(rules, episodes, e, s, id);
  }

  // ---- Acceptance ----

  /** No blank entry, and each entry once, in order. */
  ghost predicate ProperList(s: seq<string>) {
    StrictlySorted(s) && forall x :: x in s ==> !Blank(x)
  }

  ghost predicate ObservationSound(o: Observation) {
    ValidPrefixedHash(o.episodeID, "episode-") && ValidPrefixedHash(o.statementID, "statement-") &&
    (o.statementKind.GoalStatement? || o.statementKind.ConstraintStatement? || o.statementKind.CorrectionStatement?) &&
    o.firstSeen != 0 && o.lastSeen != 0 && o.firstSeen <= o.lastSeen && o.evidence != [] && ProperList(o.evidence) &&
    ProperList(o.corrections) && o.supports != [] && SupportsAscending(o.supports)
  }

  ghost predicate StatementsAscend(observations: seq<Observation>) {
    forall i, j :: 0 <= i < j < |observations| ==>
      Less(observations[i].episodeID, observations[j].episodeID) ||
      (observations[i].episodeID == observations[j].episodeID &&
       Less(observations[i].statementID, observations[j].statementID))
  }

  ghost predicate LinkList(ids: seq<string>) {
    StrictlySorted(ids) && forall x :: x in ids ==> ValidPrefixedHash(x, "candidate-")
  }

  /** The identity that the text, the kind and the agent of a candidate determine. */
  ghost predicate TextFollows(rules: Rules, c: Candidate) {
    var n := rules.normalize(c.text);
    !Blank(c.text) && c.candidateID == "candidate-" + rules.idHash(c.kind, c.agent, n) &&
    c.key == rules.keyHash(c.agent, rules.core(n)) && (c.approval <==> rules.changesRules(n)) &&
    (c.polarity.Prohibitive? <==> rules.prohibits(n)) && (c.polarity.Affirmative? <==> !rules.prohibits(n)) &&
    c.content == rules.contentHash(c.kind, c.text, c.polarity, c.agent) &&
    c.conflictGroup == if c.conflicting == [] then "" else "candidate-conflict-" + rules.conflictHash(c.agent, rules.core(n))
  }

  lemma {:induction false} SupportsStep(s: seq<SupportType>)
    ensures AscendingSupports(s) <==> s != [] && SupportsAscending(s)
  {
    hide SupportRank;
    if |s| > 1 {
      var n := |s| - 1;
      var front := s[..n];
      assert s == front + [s[n]];
      SupportsStep(front);
      assert AscendingSupports(s) <==> AscendingSupports(front) && SupportRank(s[n - 1]) < SupportRank(s[n]) by {
        assert forall i :: 0 <= i < n ==> front[i] == s[i];
      }
      if AscendingSupports(s) {
        LastRank(s);
      }
    }
  }

  lemma LastRank(s: seq<SupportType>)
    requires |s| > 1 && SupportsAscending(s[..|s| - 1]) && SupportRank(s[|s| - 2]) < SupportRank(s[|s| - 1])
    ensures SupportsAscending(s)
  {
    var n := |s| - 1;
    forall i, j | 0 <= i < j < |s|
      ensures SupportRank(s[i]) < SupportRank(s[j])
    {
      assert s[..n][i] == s[i];
      if j < n {
        assert s[..n][j] == s[j];
      } else if i < n - 1 {
        assert s[..n][n - 1] == s[n - 1];
      }
    }
  }

  lemma ObservationExactly(o: Observation)
    ensures ValidObservation(o) <==> ObservationSound(o)
  {
    hide ValidPrefixedHash, Blank, SupportRank;
    AdjacentIsSorted(o.evidence);
    AdjacentIsSorted(o.corrections);
    SupportsStep(o.supports);
  }

  lemma StatementsExactly(observations: seq<Observation>)
    ensures Increasing(observations, BY_STATEMENT) <==> StatementsAscend(observations)
  {
    hide Less;
    forall i, j | 0 <= i < j < |observations|
      ensures BY_STATEMENT(observations[i], observations[j]) <==>
              Less(observations[i].episodeID, observations[j].episodeID) ||
              (observations[i].episodeID == observations[j].episodeID &&
               Less(observations[i].statementID, observations[j].statementID))
    {
      LessIrreflexive(observations[i].episodeID);
    }
  }

  lemma LinkListExactly(ids: seq<string>)
    ensures SortedUniqueIDs(ids) <==> LinkList(ids)
  {
    hide ValidPrefixedHash;
    AdjacentIsSorted(ids);
  }

  /** The digests that the rules produce are well formed. */
  lemma TextExactly(rules: Rules, c: Candidate)
    requires RulesOk(rules)
    ensures IdentityValid(rules, c) && GroupNamed(rules, c) <==>
            TextFollows(rules, c) && !c.agent.OtherAgent? && c.scopeUnconfirmed
  {
    var n := rules.normalize(c.text);
    var id := rules.idHash(c.kind, c.agent, n);
    assert (CANDIDATE_PREFIX + id)[|CANDIDATE_PREFIX|..] == id;
  }

  predicate GroupNamed(rules: Rules, c: Candidate) {
    c.conflictGroup == if c.conflicting == [] then ""
                       else ConflictID(rules, c.agent, rules.core(rules.normalize(c.text)))
  }

  /** What validateCandidate looks for, regrouped. */
  lemma ValidParts(rules: Rules, c: Candidate)
    ensures CandidateValid(rules, c) <==>
            IdentityValid(rules, c) && GroupNamed(rules, c) && c.firstSeen != 0 && c.lastSeen != 0 &&
            c.firstSeen <= c.lastSeen && Increasing(c.observations, BY_STATEMENT) &&
            (forall o :: o in c.observations ==> ValidObservation(o)) && Computed(c) &&
            SortedUniqueIDs(c.conflicting) && SortedUniqueIDs(c.related)
  {
    hide ValidationFor, Quarantine, SortedSupports, TotalsOf, Increasing, ValidObservation, SortedUniqueIDs, ConflictID,
         DetectPolarity, CandidateID, ValidHash, ValidPrefixedHash, Blank;
  }

  lemma TimesFollow(c: Candidate)
    requires CountsFollow(c) && forall o :: o in c.observations ==> ObservationSound(o)
    ensures c.firstSeen != 0 && c.lastSeen != 0 && c.firstSeen <= c.lastSeen
  {
    hide ProperList, ValidPrefixedHash, SupportsAscending, EpisodesIn, EventsIn, Supported;
  }

  /** A candidate is accepted exactly when it is what its text and its observations make it. */
  lemma AcceptedExactly(rules: Rules, c: Candidate)
    requires RulesOk(rules)
    ensures CandidateValid(rules, c) <==>
            TextFollows(rules, c) && !c.agent.OtherAgent? && CountsFollow(c) && StateFollows(c) &&
            StatementsAscend(c.observations) && (forall o :: o in c.observations ==> ObservationSound(o)) &&
            LinkList(c.conflicting) && LinkList(c.related)
  {
    hide CandidateValid, IdentityValid, GroupNamed, Increasing, ValidObservation, Computed, SortedUniqueIDs, TextFollows,
         CountsFollow, StatementsAscend, ObservationSound, LinkList, RulesOk, ReasonsFollow, OnlyInstructed;
    ValidParts(rules, c);
    TextExactly(rules, c);
    ComputedExactly(c);
    StatementsExactly(c.observations);
    LinkListExactly(c.conflicting);
    LinkListExactly(c.related);
    forall o
      ensures ValidObservation(o) <==> ObservationSound(o)
    {
      ObservationExactly(o);
    }
    if CountsFollow(c) && forall o :: o in c.observations ==> ObservationSound(o) {
      TimesFollow(c);
    }
  }
}
