/** Episodes, staged observations and memory candidates, and the text rules they are derived by. */
module CandidateTypes {
  import opened Primitives
  import opened Ordering

  datatype Agent = Codex | ClaudeCode | OpenCode | DeepSeekHarness | UnknownAgent | OtherAgent(name: string)

  datatype CandidateKind = KindConstraint | KindCorrection | KindDirective

  datatype Polarity = Affirmative | Prohibitive | UnknownPolarity

  datatype StatementKind = GoalStatement | ConstraintStatement | CorrectionStatement | OtherStatement(name: string)

  /** In the order of their names. */
  datatype SupportType = CompactionDrift | ExplicitRemember | StableRepetition | UserCorrection | UserInstruction

  /** In the order of their names. */
  datatype Reason =
    | DriftWithCorrection | ExplicitUserRemember | RuleChangeApproval | ScopeConfirmation | SemanticConflict
    | SingleTaskOnly | Repetition | Correction

  datatype ReviewStatus = Untrusted | ReviewReady | Quarantined

  datatype Observation = Observation(episodeID: string, statementID: string, statementKind: StatementKind,
                                     evidence: seq<string>, corrections: seq<string>, supports: seq<SupportType>,
                                     firstSeen: Time, lastSeen: Time)

  datatype Staged = Staged(candidateID: string, normalized: string, core: string, key: string, kind: CandidateKind,
                           text: string, polarity: Polarity, agent: Agent, approval: bool, observation: Observation)

  datatype Validation = Validation(status: ReviewStatus, reasons: seq<Reason>, scopeConfirmation: bool,
                                   automaticPromotion: bool)

  datatype Candidate = Candidate(candidateID: string, content: string, key: string, kind: CandidateKind, text: string,
                                 polarity: Polarity, agent: Agent, scopeUnconfirmed: bool, supports: seq<SupportType>,
                                 observations: seq<Observation>, episodeCount: nat, eventCount: nat, firstSeen: Time,
                                 lastSeen: Time, validation: Validation, conflictGroup: string,
                                 conflicting: seq<string>, related: seq<string>, approval: bool)

  datatype Check = Check(corrects: bool, statementID: string, correctionEvents: seq<string>)

  datatype Checkpoint = Checkpoint(drift: bool, checks: seq<Check>)

  datatype Statement = Statement(id: string, kind: StatementKind, text: string, evidence: seq<string>,
                                 firstSeen: Time, lastSeen: Time)

  datatype Episode = Episode(id: string, agent: Agent, compactions: seq<Checkpoint>, statements: seq<Statement>)

  /** The rules on text and the digests, as functions of their inputs. */
  datatype Rules = Rules(normalize: string -> string, core: string -> string, prohibits: string -> bool,
                         remembers: string -> bool, changesRules: string -> bool,
                         idHash: (CandidateKind, Agent, string) -> string, keyHash: (Agent, string) -> string,
                         conflictHash: (Agent, string) -> string,
                         contentHash: (CandidateKind, string, Polarity, Agent) -> string)

  predicate ValidPrefixedHash(value: string, prefix: string) {
    |prefix| <= |value| && value[..|prefix|] == prefix && ValidHash(value[|prefix|..])
  }

  /** Digests are lower-case hex; what normalizes to something is not blank. */
  ghost predicate RulesOk(rules: Rules) {
    (forall k, a, n :: ValidHash(rules.idHash(k, a, n))) && (forall a, c :: ValidHash(rules.keyHash(a, c))) &&
    (forall k, t, p, a :: ValidHash(rules.contentHash(k, t, p, a))) &&
    forall t :: rules.normalize(t) != "" ==> !Blank(t)
  }

  predicate IsSpace(c: char) {
    c == ' ' || c == '\t' || c == '\n' || c == '\r'
  }

  /** strings.TrimSpace leaves nothing. */
  predicate Blank(t: string) {
    forall i :: 0 <= i < |t| ==> IsSpace(t[i])
  }

  const CANDIDATE_PREFIX := "candidate-"
  const CONFLICT_PREFIX := "candidate-conflict-"

  function CandidateID(rules: Rules, kind: CandidateKind, agent: Agent, normalized: string): string {
    CANDIDATE_PREFIX + rules.idHash(kind, agent, normalized)
  }

  function ConflictID(rules: Rules, agent: Agent, core: string): string {
    CONFLICT_PREFIX + rules.conflictHash(agent, core)
  }

  function DetectPolarity(rules: Rules, normalized: string): Polarity {
    if rules.prohibits(normalized) then Prohibitive else Affirmative
  }

  /** What the derivation makes of a text: every derived field of a staged record is a function of its
      normalized text, its kind and its agent. */
  predicate StagedOk(rules: Rules, r: Staged) {
    r.normalized == rules.normalize(r.text) && r.normalized != "" && r.core == rules.core(r.normalized) &&
    r.candidateID == CandidateID(rules, r.kind, r.agent, r.normalized) && r.key == rules.keyHash(r.agent, r.core) &&
    r.polarity == DetectPolarity(rules, r.normalized) && r.approval == rules.changesRules(r.normalized)
  }

  /** appendUnique: the non-empty strings of both lists, each once, ascending. */
  function AppendUnique(values: seq<string>, added: seq<string>): (r: seq<string>)
    ensures StrictlySorted(r)
    ensures forall x :: x in r <==> x != "" && (x in values || x in added)
  {
    var r := SortedDistinct(NonEmpty(values + added));
    assert forall x :: x in r <==> x in Elements(r);
    assert forall x :: x in NonEmpty(values + added) <==> x in Elements(NonEmpty(values + added));
    r
  }

  function NonEmpty(s: seq<string>): (r: seq<string>)
    ensures forall x :: x in r <==> x in s && x != ""
  {
    if s == [] then [] else (if s[0] == "" then [] else [s[0]]) + NonEmpty(s[1..])
  }

  /** The elements of `order` that are in `s`, in that order. */
  function Keep<T(!new)>(order: seq<T>, s: set<T>): (r: seq<T>)
    ensures forall x :: x in r <==> x in order && x in s
  {
    if order == [] then [] else (if order[0] in s then [order[0]] else []) + Keep(order[1..], s)
  }

  ghost predicate Ranked<T>(s: seq<T>, rank: T -> int) {
    forall i, j :: 0 <= i < j < |s| ==> rank(s[i]) < rank(s[j])
  }

  lemma {:induction false} KeepRanked<T(!new)>(order: seq<T>, s: set<T>, rank: T -> int)
    requires Ranked(order, rank)
    ensures Ranked(Keep(order, s), rank)
  {
    if order != [] {
      KeepRanked(order[1..], s, rank);
      forall x | x in Keep(order[1..], s)
        ensures rank(order[0]) < rank(x)
      {
        assert x in order[1..];
        var j :| 0 <= j < |order[1..]| && order[1..][j] == x;
        assert order[j + 1] == x;
      }
    }
  }

  lemma {:induction false} RankUnique<T(!new)>(a: seq<T>, b: seq<T>, rank: T -> int)
    requires Ranked(a, rank) && Ranked(b, rank)
    requires forall x :: x in a <==> x in b
    ensures a == b
  {
    assert |b| > 0 ==> b[0] in b;
    assert |a| > 0 ==> a[0] in a;
    if a != [] {
      assert a[0] == b[0];
      RankedTail(a, rank);
      RankedTail(b, rank);
      RankUnique(a[1..], b[1..], rank);
      assert a == [a[0]] + a[1..] && b == [b[0]] + b[1..];
    }
  }

  lemma RankedTail<T>(s: seq<T>, rank: T -> int)
    requires s != [] && Ranked(s, rank)
    ensures Ranked(s[1..], rank) && forall x :: x in s[1..] <==> x in s && x != s[0]
  {
    assert forall x :: x in s[1..] ==> exists j :: 0 < j < |s| && s[j] == x;
    assert forall j :: 0 < j < |s| ==> s[j] == s[1..][j - 1];
  }

  function SupportRank(s: SupportType): int {
    match s
    case CompactionDrift => 0 case ExplicitRemember => 1 case StableRepetition => 2 case UserCorrection => 3
    case UserInstruction => 4
  }

  const SUPPORT_TYPES := [CompactionDrift, ExplicitRemember, StableRepetition, UserCorrection, UserInstruction]

  /** sortedSupportTypes: each type once, in the order of the names. */
  function SortedSupports(s: set<SupportType>): (r: seq<SupportType>)
    ensures forall x :: x in r <==> x in s
  {
    assert forall x: SupportType :: x in SUPPORT_TYPES by {
      forall x: SupportType
        ensures x in SUPPORT_TYPES
      {
        assert SUPPORT_TYPES[SupportRank(x)] == x;
      }
    }
    Keep(SUPPORT_TYPES, s)
  }

  /** The order that sortedUniqueSupport checks. */
  ghost predicate SupportsAscending(s: seq<SupportType>) {
    Ranked(s, x => SupportRank(x))
  }

  lemma SortedSupportsAscend(s: set<SupportType>)
    ensures SupportsAscending(SortedSupports(s))
  {
    KeepRanked(SUPPORT_TYPES, s, x => SupportRank(x));
  }

  function ReasonRank(r: Reason): int {
    match r
    case DriftWithCorrection => 0 case ExplicitUserRemember => 1 case RuleChangeApproval => 2
    case ScopeConfirmation => 3 case SemanticConflict => 4 case SingleTaskOnly => 5 case Repetition => 6
    case Correction => 7
  }

  const REASONS := [DriftWithCorrection, ExplicitUserRemember, RuleChangeApproval, ScopeConfirmation,
                    SemanticConflict, SingleTaskOnly, Repetition, Correction]

  /** The reasons of a validation, each once, in the order of their names. */
  function SortedReasons(s: set<Reason>): (r: seq<Reason>)
    ensures forall x :: x in r <==> x in s
  {
    assert forall x: Reason :: x in REASONS by {
      forall x: Reason
        ensures x in REASONS
      {
        assert REASONS[ReasonRank(x)] == x;
      }
    }
    Keep(REASONS, s)
  }
}
