/** Readiness: how a status is computed from the replayed state, and what a ready status says about the log. */
module CaptureStatus {
  import opened Primitives
  import opened Sorting
  import opened Ordering
  import opened CaptureTypes
  import opened CaptureState
  import opened CaptureSafety

  datatype IssueCode =
    | MaxAgeInvalid | RunIncomplete | LastRunAbandoned | NeverAttempted | NotInLatestRun | LatestFailed
    | NeverSucceeded | ClockAnomaly | Stale | AgentNotConfigured

  datatype Issue = Issue(code: IssueCode, sourceID: string)

  datatype Options = Options(requireHealthy: bool, requiredAgents: seq<Agent>, maximumAge: int, now: Time)

  datatype Status = Status(sources: seq<SourceStatus>, issues: seq<Issue>, runIncomplete: bool, integrityReady: bool,
                           captureReady: bool, ready: bool)

  const SECOND := 1_000_000_000

  predicate HealthRequired(o: Options) {
    o.requireHealthy || o.requiredAgents != [] || o.maximumAge != 0
  }

  predicate KnownAgent(a: Agent) {
    a.Codex? || a.ClaudeCode? || a.OpenCode?
  }

  /** The age a success may have; zero stands for no limit. */
  function EffectiveAge(c: Config, o: Options): int {
    if o.maximumAge == 0 && HealthRequired(o) then (2 * c.intervalSeconds + c.sourceTimeoutSeconds) * SECOND
    else o.maximumAge
  }

  /** uniqueAgents: the known ones, each once. */
  method UniqueAgents(agents: seq<Agent>) returns (r: seq<Agent>)
    ensures forall a :: a in r <==> a in agents && KnownAgent(a)
    ensures forall i, j :: 0 <= i < j < |r| ==> r[i] != r[j]
  {
    r := [];
    var i := 0;
    while i < |agents|
      invariant 0 <= i <= |agents|
      invariant forall a :: a in r <==> a in agents[..i] && KnownAgent(a)
      invariant forall j, k :: 0 <= j < k < |r| ==> r[j] != r[k]
    {
      assert agents[..i + 1] == agents[..i] + [agents[i]];
      if KnownAgent(agents[i]) && agents[i] !in r {
        r := r + [agents[i]];
      }
      i := i + 1;
    }
    assert agents[..i] == agents;
  }

  /** The known agents are those that some kind of source belongs to. */
  lemma KnownAgents()
    ensures forall a :: KnownAgent(a) <==> a != AgentUnknown && exists kind :: AgentOfKind(kind) == a
  {
    assert AgentOfKind(CodexRollouts) == Codex && AgentOfKind(ClaudeHome) == ClaudeCode;
    assert AgentOfKind(OpenCodeNative) == OpenCode;
  }

  /** Whether readiness depends on this source. */
  predicate Selected(source: Source, o: Options) {
    source.required &&
    ((source.agent in o.requiredAgents && KnownAgent(source.agent)) ||
     forall a :: a in o.requiredAgents ==> !KnownAgent(a))
  }

  /** The status entry of a configured source, as the state knows it. */
  function EntryOf(s: State, source: Source): SourceStatus {
    var known := if source.id in s.sources then s.sources[source.id]
                 else SourceStatus("", AgentUnknown, source.kind, false, "", Absent, None, None, NoOutcome, NoError);
    known.(sourceID := source.id, agent := source.agent, kind := source.kind, required := source.required)
  }

  /** The entry identifies the source as it is configured, and says of its attempts what the state knows, if anything. */
  predicate Reports(entry: SourceStatus, s: State, source: Source) {
    entry.sourceID == source.id && entry.agent == source.agent && entry.kind == source.kind &&
    entry.required == source.required &&
    if source.id in s.sources then
      var known := s.sources[source.id];
      entry.lastRunID == known.lastRunID && entry.config == known.config && entry.lastAttemptAt == known.lastAttemptAt &&
      entry.lastSuccessAt == known.lastSuccessAt && entry.lastOutcome == known.lastOutcome &&
      entry.lastErrorCode == known.lastErrorCode
    else
      entry.lastRunID == "" && entry.config.Absent? && entry.lastAttemptAt.None? && entry.lastSuccessAt.None? &&
      entry.lastOutcome.NoOutcome? && entry.lastErrorCode.NoError?
  }

  lemma EntryReports(s: State, source: Source, entry: SourceStatus)
    ensures entry == EntryOf(s, source) <==> Reports(entry, s, source)
  {
  }

  function AttemptIssue(entry: SourceStatus, s: State): Option<IssueCode> {
    if entry.lastRunID == "" || entry.config != s.config then Some(NeverAttempted)
    else if entry.lastRunID != s.last.runID then Some(NotInLatestRun)
    else if !entry.lastOutcome.Success? then Some(LatestFailed)
    else None
  }

  function AgeIssue(entry: SourceStatus, s: State, age: int, now: Time): Option<IssueCode> {
    if entry.lastSuccessAt.None? || entry.config != s.config then Some(NeverSucceeded)
    else if entry.lastSuccessAt.value > now then Some(ClockAnomaly)
    else if age > 0 && now - entry.lastSuccessAt.value > age then Some(Stale)
    else None
  }

  predicate AgentConfigured(c: Config, a: Agent) {
    exists i :: 0 <= i < |c.sources| && c.sources[i].required && c.sources[i].agent == a
  }

  // ---- What a status has to say ----

  /** The source was attempted under the active configuration. */
  predicate Attempted(s: State, source: Source) {
    source.id in s.sources && s.sources[source.id].lastRunID != "" && s.sources[source.id].config == s.config
  }

  /** It once succeeded, and its last attempt was under the active configuration. */
  predicate Succeeded(s: State, source: Source) {
    source.id in s.sources && s.sources[source.id].lastSuccessAt.Some? && s.sources[source.id].config == s.config
  }

  /** The success is not too old for the given age or, where health is asked for, for two intervals and one timeout. */
  predicate Recent(c: Config, o: Options, at: Time) {
    (o.maximumAge > 0 ==> o.now - at <= o.maximumAge) &&
    (o.maximumAge == 0 && (o.requireHealthy || o.requiredAgents != []) &&
     2 * c.intervalSeconds + c.sourceTimeoutSeconds > 0 ==>
       o.now - at <= (2 * c.intervalSeconds + c.sourceTimeoutSeconds) * 1_000_000_000)
  }

  /** When each issue about a selected source is due. */
  predicate Due(c: Config, s: State, o: Options, source: Source, code: IssueCode) {
    match code
    case NeverAttempted => !Attempted(s, source)
    case NotInLatestRun => Attempted(s, source) && s.sources[source.id].lastRunID != s.last.runID
    case LatestFailed =>
      Attempted(s, source) && s.sources[source.id].lastRunID == s.last.runID &&
      !s.sources[source.id].lastOutcome.Success?
    case NeverSucceeded => !Succeeded(s, source)
    case ClockAnomaly => Succeeded(s, source) && s.sources[source.id].lastSuccessAt.value > o.now
    case Stale =>
      Succeeded(s, source) && s.sources[source.id].lastSuccessAt.value <= o.now &&
      !Recent(c, o, s.sources[source.id].lastSuccessAt.value)
    case _ => false
  }

  /** What the loop looks for in the entry of a source is what is due. */
  lemma DueMeans(c: Config, s: State, o: Options, source: Source, code: IssueCode)
    ensures Due(c, s, o, source, code) <==>
            var entry := EntryOf(s, source);
            AttemptIssue(entry, s) == Some(code) || AgeIssue(entry, s, EffectiveAge(c, o), o.now) == Some(code)
  {
  }

  predicate SourceIssue(c: Config, s: State, o: Options, issue: Issue, i: nat)
    requires i < |c.sources|
  {
    Selected(c.sources[i], o) && issue.sourceID == c.sources[i].id && Due(c, s, o, c.sources[i], issue.code)
  }

  predicate RunIssue(s: State, o: Options, issue: Issue) {
    issue.sourceID == "" &&
    ((issue.code.MaxAgeInvalid? && o.maximumAge < 0) || (issue.code.RunIncomplete? && s.active.runID != "") ||
     (issue.code.LastRunAbandoned? && s.last.outcome.Abandoned?))
  }

  ghost predicate IssueUpTo(c: Config, s: State, o: Options, issue: Issue, n: nat)
    requires n <= |c.sources|
  {
    exists i: nat :: i < n && SourceIssue(c, s, o, issue, i)
  }

  lemma IssueUpToNext(c: Config, s: State, o: Options, n: nat)
    requires n < |c.sources|
    ensures forall issue :: IssueUpTo(c, s, o, issue, n + 1) <==>
              IssueUpTo(c, s, o, issue, n) || SourceIssue(c, s, o, issue, n)
  {
    hide SourceIssue;
    forall issue
      ensures IssueUpTo(c, s, o, issue, n + 1) <==>
              IssueUpTo(c, s, o, issue, n) || SourceIssue(c, s, o, issue, n)
    {
      if IssueUpTo(c, s, o, issue, n) {
        var i: nat :| i < n && SourceIssue(c, s, o, issue, i);
        assert i < n + 1;
      }
    }
  }

  /** Exactly the issues a status reports. */
  ghost predicate IssueHolds(c: Config, s: State, o: Options, issue: Issue) {
    RunIssue(s, o, issue) || IssueUpTo(c, s, o, issue, |c.sources|) ||
    (issue == Issue(AgentNotConfigured, "") &&
     exists a :: a in o.requiredAgents && KnownAgent(a) && !AgentConfigured(c, a))
  }

  /** What a selected source has to show. */
  predicate SourceReady(c: Config, s: State, o: Options, source: Source) {
    source.id in s.sources &&
    var entry := s.sources[source.id];
    entry.lastRunID != "" && entry.lastRunID == s.last.runID && entry.config == s.config &&
    entry.lastOutcome.Success? && entry.lastSuccessAt.Some? && entry.lastSuccessAt.value <= o.now &&
    Recent(c, o, entry.lastSuccessAt.value)
  }

  /** Readiness, declaratively. */
  ghost predicate ReadyFor(c: Config, s: State, o: Options) {
    o.maximumAge >= 0 && s.active.runID == "" && !s.last.outcome.Abandoned? &&
    (forall i :: 0 <= i < |c.sources| && Selected(c.sources[i], o) ==>
       SourceReady(c, s, o, c.sources[i])) &&
    forall a :: a in o.requiredAgents && KnownAgent(a) ==> AgentConfigured(c, a)
  }

  function Optional(code: Option<IssueCode>, id: string): seq<Issue> {
    if code.None? then [] else [Issue(code.value, id)]
  }

  function CodeRank(c: IssueCode): int {
    match c
    case NeverSucceeded => 0 case AgentNotConfigured => 1 case Stale => 2 case ClockAnomaly => 3
    case LastRunAbandoned => 4 case LatestFailed => 5 case MaxAgeInvalid => 6 case RunIncomplete => 7
    case NeverAttempted => 8 case NotInLatestRun => 9
  }

  predicate IssueLess(a: Issue, b: Issue) {
    if a.code != b.code then CodeRank(a.code) < CodeRank(b.code) else Less(a.sourceID, b.sourceID)
  }

  lemma LessLaws(a: string, b: string, c: string)
    ensures !Less(a, a) && (Less(a, b) && Less(b, c) ==> Less(a, c)) && (Less(a, c) ==> Less(a, b) || Less(b, c))
    ensures Less(a, b) ==> !Less(b, a)
    ensures !Less(a, b) && !Less(b, a) ==> a == b
  {
    LessIrreflexive(a);
    LessTotal(a, b);
    LessTotal(b, c);
    if Less(a, b) {
      LessAsymmetric(a, b);
    }
    if Less(a, b) && Less(b, c) {
      LessTransitive(a, b, c);
    }
    if Less(a, c) && Less(c, b) {
      LessTransitive(a, c, b);
    }
    if Less(b, a) && Less(a, c) {
      LessTransitive(b, a, c);
    }
  }

  lemma IssueOrder()
    ensures WeakOrder((a: Issue, b: Issue) => IssueLess(a, b))
  {
    forall a: Issue, b: Issue, c: Issue
      ensures !IssueLess(a, a)
      ensures IssueLess(a, b) && IssueLess(b, c) ==> IssueLess(a, c)
      ensures IssueLess(a, c) ==> IssueLess(a, b) || IssueLess(b, c)
    {
      IssueLessLaws(a, b, c);
    }
  }

  lemma IssueLessLaws(a: Issue, b: Issue, c: Issue)
    ensures !IssueLess(a, a)
    ensures IssueLess(a, b) && IssueLess(b, c) ==> IssueLess(a, c)
    ensures IssueLess(a, c) ==> IssueLess(a, b) || IssueLess(b, c)
  {
    hide Less;
    LessLaws(a.sourceID, b.sourceID, c.sourceID);
    RanksDiffer(a.code, b.code);
    RanksDiffer(b.code, c.code);
    RanksDiffer(a.code, c.code);
    hide CodeRank;
  }

  lemma RanksDiffer(a: IssueCode, b: IssueCode)
    ensures CodeRank(a) == CodeRank(b) ==> a == b
  {
  }

  lemma SourceOrder()
    ensures WeakOrder((a: SourceStatus, b: SourceStatus) => Less(a.sourceID, b.sourceID))
  {
    forall a: SourceStatus, b: SourceStatus, c: SourceStatus
      ensures !Less(a.sourceID, a.sourceID)
      ensures Less(a.sourceID, b.sourceID) && Less(b.sourceID, c.sourceID) ==> Less(a.sourceID, c.sourceID)
      ensures Less(a.sourceID, c.sourceID) ==> Less(a.sourceID, b.sourceID) || Less(b.sourceID, c.sourceID)
    {
      LessLaws(a.sourceID, b.sourceID, c.sourceID);
    }
  }

  /** The report lists sources by id, and issues by code and then by id. */
  ghost predicate Ordered(sources: seq<SourceStatus>, issues: seq<Issue>) {
    (forall i, j :: 0 <= i < j < |sources| ==> !Less(sources[j].sourceID, sources[i].sourceID)) &&
    forall i, j :: 0 <= i < j < |issues| ==>
      CodeRank(issues[i].code) < CodeRank(issues[j].code) ||
      (issues[i].code == issues[j].code && !Less(issues[j].sourceID, issues[i].sourceID))
  }

  lemma SortedIsOrdered(sources: seq<SourceStatus>, issues: seq<Issue>)
    ensures Ordered(SortBy(sources, (a: SourceStatus, b: SourceStatus) => Less(a.sourceID, b.sourceID)),
                    SortBy(issues, (a: Issue, b: Issue) => IssueLess(a, b)))
  {
    hide Less, CodeRank, WeakOrder, SortBy;
    var bySource := (a: SourceStatus, b: SourceStatus) => Less(a.sourceID, b.sourceID);
    var byCode := (a: Issue, b: Issue) => IssueLess(a, b);
    SourceOrder();
    IssueOrder();
    SortNotDescending(sources, bySource);
    SortNotDescending(issues, byCode);
    var r, q := SortBy(sources, bySource), SortBy(issues, byCode);
    forall i, j | 0 <= i < j < |r|
      ensures !Less(r[j].sourceID, r[i].sourceID)
    {
      assert !bySource(r[j], r[i]);
    }
    forall i, j | 0 <= i < j < |q|
      ensures CodeRank(q[i].code) < CodeRank(q[j].code) || (q[i].code == q[j].code && !Less(q[j].sourceID, q[i].sourceID))
    {
      assert !byCode(q[j], q[i]);
      RanksDiffer(q[i].code, q[j].code);
    }
  }

  lemma NothingYet(c: Config, s: State, o: Options)
    ensures forall issue :: !IssueUpTo(c, s, o, issue, 0)
  {
  }

  lemma OptionalIn(code: Option<IssueCode>, id: string)
    ensures forall issue :: issue in Optional(code, id) <==> code == Some(issue.code) && issue.sourceID == id
  {
  }

  /** The loop over the configured sources. */
  method SourceIssues(c: Config, s: State, o: Options, agents: seq<Agent>)
    returns (sources: seq<SourceStatus>, issues: seq<Issue>)
    requires forall a :: a in agents <==> a in o.requiredAgents && KnownAgent(a)
    ensures forall issue :: issue in issues <==> IssueUpTo(c, s, o, issue, |c.sources|)
    ensures forall entry :: entry in sources <==>
              exists i :: 0 <= i < |c.sources| && entry == EntryOf(s, c.sources[i])
  {
    hide AttemptIssue, AgeIssue, EntryOf, EffectiveAge, IssueUpTo, Optional, Due;
    sources, issues := [], [];
    assert forall issue :: !IssueUpTo(c, s, o, issue, 0) by { NothingYet(c, s, o); }
    assert agents == [] <==> forall a :: a in o.requiredAgents ==> !KnownAgent(a) by {
      if agents != [] {
        assert agents[0] in agents;
      }
    }
    var i := 0;
    while i < |c.sources|
      invariant 0 <= i <= |c.sources|
      invariant forall issue :: issue in issues <==> IssueUpTo(c, s, o, issue, i)
      invariant forall entry :: entry in sources <==> exists j :: 0 <= j < i && entry == EntryOf(s, c.sources[j])
    {
      var source := c.sources[i];
      var entry := EntryOf(s, source);
      sources := sources + [entry];
      IssueUpToNext(c, s, o, i);
      OptionalIn(AttemptIssue(entry, s), source.id);
      OptionalIn(AgeIssue(entry, s, EffectiveAge(c, o), o.now), source.id);
      assert Selected(source, o) <==> source.required && (agents == [] || source.agent in agents);
      if source.required && (agents == [] || source.agent in agents) {
        var found := Optional(AttemptIssue(entry, s), source.id) +
                     Optional(AgeIssue(entry, s, EffectiveAge(c, o), o.now), source.id);
        forall issue: Issue
          ensures SourceIssue(c, s, o, issue, i) <==> issue in found
        {
          DueMeans(c, s, o, source, issue.code);
        }
        issues := issues + found;
      } else {
        assert forall issue :: !SourceIssue(c, s, o, issue, i);
      }
      i := i + 1;
    }
  }

  method AgentMissing(c: Config, agents: seq<Agent>) returns (missing: bool)
    ensures missing <==> exists a :: a in agents && !AgentConfigured(c, a)
  {
    missing := false;
    var i := 0;
    while i < |agents|
      invariant 0 <= i <= |agents|
      invariant missing <==> exists a :: a in agents[..i] && !AgentConfigured(c, a)
    {
      assert agents[..i + 1] == agents[..i] + [agents[i]];
      var configured := false;
      var j := 0;
      while j < |c.sources|
        invariant 0 <= j <= |c.sources|
        invariant configured <==> exists k :: 0 <= k < j && c.sources[k].required && c.sources[k].agent == agents[i]
      {
        if c.sources[j].required && c.sources[j].agent == agents[i] {
          configured := true;
        }
        j := j + 1;
      }
      assert configured <==> AgentConfigured(c, agents[i]);
      missing := missing || !configured;
      i := i + 1;
    }
    assert agents[..i] == agents;
  }

  lemma NoIssueIsReady(c: Config, s: State, o: Options)
    ensures (forall issue :: !IssueHolds(c, s, o, issue)) <==> ReadyFor(c, s, o)
  {
    if forall issue :: !IssueHolds(c, s, o, issue) {
      assert !IssueHolds(c, s, o, Issue(MaxAgeInvalid, "")) && !IssueHolds(c, s, o, Issue(RunIncomplete, ""));
      assert !IssueHolds(c, s, o, Issue(LastRunAbandoned, "")) && !IssueHolds(c, s, o, Issue(AgentNotConfigured, ""));
      forall i | 0 <= i < |c.sources| && Selected(c.sources[i], o)
        ensures SourceReady(c, s, o, c.sources[i])
      {
        NothingDue(c, s, o, i);
        NotDueIsReady(c, s, o, c.sources[i]);
      }
    }
  }

  lemma NothingDue(c: Config, s: State, o: Options, i: nat)
    requires i < |c.sources| && Selected(c.sources[i], o) && forall issue :: !IssueHolds(c, s, o, issue)
    ensures forall code :: !Due(c, s, o, c.sources[i], code)
  {
    hide Due, Selected;
    forall code
      ensures !Due(c, s, o, c.sources[i], code)
    {
      var issue := Issue(code, c.sources[i].id);
      assert !IssueHolds(c, s, o, issue);
      assert !SourceIssue(c, s, o, issue, i);
    }
  }

  lemma NotDueIsReady(c: Config, s: State, o: Options, source: Source)
    requires forall code :: !Due(c, s, o, source, code)
    ensures SourceReady(c, s, o, source)
  {
    hide Recent;
    assert !Due(c, s, o, source, NeverAttempted) && !Due(c, s, o, source, NotInLatestRun);
    assert !Due(c, s, o, source, LatestFailed) && !Due(c, s, o, source, NeverSucceeded);
    assert !Due(c, s, o, source, ClockAnomaly) && !Due(c, s, o, source, Stale);
  }

  /** The limit in force: the given age, or by default two intervals and one timeout where health is asked for. */
  predicate LimitInForce(c: Config, o: Options, limit: int) {
    limit > 0 &&
    (o.maximumAge == limit ||
     (o.maximumAge == 0 && (o.requireHealthy || o.requiredAgents != []) &&
      limit == (2 * c.intervalSeconds + c.sourceTimeoutSeconds) * 1_000_000_000))
  }

  /** The source succeeded under the active configuration, no earlier than the limit allows and not in the future. */
  predicate SucceededWithin(s: State, source: Source, now: Time, limit: int) {
    source.id in s.sources && s.sources[source.id].config == s.config &&
    match s.sources[source.id].lastSuccessAt
    case None => false
    case Some(at) => at <= now <= at + limit
  }

  predicate SucceededBefore(s: State, source: Source, now: Time, limit: int) {
    source.id in s.sources && s.sources[source.id].config == s.config &&
    match s.sources[source.id].lastSuccessAt
    case None => false
    case Some(at) => at + limit < now
  }

  /** With a limit in force, a source is stale exactly when its last success is older, and readiness takes a success
      within the limit of every selected source. */
  lemma StaleExactly(c: Config, s: State, o: Options, limit: int)
    requires LimitInForce(c, o, limit)
    ensures forall id :: IssueHolds(c, s, o, Issue(Stale, id)) <==>
              exists i :: 0 <= i < |c.sources| && Selected(c.sources[i], o) && c.sources[i].id == id &&
                SucceededBefore(s, c.sources[i], o.now, limit)
    ensures ReadyFor(c, s, o) ==>
              forall i :: 0 <= i < |c.sources| && Selected(c.sources[i], o) ==>
                SucceededWithin(s, c.sources[i], o.now, limit)
  {
    hide Selected;
    forall id
      ensures IssueHolds(c, s, o, Issue(Stale, id)) <==>
              exists i :: 0 <= i < |c.sources| && Selected(c.sources[i], o) && c.sources[i].id == id &&
                SucceededBefore(s, c.sources[i], o.now, limit)
    {
      if i :| 0 <= i < |c.sources| && Selected(c.sources[i], o) && c.sources[i].id == id &&
              SucceededBefore(s, c.sources[i], o.now, limit)
      {
        assert SourceIssue(c, s, o, Issue(Stale, id), i);
      }
    }
  }

  /** Under a configuration that can be stored, a limit is in force whenever health is asked for. */
  lemma LimitExists(c: Config, o: Options) returns (limit: int)
    requires StoredConfigValid(c) && o.maximumAge >= 0
    requires o.requireHealthy || o.requiredAgents != [] || o.maximumAge != 0
    ensures LimitInForce(c, o, limit) && limit == EffectiveAge(c, o)
  {
    limit := EffectiveAge(c, o);
  }

  method CollectIssues(c: Config, s: State, o: Options) returns (sources: seq<SourceStatus>, issues: seq<Issue>)
    ensures forall issue :: issue in issues <==> IssueHolds(c, s, o, issue)
    ensures forall entry :: entry in sources <==>
              exists i :: 0 <= i < |c.sources| && entry == EntryOf(s, c.sources[i])
  {
    hide IssueUpTo, AgentConfigured, EntryOf;
    var agents := UniqueAgents(o.requiredAgents);
    var fromRun: seq<Issue> := if o.maximumAge < 0 then [Issue(MaxAgeInvalid, "")] else [];
    if s.active.runID != "" {
      fromRun := fromRun + [Issue(RunIncomplete, "")];
    }
    if s.last.outcome.Abandoned? {
      fromRun := fromRun + [Issue(LastRunAbandoned, "")];
    }
    assert forall issue :: issue in fromRun <==> RunIssue(s, o, issue);
    hide RunIssue;
    var fromSources;
    sources, fromSources := SourceIssues(c, s, o, agents);
    var missing := AgentMissing(c, agents);
    issues := fromRun + fromSources + if missing then [Issue(AgentNotConfigured, "")] else [];
  }

  lemma NoneHold(c: Config, s: State, o: Options, issues: seq<Issue>)
    requires forall issue :: issue in issues <==> IssueHolds(c, s, o, issue)
    ensures issues == [] <==> ReadyFor(c, s, o)
    ensures issues == [] ==> s.active.runID == ""
  {
    hide IssueHolds;
    NoIssueIsReady(c, s, o);
    if issues != [] {
      assert issues[0] in issues;
    }
  }

  /** statusFromState. */
  method StatusFromState(c: Config, s: State, o: Options) returns (status: Status)
    ensures forall issue :: issue in status.issues <==> IssueHolds(c, s, o, issue)
    ensures status.captureReady <==> ReadyFor(c, s, o)
    ensures status.ready <==>
            s.active.runID == "" &&
            (o.requireHealthy || o.requiredAgents != [] || o.maximumAge != 0 ==> ReadyFor(c, s, o))
    ensures status.runIncomplete == (s.active.runID != "") && status.integrityReady == (s.active.runID == "")
    ensures forall entry :: entry in status.sources <==>
              exists i :: 0 <= i < |c.sources| && Reports(entry, s, c.sources[i])
    ensures Ordered(status.sources, status.issues)
  {
    hide IssueHolds, ReadyFor, EntryOf, Reports, IssueLess, Less, Ordered;
    forall entry, i | 0 <= i < |c.sources|
      ensures entry == EntryOf(s, c.sources[i]) <==> Reports(entry, s, c.sources[i])
    {
      EntryReports(s, c.sources[i], entry);
    }
    var sources, issues := CollectIssues(c, s, o);
    NoneHold(c, s, o, issues);
    var clear := s.active.runID == "" && issues == [];
    var bySource := (a: SourceStatus, b: SourceStatus) => Less(a.sourceID, b.sourceID);
    var byCode := (a: Issue, b: Issue) => IssueLess(a, b);
    SortMembers(sources, bySource);
    SortMembers(issues, byCode);
    SortedIsOrdered(sources, issues);
    status := Status(SortBy(sources, bySource), SortBy(issues, byCode), s.active.runID != "", s.active.runID == "",
                     clear, s.active.runID == "" && (!HealthRequired(o) || clear));
  }
}
