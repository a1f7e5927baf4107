/** The audit log as a state machine: which events are accepted, and what replaying them yields. */
module CaptureState {
  import opened Primitives
  import opened CaptureTypes
  import opened CaptureInventory

  datatype SourceStatus = SourceStatus(sourceID: string, agent: Agent, kind: SourceKind, required: bool,
                                       lastRunID: string, config: Digest, lastAttemptAt: Option<Time>,
                                       lastSuccessAt: Option<Time>, lastOutcome: Outcome, lastErrorCode: ErrorCode)

  /** The last run that finished: the only part of the state a snapshot reads. */
  datatype Completed = Completed(runID: string, config: Digest, outcome: Outcome, audit: Digest, at: Time,
                                 fullReconcile: bool, sources: map<string, Source>,
                                 inventories: map<string, seq<Inventory>>, results: map<string, SourceResult>)

  datatype ActiveRun = ActiveRun(runID: string, started: Option<Time>, fullReconcile: bool,
                                 inventories: map<string, seq<Inventory>>, results: map<string, SourceResult>)

  datatype LastRun = LastRun(runID: string, startedAt: Option<Time>, finishedAt: Option<Time>, outcome: Outcome)

  /** The objects the log refers to, and the latest inventory of each source. */
  datatype References = References(inventories: map<string, Digest>, details: map<string, Inventory>,
                                   configs: set<Digest>, recorded: set<Digest>)

  datatype State = State(lastSequence: nat, lastEvent: Digest, config: Digest, runsCompleted: nat,
                         active: ActiveRun, last: LastRun, sources: map<string, SourceStatus>, refs: References,
                         activeSources: map<string, Source>, completed: Completed)

  const NO_RUN := Completed("", Absent, NoOutcome, Absent, ZERO_TIME, false, map[], map[], map[])

  const IDLE := ActiveRun("", None, false, map[], map[])

  const INITIAL := State(0, Absent, Absent, 0, IDLE, LastRun("", None, None, NoOutcome), map[],
                         References(map[], map[], {}, {}), map[], NO_RUN)

  // ---- Configurations ----

  predicate StoredSourceValid(s: Source) {
    !s.kind.OtherKind? && s.agent == AgentOfKind(s.kind) &&
    if s.kind.OpenCodeNative? then s.path == "" && IsAbsolute(s.binaryPath) && IsAbsolute(s.stagingRoot)
    else IsAbsolute(s.path) && s.binaryPath == "" && s.stagingRoot == ""
  }

  predicate StoredConfigValid(c: Config) {
    5 <= c.intervalSeconds <= 86400 && 1 <= c.fullReconcileEveryRuns <= 10000 &&
    10 <= c.sourceTimeoutSeconds <= 86400 && 1 <= |c.sources| <= 64 &&
    (forall i :: 0 <= i < |c.sources| ==> ValidSourceID(c.sources[i].id) && StoredSourceValid(c.sources[i])) &&
    DistinctIDs(c.sources) && exists i :: 0 <= i < |c.sources| && c.sources[i].required
  }

  predicate DistinctIDs(sources: seq<Source>) {
    forall i, j :: 0 <= i < j < |sources| ==> sources[i].id != sources[j].id
  }

  function SourceMap(sources: seq<Source>): (m: map<string, Source>)
    ensures forall id :: id in m ==> m[id] in sources && m[id].id == id
    ensures forall s :: s in sources ==> s.id in m
  {
    if sources == [] then map[]
    else
      var n := |sources| - 1;
      assert sources == sources[..n] + [sources[n]];
      SourceMap(sources[..n])[sources[n].id := sources[n]]
  }

  /** The content-addressed store: an object is readable when it was written, and it then is what was hashed. */
  predicate ConfigLoads(d: Digest, objects: set<Digest>) {
    d in objects && d.ConfigDigest? && StoredConfigValid(d.config)
  }

  ghost predicate InventoryLoads(d: Digest, objects: set<Digest>) {
    d in objects && d.InventoryDigest? && InventoryValid(Inventory(d.inventory, d))
  }

  // ---- Accepting an event ----

  predicate ResultShapeValid(r: SourceResult) {
    ValidSourceID(r.sourceID) && ValidDigest(r.sourceConfig) &&
    (r.outcome.Success? || r.outcome.Partial? || r.outcome.Failed? || r.outcome.Skipped?) &&
    r.filesExamined >= 0 && r.filesChanged >= 0 && r.eventsAppended >= 0 && r.gapsAppended >= 0 &&
    r.bytesCaptured >= 0 && !r.inventory.Malformed? && !r.errorDetail.Malformed? &&
    r.agent == AgentOfKind(r.kind)
  }

  predicate ResultValid(action: Action, r: SourceResult) {
    ResultShapeValid(r) &&
    match action
    case SourceSucceeded =>
      r.outcome.Success? && !r.inventory.Absent? && r.errorCode.NoError? && r.errorDetail.Absent?
    case SourceFailed => (r.outcome.Partial? || r.outcome.Failed?) && !r.errorCode.NoError?
    case SourceSkipped => r.outcome.Skipped? && !r.errorCode.NoError?
    case _ => true
  }

  predicate ResultMatchesConfig(r: SourceResult, s: Source) {
    r.sourceConfig == SourceDigest(s) && r.sourceID == s.id && r.agent == s.agent && r.kind == s.kind &&
    r.required == s.required
  }

  /** validateSuccessfulInventories. */
  predicate SuccessfulInventories(s: Source, inventories: seq<Inventory>) {
    (forall i :: 0 <= i < |inventories| ==>
       inventories[i].body.status.InvAvailable? && inventories[i].body.available != 0) &&
    if s.kind.OpenCodeNative? then |inventories| == 1 && inventories[0].body.phase.PreCapture?
    else |inventories| == 2 && inventories[0].body.phase.PreCapture? && inventories[1].body.phase.PostCapture? &&
         Equivalent(inventories[0].body, inventories[1].body)
  }

  predicate WasCanceled(r: SourceResult) {
    r.errorCode.ErrCanceled? || r.errorCode.ErrCaptureCanceled?
  }

  predicate BlocksRun(r: SourceResult) {
    r.required && (r.outcome.Failed? || r.outcome.Skipped?)
  }

  /** The outcome of a run as a property of the set of its results. */
  function OutcomeOf(results: set<SourceResult>): Outcome {
    if exists r :: r in results && WasCanceled(r) then Canceled
    else if exists r :: r in results && BlocksRun(r) then Failed
    else if exists r :: r in results && !r.outcome.Success? then Partial
    else Success
  }

  /** Cancellation counts first; then a required source that failed or was skipped, while one that is not required or
      that is partial only makes the run partial. */
  lemma OutcomeMeans(results: set<SourceResult>)
    ensures var canceled := exists r :: r in results && (r.errorCode.ErrCanceled? || r.errorCode.ErrCaptureCanceled?);
            var failed := exists r :: r in results && r.required && (r.outcome.Failed? || r.outcome.Skipped?);
            (OutcomeOf(results).Canceled? <==> canceled) && (OutcomeOf(results).Failed? <==> !canceled && failed) &&
            (OutcomeOf(results).Success? <==> !canceled && forall r :: r in results ==> r.outcome.Success?) &&
            (OutcomeOf(results).Partial? <==> !canceled && !failed && exists r :: r in results && !r.outcome.Success?)
  {
    if r :| r in results && (r.errorCode.ErrCanceled? || r.errorCode.ErrCaptureCanceled?) {
      assert WasCanceled(r);
    } else if r :| r in results && r.required && (r.outcome.Failed? || r.outcome.Skipped?) {
      assert BlocksRun(r);
    }
  }

  /** runOutcome scans the results in the order they were produced; the order does not matter. */
  method RunOutcome(results: seq<SourceResult>) returns (outcome: Outcome)
    ensures outcome == OutcomeOf(set r | r in results)
  {
    var i := 0;
    while i < |results|
      invariant 0 <= i <= |results|
      invariant forall j :: 0 <= j < i ==> !WasCanceled(results[j])
    {
      if WasCanceled(results[i]) {
        assert results[i] in (set r | r in results);
        return Canceled;
      }
      i := i + 1;
    }
    var partial := false;
    i := 0;
    while i < |results|
      invariant 0 <= i <= |results|
      invariant forall j :: 0 <= j < i ==> !BlocksRun(results[j])
      invariant partial <==> exists j :: 0 <= j < i && !results[j].outcome.Success?
    {
      if BlocksRun(results[i]) {
        assert results[i] in (set r | r in results);
        return Failed;
      }
      if !results[i].outcome.Success? {
        partial := true;
      }
      i := i + 1;
    }
    if partial {
      var j :| 0 <= j < |results| && !results[j].outcome.Success?;
      assert results[j] in (set r | r in results);
      return Partial;
    }
    return Success;
  }

  function ActiveOutcomes(s: State): set<SourceResult>
    requires s.activeSources.Keys <= s.active.results.Keys
  {
    set id | id in s.activeSources :: s.active.results[id]
  }

  function OutcomeFromReplay(s: State): Outcome {
    if |s.active.results| != |s.activeSources| || !(s.activeSources.Keys <= s.active.results.Keys) then Incomplete
    else OutcomeOf(ActiveOutcomes(s))
  }

  function Listed(inventories: map<string, seq<Inventory>>, id: string): seq<Inventory> {
    if id in inventories then inventories[id] else []
  }

  function InventoriesOf(s: State, id: string): seq<Inventory> {
    Listed(s.active.inventories, id)
  }

  function LastInventoryOf(s: State, id: string): Digest {
    if id in s.refs.inventories then s.refs.inventories[id] else Absent
  }

  predicate InRun(b: EventBody, prior: State) {
    b.runID != "" && b.runID == prior.active.runID && b.config == prior.config
  }

  predicate SourceEventValid(b: EventBody, prior: State) {
    InRun(b, prior) && b.sourceID != "" && b.source.Some? && b.source.value.sourceID == b.sourceID &&
    b.outcome == b.source.value.outcome && b.sourceID !in prior.active.results &&
    ResultValid(b.action, b.source.value) &&
    b.sourceID in prior.activeSources && ResultMatchesConfig(b.source.value, prior.activeSources[b.sourceID]) &&
    b.inventory == b.source.value.inventory &&
    (!b.inventory.Absent? ==> b.inventory == LastInventoryOf(prior, b.sourceID)) &&
    (b.action.SourceSucceeded? ==>
       SuccessfulInventories(prior.activeSources[b.sourceID], InventoriesOf(prior, b.sourceID)))
  }

  /** validateEvent. */
  predicate EventValid(e: Event, prior: State) {
    var b := e.body;
    b.sequence == prior.lastSequence + 1 && b.previous == prior.lastEvent &&
    b.eventID != "" && b.observedAt != ZERO_TIME && ValidDigest(b.config) && e.sha == EventDigest(b) &&
    match b.action
    case Configure => b.runID == "" && b.outcome.Configured? && prior.active.runID == ""
    case RunStarted =>
      b.runID != "" && b.outcome.Started? && prior.active.runID == "" && b.config == prior.config
    case InventoryRecorded =>
      InRun(b, prior) && b.sourceID != "" && b.outcome.Recorded? && ValidDigest(b.inventory) &&
      b.sourceID !in prior.active.results
    case SourceSucceeded => SourceEventValid(b, prior)
    case SourceFailed => SourceEventValid(b, prior)
    case SourceSkipped => SourceEventValid(b, prior)
    case RunFinished =>
      InRun(b, prior) &&
      (b.outcome.Success? || b.outcome.Partial? || b.outcome.Failed? || b.outcome.Canceled?) &&
      b.fullReconcile == prior.active.fullReconcile && OutcomeFromReplay(prior) == b.outcome
    case RunAbandoned => InRun(b, prior) && b.outcome.Abandoned?
    case UnsupportedAction(_) => false
  }

  predicate InventoryBound(inventory: InventoryBody, b: EventBody, configured: map<string, Source>) {
    b.sourceID in configured && inventory.runID == b.runID && inventory.sourceID == b.sourceID &&
    inventory.agent == configured[b.sourceID].agent && inventory.kind == configured[b.sourceID].kind &&
    inventory.sourceConfig == SourceDigest(configured[b.sourceID])
  }

  // ---- Applying an event ----

  function StatusAfter(old_: Option<SourceStatus>, b: EventBody, r: SourceResult): SourceStatus {
    SourceStatus(r.sourceID, r.agent, r.kind, r.required, b.runID, b.config, Some(b.observedAt),
                 if r.outcome.Success? then Some(b.observedAt)
                 else if old_.Some? then old_.value.lastSuccessAt else None,
                 r.outcome, r.errorCode)
  }

  function StatusOf(s: State, id: string): Option<SourceStatus> {
    if id in s.sources then Some(s.sources[id]) else None
  }

  function CompletedBy(s: State, e: Event): Completed {
    Completed(e.body.runID, e.body.config, e.body.outcome, e.sha, e.body.observedAt, s.active.fullReconcile,
              s.activeSources, s.active.inventories, s.active.results)
  }

  function EndRun(s: State, b: EventBody): State {
    s.(last := s.last.(finishedAt := Some(b.observedAt), outcome := b.outcome), active := IDLE)
  }

  function StartRun(b: EventBody): ActiveRun {
    ActiveRun(b.runID, Some(b.observedAt), b.fullReconcile, map[], map[])
  }

  function RecordSource(s: State, b: EventBody, r: SourceResult): State {
    s.(active := s.active.(results := s.active.results[b.sourceID := r]),
       sources := s.sources[b.sourceID := StatusAfter(StatusOf(s, b.sourceID), b, r)])
  }

  /** The effect of an event, apart from the link it adds to the chain. */
  function Effect(s: State, e: Event): State {
    var b := e.body;
    match b.action
    case Configure => s.(config := b.config, refs := s.refs.(configs := s.refs.configs + {b.config}))
    case RunStarted =>
      s.(active := StartRun(b), last := s.last.(runID := b.runID, startedAt := Some(b.observedAt)))
    case InventoryRecorded =>
      s.(refs := s.refs.(inventories := s.refs.inventories[b.sourceID := b.inventory],
                         recorded := s.refs.recorded + {b.inventory}))
    case RunFinished => EndRun(s, b).(completed := CompletedBy(s, e), runsCompleted := s.runsCompleted + 1)
    case RunAbandoned => EndRun(s, b)
    case _ => if b.source.None? then s else RecordSource(s, b, b.source.value)
  }

  /** applyEvent. */
  function Apply(prior: State, e: Event): State {
    Effect(prior, e).(lastSequence := e.body.sequence, lastEvent := e.sha)
  }

  function Remember(s: State, id: string, inventory: Inventory): State {
    s.(refs := s.refs.(details := s.refs.details[id := inventory]),
       active := s.active.(inventories := s.active.inventories[id := InventoriesOf(s, id) + [inventory]]))
  }

  /** Both the appender and the replay remember the inventory an event names. */
  function WithInventory(s: State, e: Event): State {
    var b := e.body;
    if b.action.InventoryRecorded? && b.inventory.InventoryDigest? then
      Remember(s, b.sourceID, Inventory(b.inventory.inventory, b.inventory))
    else s
  }

  /** Only the replay installs the sources of a configuration. */
  function WithConfig(s: State, e: Event): State {
    if e.body.action.Configure? && e.body.config.ConfigDigest? then
      s.(activeSources := SourceMap(e.body.config.config.sources))
    else s
  }

  ghost predicate InventoryAdmitted(s: State, e: Event, objects: set<Digest>) {
    e.body.action.InventoryRecorded? ==>
      InventoryLoads(e.body.inventory, objects) &&
      InventoryBound(e.body.inventory.inventory, e.body, s.activeSources)
  }

  /** What appendEvent accepts, and the state it returns. */
  ghost predicate Appendable(s: State, e: Event, objects: set<Digest>) {
    EventValid(e, s) && InventoryAdmitted(s, e, objects)
  }

  function Appended(s: State, e: Event): State {
    Apply(WithInventory(s, e), e)
  }

  /** One step of the replay. */
  ghost function Step(s: State, e: Event, objects: set<Digest>): Option<State> {
    if (e.body.action.Configure? && !ConfigLoads(e.body.config, objects)) || !Appendable(s, e, objects) then None
    else Some(Apply(WithInventory(WithConfig(s, e), e), e))
  }

  ghost function Replay(log: seq<Event>, objects: set<Digest>): Option<State> {
    if log == [] then Some(INITIAL)
    else
      match Replay(log[..|log| - 1], objects)
      case None => None
      case Some(s) => Step(s, log[|log| - 1], objects)
  }

  // ---- Facts about replay ----

  lemma ReplayExtend(log: seq<Event>, e: Event, objects: set<Digest>)
    requires Replay(log, objects).Some?
    ensures Replay(log + [e], objects) == Step(Replay(log, objects).value, e, objects)
  {
    assert (log + [e])[..|log|] == log;
  }

  /** A prefix of an accepted log is accepted. */
  lemma {:induction false} ReplayPrefix(log: seq<Event>, k: nat, objects: set<Digest>)
    requires k <= |log| && Replay(log, objects).Some?
    ensures Replay(log[..k], objects).Some?
  {
    if k < |log| {
      ReplayPrefix(log[..|log| - 1], k, objects);
      assert log[..|log| - 1][..k] == log[..k];
    } else {
      assert log[..k] == log;
    }
  }

  /** Writing more objects never invalidates a log. */
  lemma {:induction false} ReplayMonotone(log: seq<Event>, objects: set<Digest>, more: set<Digest>)
    requires objects <= more && Replay(log, objects).Some?
    ensures Replay(log, more) == Replay(log, objects)
  {
    if log != [] {
      ReplayMonotone(log[..|log| - 1], objects, more);
    }
  }

  lemma StepChains(s: State, e: Event, objects: set<Digest>)
    requires Step(s, e, objects).Some?
    ensures e.body.sequence == s.lastSequence + 1 && e.body.previous == s.lastEvent && e.sha == EventDigest(e.body)
    ensures Step(s, e, objects).value.lastSequence == e.body.sequence
    ensures Step(s, e, objects).value.lastEvent == e.sha
  {
    hide SourceEventValid, OutcomeFromReplay, InventoryAdmitted, ConfigLoads, InRun, SourceMap;
  }

  /** The log is a chain: consecutive sequence numbers, each event naming the hash of its predecessor. */
  lemma {:induction false} AcceptedLogIsChained(log: seq<Event>, objects: set<Digest>, k: nat)
    requires Replay(log, objects).Some? && k < |log|
    ensures log[k].body.sequence == k + 1 && log[k].sha == EventDigest(log[k].body)
    ensures log[k].body.previous == if k == 0 then Absent else log[k - 1].sha
    ensures Replay(log, objects).value.lastSequence == |log|
    ensures Replay(log, objects).value.lastEvent == log[|log| - 1].sha
  {
    hide Step;
    var n := |log| - 1;
    StepChains(Replay(log[..n], objects).value, log[n], objects);
    if n > 0 {
      AcceptedLogIsChained(log[..n], objects, if k < n then k else n - 1);
    }
  }

  lemma HashesDistinct(log: seq<Event>, objects: set<Digest>, i: nat, j: nat)
    requires Replay(log, objects).Some? && i < j < |log|
    ensures log[i].sha != log[j].sha
  {
    AcceptedLogIsChained(log, objects, i);
    AcceptedLogIsChained(log, objects, j);
  }

  /** appendEvent refines replay: replaying the log with the new event yields the state that was returned,
      except that a configure event also installs the sources of the configuration it names. */
  lemma AppendRefinesReplay(log: seq<Event>, e: Event, objects: set<Digest>)
    requires Replay(log, objects).Some? && Appendable(Replay(log, objects).value, e, objects)
    requires e.body.action.Configure? ==> ConfigLoads(e.body.config, objects)
    ensures var s := Replay(log, objects).value;
            Replay(log + [e], objects) == Some(
              if e.body.action.Configure?
              then Appended(s, e).(activeSources := SourceMap(e.body.config.config.sources))
              else Appended(s, e))
  {
    ReplayExtend(log, e, objects);
  }

  /** Only a finished run changes what was last completed. */
  lemma OnlyFinishChangesCompleted(s: State, e: Event, objects: set<Digest>)
    requires Step(s, e, objects).Some?
    ensures Step(s, e, objects).value.completed != s.completed ==> e.body.action.RunFinished?
    ensures e.body.action.RunFinished? ==>
              Step(s, e, objects).value.completed == CompletedBy(s, e) &&
              Step(s, e, objects).value.runsCompleted == s.runsCompleted + 1
    ensures !e.body.action.RunFinished? ==> Step(s, e, objects).value.runsCompleted == s.runsCompleted
  {
    hide Appendable, ConfigLoads;
  }
}
