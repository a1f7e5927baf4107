/** What every event of an accepted log says. */
module CaptureEvents {
  import opened Primitives
  import opened CaptureTypes
  import opened CaptureInventory
  import opened CaptureState
  import opened CaptureSafety
  import opened CaptureReadiness

  predicate Named(d: Digest) {
    !d.Absent? && !d.Malformed?
  }

  /** Native sources have a binary and a staging area and no path, all others have a path and neither of these. */
  predicate SourceSays(s: Source) {
    match s.kind
    case OpenCodeNative =>
      s.agent.OpenCode? && s.path == "" && IsAbsolute(s.binaryPath) && IsAbsolute(s.stagingRoot)
    case CodexRollouts => s.agent.Codex? && IsAbsolute(s.path) && s.binaryPath == "" && s.stagingRoot == ""
    case ClaudeHome => s.agent.ClaudeCode? && IsAbsolute(s.path) && s.binaryPath == "" && s.stagingRoot == ""
    case OpenCodeEvents => s.agent.OpenCode? && IsAbsolute(s.path) && s.binaryPath == "" && s.stagingRoot == ""
    case OtherKind(_) => false
  }

  /** Bounded settings, between one and 64 proper sources, no id twice, and something required. */
  ghost predicate ConfigSays(c: Config) {
    5 <= c.intervalSeconds <= 86400 && 1 <= c.fullReconcileEveryRuns <= 10000 &&
    10 <= c.sourceTimeoutSeconds <= 86400 && 1 <= |c.sources| <= 64 &&
    (forall s :: s in c.sources ==> ValidSourceID(s.id) && SourceSays(s)) &&
    (forall i, j :: 0 <= i < j < |c.sources| ==> c.sources[i].id != c.sources[j].id) &&
    exists s :: s in c.sources && s.required
  }

  /** A success has an inventory and nothing to complain of; whatever else closes a source has an error code. */
  predicate ResultSays(action: Action, r: SourceResult) {
    ValidSourceID(r.sourceID) && Named(r.sourceConfig) && r.agent == AgentOfKind(r.kind) && r.filesExamined >= 0 &&
    r.filesChanged >= 0 && r.eventsAppended >= 0 && r.gapsAppended >= 0 && r.bytesCaptured >= 0 &&
    !r.inventory.Malformed? && !r.errorDetail.Malformed? &&
    match r.outcome
    case Success => action.SourceSucceeded? && Named(r.inventory) && r.errorCode.NoError? && r.errorDetail.Absent?
    case Partial => action.SourceFailed? && !r.errorCode.NoError?
    case Failed => action.SourceFailed? && !r.errorCode.NoError?
    case Skipped => action.SourceSkipped? && !r.errorCode.NoError?
    case _ => false
  }

  /** A result belongs to a source of the configuration under which its run was started. */
  ghost predicate ResultConfigured(r: SourceResult, config: Digest) {
    config.ConfigDigest? &&
    exists s :: s in config.config.sources && s.id == r.sourceID && s.agent == r.agent && s.kind == r.kind &&
                s.required == r.required && r.sourceConfig == SourceDigest(s)
  }

  ghost predicate InventoryConfigured(i: InventoryBody, config: Digest) {
    config.ConfigDigest? &&
    exists s :: s in config.config.sources && s.id == i.sourceID && s.agent == i.agent && s.kind == i.kind &&
                i.sourceConfig == SourceDigest(s)
  }

  ghost predicate EventSays(b: EventBody) {
    b.eventID != "" && b.observedAt != 0 && Named(b.config) &&
    match b.action
    case Configure => b.runID == "" && b.outcome.Configured? && b.config.ConfigDigest? && ConfigSays(b.config.config)
    case RunStarted => b.runID != "" && b.outcome.Started?
    case InventoryRecorded =>
      b.runID != "" && b.outcome.Recorded? && b.inventory.InventoryDigest? && b.inventory.inventory.runID == b.runID &&
      b.inventory.inventory.sourceID == b.sourceID != "" && InventoryConfigured(b.inventory.inventory, b.config)
    case RunFinished =>
      b.runID != "" && (b.outcome.Success? || b.outcome.Partial? || b.outcome.Failed? || b.outcome.Canceled?)
    case RunAbandoned => b.runID != "" && b.outcome.Abandoned?
    case UnsupportedAction(_) => false
    case _ =>
      b.runID != "" && b.source.Some? && ResultSays(b.action, b.source.value) && b.sourceID == b.source.value.sourceID &&
      b.outcome == b.source.value.outcome && b.inventory == b.source.value.inventory &&
      ResultConfigured(b.source.value, b.config)
  }

  lemma SourceExactly(s: Source)
    ensures StoredSourceValid(s) <==> SourceSays(s)
  {
  }

  lemma ConfigExactly(c: Config)
    ensures StoredConfigValid(c) <==> ConfigSays(c)
  {
    hide ValidSourceID, StoredSourceValid, SourceSays;
    forall s: Source
      ensures StoredSourceValid(s) <==> SourceSays(s)
    {
      SourceExactly(s);
    }
    assert forall i :: 0 <= i < |c.sources| ==> c.sources[i] in c.sources;
  }

  lemma ResultMeans(action: Action, r: SourceResult)
    requires action.SourceSucceeded? || action.SourceFailed? || action.SourceSkipped?
    ensures ResultValid(action, r) <==> ResultSays(action, r)
  {
    hide ValidSourceID;
  }

  lemma SourceEventSays(s: State, e: Event, objects: set<Digest>)
    requires Appendable(s, e, objects) && ConfigInv(s, objects) && ClosesSource(e)
    ensures EventSays(e.body)
  {
    hide ResultValid, ResultSays, SuccessfulInventories, StoredConfigValid, SourceMap, ConfigSays, OutcomeFromReplay;
    ResultMeans(e.body.action, e.body.source.value);
    var source := s.activeSources[e.body.sourceID];
    assert source in s.config.config.sources;
  }

  lemma InventoryEventSays(s: State, e: Event, objects: set<Digest>)
    requires Appendable(s, e, objects) && ConfigInv(s, objects) && e.body.action.InventoryRecorded?
    ensures EventSays(e.body)
  {
    hide ResultSays, StoredConfigValid, SourceMap, ConfigSays, OutcomeFromReplay, SourceEventValid, Tallied;
    var source := s.activeSources[e.body.sourceID];
    assert source in s.config.config.sources;
  }

  lemma StepSays(s: State, e: Event, objects: set<Digest>)
    requires Step(s, e, objects).Some? && ConfigInv(s, objects)
    ensures EventSays(e.body)
  {
    hide SourceEventValid, OutcomeFromReplay, StoredConfigValid, ConfigSays, SourceMap, ResultSays, ConfigInv, InventoryValid;
    if ClosesSource(e) {
      StepApplies(s, e, objects);
      SourceEventSays(s, e, objects);
    } else if e.body.action.Configure? {
      ConfigExactly(e.body.config.config);
    } else if e.body.action.InventoryRecorded? {
      RecordApplies(s, e, objects);
      InventoryEventSays(s, e, objects);
    }
  }

  lemma RecordApplies(s: State, e: Event, objects: set<Digest>)
    requires Step(s, e, objects).Some? && e.body.action.InventoryRecorded?
    ensures Appendable(s, e, objects)
  {
    hide Appendable;
  }

  /** Every event of every accepted log says what its kind has to say. */
  lemma AcceptedEventSays(log: seq<Event>, objects: set<Digest>, k: nat)
    requires Replay(log, objects).Some? && k < |log|
    ensures EventSays(log[k].body)
  {
    hide Replay, Step, ConfigInv, EventSays;
    StateAt(log, objects, k);
    ConfigKept(log[..k], objects);
    StepSays(Replay(log[..k], objects).value, log[k], objects);
  }

  // ---- Between events ----

  /** The state after the first `k` events. */
  lemma StateAt(log: seq<Event>, objects: set<Digest>, k: nat)
    requires Replay(log, objects).Some? && k < |log|
    ensures Replay(log[..k], objects).Some? && Replay(log[..k + 1], objects).Some?
    ensures Step(Replay(log[..k], objects).value, log[k], objects) == Replay(log[..k + 1], objects)
  {
    hide Replay, Step;
    ReplayPrefix(log, k + 1, objects);
    ReplayPrefix(log, k, objects);
    assert log[..k + 1] == log[..k] + [log[k]];
    ReplayExtend(log[..k], log[k], objects);
  }

  lemma ResultsStep(s: State, e: Event, objects: set<Digest>, id: string)
    requires Step(s, e, objects).Some?
    ensures var t := Step(s, e, objects).value;
            (ClosesSource(e) && e.body.sourceID == id ==> id in t.active.results && id !in s.active.results) &&
            (e.body.action.InventoryRecorded? && e.body.sourceID == id ==> id !in s.active.results) &&
            (id in s.active.results && !e.body.action.RunStarted? && !EndsRun(e) ==> id in t.active.results)
  {
    hide SuccessfulInventories, OutcomeFromReplay, ResultMatchesConfig, ResultValid, ConfigLoads, InventoryAdmitted,
         SourceMap;
  }

  lemma {:induction false} StaysClosed(log: seq<Event>, objects: set<Digest>, i: nat, k: nat, id: string)
    requires Replay(log, objects).Some? && i < k <= |log| && ClosesSource(log[i]) && log[i].body.sourceID == id
    requires forall m :: i < m < k ==> !log[m].body.action.RunStarted? && !EndsRun(log[m])
    ensures Replay(log[..k], objects).Some? && id in Replay(log[..k], objects).value.active.results
    decreases k
  {
    hide Replay, Step, ClosesSource, EndsRun;
    StateAt(log, objects, k - 1);
    ResultsStep(Replay(log[..k - 1], objects).value, log[k - 1], objects, id);
    if i < k - 1 {
      StaysClosed(log, objects, i, k - 1, id);
    }
  }

  /** Within a run a source is closed once, and nothing is recorded of it afterwards. */
  lemma ClosedOnce(log: seq<Event>, objects: set<Digest>, i: nat, k: nat)
    requires Replay(log, objects).Some? && i < k < |log| && ClosesSource(log[i])
    requires ClosesSource(log[k]) || log[k].body.action.InventoryRecorded?
    requires log[k].body.sourceID == log[i].body.sourceID
    ensures exists m :: i < m < k && (log[m].body.action.RunStarted? || EndsRun(log[m]))
  {
    hide Replay, Step, ClosesSource, EndsRun;
    if forall m :: i < m < k ==> !log[m].body.action.RunStarted? && !EndsRun(log[m]) {
      StaysClosed(log, objects, i, k, log[i].body.sourceID);
      StateAt(log, objects, k);
      ResultsStep(Replay(log[..k], objects).value, log[k], objects, log[i].body.sourceID);
    }
  }

  /** The inventory that the log last records of a source. */
  function LastRecordedOf(log: seq<Event>, id: string): Digest {
    if log == [] then Absent
    else
      var b := log[|log| - 1].body;
      if b.action.InventoryRecorded? && b.sourceID == id then b.inventory else LastRecordedOf(log[..|log| - 1], id)
  }

  lemma RecordedStep(s: State, e: Event, objects: set<Digest>, id: string)
    requires Step(s, e, objects).Some?
    ensures LastInventoryOf(Step(s, e, objects).value, id) ==
            if e.body.action.InventoryRecorded? && e.body.sourceID == id then e.body.inventory else LastInventoryOf(s, id)
    ensures ClosesSource(e) ==> e.body.inventory.Absent? || e.body.inventory == LastInventoryOf(s, e.body.sourceID)
  {
    hide SuccessfulInventories, OutcomeFromReplay, ResultMatchesConfig, ResultValid, ConfigLoads, InventoryLoads,
         InventoryBound, SourceMap;
  }

  lemma {:induction false} ReferencesAreLatest(log: seq<Event>, objects: set<Digest>, id: string)
    requires Replay(log, objects).Some?
    ensures LastInventoryOf(Replay(log, objects).value, id) == LastRecordedOf(log, id)
  {
    hide Step, LastInventoryOf;
    if log == [] {
      NothingRecorded(id);
    } else {
      var n := |log| - 1;
      ReferencesAreLatest(log[..n], objects, id);
      RecordedStep(Replay(log[..n], objects).value, log[n], objects, id);
    }
  }

  lemma NothingRecorded(id: string)
    ensures LastInventoryOf(INITIAL, id) == Absent
  {
  }

  /** An event that closes a source names no inventory but the last one recorded of it. */
  lemma ClosesWithLatest(log: seq<Event>, objects: set<Digest>, k: nat)
    requires Replay(log, objects).Some? && k < |log| && ClosesSource(log[k])
    ensures log[k].body.inventory.Absent? || log[k].body.inventory == LastRecordedOf(log[..k], log[k].body.sourceID)
  {
    hide Replay, Step, ClosesSource, LastInventoryOf;
    StateAt(log, objects, k);
    ReferencesAreLatest(log[..k], objects, log[k].body.sourceID);
    RecordedStep(Replay(log[..k], objects).value, log[k], objects, log[k].body.sourceID);
  }
}
