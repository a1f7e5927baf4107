/** The schedule of full reconciles over histories of runs and recoveries. */
module CaptureSchedule {
  import opened Primitives
  import opened CaptureTypes
  import opened CaptureState
  import opened CaptureSafety
  import opened CaptureReadiness
  import opened CaptureSources
  import opened CaptureRunner

  // ---- The finished runs of a log ----

  /** The events that finish a run, in order. */
  function Finishes(log: seq<Event>): seq<Event> {
    if log == [] then []
    else
      var n := |log| - 1;
      Finishes(log[..n]) + if log[n].body.action.RunFinished? then [log[n]] else []
  }

  lemma {:induction false} FinishesOf(log: seq<Event>, more: seq<Event>)
    ensures Finishes(log + more) == Finishes(log) + Finishes(more)
  {
    if more == [] {
      assert log + more == log;
    } else {
      var n := |more| - 1;
      assert (log + more)[..|log| + n] == log + more[..n];
      FinishesOf(log, more[..n]);
    }
  }

  /** What was last completed is the run that this event finished. */
  predicate FinishedBy(c: Completed, e: Event) {
    c.runID == e.body.runID && c.config == e.body.config && c.outcome == e.body.outcome && c.audit == e.sha &&
    c.at == e.body.observedAt && c.fullReconcile == e.body.fullReconcile
  }

  /** The completed runs are the finished ones, and what was last completed is the last of them. */
  lemma {:induction false} CompletedIsLastFinish(log: seq<Event>, objects: set<Digest>)
    requires Replay(log, objects).Some?
    ensures var s, finishes := Replay(log, objects).value, Finishes(log);
            |finishes| == s.runsCompleted && (finishes != [] ==> FinishedBy(s.completed, finishes[|finishes| - 1]))
  {
    hide Step, FinishedBy;
    if log != [] {
      var n := |log| - 1;
      CompletedIsLastFinish(log[..n], objects);
      FinishCounts(Replay(log[..n], objects).value, log[n], objects);
    }
  }

  lemma FinishCounts(s: State, e: Event, objects: set<Digest>)
    requires Step(s, e, objects).Some?
    ensures var t := Step(s, e, objects).value;
            if e.body.action.RunFinished? then t.runsCompleted == s.runsCompleted + 1 && FinishedBy(t.completed, e)
            else t.runsCompleted == s.runsCompleted && t.completed == s.completed
  {
    hide SourceEventValid, OutcomeFromReplay, ConfigLoads, InventoryAdmitted, SourceMap;
  }

  // ---- The event that started a finished run ----

  /** The run that is open was started at `j`, and nothing started or ended a run since. */
  ghost predicate OpenedAt(log: seq<Event>, j: nat, runID: string, config: Digest, full: bool) {
    j < |log| && log[j].body.action.RunStarted? && log[j].body.runID == runID && log[j].body.config == config &&
    log[j].body.fullReconcile == full &&
    forall i :: j < i < |log| ==> !log[i].body.action.RunStarted? && !EndsRun(log[i])
  }

  /** The inventories that the log records of a source from `j` on. */
  function RecordedSince(log: seq<Event>, j: nat, id: string): seq<Inventory> {
    if |log| <= j then []
    else
      var n := |log| - 1;
      RecordedSince(log[..n], j, id) + RecordedBy(log[n].body, id)
  }

  function RecordedBy(b: EventBody, id: string): seq<Inventory> {
    if b.action.InventoryRecorded? && b.sourceID == id && b.inventory.InventoryDigest?
    then [Inventory(b.inventory.inventory, b.inventory)] else []
  }

  ghost predicate HoldsRecorded(log: seq<Event>, j: nat, inventories: map<string, seq<Inventory>>) {
    forall id :: Listed(inventories, id) == RecordedSince(log, j, id)
  }

  lemma RecordedNext(log: seq<Event>, e: Event, j: nat, before: map<string, seq<Inventory>>,
                     after: map<string, seq<Inventory>>)
    requires j <= |log| && HoldsRecorded(log, j, before)
    requires forall id :: Listed(after, id) == Listed(before, id) + RecordedBy(e.body, id)
    ensures HoldsRecorded(log + [e], j, after)
  {
    hide RecordedBy;
    assert (log + [e])[..|log|] == log;
  }

  lemma OpenedStays(log: seq<Event>, e: Event, j: nat, runID: string, config: Digest, full: bool)
    requires OpenedAt(log, j, runID, config, full) && !e.body.action.RunStarted? && !EndsRun(e)
    ensures OpenedAt(log + [e], j, runID, config, full) && j < |log|
  {
  }

  lemma OpenStep(s: State, e: Event, objects: set<Digest>)
    requires Step(s, e, objects).Some?
    ensures var t := Step(s, e, objects).value;
            if EndsRun(e) then t.active.runID == ""
            else if e.body.action.RunStarted?
            then t.active.runID == e.body.runID && t.config == e.body.config &&
                 t.active.fullReconcile == e.body.fullReconcile
            else t.active.runID == s.active.runID && t.active.fullReconcile == s.active.fullReconcile &&
                 (s.active.runID != "" ==> t.config == s.config)
  {
    hide SourceEventValid, OutcomeFromReplay, ConfigLoads, InventoryAdmitted, SourceMap;
  }

  lemma InventoriesStep(s: State, e: Event, objects: set<Digest>)
    requires Step(s, e, objects).Some?
    ensures var t := Step(s, e, objects).value;
            if EndsRun(e) || e.body.action.RunStarted? then t.active.inventories == map[]
            else forall id :: Listed(t.active.inventories, id) == InventoriesOf(s, id) + RecordedBy(e.body, id)
  {
    hide SourceEventValid, OutcomeFromReplay, ConfigLoads, InventoryAdmitted, SourceMap;
  }

  lemma {:induction false} OpenRunStarted(log: seq<Event>, objects: set<Digest>)
    requires Replay(log, objects).Some? && Replay(log, objects).value.active.runID != ""
    ensures var s := Replay(log, objects).value;
            exists j :: OpenedAt(log, j, s.active.runID, s.config, s.active.fullReconcile) &&
                        HoldsRecorded(log, j, s.active.inventories)
  {
    hide Step, EndsRun, OpenedAt, HoldsRecorded, RecordedBy;
    var n, s := |log| - 1, Replay(log, objects).value;
    var before := Replay(log[..n], objects).value;
    assert log[..n] + [log[n]] == log;
    OpenStep(before, log[n], objects);
    InventoriesStep(before, log[n], objects);
    if log[n].body.action.RunStarted? {
      StartOpens(log, n);
    } else {
      OpenRunStarted(log[..n], objects);
      var j :| OpenedAt(log[..n], j, before.active.runID, before.config, before.active.fullReconcile) &&
               HoldsRecorded(log[..n], j, before.active.inventories);
      OpenedStays(log[..n], log[n], j, s.active.runID, s.config, s.active.fullReconcile);
      RecordedNext(log[..n], log[n], j, before.active.inventories, s.active.inventories);
    }
  }

  lemma StartOpens(log: seq<Event>, n: nat)
    requires n == |log| - 1 && log[n].body.action.RunStarted?
    ensures OpenedAt(log, n, log[n].body.runID, log[n].body.config, log[n].body.fullReconcile)
    ensures HoldsRecorded(log, n, map[])
  {
  }

  /** A run is finished with the id, the configuration and the flag with which it was started, no other run starts or
      ends in between, and the inventories it completes with are those recorded in between. */
  lemma FinishClosesStart(log: seq<Event>, objects: set<Digest>, k: nat)
    requires Replay(log, objects).Some? && k < |log| && log[k].body.action.RunFinished?
    ensures Replay(log[..k + 1], objects).Some?
    ensures exists j ::
              OpenedAt(log[..k], j, log[k].body.runID, log[k].body.config, log[k].body.fullReconcile) &&
              HoldsRecorded(log[..k], j, Replay(log[..k + 1], objects).value.completed.inventories)
  {
    hide Replay, OpenedAt, HoldsRecorded;
    ReplayPrefix(log, k + 1, objects);
    ReplayPrefix(log, k, objects);
    assert log[..k + 1] == log[..k] + [log[k]];
    ReplayExtend(log[..k], log[k], objects);
    FinishMatches(Replay(log[..k], objects).value, log[k], objects);
    OpenRunStarted(log[..k], objects);
  }

  lemma FinishMatches(s: State, e: Event, objects: set<Digest>)
    requires Step(s, e, objects).Some? && e.body.action.RunFinished?
    ensures s.active.runID == e.body.runID != "" && s.config == e.body.config
    ensures s.active.fullReconcile == e.body.fullReconcile
    ensures Step(s, e, objects).value.completed == CompletedBy(s, e)
  {
    hide SourceEventValid, OutcomeFromReplay, ConfigLoads, InventoryAdmitted, SourceMap;
  }

  // ---- The schedule ----

  /** From the `from`-th on, the finished runs are full exactly when they are the first, or an `every`-th one. */
  ghost predicate OnSchedule(finishes: seq<Event>, from: nat, every: int) {
    forall i :: from <= i < |finishes| ==>
      (finishes[i].body.fullReconcile <==> i == 0 || Multiple(i + 1, every))
  }

  /** The same for a log that replays to a state with this configuration; without one, no run finishes. */
  ghost predicate Scheduled(log: seq<Event>, from: nat, config: Digest) {
    if config.ConfigDigest? then OnSchedule(Finishes(log), from, config.config.fullReconcileEveryRuns)
    else |Finishes(log)| <= from
  }

  /** What one run or recovery does to the completed runs. */
  ghost predicate FinishesOne(s: State, t: State) {
    t.config == s.config &&
    (t.runsCompleted == s.runsCompleted ||
     (s.config.ConfigDigest? && t.runsCompleted == s.runsCompleted + 1 &&
      (t.completed.fullReconcile <==>
         s.runsCompleted == 0 || Multiple(s.runsCompleted + 1, s.config.config.fullReconcileEveryRuns))))
  }

  lemma ScheduleStart(log: seq<Event>, config: Digest)
    ensures Scheduled(log, |Finishes(log)|, config)
  {
  }

  lemma ScheduleNext(log: seq<Event>, more: seq<Event>, before: State, after: State, objects: set<Digest>,
                     later: set<Digest>, from: nat)
    requires Replay(log, objects) == Some(before) && Replay(more, later) == Some(after) && log <= more
    requires Scheduled(log, from, before.config) && FinishesOne(before, after)
    ensures Scheduled(more, from, before.config)
  {
    hide Replay, Multiple, Finishes;
    assert more == log + more[|log|..];
    FinishesOf(log, more[|log|..]);
    CompletedIsLastFinish(log, objects);
    CompletedIsLastFinish(more, later);
  }

  lemma RunFinishesOne(r: Result<Report, Fault>, basis: Basis, before: State, after: State, worlds: nat -> SourceWorld,
                       objects: set<Digest>, writesLeft: nat)
    requires before.config.ConfigDigest?
    requires RunMeans(r, basis, before, after, before.config.config, worlds, objects, writesLeft)
    ensures FinishesOne(before, after)
  {
    hide Lineage, OversizedRun, UsedRun, Reported, OutcomeOf, SourceMap, Multiple;
  }

  /** On schedule, one of any `every` consecutive finished runs is full. */
  lemma EveryCycleIsFull(finishes: seq<Event>, from: nat, every: int, i: nat) returns (j: nat)
    requires OnSchedule(finishes, from, every) && every > 0 && from <= i && i + every <= |finishes|
    ensures i <= j < i + every && finishes[j].body.fullReconcile
  {
    var k := (i + every) / every;
    j := k * every - 1;
    assert j + 1 == Times(k, every);
    assert Multiple(j + 1, every);
  }

  /** And so is the first one of all. */
  lemma FirstIsFull(finishes: seq<Event>, every: int)
    requires OnSchedule(finishes, 0, every) && finishes != []
    ensures finishes[0].body.fullReconcile
  {
  }
}
