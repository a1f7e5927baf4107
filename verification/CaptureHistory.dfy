/** Histories of runs and recoveries: nothing recorded is forgotten, and an old snapshot can always be rebuilt. */
module CaptureHistory {
  import opened Primitives
  import opened CaptureTypes
  import opened CaptureInventory
  import opened CaptureState
  import opened CaptureSafety
  import opened CaptureSnapshot
  import opened CaptureReplayState
  import opened CaptureSupervisor
  import opened CaptureSources
  import opened CaptureRunner
  import opened CaptureSchedule

  datatype Operation =
    | DoRun(worlds: nat -> SourceWorld, startedAt: Instant, finishedAt: Instant, newID: string)
    | DoRecover(at: Instant)

  ghost predicate OperationOk(op: Operation) {
    op.DoRun? ==> op.newID != "" && forall i: nat :: WorldOk(op.worlds(i))
  }

  ghost predicate AllOk(operations: seq<Operation>) {
    forall i :: 0 <= i < |operations| ==> OperationOk(operations[i])
  }

  // ---- Inventories over a history ----

  /** The identities that the `j`-th source shows as source markers during the operations. */
  function MarkersOver(operations: seq<Operation>, source: Source, j: nat): set<string> {
    if operations == [] then {}
    else
      var n := |operations| - 1;
      MarkersOver(operations[..n], source, j) +
      if operations[n].DoRun? then MarkersIn(source, operations[n].worlds(j)) else {}
  }

  /** Every inventory known before is the start of a chain that leads to the one known after. */
  ghost predicate Continued(before: State, after: State, operations: seq<Operation>) {
    after.config == before.config &&
    (before.config.ConfigDigest? ==>
       forall j: nat :: j < |before.config.config.sources| ==>
         ContinuedAt(before, after, operations, before.config.config.sources[j], j))
  }

  ghost predicate ContinuedAt(before: State, after: State, operations: seq<Operation>, source: Source, j: nat) {
    Descended(before.refs.details, after.refs.details, source, MarkersOver(operations, source, j))
  }

  lemma ContinuedStart(s: State)
    ensures Continued(s, s, [])
  {
    hide Descended;
    if s.config.ConfigDigest? {
      forall j: nat | j < |s.config.config.sources|
        ensures ContinuedAt(s, s, [], s.config.config.sources[j], j)
      {
        NothingDescended(s.refs.details, s.config.config.sources[j], {});
      }
    }
  }

  /** What one operation does to the inventories. */
  ghost predicate Carries(s: State, t: State, op: Operation) {
    t.config == s.config &&
    (t.refs == s.refs ||
     (op.DoRun? && s.config.ConfigDigest? &&
      Lineage(s.refs.details, t.refs.details, s.config.config.sources, op.worlds)))
  }

  lemma ContinuedNext(before: State, s: State, t: State, operations: seq<Operation>, op: Operation)
    requires Continued(before, s, operations) && Carries(s, t, op)
    ensures Continued(before, t, operations + [op])
  {
    hide Descended, MarkersIn;
    if before.config.ConfigDigest? {
      var sources := before.config.config.sources;
      forall j: nat | j < |sources|
        ensures ContinuedAt(before, t, operations + [op], sources[j], j)
      {
        assert (operations + [op])[..|operations|] == operations;
        assert ContinuedAt(before, s, operations, sources[j], j);
        var more := if op.DoRun? then MarkersIn(sources[j], op.worlds(j)) else {};
        if t.refs == s.refs {
          NothingDescended(s.refs.details, sources[j], more);
        }
        DescendedThrough(before.refs.details, s.refs.details, t.refs.details, sources[j],
                         MarkersOver(operations, sources[j], j), more);
      }
    }
  }

  lemma DescendedThrough(a: map<string, Inventory>, b: map<string, Inventory>, c: map<string, Inventory>,
                         source: Source, first: set<string>, second: set<string>)
    requires Descended(a, b, source, first) && Descended(b, c, source, second)
    ensures Descended(a, c, source, first + second)
  {
    hide Descends;
    if PriorIn(a, source).Some? {
      var x, y, z := PriorIn(a, source).value.body.items, PriorIn(b, source).value.body.items,
                     PriorIn(c, source).value.body.items;
      DescendsMore(x, y, first, first + second);
      DescendsMore(y, z, second, first + second);
      DescendsThrough(x, y, z, first + second);
    }
  }

  /** A run or a recovery, whatever comes of it. */
  method Perform(sup: Supervisor, op: Operation) returns (ghost before: State, ghost after: State)
    requires sup.Valid() && OperationOk(op)
    modifies sup
    ensures sup.Valid() && Extended(sup)
    ensures old(Replay(sup.audit, sup.objects)) == Some(before) && Replay(sup.audit, sup.objects) == Some(after)
    ensures Carries(before, after, op) && FinishesOne(before, after)
  {
    hide Replay, Lineage, RunDone, UsedRun, OversizedRun, Recovered, WorldOk, Multiple;
    match op {
      case DoRun(worlds, startedAt, finishedAt, newID) =>
        ghost var objects, writesLeft := sup.objects, sup.writesLeft;
        var r;
        r, before, after := Run(sup, worlds, startedAt, finishedAt, newID);
        if !(r == Err(NotIdle) || r == Err(NotConfigured)) {
          ghost var basis := Basis(RunIDOf(newID), before.refs.details, sup.tooLong);
          RunFinishesOne(r, basis, before, after, worlds, objects, writesLeft);
        }
      case DoRecover(at) =>
        var ok;
        ok, before, after := Recover(sup, at);
    }
  }

  /** Over every history of runs and recoveries, the inventories of a source form one chain, and a run that finishes is
      a full reconcile exactly when it is the first of all or its number is a multiple of the configured one. */
  method Operate(sup: Supervisor, operations: seq<Operation>) returns (ghost before: State, ghost after: State)
    requires sup.Valid() && AllOk(operations)
    modifies sup
    ensures sup.Valid() && Extended(sup)
    ensures old(Replay(sup.audit, sup.objects)) == Some(before) && Replay(sup.audit, sup.objects) == Some(after)
    ensures Continued(before, after, operations)
    ensures Scheduled(sup.audit, |Finishes(old(sup.audit))|, before.config)
  {
    hide Replay, Continued, Carries, OperationOk, Scheduled, FinishesOne, Finishes;
    before := Replay(sup.audit, sup.objects).value;
    after := before;
    ContinuedStart(before);
    ScheduleStart(sup.audit, before.config);
    var i := 0;
    while i < |operations|
      invariant 0 <= i <= |operations| && sup.Valid() && Extended(sup)
      invariant Replay(sup.audit, sup.objects) == Some(after) && Continued(before, after, operations[..i])
      invariant Scheduled(sup.audit, |Finishes(old(sup.audit))|, before.config) && after.config == before.config
    {
      assert operations[..i + 1] == operations[..i] + [operations[i]];
      ghost var log, objects := sup.audit, sup.objects;
      ghost var s, t;
      s, t := Perform(sup, operations[i]);
      ContinuedNext(before, s, t, operations[..i], operations[i]);
      ScheduleNext(log, sup.audit, s, t, objects, sup.objects, |Finishes(old(sup.audit))|);
      KeptConfig(s, t);
      after := t;
      i := i + 1;
    }
    assert operations[..i] == operations;
  }

  lemma KeptConfig(s: State, t: State)
    requires FinishesOne(s, t)
    ensures t.config == s.config
  {
  }

  /** Over every such history, a file or session once recorded stays in the inventory of its source, unless its identity
      also stands for a source marker. */
  lemma NothingForgotten(before: State, after: State, operations: seq<Operation>, j: nat, id: string)
    requires Continued(before, after, operations) && before.config.ConfigDigest?
    requires j < |before.config.config.sources| && PriorOf(before, before.config.config.sources[j]).Some?
    requires var source := before.config.config.sources[j];
             var items := PriorOf(before, source).value.body.items;
             id in Identities(items) && id !in Markers(items) && id !in MarkersOver(operations, source, j)
    ensures var source := before.config.config.sources[j];
            PriorOf(after, source).Some? && id in Identities(PriorOf(after, source).value.body.items)
  {
    hide Descends, Identities, Markers, MarkersOver;
    var source := before.config.config.sources[j];
    assert ContinuedAt(before, after, operations, source, j);
    NeverForgotten(PriorOf(before, source).value.body.items, PriorOf(after, source).value.body.items,
                   MarkersOver(operations, source, j), id);
  }

  // ---- Snapshots over a history ----

  datatype LoadError = InvalidTarget | AuditBroken | NoSnapshot(error: SnapshotError)

  ghost function SnapshotThrough(log: seq<Event>, target: Digest, objects: set<Digest>, agents: seq<Agent>, blobs: Blobs)
    : Result<Snapshot, LoadError>
  {
    match ReplayedThrough(log, target, objects)
    case None => Err(AuditBroken)
    case Some(s) =>
      match SnapshotOf(s.completed, agents, blobs)
      case Ok(snapshot) => Ok(snapshot)
      case Err(error) => Err(NoSnapshot(error))
  }

  method CompletedOf(state: ReplayState) returns (c: Completed)
    requires state.Valid()
    ensures c == state.View().completed
  {
    c := state.View().completed;
  }

  method SnapshotAt(sup: Supervisor, target: Digest, agents: seq<Agent>, blobs: Blobs)
    returns (r: Result<Snapshot, LoadError>)
    ensures r == SnapshotThrough(sup.audit, target, sup.objects, agents, blobs)
  {
    hide ReplayedThrough, SnapshotOf;
    var state := sup.ReplayAuditThrough(target);
    if state.None? {
      return Err(AuditBroken);
    }
    var c := CompletedOf(state.value);
    var snapshot := EvaluationSnapshotFromState(c, agents, blobs);
    r := match snapshot case Ok(x) => Ok(x) case Err(e) => Err(NoSnapshot(e));
  }

  /** LoadEvaluationSnapshot: of the last completed run. */
  method LoadSnapshot(sup: Supervisor, agents: seq<Agent>, blobs: Blobs) returns (r: Result<Snapshot, LoadError>)
    ensures r == SnapshotThrough(sup.audit, Absent, sup.objects, agents, blobs)
  {
    r := SnapshotAt(sup, Absent, agents, blobs);
  }

  /** LoadEvaluationSnapshotForAudit: of the run that the event with this hash finished. */
  method LoadSnapshotForAudit(sup: Supervisor, target: Digest, agents: seq<Agent>, blobs: Blobs)
    returns (r: Result<Snapshot, LoadError>)
    ensures r == if ValidDigest(target) then SnapshotThrough(sup.audit, target, sup.objects, agents, blobs)
                 else Err(InvalidTarget)
  {
    if !ValidDigest(target) {
      return Err(InvalidTarget);
    }
    r := SnapshotAt(sup, target, agents, blobs);
  }

  /** VerifyEvaluationSnapshot; equal digests of snapshots mean equal snapshots. */
  method VerifySnapshot(sup: Supervisor, snapshot: Snapshot, agents: seq<Agent>, blobs: Blobs) returns (ok: bool)
    ensures ok <==> ValidDigest(snapshot.audit) &&
                    SnapshotThrough(sup.audit, snapshot.audit, sup.objects, agents, blobs) == Ok(snapshot)
  {
    var expected := LoadSnapshotForAudit(sup, snapshot.audit, agents, blobs);
    ok := expected == Ok(snapshot);
  }

  /** The entry lists the first inventory that the log records of its source between the two events, and is taken under
      the configuration. */
  ghost predicate EntryFrom(log: seq<Event>, j: nat, config: Config, entry: SnapshotSource) {
    var recorded := RecordedSince(log, j, entry.sourceID);
    recorded != [] && entry.inventory == recorded[0].sha && multiset(entry.items) == multiset(recorded[0].body.items) &&
    exists i :: 0 <= i < |config.sources| && config.sources[i].id == entry.sourceID && config.sources[i].required &&
      entry.sourceConfig == SourceDigest(config.sources[i]) && entry.agent == config.sources[i].agent &&
      entry.kind == config.sources[i].kind
  }

  ghost predicate RequiredIn(config: Config, id: string) {
    exists i :: 0 <= i < |config.sources| && config.sources[i].id == id && config.sources[i].required
  }

  /** A snapshot is of the last run that finished: it names the event that finished the run, and for each required
      source of the configuration of that run it lists the first inventory recorded since the run started. */
  lemma SnapshotFromLog(log: seq<Event>, objects: set<Digest>, agents: seq<Agent>, blobs: Blobs, snapshot: Snapshot)
    returns (j: nat, k: nat)
    requires SnapshotThrough(log, Absent, objects, agents, blobs) == Ok(snapshot)
    ensures j < k < |log| && SuccessfulFinish(log[k]) && log[k].sha == snapshot.audit
    ensures log[k].body.observedAt == snapshot.completedAt && log[k].body.fullReconcile && snapshot.fullReconcile
    ensures log[k].body.runID == snapshot.runID && log[k].body.config == snapshot.config
    ensures OpenedAt(log[..k], j, snapshot.runID, snapshot.config, true)
    ensures forall i :: k < i < |log| ==> !log[i].body.action.RunFinished?
    ensures snapshot.config.ConfigDigest? && StoredConfigValid(snapshot.config.config)
    ensures forall id :: Shows(snapshot.sources, id) <==> RequiredIn(snapshot.config.config, id)
    ensures forall i :: 0 <= i < |snapshot.sources| ==>
              EntryFrom(log[..k], j, snapshot.config.config, snapshot.sources[i])
  {
    hide Replay, SnapshotOf, SnapshotShows, CompletedSound, HoldsRecorded, OpenedAt, Shows, EntryFrom, RequiredIn,
         StoredConfigValid, SourceMap;
    var c := Replay(log, objects).value.completed;
    SnapshotMeans(c, agents, blobs);
    ShownFacts(c, agents, blobs, snapshot);
    k := CompletedOrigin(log, objects);
    FinishClosesStart(log, objects, k);
    j :| OpenedAt(log[..k], j, log[k].body.runID, log[k].body.config, log[k].body.fullReconcile) &&
         HoldsRecorded(log[..k], j, c.inventories);
    CompletedAtFinish(log, objects, k);
    OpenedBefore(log[..k], j, log[k].body.runID, log[k].body.config, log[k].body.fullReconcile);
    RequiredSources(c, c.config.config);
    forall i | 0 <= i < |snapshot.sources|
      ensures EntryFrom(log[..k], j, c.config.config, snapshot.sources[i])
    {
      EntryIsFrom(log[..k], j, c, objects, snapshot.sources[i]);
    }
  }

  lemma ShownFacts(c: Completed, agents: seq<Agent>, blobs: Blobs, snapshot: Snapshot)
    requires SnapshotShows(c, agents, blobs, snapshot)
    ensures c.outcome.Success? && c.fullReconcile && snapshot.fullReconcile && snapshot.runID == c.runID
    ensures snapshot.config == c.config && snapshot.audit == c.audit && snapshot.completedAt == c.at
    ensures forall id :: Shows(snapshot.sources, id) <==> RequiredAt(c, id)
    ensures forall i :: 0 <= i < |snapshot.sources| ==> EntryShows(c, snapshot.sources[i])
  {
    hide EntryShows, EntryVerified, Shows;
  }

  lemma OpenedBefore(log: seq<Event>, j: nat, runID: string, config: Digest, full: bool)
    requires OpenedAt(log, j, runID, config, full)
    ensures j < |log|
  {
  }

  /** What a finish event completes. */
  lemma CompletedAtFinish(log: seq<Event>, objects: set<Digest>, k: nat)
    requires Replay(log, objects).Some? && k < |log| && log[k].body.action.RunFinished?
    ensures Replay(log[..k + 1], objects).Some?
    ensures var c := Replay(log[..k + 1], objects).value.completed;
            FinishedBy(c, log[k]) && CompletedSound(c, objects) && c.config.ConfigDigest? &&
            StoredConfigValid(c.config.config) && c.sources == SourceMap(c.config.config.sources)
  {
    hide Replay, Step, Inv, CompletedSound, StoredConfigValid, SourceMap, FinishedBy;
    ReplayPrefix(log, k + 1, objects);
    ReplayPrefix(log, k, objects);
    assert log[..k + 1] == log[..k] + [log[k]];
    ReplayExtend(log[..k], log[k], objects);
    var s := Replay(log[..k], objects).value;
    FinishMatches(s, log[k], objects);
    FinishCounts(s, log[k], objects);
    AcceptedLogSound(log[..k], objects);
    AcceptedLogSound(log[..k + 1], objects);
    InvCompleted(Replay(log[..k + 1], objects).value, objects);
    RunIsConfigured(s, objects);
  }

  lemma InvCompleted(s: State, objects: set<Digest>)
    requires Inv(s, objects)
    ensures CompletedSound(s.completed, objects)
  {
    hide CompletedSound, ConfigInv, RefsInv, Owned, Backed;
  }

  lemma RunIsConfigured(s: State, objects: set<Digest>)
    requires Inv(s, objects) && s.active.runID != ""
    ensures s.config.ConfigDigest? && StoredConfigValid(s.config.config)
    ensures s.activeSources == SourceMap(s.config.config.sources)
  {
    hide CompletedSound, RefsInv, Owned, Backed, StoredConfigValid, SourceMap;
  }

  lemma RequiredSources(c: Completed, config: Config)
    requires StoredConfigValid(config) && c.sources == SourceMap(config.sources)
    ensures forall id :: RequiredAt(c, id) <==> RequiredIn(config, id)
  {
    forall id
      ensures RequiredAt(c, id) <==> RequiredIn(config, id)
    {
      if i :| 0 <= i < |config.sources| && config.sources[i].id == id && config.sources[i].required {
        SourceMapAt(config.sources, i);
        assert config.sources[i] in config.sources;
      }
    }
  }

  lemma EntryIsFrom(log: seq<Event>, j: nat, c: Completed, objects: set<Digest>, entry: SnapshotSource)
    requires EntryShows(c, entry) && HoldsRecorded(log, j, c.inventories) && CompletedSound(c, objects)
    requires c.config.ConfigDigest? && c.sources == SourceMap(c.config.config.sources)
    ensures EntryFrom(log, j, c.config.config, entry)
  {
    hide RecordedSince, SuccessfulInventories, Owned, HasRequired, InOrder;
    var id, sources := entry.sourceID, c.config.config.sources;
    assert Listed(c.inventories, id) == RecordedSince(log, j, id);
    assert c.sources[id] in sources;
    var i :| 0 <= i < |sources| && sources[i] == c.sources[id];
    assert ResultMatchesConfig(c.results[id], c.sources[id]);
  }

  /** Whatever was appended and stored since, replaying through the event that a snapshot names rebuilds the snapshot. */
  lemma Rebuilt(log: seq<Event>, more: seq<Event>, objects: set<Digest>, later: set<Digest>, agents: seq<Agent>,
                blobs: Blobs, snapshot: Snapshot)
    requires objects <= later && Replay(log + more, later).Some?
    requires SnapshotThrough(log, Absent, objects, agents, blobs) == Ok(snapshot)
    ensures ValidDigest(snapshot.audit) &&
            SnapshotThrough(log + more, snapshot.audit, later, agents, blobs) == Ok(snapshot)
  {
    hide Replay, Entries, AgentCovered, SuccessfulFinish;
    var s := Replay(log, objects).value;
    ReplayMonotone(log, objects, later);
    NamesItsEvent(s.completed, agents, blobs);
    OriginIsValid(log, later);
    HistoryIsStable(log, more, later);
    var k: nat :| EndsAt(log + more, k, s.completed.audit) && SuccessfulFinish((log + more)[k]) &&
                  Replay((log + more)[..k + 1], later).Some? &&
                  Replay((log + more)[..k + 1], later).value.completed == s.completed;
    ThroughNamed(log + more, s.completed.audit, k, later);
  }

  lemma NamesItsEvent(c: Completed, agents: seq<Agent>, blobs: Blobs)
    requires SnapshotOf(c, agents, blobs).Ok?
    ensures c.outcome.Success? && SnapshotOf(c, agents, blobs).value.audit == c.audit
  {
    hide Entries, AgentCovered;
  }

  lemma OriginIsValid(log: seq<Event>, objects: set<Digest>)
    requires Replay(log, objects).Some? && Replay(log, objects).value.completed.outcome.Success?
    ensures ValidDigest(Replay(log, objects).value.completed.audit)
  {
    hide Replay;
    var k := CompletedOrigin(log, objects);
    AcceptedLogIsChained(log, objects, k);
  }

  lemma ThroughNamed(log: seq<Event>, target: Digest, k: nat, objects: set<Digest>)
    requires ValidDigest(target) && EndsAt(log, k, target) && SuccessfulFinish(log[k])
    ensures ReplayedThrough(log, target, objects) == Replay(log[..k + 1], objects)
  {
    hide Replay;
    ThroughFound(log, target, k, objects);
  }

  /** A snapshot taken before any history of runs and recoveries still verifies after it. */
  method SnapshotSurvives(sup: Supervisor, operations: seq<Operation>, agents: seq<Agent>, blobs: Blobs)
    returns (taken: Result<Snapshot, LoadError>, ok: bool)
    requires sup.Valid() && AllOk(operations)
    modifies sup
    ensures sup.Valid() && old(sup.audit) <= sup.audit
    ensures taken == old(SnapshotThrough(sup.audit, Absent, sup.objects, agents, blobs))
    ensures taken.Ok? ==> ok
  {
    hide Replay, AllOk, Continued, SnapshotThrough;
    taken := LoadSnapshot(sup, agents, blobs);
    ghost var log, objects := sup.audit, sup.objects;
    ghost var before, after;
    before, after := Operate(sup, operations);
    ok := false;
    if taken.Ok? {
      assert sup.audit == log + sup.audit[|log|..];
      Rebuilt(log, sup.audit[|log|..], objects, sup.objects, agents, blobs, taken.value);
      ok := VerifySnapshot(sup, taken.value, agents, blobs);
    }
  }
}
