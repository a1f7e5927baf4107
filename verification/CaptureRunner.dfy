/** One capture run, and the recovery of one that was cut short, as programs that append to the audit. */
module CaptureRunner {
  import opened Primitives
  import opened Sorting
  import opened CaptureTypes
  import opened CaptureInventory
  import opened CaptureState
  import opened CaptureSafety
  import opened CaptureReplayState
  import opened CaptureSupervisor
  import opened CaptureSources

  datatype Report = Report(runID: string, fullReconcile: bool, sources: seq<SourceResult>, outcome: Outcome)

  // ---- A whole run ----

  /** Whether the run is canceled by the time source `i` is reached. */
  ghost predicate CanceledAt(worlds: nat -> SourceWorld, i: nat) {
    worlds(i).canceledBefore || exists j: nat :: j < i && (worlds(j).canceledBefore || worlds(j).canceledAfter)
  }

  ghost predicate CanceledBefore(worlds: nat -> SourceWorld, i: nat) {
    exists j: nat :: j < i && (worlds(j).canceledBefore || worlds(j).canceledAfter)
  }

  /** What a run starts from: its id, the inventories known before, and the encodings that are too long. */
  datatype Basis = Basis(runID: string, details: map<string, Inventory>, tooLong: InventoryBody -> bool)

  /** What the run reports of a source. */
  ghost predicate SourceReported(basis: Basis, source: Source, w: SourceWorld, canceled: bool, r: SourceResult,
                                 inventories: seq<Inventory>)
  {
    ResultMatchesConfig(r, source) &&
    if canceled then r.outcome.Skipped? && r.errorCode.ErrCaptureCanceled? && inventories == []
    else Fits(inventories, source, w, basis.runID, PriorIn(basis.details, source), basis.tooLong) &&
         !r.outcome.Skipped? && Judged(r, source, w, inventories) &&
         (WasCanceled(r) <==> WasCanceledFailure in Errors(source, w))
  }

  ghost predicate Reported(basis: Basis, sources: seq<Source>, worlds: nat -> SourceWorld, report: seq<SourceResult>,
                           inventories: map<string, seq<Inventory>>)
    requires |report| <= |sources|
  {
    forall j: nat :: j < |report| ==>
      SourceReported(basis, sources[j], worlds(j), CanceledAt(worlds, j), report[j], Listed(inventories, sources[j].id))
  }

  /** A source that the run reaches has an inventory that is not written. */
  ghost predicate OversizedAt(basis: Basis, source: Source, worlds: nat -> SourceWorld, i: nat) {
    !CanceledAt(worlds, i) && Oversized(source, worlds(i), basis.runID, PriorIn(basis.details, source), basis.tooLong)
  }

  ghost predicate OversizedRun(basis: Basis, sources: seq<Source>, worlds: nat -> SourceWorld) {
    exists i: nat :: i < |sources| && OversizedAt(basis, sources[i], worlds, i)
  }

  /** An inventory under this run id was stored before. */
  ghost predicate UsedRun(objects: set<Digest>, runID: string) {
    exists id :: StoredBy(objects, runID, id)
  }

  /** Why a run was stopped before its end. */
  ghost predicate StopMeans(fault: Fault, basis: Basis, sources: seq<Source>, worlds: nat -> SourceWorld,
                            objects: set<Digest>)
  {
    match fault
    case StorageFull => true
    case InventoryTooLarge => OversizedRun(basis, sources, worlds)
    case InventoryExists => UsedRun(objects, basis.runID)
    case _ => false
  }

  /** A run that reported every source met no over-large inventory. */
  lemma ReportedFits(basis: Basis, sources: seq<Source>, worlds: nat -> SourceWorld, report: seq<SourceResult>,
                     inventories: map<string, seq<Inventory>>)
    requires |report| == |sources| && Reported(basis, sources, worlds, report, inventories)
    ensures !OversizedRun(basis, sources, worlds)
  {
    hide Oversized, CanceledAt, RecordedFor, Succeeds, Errors;
    forall i: nat | i < |sources|
      ensures !OversizedAt(basis, sources[i], worlds, i)
    {
      assert SourceReported(basis, sources[i], worlds(i), CanceledAt(worlds, i), report[i],
                            Listed(inventories, sources[i].id));
    }
  }

  /** Every source that had an inventory under its configuration has one that descends from it. */
  ghost predicate Lineage(before: map<string, Inventory>, after: map<string, Inventory>, sources: seq<Source>,
                          worlds: nat -> SourceWorld)
  {
    forall j: nat :: j < |sources| ==> Descended(before, after, sources[j], MarkersIn(sources[j], worlds(j)))
  }

  function IDs(sources: seq<Source>): set<string> {
    set s | s in sources :: s.id
  }

  /** The run after the sources `sources[..|report|]`. */
  ghost predicate Progress(s: State, frame: Frame, sources: seq<Source>, report: seq<SourceResult>) {
    |report| <= |sources| && FrameOf(s) == frame && s.active.results.Keys == IDs(sources[..|report|]) &&
    s.active.inventories.Keys <= IDs(sources[..|report|]) &&
    forall j :: 0 <= j < |report| ==>
      sources[j].id in s.active.results && s.active.results[sources[j].id] == report[j]
  }

  /** The frame of a run under the configuration `c`. */
  ghost predicate FrameFor(frame: Frame, c: Config, runID: string, full: bool) {
    frame.runID == runID && runID != "" && frame.fullReconcile == full && frame.config == ConfigDigest(c) &&
    StoredConfigValid(c) && frame.sources == SourceMap(c.sources)
  }

  lemma ReadyForSource(s: State, frame: Frame, c: Config, report: seq<SourceResult>, runID: string, full: bool)
    requires Progress(s, frame, c.sources, report) && FrameFor(frame, c, runID, full) && |report| < |c.sources|
    ensures InRunOf(s, c.sources[|report|]) && InventoriesOf(s, c.sources[|report|].id) == []
    ensures s.active.runID == runID && s.config == ConfigDigest(c)
  {
    SourceMapAt(c.sources, |report|);
  }

  /** A step that adds the result of the next source, and at most inventories of that source. */
  ghost predicate NextSource(s: State, t: State, source: Source, w: SourceWorld, r: SourceResult) {
    FrameOf(t) == FrameOf(s) && t.active.results == s.active.results[source.id := r] &&
    Kept(s, t, source, w) && t.active.inventories.Keys <= s.active.inventories.Keys + {source.id}
  }

  lemma ProgressNext(s: State, t: State, frame: Frame, sources: seq<Source>, report: seq<SourceResult>,
                     w: SourceWorld, r: SourceResult)
    requires Progress(s, frame, sources, report) && |report| < |sources| && DistinctIDs(sources)
    requires NextSource(s, t, sources[|report|], w, r)
    ensures Progress(t, frame, sources, report + [r])
  {
    hide FrameOf, Kept, IDs, DistinctIDs;
    IDsNext(sources, |report|);
    forall j | 0 <= j < |report| + 1
      ensures sources[j].id in t.active.results && t.active.results[sources[j].id] == (report + [r])[j]
    {
      if j < |report| {
        SourcesDiffer(sources, j, |report|);
      }
    }
  }

  lemma IDsNext(sources: seq<Source>, n: nat)
    requires n < |sources|
    ensures IDs(sources[..n + 1]) == IDs(sources[..n]) + {sources[n].id}
  {
    assert sources[..n + 1] == sources[..n] + [sources[n]];
  }

  lemma SourcesDiffer(sources: seq<Source>, i: nat, j: nat)
    requires DistinctIDs(sources) && i < j < |sources|
    ensures sources[i].id != sources[j].id
  {
  }

  lemma ReportedNext(basis: Basis, s: State, t: State, sources: seq<Source>, worlds: nat -> SourceWorld,
                     report: seq<SourceResult>, r: SourceResult)
    requires |report| < |sources| && DistinctIDs(sources)
    requires Reported(basis, sources, worlds, report, s.active.inventories)
    requires NextSource(s, t, sources[|report|], worlds(|report|), r)
    requires SourceReported(basis, sources[|report|], worlds(|report|), CanceledAt(worlds, |report|), r,
                            Listed(t.active.inventories, sources[|report|].id))
    ensures Reported(basis, sources, worlds, report + [r], t.active.inventories)
  {
    hide FrameOf, SourceReported, CanceledAt, Descended, SameDetail;
    forall j: nat | j < |report| + 1
      ensures SourceReported(basis, sources[j], worlds(j), CanceledAt(worlds, j), (report + [r])[j],
                             Listed(t.active.inventories, sources[j].id))
    {
      if j < |report| {
        assert InventoriesOf(t, sources[j].id) == InventoriesOf(s, sources[j].id);
      }
    }
  }

  lemma SameValues(results: map<string, SourceResult>, sources: seq<Source>, report: seq<SourceResult>)
    requires results.Keys == IDs(sources) && |report| == |sources|
    requires forall j :: 0 <= j < |sources| ==> results[sources[j].id] == report[j]
    ensures (set id | id in results :: results[id]) == set r | r in report
  {
    forall r
      ensures r in (set id | id in results :: results[id]) <==> r in report
    {
      if id :| id in results && results[id] == r {
        var j :| 0 <= j < |sources| && sources[j].id == id;
        assert report[j] == r;
      }
      if r in report {
        var j :| 0 <= j < |report| && report[j] == r;
        assert sources[j].id in results;
      }
    }
  }

  lemma AllDone(s: State, frame: Frame, c: Config, report: seq<SourceResult>, runID: string, full: bool)
    requires Progress(s, frame, c.sources, report) && |report| == |c.sources| && FrameFor(frame, c, runID, full)
    ensures s.activeSources.Keys == IDs(c.sources) == s.active.results.Keys
    ensures forall j :: 0 <= j < |report| ==> s.active.results[c.sources[j].id] == report[j]
  {
    hide StoredConfigValid;
    assert c.sources[..|report|] == c.sources;
  }

  /** The outcome computed over the ordered list of results is the one the replay computes over its map. */
  lemma OutcomeAgrees(s: State, frame: Frame, c: Config, report: seq<SourceResult>, runID: string, full: bool)
    requires Progress(s, frame, c.sources, report) && |report| == |c.sources| && FrameFor(frame, c, runID, full)
    ensures OutcomeFromReplay(s) == OutcomeOf(set r | r in report)
  {
    hide Progress, FrameFor, OutcomeOf, IDs;
    AllDone(s, frame, c, report, runID, full);
    SameSize(s.activeSources, s.active.results);
    SameValues(s.active.results, c.sources, report);
    assert ActiveOutcomes(s) == set id | id in s.active.results :: s.active.results[id];
  }

  lemma SameSize<A, B>(a: map<string, A>, b: map<string, B>)
    requires a.Keys == b.Keys
    ensures |a| == |b|
  {
    assert |a.Keys| == |a| && |b.Keys| == |b|;
  }

  /** The result of a source that a canceled run does not reach. */
  function SkippedResult(source: Source, code: ErrorCode): SourceResult {
    NewSourceResult(source).(outcome := Skipped, errorCode := code)
  }

  lemma SkippedReady(s: State, source: Source, code: ErrorCode)
    requires InRunOf(s, source) && !code.NoError?
    ensures ResultReady(s, source, SkippedResult(source, code))
  {
  }

  lemma SkippedReported(basis: Basis, s: State, u: State, source: Source, w: SourceWorld)
    requires FrameOf(u) == FrameOf(s) && u.active.inventories == s.active.inventories && u.refs == s.refs
    requires u.active.results == s.active.results[source.id := SkippedResult(source, ErrCaptureCanceled)]
    requires InventoriesOf(s, source.id) == []
    ensures NextSource(s, u, source, w, SkippedResult(source, ErrCaptureCanceled))
    ensures SourceReported(basis, source, w, true, SkippedResult(source, ErrCaptureCanceled),
                           Listed(u.active.inventories, source.id))
  {
    hide FrameOf, Succeeds, Fits, Descended;
    NothingKept(s, source, w);
    KeptThrough(s, s, u, source, w);
  }

  lemma CapturedReported(basis: Basis, s: State, u: State, source: Source, w: SourceWorld, r: SourceResult)
    requires Captured(s, u, source, w, r) && Kept(s, u, source, w)
    requires Fits(InventoriesOf(u, source.id), source, w, basis.runID, PriorIn(basis.details, source), basis.tooLong)
    ensures NextSource(s, u, source, w, r)
    ensures SourceReported(basis, source, w, false, r, Listed(u.active.inventories, source.id))
  {
    hide FrameOf, Succeeds, SameElsewhere, ResultMatchesConfig, Errors, Fits, Kept;
  }

  /** The part of a run before source `n`: the sources from there on are untouched, the others keep their line, and
      every new object is an inventory of one of them. */
  ghost predicate Along(basis: Basis, s: State, sources: seq<Source>, worlds: nat -> SourceWorld, n: nat,
                        before: set<Digest>, after: set<Digest>)
  {
    n <= |sources| && Lineage(basis.details, s.refs.details, sources, worlds) && before <= after &&
    (forall j :: n <= j < |sources| ==> SameDetail(s.refs.details, basis.details, sources[j].id)) &&
    forall d :: d in after ==> d in before || exists j :: 0 <= j < n && IsInventoryOf(d, basis.runID, sources[j].id)
  }

  lemma AlongStart(basis: Basis, s: State, sources: seq<Source>, worlds: nat -> SourceWorld, objects: set<Digest>)
    requires s.refs.details == basis.details
    ensures Along(basis, s, sources, worlds, 0, objects, objects)
  {
    hide Descended;
    forall j: nat | j < |sources|
      ensures Descended(basis.details, basis.details, sources[j], MarkersIn(sources[j], worlds(j)))
    {
      NothingDescended(basis.details, sources[j], MarkersIn(sources[j], worlds(j)));
    }
  }

  lemma AlongNext(basis: Basis, s: State, t: State, sources: seq<Source>, worlds: nat -> SourceWorld, n: nat,
                  before: set<Digest>, middle: set<Digest>, after: set<Digest>)
    requires Along(basis, s, sources, worlds, n, before, middle) && n < |sources| && DistinctIDs(sources)
    requires Kept(s, t, sources[n], worlds(n)) && AddsOnly(middle, after, basis.runID, sources[n].id)
    ensures Along(basis, t, sources, worlds, n + 1, before, after)
  {
    hide Descended, IsInventoryOf;
    forall j: nat | j < |sources|
      ensures Descended(basis.details, t.refs.details, sources[j], MarkersIn(sources[j], worlds(j)))
    {
      LineNext(basis, s, t, sources, worlds, n, j);
    }
    var m := n + 1;
    forall d | d in after && d !in before
      ensures exists j :: 0 <= j < m && IsInventoryOf(d, basis.runID, sources[j].id)
    {
      if d in middle {
        var j :| 0 <= j < n && IsInventoryOf(d, basis.runID, sources[j].id);
        assert IsInventoryOf(d, basis.runID, sources[j].id);
      } else {
        assert IsInventoryOf(d, basis.runID, sources[n].id);
      }
    }
    forall j | m <= j < |sources|
      ensures SameDetail(t.refs.details, basis.details, sources[j].id)
    {
      assert SameDetail(s.refs.details, basis.details, sources[j].id);
      assert SameDetail(t.refs.details, s.refs.details, sources[j].id);
    }
  }

  lemma LineNext(basis: Basis, s: State, t: State, sources: seq<Source>, worlds: nat -> SourceWorld, n: nat, j: nat)
    requires n < |sources| && j < |sources| && DistinctIDs(sources) && Kept(s, t, sources[n], worlds(n))
    requires Lineage(basis.details, s.refs.details, sources, worlds)
    requires SameDetail(s.refs.details, basis.details, sources[n].id)
    ensures Descended(basis.details, t.refs.details, sources[j], MarkersIn(sources[j], worlds(j)))
  {
    hide Descends, MarkersIn;
    assert Descended(basis.details, s.refs.details, sources[j], MarkersIn(sources[j], worlds(j)));
    if j != n {
      assert SameDetail(t.refs.details, s.refs.details, sources[j].id);
    }
  }

  /** The prior inventory of the next source is the one from before the run. */
  lemma AlongPrior(basis: Basis, s: State, sources: seq<Source>, worlds: nat -> SourceWorld, n: nat,
                   before: set<Digest>, after: set<Digest>)
    requires Along(basis, s, sources, worlds, n, before, after) && n < |sources|
    ensures PriorOf(s, sources[n]) == PriorIn(basis.details, sources[n])
  {
    hide Lineage;
  }

  lemma StoppedAt(basis: Basis, s: State, sources: seq<Source>, worlds: nat -> SourceWorld, n: nat, fault: Fault,
                  before: set<Digest>, middle: set<Digest>)
    requires Along(basis, s, sources, worlds, n, before, middle) && n < |sources| && DistinctIDs(sources)
    requires CanceledAt(worlds, n) ==> fault.StorageFull?
    requires FaultMeans(fault, sources[n], worlds(n), basis.runID, PriorIn(basis.details, sources[n]), basis.tooLong,
                        middle)
    ensures StopMeans(fault, basis, sources, worlds, before)
  {
    hide Oversized, Lineage, CanceledAt;
    if fault.InventoryTooLarge? {
      assert OversizedAt(basis, sources[n], worlds, n);
    }
    if fault.InventoryExists? {
      var d :| d in middle && IsInventoryOf(d, basis.runID, sources[n].id);
      assert d in before;
      assert StoredBy(before, basis.runID, sources[n].id);
    }
  }

  lemma AlongLineage(basis: Basis, s: State, sources: seq<Source>, worlds: nat -> SourceWorld, n: nat,
                     before: set<Digest>, after: set<Digest>)
    requires Along(basis, s, sources, worlds, n, before, after)
    ensures Lineage(basis.details, s.refs.details, sources, worlds)
  {
    hide Descended;
  }

  /** The loop body: a source that a canceled run does not reach is skipped, any other one is captured. */
  method RunSource(sup: Supervisor, state: ReplayState, ghost v: State, runID: string, config: Digest, source: Source,
                   w: SourceWorld, canceled: bool, ghost basis: Basis)
    returns (r: Result<SourceResult, Fault>, ghost u: State)
    requires Linked(sup, state, v) && InRunOf(v, source) && v.active.runID == runID && v.config == config && WorldOk(w)
    requires InventoriesOf(v, source.id) == [] && basis.runID == runID && basis.tooLong == sup.tooLong
    requires PriorOf(v, source) == PriorIn(basis.details, source)
    modifies sup, state, state.Live()
    ensures Linked(sup, state, u) && fresh(state.Live() - old(state.Live())) && Extended(sup)
    ensures r.Ok? ==> NextSource(v, u, source, w, r.value) && sup.writesLeft >= old(sup.writesLeft) - 5 &&
                      SourceReported(basis, source, w, canceled, r.value, Listed(u.active.inventories, source.id))
    ensures r.Err? ==> FrameOf(u) == FrameOf(v) &&
                       FaultMeans(r.error, source, w, runID, PriorOf(v, source), sup.tooLong, old(sup.objects))
    ensures r.Err? && canceled ==> r.error.StorageFull?
    ensures r == Err(StorageFull) ==> old(sup.writesLeft) < 5
    ensures Kept(v, u, source, w) && AddsOnly(old(sup.objects), sup.objects, runID, source.id)
  {
    hide Kept, AddsOnly, Fits, PriorIn, Linked, WorldOk, InRunOf, Captured, FrameOf, ResultReady, SkippedResult,
         NextSource, SourceReported, InventoriesOf, Oversized, StoredBy;
    if canceled {
      SkippedReady(v, source, ErrCaptureCanceled);
      r, u := RecordResult(sup, state, v, runID, config, source, SkippedResult(source, ErrCaptureCanceled), w.endedAt);
      SkippedKept(v, u, source, w, sup.objects, runID);
      if r.Ok? {
        SkippedReported(basis, v, u, source, w);
      }
    } else {
      r, u := CaptureSource(sup, state, v, runID, config, source, w);
      if r.Ok? {
        CapturedReported(basis, v, u, source, w, r.value);
      }
    }
  }

  /** The loop over the configured sources. */
  method RunSources(sup: Supervisor, state: ReplayState, ghost v: State, c: Config, runID: string, full: bool,
                    worlds: nat -> SourceWorld, ghost basis: Basis)
    returns (r: Result<seq<SourceResult>, Fault>, ghost u: State)
    requires Linked(sup, state, v) && Progress(v, FrameOf(v), c.sources, [])
    requires FrameFor(FrameOf(v), c, runID, full) && DistinctIDs(c.sources)
    requires forall i: nat :: WorldOk(worlds(i))
    requires basis == Basis(runID, v.refs.details, sup.tooLong)
    modifies sup, state, state.Live()
    ensures Linked(sup, state, u) && fresh(state.Live() - old(state.Live())) && Extended(sup)
    ensures r.Ok? ==> |r.value| == |c.sources| && Progress(u, FrameOf(v), c.sources, r.value) &&
                      Reported(basis, c.sources, worlds, r.value, u.active.inventories) &&
                      sup.writesLeft >= old(sup.writesLeft) - 5 * |c.sources|
    ensures r.Err? ==> FrameOf(u) == FrameOf(v) && StopMeans(r.error, basis, c.sources, worlds, old(sup.objects))
    ensures r == Err(StorageFull) ==> old(sup.writesLeft) < 5 * |c.sources|
    ensures Lineage(basis.details, u.refs.details, c.sources, worlds)
  {
    hide Along, Kept, AddsOnly, Fits, FaultMeans, StopMeans, Lineage, PriorIn, Linked, FrameFor, Progress, Reported,
         WorldOk, InRunOf, CanceledAt, CanceledBefore, FrameOf, NextSource, SourceReported, InventoriesOf, DistinctIDs;
    u := v;
    var report: seq<SourceResult> := [];
    NothingReported(basis, c.sources, worlds, u.active.inventories);
    AlongStart(basis, u, c.sources, worlds, sup.objects);
    NotCanceledYet(worlds);
    var canceled := false;
    while |report| < |c.sources|
      invariant Linked(sup, state, u) && fresh(state.Live() - old(state.Live())) && Extended(sup)
      invariant |report| <= |c.sources|
      invariant Progress(u, FrameOf(v), c.sources, report)
      invariant Reported(basis, c.sources, worlds, report, u.active.inventories)
      invariant Along(basis, u, c.sources, worlds, |report|, old(sup.objects), sup.objects)
      invariant canceled <==> CanceledBefore(worlds, |report|)
      invariant sup.writesLeft >= old(sup.writesLeft) - 5 * |report|
      decreases |c.sources| - |report|
    {
      var source, w := c.sources[|report|], worlds(|report|);
      ReadyForSource(u, FrameOf(v), c, report, runID, full);
      CancelStep(worlds, |report|);
      AlongPrior(basis, u, c.sources, worlds, |report|, old(sup.objects), sup.objects);
      if w.canceledBefore {
        canceled := true;
      }
      ghost var before, stored := u, sup.objects;
      var one;
      one, u := RunSource(sup, state, u, runID, ConfigDigest(c), source, w, canceled, basis);
      AlongNext(basis, before, u, c.sources, worlds, |report|, old(sup.objects), stored, sup.objects);
      if one.Err? {
        ProgressFrame(before, FrameOf(v), c.sources, report);
        AlongLineage(basis, u, c.sources, worlds, |report| + 1, old(sup.objects), sup.objects);
        StoppedAt(basis, before, c.sources, worlds, |report|, one.error, old(sup.objects), stored);
        r := Err(one.error);
        return;
      }
      if w.canceledAfter {
        canceled := true;
      }
      ProgressNext(before, u, FrameOf(v), c.sources, report, w, one.value);
      ReportedNext(basis, before, u, c.sources, worlds, report, one.value);
      report := report + [one.value];
    }
    AlongLineage(basis, u, c.sources, worlds, |report|, old(sup.objects), sup.objects);
    r := Ok(report);
  }

  lemma ProgressFrame(s: State, frame: Frame, sources: seq<Source>, report: seq<SourceResult>)
    requires Progress(s, frame, sources, report)
    ensures FrameOf(s) == frame
  {
  }

  lemma NothingReported(basis: Basis, sources: seq<Source>, worlds: nat -> SourceWorld,
                        inventories: map<string, seq<Inventory>>)
    ensures Reported(basis, sources, worlds, [], inventories)
  {
  }

  lemma SkippedKept(s: State, u: State, source: Source, w: SourceWorld, objects: set<Digest>, runID: string)
    ensures u == s || (u.refs == s.refs && u.active.inventories == s.active.inventories) ==> Kept(s, u, source, w)
    ensures AddsOnly(objects, objects, runID, source.id)
  {
    hide Descended;
    NothingKept(s, source, w);
    if u == s || (u.refs == s.refs && u.active.inventories == s.active.inventories) {
      KeptThrough(s, s, u, source, w);
    }
  }

  lemma FullMeans(fault: Fault, basis: Basis, sources: seq<Source>, worlds: nat -> SourceWorld, objects: set<Digest>)
    ensures fault.StorageFull? ==> StopMeans(fault, basis, sources, worlds, objects)
  {
  }

  lemma NotCanceledYet(worlds: nat -> SourceWorld)
    ensures !CanceledBefore(worlds, 0)
  {
  }

  lemma CancelStep(worlds: nat -> SourceWorld, i: nat)
    ensures CanceledAt(worlds, i) <==> worlds(i).canceledBefore || CanceledBefore(worlds, i)
    ensures CanceledBefore(worlds, i + 1) <==> CanceledAt(worlds, i) || worlds(i).canceledAfter
  {
    if CanceledAt(worlds, i) || worlds(i).canceledAfter {
      if worlds(i).canceledBefore || worlds(i).canceledAfter {
        assert i < i + 1;
      } else {
        var j: nat :| j < i && (worlds(j).canceledBefore || worlds(j).canceledAfter);
        assert j < i + 1;
      }
    }
  }

  function Times(k: nat, m: int): int {
    k * m
  }

  ghost predicate Multiple(n: nat, m: int) {
    exists k: nat :: n == Times(k, m)
  }

  /** Every n-th run, and the first, reads everything again. */
  function FullDue(runsCompleted: nat, c: Config): (due: bool)
    requires c.fullReconcileEveryRuns > 0
    ensures due <==> runsCompleted == 0 || Multiple(runsCompleted + 1, c.fullReconcileEveryRuns)
  {
    DivisibleIsMultiple(runsCompleted + 1, c.fullReconcileEveryRuns);
    runsCompleted == 0 || (runsCompleted + 1) % c.fullReconcileEveryRuns == 0
  }

  lemma DivisibleIsMultiple(n: nat, m: int)
    requires m > 0
    ensures n % m == 0 <==> Multiple(n, m)
  {
    if n % m == 0 {
      assert n == Times(n / m, m);
    }
    if Multiple(n, m) {
      var k: nat :| n == Times(k, m);
      MultipleDivides(k, m);
    }
  }

  lemma MultipleDivides(k: nat, m: int)
    requires m > 0
    ensures Times(k, m) % m == 0
  {
    var n := Times(k, m);
    var q, r := n / m, n % m;
    assert (k - q) * m == r;
    if k != q {
      AtLeastOne(k - q, m);
    }
  }

  lemma AtLeastOne(d: int, m: int)
    requires d != 0 && m > 0
    ensures d * m >= m || d * m <= -m
  {
  }

  /** The configuration of a state whose audit was accepted. */
  ghost predicate Configured(s: State, c: Config) {
    s.config == ConfigDigest(c) && StoredConfigValid(c) && s.activeSources == SourceMap(c.sources)
  }

  lemma InvConfigured(s: State, objects: set<Digest>)
    requires Inv(s, objects) && !s.config.Absent?
    ensures s.config.ConfigDigest? && Configured(s, s.config.config)
  {
    hide StoredConfigValid, SourceMap, Owned, Backed, CompletedSound, RefsInv;
  }

  lemma StartAdmissible(s: State, c: Config, runID: string, at: Instant, full: bool, objects: set<Digest>)
    requires Configured(s, c) && s.active.runID == "" && runID != ""
    ensures Admissible(s, StartDraft(runID, s.config, at, full), objects)
  {
    hide StoredConfigValid, SourceMap;
  }

  lemma StartEffect(s: State, c: Config, runID: string, at: Instant, full: bool, id: string)
    requires Configured(s, c) && runID != ""
    ensures var t := Appended(s, SealFor(s, StartDraft(runID, s.config, at, full), id));
            FrameFor(FrameOf(t), c, runID, full) && Progress(t, FrameOf(t), c.sources, []) &&
            t.completed == s.completed && t.runsCompleted == s.runsCompleted && t.config == s.config && t.refs == s.refs
  {
    hide StoredConfigValid, SourceMap;
  }

  lemma FinishAdmissible(s: State, c: Config, at: Instant, outcome: Outcome, runID: string, full: bool,
                         results: set<SourceResult>, objects: set<Digest>)
    requires FrameFor(FrameOf(s), c, runID, full) && OutcomeFromReplay(s) == outcome == OutcomeOf(results)
    ensures Admissible(s, FinishDraft(runID, ConfigDigest(c), at, full, outcome), objects)
  {
    hide StoredConfigValid, SourceMap, OutcomeFromReplay;
  }

  /** What a run that was not stopped by a fault leaves in the audit. */
  ghost predicate RunDone(basis: Basis, before: State, after: State, c: Config, worlds: nat -> SourceWorld,
                          report: Report)
  {
    report.runID == basis.runID &&
    after.active == IDLE && after.config == before.config && after.runsCompleted == before.runsCompleted + 1 &&
    after.completed.runID == report.runID && after.completed.config == before.config &&
    after.completed.sources == SourceMap(c.sources) &&
    report.outcome == OutcomeOf(set r | r in report.sources) && after.completed.outcome == report.outcome &&
    (report.fullReconcile <==>
       before.runsCompleted == 0 || Multiple(before.runsCompleted + 1, c.fullReconcileEveryRuns)) &&
    after.completed.fullReconcile == report.fullReconcile &&
    |report.sources| == |c.sources| && after.completed.results.Keys == IDs(c.sources) &&
    (forall j :: 0 <= j < |c.sources| ==>
       c.sources[j].id in after.completed.results && after.completed.results[c.sources[j].id] == report.sources[j]) &&
    Reported(basis, c.sources, worlds, report.sources, after.completed.inventories)
  }

  lemma FinishDone(basis: Basis, before: State, s: State, c: Config, worlds: nat -> SourceWorld, at: Instant,
                   report: Report, id: string)
    requires report.runID == basis.runID
    requires FrameFor(FrameOf(s), c, report.runID, report.fullReconcile)
    requires Progress(s, FrameOf(s), c.sources, report.sources) && |report.sources| == |c.sources|
    requires Reported(basis, c.sources, worlds, report.sources, s.active.inventories)
    requires report.outcome == OutcomeOf(set r | r in report.sources)
    requires s.config == before.config && s.runsCompleted == before.runsCompleted
    requires c.fullReconcileEveryRuns > 0 && report.fullReconcile == FullDue(before.runsCompleted, c)
    ensures var draft := FinishDraft(report.runID, ConfigDigest(c), at, report.fullReconcile, report.outcome);
            RunDone(basis, before, Appended(s, SealFor(s, draft, id)), c, worlds, report) &&
            Appended(s, SealFor(s, draft, id)).refs == s.refs &&
            Appended(s, SealFor(s, draft, id)).config == s.config
  {
    hide StoredConfigValid, SourceMap, OutcomeOf, Reported, FullDue, Multiple;
    assert c.sources[..|c.sources|] == c.sources;
  }

  /** replayAudit, and the fields of the state that the callers read. */
  method ReplayAudit(sup: Supervisor) returns (state: ReplayState, ghost v: State)
    requires sup.Valid()
    ensures fresh(state) && fresh(state.Live()) && Linked(sup, state, v)
    ensures state.run.runID == v.active.runID && state.config == v.config && state.runsCompleted == v.runsCompleted
    ensures Inv(v, sup.objects)
  {
    hide Inv;
    var replayed := sup.ReplayAuditThrough(Absent);
    state := replayed.value;
    v := state.View();
    LinkedInv(sup, state, v);
  }

  lemma LinkedReplays(sup: Supervisor, state: ReplayState, v: State)
    requires Linked(sup, state, v)
    ensures Replay(sup.audit, sup.objects) == Some(v)
  {
  }

  lemma IdleWhenNoRun(s: State, objects: set<Digest>)
    requires Inv(s, objects) && s.active.runID == ""
    ensures s.active == IDLE
  {
    hide ConfigInv, RefsInv, Owned, Backed, CompletedSound;
  }

  /** A run under the configuration `c`: the start event, the sources, the finish event. */
  method RunConfigured(sup: Supervisor, state: ReplayState, ghost v: State, c: Config, runID: string, full: bool,
                       worlds: nat -> SourceWorld, startedAt: Instant, finishedAt: Instant, ghost basis: Basis)
    returns (r: Result<Report, Fault>, ghost u: State)
    requires Linked(sup, state, v) && Configured(v, c) && v.active.runID == "" && runID != ""
    requires c.fullReconcileEveryRuns > 0 && full == FullDue(v.runsCompleted, c)
    requires forall i: nat :: WorldOk(worlds(i))
    requires basis == Basis(runID, v.refs.details, sup.tooLong)
    modifies sup, state, state.Live()
    ensures Linked(sup, state, u) && Extended(sup)
    ensures r.Ok? ==> RunDone(basis, v, u, c, worlds, r.value)
    ensures r.Err? ==> u.completed == v.completed && u.runsCompleted == v.runsCompleted &&
                       StopMeans(r.error, basis, c.sources, worlds, old(sup.objects))
    ensures r.Err? && !r.error.StorageFull? ==> u.active.runID == runID
    ensures r.Err? && u.active.runID != "" ==> u.active.fullReconcile == full
    ensures u.config == v.config
    ensures r == Err(StorageFull) ==> old(sup.writesLeft) < 2 + 5 * |c.sources|
    ensures Lineage(basis.details, u.refs.details, c.sources, worlds)
  {
    hide StopMeans, Lineage, Linked, FrameFor, Progress, Reported, WorldOk, FrameOf, RunDone, Configured, DistinctIDs,
         FullDue, Multiple;
    ConfiguredFacts(v, c);
    NothingStarted(basis, v, c.sources, worlds, sup.objects);
    var ok;
    ok, u := BeginRun(sup, state, v, c, runID, full, startedAt);
    if !ok {
      r := Err(StorageFull);
      return;
    }
    ghost var begun := u;
    var results;
    results, u := RunSources(sup, state, u, c, runID, full, worlds, basis);
    FrameRun(begun, c, runID, full);
    if results.Ok? {
      ProgressFrame(u, FrameOf(begun), c.sources, results.value);
    }
    SameFrame(begun, u);
    if results.Err? {
      r := Err(results.error);
      return;
    }
    r, u := FinishSources(sup, state, v, u, c, runID, full, worlds, results.value, finishedAt, basis);
    FullMeans(StorageFull, basis, c.sources, worlds, old(sup.objects));
  }

  /** The event that opens a run. */
  method BeginRun(sup: Supervisor, state: ReplayState, ghost v: State, c: Config, runID: string, full: bool, at: Instant)
    returns (ok: bool, ghost u: State)
    requires Linked(sup, state, v) && Configured(v, c) && v.active.runID == "" && runID != ""
    modifies sup, state, state.Live()
    ensures Linked(sup, state, u) && fresh(state.Live() - old(state.Live())) && Extended(sup)
    ensures sup.objects == old(sup.objects)
    ensures u.completed == v.completed && u.runsCompleted == v.runsCompleted && u.config == v.config && u.refs == v.refs
    ensures if ok
            then FrameFor(FrameOf(u), c, runID, full) && Progress(u, FrameOf(u), c.sources, []) &&
                 sup.writesLeft == old(sup.writesLeft) - 1
            else u == v && old(sup.writesLeft) == 0
  {
    hide Linked, FrameFor, Progress, FrameOf, Admissible, Configured, Appended;
    StartAdmissible(v, c, runID, at, full, sup.objects);
    ConfiguredFacts(v, c);
    u := v;
    ghost var e;
    ok, e := Record(sup, state, v, StartDraft(runID, ConfigDigest(c), at, full));
    if ok {
      u := Appended(v, e);
      StartEffect(v, c, runID, at, full, e.body.eventID);
    }
  }

  /** The event that closes a run whose sources are all done. */
  method FinishSources(sup: Supervisor, state: ReplayState, ghost v: State, ghost s: State, c: Config, runID: string,
                       full: bool, worlds: nat -> SourceWorld, results: seq<SourceResult>, at: Instant,
                       ghost basis: Basis)
    returns (r: Result<Report, Fault>, ghost u: State)
    requires Linked(sup, state, s) && FrameFor(FrameOf(s), c, runID, full)
    requires Progress(s, FrameOf(s), c.sources, results) && |results| == |c.sources|
    requires Reported(basis, c.sources, worlds, results, s.active.inventories) && basis.runID == runID
    requires s.config == v.config && s.runsCompleted == v.runsCompleted
    requires c.fullReconcileEveryRuns > 0 && full == FullDue(v.runsCompleted, c)
    modifies sup, state, state.Live()
    ensures Linked(sup, state, u) && Extended(sup) && u.refs == s.refs
    ensures r.Ok? ==> RunDone(basis, v, u, c, worlds, r.value)
    ensures r.Err? ==> u == s && r.error.StorageFull? && old(sup.writesLeft) == 0
    ensures u.config == s.config
  {
    hide Linked, FrameFor, Progress, Reported, FrameOf, Admissible, OutcomeOf, RunDone, SourceMap, Appended,
         OutcomeFromReplay, FullDue, Multiple;
    var outcome := RunOutcome(results);
    OutcomeAgrees(s, FrameOf(s), c, results, runID, full);
    FinishAdmissible(s, c, at, outcome, runID, full, (set x | x in results), sup.objects);
    var ok, e := Record(sup, state, s, FinishDraft(runID, ConfigDigest(c), at, full, outcome));
    if ok {
      u := Appended(s, e);
      var report := Report(runID, full, results, outcome);
      FinishDone(basis, v, s, c, worlds, at, report, e.body.eventID);
      r := Ok(report);
    } else {
      u, r := s, Err(StorageFull);
    }
  }

  lemma SameFrame(s: State, t: State)
    requires FrameOf(s) == FrameOf(t)
    ensures s.completed == t.completed && s.runsCompleted == t.runsCompleted && s.config == t.config
    ensures s.active.runID == t.active.runID && s.active.fullReconcile == t.active.fullReconcile
  {
  }

  lemma FrameRun(s: State, c: Config, runID: string, full: bool)
    requires FrameFor(FrameOf(s), c, runID, full)
    ensures s.active.runID == runID && s.active.fullReconcile == full
  {
  }

  lemma ConfiguredFacts(s: State, c: Config)
    requires Configured(s, c)
    ensures s.config == ConfigDigest(c) && StoredConfigValid(c) && DistinctIDs(c.sources)
    ensures c.fullReconcileEveryRuns > 0
  {
    hide SourceMap;
  }

  lemma NothingStarted(basis: Basis, s: State, sources: seq<Source>, worlds: nat -> SourceWorld, objects: set<Digest>)
    requires s.refs.details == basis.details
    ensures Lineage(basis.details, s.refs.details, sources, worlds)
    ensures StopMeans(StorageFull, basis, sources, worlds, objects)
  {
    AlongStart(basis, s, sources, worlds, objects);
    AlongLineage(basis, s, sources, worlds, 0, objects, objects);
  }

  function RunIDOf(newID: string): string {
    "capture-run-" + newID
  }

  /** Nothing stops a run that starts from `before`: storage suffices and its id is new. */
  ghost predicate Unhindered(before: State, runID: string, objects: set<Digest>, writesLeft: nat) {
    before.active.runID == "" && before.config.ConfigDigest? && !UsedRun(objects, runID) &&
    writesLeft >= 2 + 5 * |before.config.config.sources|
  }

  /** Run. The run refuses exactly when one is open or none is configured. Otherwise it is stopped by failing storage, by
      an inventory that is not written, or by one that a run of this id left behind, and by nothing else; it closes
      exactly when none of these occurs. A run that was stopped is left open, and nothing last completed changes. */
  method Run(sup: Supervisor, worlds: nat -> SourceWorld, startedAt: Instant, finishedAt: Instant, newID: string)
    returns (r: Result<Report, Fault>, ghost before: State, ghost after: State)
    requires sup.Valid() && newID != "" && forall i: nat :: WorldOk(worlds(i))
    modifies sup
    ensures sup.Valid() && Extended(sup)
    ensures old(Replay(sup.audit, sup.objects)) == Some(before) && Replay(sup.audit, sup.objects) == Some(after)
    ensures r == Err(NotIdle) <==> before.active.runID != ""
    ensures r == Err(NotConfigured) <==> before.active.runID == "" && before.config.Absent?
    ensures r == Err(NotIdle) || r == Err(NotConfigured) ==> after == before && sup.audit == old(sup.audit)
    ensures !(r == Err(NotIdle) || r == Err(NotConfigured)) ==>
              before.config.ConfigDigest? &&
              var basis := Basis(RunIDOf(newID), before.refs.details, sup.tooLong);
              RunMeans(r, basis, before, after, before.config.config, worlds, old(sup.objects), old(sup.writesLeft))
    ensures Unhindered(before, RunIDOf(newID), old(sup.objects), old(sup.writesLeft)) ==>
              var basis := Basis(RunIDOf(newID), before.refs.details, sup.tooLong);
              (r.Ok? <==> !OversizedRun(basis, before.config.config.sources, worlds)) &&
              (r == Err(InventoryTooLarge) <==> OversizedRun(basis, before.config.config.sources, worlds))
  {
    hide Inv, Linked, WorldOk, RunDone, Configured, Replay, FullDue, Multiple, StopMeans, Lineage, OversizedRun,
         UsedRun;
    var state;
    state, before := ReplayAudit(sup);
    after := before;
    LinkedReplays(sup, state, before);
    if state.run.runID != "" {
      r := Err(NotIdle);
      return;
    }
    if state.config.Absent? {
      r := Err(NotConfigured);
      return;
    }
    IdleWhenNoRun(before, sup.objects);
    InvConfigured(before, sup.objects);
    var c := state.config.config;
    ConfiguredFacts(before, c);
    ghost var basis := Basis(RunIDOf(newID), before.refs.details, sup.tooLong);
    r, after := RunConfigured(sup, state, before, c, RunIDOf(newID), FullDue(state.runsCompleted, c), worlds,
                              startedAt, finishedAt, basis);
    LinkedReplays(sup, state, after);
    StopKinds(r, basis, before, after, c, worlds, old(sup.objects));
  }

  /** What the end of a run that was not refused says. */
  ghost predicate RunMeans(r: Result<Report, Fault>, basis: Basis, before: State, after: State, c: Config,
                           worlds: nat -> SourceWorld, objects: set<Digest>, writesLeft: nat)
  {
    before.active == IDLE && after.config == before.config &&
    Lineage(before.refs.details, after.refs.details, c.sources, worlds) &&
    match r
    case Ok(report) => RunDone(basis, before, after, c, worlds, report) && !OversizedRun(basis, c.sources, worlds)
    case Err(fault) =>
      after.completed == before.completed && after.runsCompleted == before.runsCompleted &&
      (after.active.runID != "" ==>
         (after.active.fullReconcile <==>
            before.runsCompleted == 0 || Multiple(before.runsCompleted + 1, c.fullReconcileEveryRuns))) &&
      match fault
      case StorageFull => writesLeft < 2 + 5 * |c.sources|
      case InventoryTooLarge => OversizedRun(basis, c.sources, worlds) && after.active.runID == basis.runID
      case InventoryExists => UsedRun(objects, basis.runID) && after.active.runID == basis.runID
      case _ => false
  }

  lemma StopKinds(r: Result<Report, Fault>, basis: Basis, before: State, after: State, c: Config,
                  worlds: nat -> SourceWorld, objects: set<Digest>)
    requires r.Ok? ==> RunDone(basis, before, after, c, worlds, r.value)
    requires r.Err? ==> StopMeans(r.error, basis, c.sources, worlds, objects)
    ensures r.Ok? ==> !OversizedRun(basis, c.sources, worlds)
    ensures r.Err? ==> match r.error
                       case StorageFull => true
                       case InventoryTooLarge => OversizedRun(basis, c.sources, worlds)
                       case InventoryExists => UsedRun(objects, basis.runID)
                       case _ => false
  {
    hide OversizedRun, UsedRun, Reported, OutcomeOf, Multiple, SourceMap;
    if r.Ok? {
      ReportedFits(basis, c.sources, worlds, r.value.sources, after.completed.inventories);
    }
  }

  // ---- Recovery ----

  function Unfinished(sources: seq<Source>, results: map<string, SourceResult>): seq<Source> {
    if sources == [] then []
    else
      var n := |sources| - 1;
      Unfinished(sources[..n], results) + if sources[n].id in results then [] else [sources[n]]
  }

  /** What recovery records of a source that did not finish: its latest inventory if this run took it. */
  function RecoveredResult(s: State, source: Source): SourceResult {
    var d := LastInventoryOf(s, source.id);
    SkippedResult(source, ErrRecoveryAbandoned).(
      inventory := if d.InventoryDigest? && d.inventory.runID == s.active.runID then d else Absent)
  }

  /** A source that did not finish is skipped for recovery, and keeps an inventory only if the open run took it. */
  lemma RecoveredMeans(s: State, source: Source)
    ensures var r := RecoveredResult(s, source);
            ResultMatchesConfig(r, source) && r.outcome.Skipped? && r.errorCode.ErrRecoveryAbandoned? &&
            r.filesExamined == r.filesChanged == r.eventsAppended == r.gapsAppended == r.bytesCaptured == 0 &&
            (r.inventory != Absent <==>
               source.id in s.refs.inventories && s.refs.inventories[source.id].InventoryDigest? &&
               s.refs.inventories[source.id].inventory.runID == s.active.runID) &&
            (r.inventory != Absent ==> r.inventory == s.refs.inventories[source.id])
  {
  }

  ghost predicate Skips(tail: seq<Event>, unfinished: seq<Source>, s: State) {
    |tail| == |unfinished| &&
    forall k :: 0 <= k < |tail| ==> Closes(tail[k], RecoveredResult(s, unfinished[k]))
  }

  lemma SkipsNext(tail: seq<Event>, unfinished: seq<Source>, s: State, e: Event, source: Source)
    requires Skips(tail, unfinished, s) && Closes(e, RecoveredResult(s, source))
    ensures Skips(tail + [e], unfinished + [source], s)
  {
    hide Closes, RecoveredResult;
  }

  lemma RecoveredReady(v: State, s: State, source: Source)
    requires InRunOf(s, source) && s.refs == v.refs && FrameOf(s) == FrameOf(v)
    ensures ResultReady(s, source, RecoveredResult(v, source)) && RecoveredResult(v, source).sourceID == source.id
  {
  }

  /** The run being recovered, after the first `i` sources. */
  ghost predicate Recovering(v: State, u: State, c: Config, i: nat) {
    i <= |c.sources| && FrameOf(u) == FrameOf(v) && u.refs == v.refs &&
    u.active.results.Keys == v.active.results.Keys + IDs(c.sources[..i])
  }

  lemma RecoveringStart(v: State, c: Config)
    ensures Recovering(v, v, c, 0)
  {
  }

  lemma RecoverNext(v: State, u: State, t: State, c: Config, i: nat)
    requires Recovering(v, u, c, i) && i < |c.sources| && FrameOf(t) == FrameOf(u) && t.refs == u.refs
    requires t.active.results.Keys == u.active.results.Keys + {c.sources[i].id}
    ensures Recovering(v, t, c, i + 1)
  {
    hide FrameOf;
    assert c.sources[..i + 1] == c.sources[..i] + [c.sources[i]];
  }

  lemma RecoverReady(v: State, u: State, c: Config, i: nat)
    requires Recovering(v, u, c, i) && i < |c.sources| && Configured(v, c) && v.active.runID != ""
    requires c.sources[i].id !in u.active.results
    ensures InRunOf(u, c.sources[i]) && u.active.runID == v.active.runID && u.config == ConfigDigest(c)
  {
    SourceMapAt(c.sources, i);
  }

  lemma StillUnfinished(v: State, u: State, c: Config, i: nat)
    requires Recovering(v, u, c, i) && i < |c.sources| && DistinctIDs(c.sources)
    ensures c.sources[i].id in u.active.results <==> c.sources[i].id in v.active.results
    ensures var before := Unfinished(c.sources[..i], v.active.results);
            Unfinished(c.sources[..i + 1], v.active.results) ==
            if c.sources[i].id in u.active.results then before else before + [c.sources[i]]
  {
    hide FrameOf;
    assert c.sources[..i + 1][..i] == c.sources[..i];
  }

  /** loadInventory of what a source last recorded, if this run took it. */
  method InventoryOfRun(sup: Supervisor, state: ReplayState, ghost v: State, id: string, runID: string)
    returns (d: Digest)
    requires Linked(sup, state, v)
    ensures d == var last := LastInventoryOf(v, id);
                 if last.InventoryDigest? && last.inventory.runID == runID then last else Absent
  {
    LinkedInv(sup, state, v);
    d := LastInventoryOf(state.View(), id);
    hide ReplayState.View;
    if !d.Absent? {
      var loaded := sup.LoadInventory(d);
      if loaded.None? || loaded.value.body.runID != runID {
        d := Absent;
      }
    }
  }

  method HasResult(sup: Supervisor, state: ReplayState, ghost v: State, id: string) returns (done: bool)
    requires Linked(sup, state, v)
    ensures done <==> id in v.active.results
  {
    done := id in state.activeResults.entries;
  }

  /** The loop body of recovery: a source that has a result is left alone, any other one is skipped. */
  method SkipOne(sup: Supervisor, state: ReplayState, ghost v: State, ghost u: State, c: Config, runID: string, i: nat,
                 at: Instant)
    returns (ok: bool, ghost skipped: bool, ghost t: State)
    requires Linked(sup, state, u) && Recovering(v, u, c, i) && i < |c.sources|
    requires Configured(v, c) && v.active.runID == runID && runID != ""
    modifies sup, state, state.Live()
    ensures Linked(sup, state, t) && fresh(state.Live() - old(state.Live())) && Extended(sup)
    ensures FrameOf(t) == FrameOf(u) && t.refs == u.refs && (skipped <==> c.sources[i].id !in u.active.results)
    ensures ok ==> Recovering(v, t, c, i + 1) && sup.writesLeft >= old(sup.writesLeft) - 1
    ensures ok ==> if skipped
                   then |sup.audit| == |old(sup.audit)| + 1 &&
                        Closes(sup.audit[|old(sup.audit)|], RecoveredResult(v, c.sources[i]))
                   else sup.audit == old(sup.audit)
    ensures !ok ==> old(sup.writesLeft) == 0
  {
    hide Linked, Configured, FrameOf, InRunOf, ResultReady, Closes, LastInventoryOf, SkippedResult, RecoveredResult,
         Recovering;
    var source := c.sources[i];
    var done := HasResult(sup, state, u, source.id);
    ok, skipped, t := true, !done, u;
    RecoveringRefs(v, u, c, i);
    if done {
      RecoverNext(v, u, u, c, i);
      return;
    }
    RecoverReady(v, u, c, i);
    RecoveredReady(v, u, source);
    var d := InventoryOfRun(sup, state, u, source.id, runID);
    var result := SkippedResult(source, ErrRecoveryAbandoned).(inventory := d);
    assert result == RecoveredResult(v, source) by { RecoveredIs(v, u, source, d); }
    var r;
    r, t := RecordResult(sup, state, u, runID, ConfigDigest(c), source, result, at);
    ok := r.Ok?;
    if ok {
      RecoverNext(v, u, t, c, i);
    }
  }

  lemma RecoveringRefs(v: State, u: State, c: Config, i: nat)
    requires Recovering(v, u, c, i)
    ensures u.refs == v.refs && FrameOf(u) == FrameOf(v) && u.active.runID == v.active.runID
  {
  }

  lemma RecoveredIs(v: State, u: State, source: Source, d: Digest)
    requires u.refs == v.refs
    requires d == var last := LastInventoryOf(u, source.id);
                  if last.InventoryDigest? && last.inventory.runID == v.active.runID then last else Absent
    ensures SkippedResult(source, ErrRecoveryAbandoned).(inventory := d) == RecoveredResult(v, source)
  {
  }

  /** One skipped event for each source that did not finish. */
  method SkipUnfinished(sup: Supervisor, state: ReplayState, ghost v: State, c: Config, runID: string, at: Instant)
    returns (ok: bool, ghost u: State)
    requires Linked(sup, state, v) && Configured(v, c) && v.active.runID == runID && runID != ""
    modifies sup, state, state.Live()
    ensures Linked(sup, state, u) && fresh(state.Live() - old(state.Live())) && Extended(sup) && FrameOf(u) == FrameOf(v)
    ensures u.refs == v.refs
    ensures ok ==> Skips(sup.audit[|old(sup.audit)|..], Unfinished(c.sources, v.active.results), v)
    ensures if ok then sup.writesLeft >= old(sup.writesLeft) - |c.sources| else old(sup.writesLeft) < |c.sources|
  {
    hide Linked, Configured, FrameOf, Recovering, Skips, Unfinished, DistinctIDs, Closes, RecoveredResult;
    u, ok := v, true;
    ghost var tail: seq<Event> := [];
    RecoveringStart(v, c);
    NothingSkipped(v, c);
    ConfiguredFacts(v, c);
    var i := 0;
    while i < |c.sources|
      invariant 0 <= i <= |c.sources| && ok
      invariant Linked(sup, state, u) && fresh(state.Live() - old(state.Live())) && Extended(sup)
      invariant Recovering(v, u, c, i) && FrameOf(u) == FrameOf(v) && u.refs == v.refs
      invariant sup.writesLeft >= old(sup.writesLeft) - i
      invariant sup.audit == old(sup.audit) + tail && Skips(tail, Unfinished(c.sources[..i], v.active.results), v)
    {
      StillUnfinished(v, u, c, i);
      ghost var skipped;
      ok, skipped, u := SkipOne(sup, state, v, u, c, runID, i, at);
      if !ok {
        return;
      }
      if skipped {
        ghost var e := sup.audit[|old(sup.audit)| + |tail|];
        SkipsNext(tail, Unfinished(c.sources[..i], v.active.results), v, e, c.sources[i]);
        tail := tail + [e];
      }
      i := i + 1;
    }
    assert c.sources[..i] == c.sources;
    assert sup.audit[|old(sup.audit)|..] == tail;
  }

  lemma NothingSkipped(v: State, c: Config)
    ensures Skips([], Unfinished(c.sources[..0], v.active.results), v)
  {
  }

  lemma AbandonAdmissible(s: State, c: Config, runID: string, at: Instant, objects: set<Digest>)
    requires Configured(s, c) && s.active.runID == runID && runID != ""
    ensures Admissible(s, AbandonDraft(runID, ConfigDigest(c), at), objects)
  {
    hide StoredConfigValid, SourceMap;
  }

  lemma AbandonEffect(s: State, e: Event)
    requires e.body.action.RunAbandoned?
    ensures var t := Appended(s, e);
            t.active == IDLE && t.completed == s.completed && t.runsCompleted == s.runsCompleted &&
            t.refs == s.refs && t.config == s.config
  {
  }

  lemma ConfiguredFrame(s: State, t: State, c: Config)
    requires Configured(s, c) && FrameOf(t) == FrameOf(s)
    ensures Configured(t, c) && t.active.runID == s.active.runID
    ensures t.completed == s.completed && t.runsCompleted == s.runsCompleted && t.config == s.config
  {
  }

  /** The events that recovery appends to the audit of an open run. */
  ghost predicate Recovered(tail: seq<Event>, before: State, c: Config) {
    |tail| > 0 && Skips(tail[..|tail| - 1], Unfinished(c.sources, before.active.results), before) &&
    tail[|tail| - 1].body.action.RunAbandoned? && tail[|tail| - 1].body.runID == before.active.runID
  }

  method AbandonRun(sup: Supervisor, state: ReplayState, ghost v: State, c: Config, runID: string, at: Instant)
    returns (ok: bool, ghost u: State)
    requires Linked(sup, state, v) && Configured(v, c) && v.active.runID == runID && runID != ""
    modifies sup, state, state.Live()
    ensures Linked(sup, state, u) && Extended(sup)
    ensures u.completed == v.completed && u.runsCompleted == v.runsCompleted && u.refs == v.refs && u.config == v.config
    ensures ok ==> u.active == IDLE && Recovered(sup.audit[|old(sup.audit)|..], v, c)
    ensures !ok ==> old(sup.writesLeft) <= |c.sources|
  {
    hide Linked, Configured, FrameOf, Skips, Unfinished, Admissible, Appended;
    ghost var log := sup.audit;
    ok, u := SkipUnfinished(sup, state, v, c, runID, at);
    ConfiguredFrame(v, u, c);
    if !ok {
      return;
    }
    ghost var mid, skips := u, sup.audit[|log|..];
    AbandonAdmissible(mid, c, runID, at, sup.objects);
    ghost var e;
    ok, e := Record(sup, state, mid, AbandonDraft(runID, ConfigDigest(c), at));
    if ok {
      AbandonEffect(mid, e);
      u := Appended(mid, e);
      assert sup.audit[|log|..] == skips + [e];
    }
  }

  /** Recover. An open run is closed by one skipped event per unfinished source and one abandon event; without
      an open run nothing is appended, so recovering twice is recovering once. */
  method Recover(sup: Supervisor, now: Instant) returns (ok: bool, ghost before: State, ghost after: State)
    requires sup.Valid()
    modifies sup
    ensures sup.Valid() && Extended(sup)
    ensures old(Replay(sup.audit, sup.objects)) == Some(before) && Replay(sup.audit, sup.objects) == Some(after)
    ensures after.completed == before.completed && after.runsCompleted == before.runsCompleted
    ensures after.refs == before.refs && after.config == before.config
    ensures ok ==> after.active == IDLE
    ensures before.active.runID == "" ==> sup.audit == old(sup.audit)
    ensures ok && before.active.runID != "" ==>
              before.config.ConfigDigest? && Recovered(sup.audit[|old(sup.audit)|..], before, before.config.config)
    ensures !ok ==> before.config.Absent? ||
                    (before.config.ConfigDigest? && old(sup.writesLeft) <= |before.config.config.sources|)
  {
    hide Inv, Linked, Configured, Replay, Recovered;
    var state;
    state, before := ReplayAudit(sup);
    after, ok := before, true;
    LinkedReplays(sup, state, before);
    if state.config.Absent? {
      ok := false;
      return;
    }
    InvConfigured(before, sup.objects);
    if state.run.runID != "" {
      ok, after := AbandonRun(sup, state, before, state.config.config, state.run.runID, now);
      LinkedReplays(sup, state, after);
    } else {
      IdleWhenNoRun(before, sup.objects);
    }
  }
}
