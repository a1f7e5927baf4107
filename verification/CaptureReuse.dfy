/** A log in which a run id is used twice: the status is ready, and yet the evidence is not in the latest run. */
module CaptureReuse {
  import opened Primitives
  import opened CaptureTypes
  import opened CaptureInventory
  import opened CaptureState
  import opened CaptureSafety
  import opened CaptureSupervisor
  import opened CaptureSources
  import opened CaptureRunner
  import opened CaptureStatus
  import R = CaptureReadiness

  const RUN := "run"

  const PLAIN := Options(true, [], 0, 1)

  function Native(id: string): Source {
    Source(id, OpenCode, OpenCodeNative, true, "", "/opencode", "/staging")
  }

  function Only(id: string): Config {
    Config(60, 1, 60, [Native(id)])
  }

  function Zeros(): string {
    seq(64, _ => '0')
  }

  function OneSession(id: string): InventoryBody {
    var item := InventoryItem(Zeros(), SessionItem, Available, "", 0, None, RUN);
    NewInventory(Native(id), RUN, 1).(items := [item], available := 1, status := InvAvailable)
  }

  function Stored(): set<Digest> {
    {ConfigDigest(Only("a")), ConfigDigest(Only("b")), InventoryDigest(OneSession("a"))}
  }

  lemma ConfigsLoad(id: string)
    requires id == "a" || id == "b"
    ensures StoredConfigValid(Only(id)) && ConfigLoads(ConfigDigest(Only(id)), Stored())
    ensures SourceMap(Only(id).sources) == map[id := Native(id)]
  {
    assert Only(id).sources[0].required;
    assert Only(id).sources[..0] == [];
  }

  lemma InventoryIsBuilt()
    ensures BuiltFor(OneSession("a"), Native("a"), RUN, 1)
    ensures InventoryLoads(InventoryDigest(OneSession("a")), Stored())
  {
    var items := OneSession("a").items;
    assert Keys(items) == {Key(items[0])};
    assert items[..0] == [];
  }

  /** A log that replays, at a point where its state is known. */
  ghost predicate At(log: seq<Event>, s: State) {
    Replay(log, Stored()) == Some(s)
  }

  lemma Appends(log: seq<Event>, s: State, draft: EventBody) returns (more: seq<Event>, t: State)
    requires At(log, s) && !draft.action.Configure? && Admissible(s, draft, Stored())
    ensures At(more, t) && more == log + [SealFor(s, draft, "event")] && t == Appended(s, SealFor(s, draft, "event"))
  {
    hide Replay, Appendable, Appended;
    var e := SealFor(s, draft, "event");
    more, t := log + [e], Appended(s, e);
    AppendRefinesReplay(log, e, Stored());
  }

  lemma Configures(log: seq<Event>, s: State, id: string) returns (more: seq<Event>, t: State)
    requires At(log, s) && s.active == IDLE && (id == "a" || id == "b")
    ensures At(more, t) && |more| == |log| + 1 && more[..|log|] == log && more[|log|].body.action.Configure?
    ensures CaptureRunner.Configured(t, Only(id)) && t.active == IDLE && t.sources == s.sources && t.last == s.last
    ensures t.completed == s.completed
  {
    hide Replay, SourceMap, InventoryLoads, InventoryBound, SourceEventValid, OutcomeFromReplay, RecordSource,
         CompletedBy;
    ConfigsLoad(id);
    var draft := Draft("", ConfigDigest(Only(id)), 1, Configure, CaptureTypes.Configured);
    var e := SealFor(s, draft, "event");
    assert EventValid(e, s);
    ReplayExtend(log, e, Stored());
    more := log + [e];
    t := Step(s, e, Stored()).value;
  }

  /** A run of the only configured source that has no result yet. */
  ghost predicate Open(s: State, id: string) {
    CaptureRunner.Configured(s, Only(id)) && s.active.runID == RUN && s.active.fullReconcile && s.active.results == map[] &&
    s.last.runID == RUN && InRunOf(s, Native(id))
  }

  lemma Starts(log: seq<Event>, s: State, id: string) returns (more: seq<Event>, t: State)
    requires At(log, s) && s.active == IDLE && CaptureRunner.Configured(s, Only(id)) && (id == "a" || id == "b")
    ensures At(more, t) && Open(t, id) && t.active.inventories == map[] && t.sources == s.sources
    ensures |more| == |log| + 1 && more[..|log|] == log && more[|log|].body.action.RunStarted?
    ensures t.completed == s.completed
  {
    hide Replay, Appendable;
    ConfigsLoad(id);
    hide ConfigLoads, StoredConfigValid, SourceMap;
    StartAdmissible(s, Only(id), RUN, 1, true, Stored());
    more, t := Appends(log, s, StartDraft(RUN, s.config, 1, true));
  }

  lemma Records(log: seq<Event>, s: State) returns (more: seq<Event>, t: State)
    requires At(log, s) && Open(s, "a") && s.active.inventories == map[]
    ensures At(more, t) && Open(t, "a") && t.sources == s.sources && |more| == |log| + 1 && more[..|log|] == log
    ensures LastInventoryOf(t, "a") == InventoryDigest(OneSession("a")) && !more[|log|].body.action.RunStarted?
    ensures SuccessfulInventories(Native("a"), InventoriesOf(t, "a"))
  {
    hide Replay, Appendable, StoredConfigValid, SourceMap, BuiltFor, InventoryLoads;
    InventoryIsBuilt();
    InventoryAdmissible(s, 1, Native("a"), OneSession("a"), Stored());
    more, t := Appends(log, s, InventoryDraft(RUN, s.config, 1, "a", InventoryDigest(OneSession("a"))));
    assert InventoriesOf(t, "a") == [Inventory(OneSession("a"), InventoryDigest(OneSession("a")))];
  }

  lemma SourceEnds(log: seq<Event>, s: State, id: string, r: SourceResult) returns (more: seq<Event>, t: State)
    requires At(log, s) && Open(s, id) && ResultReady(s, Native(id), r)
    ensures At(more, t) && |more| == |log| + 1 && more[..|log|] == log && !more[|log|].body.action.RunStarted?
    ensures t.active == s.active.(results := map[id := r]) && CaptureRunner.Configured(t, Only(id))
    ensures id in t.sources && t.last == s.last
    ensures forall other :: other in s.sources && other != id ==> other in t.sources && t.sources[other] == s.sources[other]
    ensures r.outcome.Success? ==>
              t.sources[id].lastRunID == RUN && t.sources[id].config == s.config &&
              t.sources[id].lastOutcome.Success? && t.sources[id].lastSuccessAt == Some(1)
  {
    hide Replay, Appendable, Appended, Open, ResultReady, InRunOf, Admissible, CaptureRunner.Configured;
    SourceEndEffect(s, id, r);
    SourceAdmissible(s, 1, Native(id), r, Stored());
    more, t := Appends(log, s, SourceDraft(RUN, s.config, 1, r));
  }

  lemma SourceEndEffect(s: State, id: string, r: SourceResult)
    requires Open(s, id) && ResultReady(s, Native(id), r)
    ensures InRunOf(s, Native(id)) && s.active.runID == RUN
    ensures var e := SealFor(s, SourceDraft(RUN, s.config, 1, r), "event");
            var t := Appended(s, e);
            !e.body.action.RunStarted? && !e.body.action.Configure? &&
            t.active == s.active.(results := map[id := r]) && CaptureRunner.Configured(t, Only(id)) &&
            id in t.sources && t.last == s.last &&
            (forall other :: other in s.sources && other != id ==> other in t.sources && t.sources[other] == s.sources[other]) &&
            (r.outcome.Success? ==>
               t.sources[id].lastRunID == RUN && t.sources[id].config == s.config &&
               t.sources[id].lastOutcome.Success? && t.sources[id].lastSuccessAt == Some(1))
  {
    hide StoredConfigValid, SourceMap, SuccessfulInventories, ResultShapeValid, ValidSourceID;
  }

  lemma RunEnds(log: seq<Event>, s: State, id: string, r: SourceResult, outcome: Outcome)
    returns (more: seq<Event>, t: State)
    requires At(log, s) && CaptureRunner.Configured(s, Only(id)) && (id == "a" || id == "b")
    requires s.active.runID == RUN && s.active.fullReconcile && s.active.results == map[id := r]
    requires OutcomeOf({r}) == outcome
    ensures At(more, t) && t.active == IDLE && CaptureRunner.Configured(t, Only(id)) && t.sources == s.sources
    ensures t.completed.config == s.config && t.last.runID == s.last.runID && t.last.outcome == outcome
    ensures |more| == |log| + 1 && more[..|log|] == log && !more[|log|].body.action.RunStarted?
  {
    hide Replay, Appendable, OutcomeOf;
    ConfigsLoad(id);
    assert s.activeSources == map[id := Native(id)];
    assert ActiveOutcomes(s) == {r};
    hide StoredConfigValid, SourceMap, ConfigLoads;
    FinishAdmissible(s, Only(id), 1, outcome, RUN, true, {r}, Stored());
    more, t := Appends(log, s, FinishDraft(RUN, s.config, 1, true, outcome));
  }

  /** What the source "a" has to show once its run succeeded. */
  predicate Shown(s: State) {
    "a" in s.sources && s.sources["a"].lastRunID == RUN && s.sources["a"].config == ConfigDigest(Only("a")) &&
    s.sources["a"].lastOutcome.Success? && s.sources["a"].lastSuccessAt == Some(1)
  }

  /** First the source "a" succeeds. */
  lemma FirstRun() returns (log: seq<Event>, s: State)
    ensures At(log, s) && s.active == IDLE && Shown(s)
  {
    hide Replay, CaptureRunner.Configured, SuccessfulInventories, Only, Native, OneSession;
    log, s := [], INITIAL;
    assert At(log, s) by { EmptyLog(); }
    log, s := Configures(log, s, "a");
    log, s := Starts(log, s, "a");
    log, s := Records(log, s);
    var r := NewSourceResult(Native("a")).(outcome := Success, inventory := InventoryDigest(OneSession("a")));
    SuccessReady(s, r);
    OpenFacts(s, "a");
    log, s := SourceEnds(log, s, "a", r);
    log, s := RunEnds(log, s, "a", r, Success);
  }

  lemma EmptyLog()
    ensures At([], INITIAL)
  {
  }

  lemma OpenFacts(s: State, id: string)
    requires Open(s, id)
    ensures s.config == ConfigDigest(Only(id)) && s.last.runID == RUN == s.active.runID && s.active.fullReconcile
  {
  }

  lemma SuccessReady(s: State, r: SourceResult)
    requires Open(s, "a") && SuccessfulInventories(Native("a"), InventoriesOf(s, "a"))
    requires LastInventoryOf(s, "a") == InventoryDigest(OneSession("a"))
    requires r == NewSourceResult(Native("a")).(outcome := Success, inventory := InventoryDigest(OneSession("a")))
    ensures ResultReady(s, Native("a"), r) && OutcomeOf({r}) == Success
  {
    hide SuccessfulInventories;
  }

  /** Then another configuration runs under the same id, and the first configuration comes back. */
  lemma SecondRun(before: seq<Event>, was: State) returns (log: seq<Event>, s: State, start: nat)
    requires At(before, was) && was.active == IDLE && Shown(was)
    ensures At(log, s) && s.active == IDLE && Shown(s) && s.last.runID == RUN && s.last.outcome.Failed?
    ensures s.config == ConfigDigest(Only("a")) && s.completed.config == ConfigDigest(Only("b"))
    ensures R.LatestStart(log, start)
  {
    hide Replay, CaptureRunner.Configured, Only, Native;
    log, s := Configures(before, was, "b");
    start := |log|;
    log, s := Starts(log, s, "b");
    var r := SkippedResult(Native("b"), ErrOther);
    SkipReady(s, r);
    OpenFacts(s, "b");
    log, s := SourceEnds(log, s, "b", r);
    ConfiguredDigest(s, "b");
    log, s := RunEnds(log, s, "b", r, Failed);
    log, s := Configures(log, s, "a");
    ConfiguredDigest(s, "a");
  }

  lemma ConfiguredDigest(s: State, id: string)
    requires CaptureRunner.Configured(s, Only(id))
    ensures s.config == ConfigDigest(Only(id))
  {
  }

  lemma SkipReady(s: State, r: SourceResult)
    requires Open(s, "b") && r == SkippedResult(Native("b"), ErrOther)
    ensures ResultReady(s, Native("b"), r) && OutcomeOf({r}) == Failed
  {
    SkippedReady(s, Native("b"), ErrOther);
    assert BlocksRun(r);
  }

  /** An accepted log whose status is ready although no selected source succeeded in its latest run. */
  lemma ReusedRunID() returns (log: seq<Event>, s: State, start: nat)
    ensures R.ReadyLog(log, Stored(), s, Only("a"), PLAIN) && R.LatestStart(log, start)
    ensures !R.EvidenceInRun(log, s, Only("a"), PLAIN, start)
  {
    hide Replay, Shown, Only;
    log, s := FirstRun();
    log, s, start := SecondRun(log, s);
    assert ReadyFor(Only("a"), s, PLAIN) by { ShownIsReady(s); }
    DifferentConfigs();
    R.ReadyInLatestRunExactly(log, Stored(), s, Only("a"), PLAIN, start);
  }

  lemma DifferentConfigs()
    ensures ConfigDigest(Only("a")) != ConfigDigest(Only("b"))
  {
    assert Only("a").sources[0].id != Only("b").sources[0].id;
  }

  lemma ShownIsReady(s: State)
    requires s.active == IDLE && Shown(s) && s.last.runID == RUN && s.last.outcome.Failed?
    requires s.config == ConfigDigest(Only("a"))
    ensures ReadyFor(Only("a"), s, PLAIN)
  {
  }
}
