/** What readiness says about the log: the evidence behind a ready status, and when it lies in the latest run. */
module CaptureReadiness {
  import opened Primitives
  import opened CaptureTypes
  import opened CaptureInventory
  import opened CaptureState
  import opened CaptureSafety
  import opened CaptureStatus

  /** Where the latest run started, where the latest run ended, and the latest result of each source. */
  datatype Marks = Marks(start: Option<nat>, end: Option<nat>, results: map<string, nat>)

  predicate ClosesSource(e: Event) {
    e.body.action.SourceSucceeded? || e.body.action.SourceFailed? || e.body.action.SourceSkipped?
  }

  predicate EndsRun(e: Event) {
    e.body.action.RunFinished? || e.body.action.RunAbandoned?
  }

  function MarksAfter(m: Marks, e: Event, n: nat): Marks {
    if e.body.action.RunStarted? then m.(start := Some(n))
    else if EndsRun(e) then m.(end := Some(n))
    else if ClosesSource(e) then m.(results := m.results[e.body.sourceID := n])
    else m
  }

  function MarksOf(log: seq<Event>): Marks {
    if log == [] then Marks(None, None, map[])
    else MarksAfter(MarksOf(log[..|log| - 1]), log[|log| - 1], |log| - 1)
  }

  /** The event behind a status entry. */
  predicate Witness(e: Event, id: string, entry: SourceStatus) {
    ClosesSource(e) && e.body.sourceID == id && e.body.runID == entry.lastRunID && e.body.config == entry.config &&
    entry.lastOutcome == e.body.outcome && entry.lastAttemptAt == Some(e.body.observedAt) && e.body.source.Some? &&
    entry.lastErrorCode == e.body.source.value.errorCode &&
    (entry.lastOutcome.Success? ==> e.body.action.SourceSucceeded? && entry.lastSuccessAt == Some(e.body.observedAt))
  }

  /** The run that a result at `k` belongs to was started earlier, under the same configuration. */
  ghost predicate StartedBefore(log: seq<Event>, k: nat)
    requires k < |log|
  {
    exists j: nat :: j < k && log[j].body.action.RunStarted? && log[j].body.runID == log[k].body.runID &&
      log[j].body.config == log[k].body.config
  }

  ghost predicate ResultsInv(log: seq<Event>, m: Marks, s: State) {
    m.results.Keys == s.sources.Keys &&
    forall id :: id in m.results ==>
      m.results[id] < |log| && Witness(log[m.results[id]], id, s.sources[id]) && StartedBefore(log, m.results[id])
  }

  ghost predicate StartInv(log: seq<Event>, m: Marks, s: State) {
    if m.start.None? then s.active.runID == "" && s.last.runID == "" && m.results == map[]
    else m.start.value < |log| && log[m.start.value].body.action.RunStarted? &&
         s.last.runID == log[m.start.value].body.runID
  }

  ghost predicate OpenInv(log: seq<Event>, m: Marks, s: State) {
    s.active.runID != "" ==>
      m.start.Some? && m.start.value < |log| && s.active.runID == s.last.runID &&
      s.config == log[m.start.value].body.config &&
      forall id :: id in s.active.results ==> id in m.results && m.results[id] > m.start.value
  }

  ghost predicate ClosedInv(log: seq<Event>, m: Marks, s: State) {
    s.active.runID == "" && m.start.Some? ==>
      m.end.Some? && m.start.value < m.end.value < |log| && EndsRun(log[m.end.value]) &&
      s.last.outcome == log[m.end.value].body.outcome &&
      (log[m.end.value].body.action.RunFinished? ==>
         !s.last.outcome.Abandoned? && s.completed.config == log[m.start.value].body.config &&
         s.completed.runID == s.last.runID && s.completed.config.ConfigDigest? &&
         s.completed.sources == SourceMap(s.completed.config.config.sources) &&
         forall id :: id in s.completed.sources ==>
           id in m.results && m.start.value < m.results[id] < m.end.value) &&
      (log[m.end.value].body.action.RunAbandoned? ==> s.last.outcome.Abandoned?)
  }

  ghost predicate MarksInv(log: seq<Event>, m: Marks, s: State) {
    ResultsInv(log, m, s) && StartInv(log, m, s) && OpenInv(log, m, s) && ClosedInv(log, m, s)
  }

  lemma StartedStays(log: seq<Event>, e: Event, k: nat)
    requires k < |log| && StartedBefore(log, k)
    ensures StartedBefore(log + [e], k)
  {
    var j: nat :| j < k && log[j].body.action.RunStarted? && log[j].body.runID == log[k].body.runID &&
      log[j].body.config == log[k].body.config;
    assert (log + [e])[j] == log[j] && (log + [e])[k] == log[k];
  }

  /** An event that leaves the entries of the sources alone keeps their witnesses. */
  lemma ResultsStay(log: seq<Event>, m: Marks, s: State, e: Event, m': Marks, s': State)
    requires ResultsInv(log, m, s) && m'.results == m.results && s'.sources == s.sources
    ensures ResultsInv(log + [e], m', s')
  {
    hide Witness, StartedBefore;
    forall id | id in m.results
      ensures Witness((log + [e])[m.results[id]], id, s.sources[id]) && StartedBefore(log + [e], m.results[id])
    {
      StartedStays(log, e, m.results[id]);
      assert (log + [e])[m.results[id]] == log[m.results[id]];
    }
  }

  lemma SourceFacts(s: State, e: Event, objects: set<Digest>)
    requires Appendable(s, e, objects) && ClosesSource(e)
    ensures e.body.runID == s.active.runID != "" && e.body.config == s.config && e.body.source.Some?
    ensures Apply(s, e).sources == s.sources[e.body.sourceID :=
              StatusAfter(StatusOf(s, e.body.sourceID), e.body, e.body.source.value)]
    ensures Witness(e, e.body.sourceID, Apply(s, e).sources[e.body.sourceID])
    ensures Apply(s, e).active == s.active.(results := s.active.results[e.body.sourceID := e.body.source.value])
    ensures Apply(s, e).last == s.last && Apply(s, e).config == s.config && Apply(s, e).completed == s.completed
  {
    hide SuccessfulInventories, OutcomeFromReplay, ResultMatchesConfig, ResultShapeValid;
  }

  lemma SourceResults(log: seq<Event>, m: Marks, s: State, e: Event, t: State)
    requires ResultsInv(log, m, s) && ClosesSource(e) && StartedBefore(log + [e], |log|)
    requires e.body.sourceID in t.sources && t.sources == s.sources[e.body.sourceID := t.sources[e.body.sourceID]]
    requires Witness(e, e.body.sourceID, t.sources[e.body.sourceID])
    ensures ResultsInv(log + [e], MarksAfter(m, e, |log|), t)
  {
    hide Witness, StartedBefore, ClosesSource;
    var more, m' := log + [e], MarksAfter(m, e, |log|);
    ClosesOnly(e);
    forall id | id in m'.results
      ensures m'.results[id] < |more| && Witness(more[m'.results[id]], id, t.sources[id]) &&
              StartedBefore(more, m'.results[id])
    {
      if id != e.body.sourceID {
        StartedStays(log, e, m.results[id]);
        assert more[m.results[id]] == log[m.results[id]];
      }
    }
  }

  lemma ClosesOnly(e: Event)
    requires ClosesSource(e)
    ensures !e.body.action.RunStarted? && !EndsRun(e)
  {
  }

  lemma SourceMarks(log: seq<Event>, m: Marks, s: State, e: Event, objects: set<Digest>)
    requires MarksInv(log, m, s) && Appendable(s, e, objects) && ClosesSource(e)
    ensures MarksInv(log + [e], MarksAfter(m, e, |log|), Apply(s, e))
  {
    hide Appendable, Apply, Witness, StatusAfter, StatusOf, ResultsInv;
    SourceFacts(s, e, objects);
    var more, start := log + [e], m.start.value;
    assert more[start] == log[start] && more[|log|] == e;
    SourceResults(log, m, s, e, Apply(s, e));
  }

  lemma StartFacts(s: State, e: Event, objects: set<Digest>)
    requires Appendable(s, e, objects) && e.body.action.RunStarted?
    ensures e.body.runID != "" && e.body.config == s.config && s.active.runID == ""
    ensures var t := Apply(s, e);
            t.sources == s.sources && t.active.runID == e.body.runID && t.active.results == map[] &&
            t.last.runID == e.body.runID && t.config == s.config
  {
    hide SourceEventValid, OutcomeFromReplay;
  }

  lemma StartMarks(log: seq<Event>, m: Marks, s: State, e: Event, objects: set<Digest>)
    requires MarksInv(log, m, s) && Appendable(s, e, objects) && e.body.action.RunStarted?
    ensures MarksInv(log + [e], MarksAfter(m, e, |log|), Apply(s, e))
  {
    hide Appendable, Witness, StartedBefore, Apply;
    StartFacts(s, e, objects);
    ResultsStay(log, m, s, e, MarksAfter(m, e, |log|), Apply(s, e));
  }

  lemma EndFacts(s: State, e: Event, objects: set<Digest>)
    requires Appendable(s, e, objects) && EndsRun(e) && ConfigInv(s, objects)
    ensures s.config.ConfigDigest? && s.activeSources == SourceMap(s.config.config.sources)
    ensures s.active.runID != "" && (e.body.action.RunAbandoned? <==> e.body.outcome.Abandoned?)
    ensures var t := Apply(s, e);
            t.sources == s.sources && t.active.runID == "" && t.last == s.last.(
              finishedAt := Some(e.body.observedAt), outcome := e.body.outcome) &&
            (e.body.action.RunFinished? ==>
               s.activeSources.Keys <= s.active.results.Keys && t.completed.config == s.config &&
               t.completed.runID == s.active.runID && t.completed.sources == s.activeSources)
  {
    hide SourceEventValid, OutcomeOf, SourceMap, StoredConfigValid;
  }

  lemma EndMarks(log: seq<Event>, m: Marks, s: State, e: Event, objects: set<Digest>)
    requires MarksInv(log, m, s) && Appendable(s, e, objects) && EndsRun(e) && ConfigInv(s, objects)
    ensures MarksInv(log + [e], MarksAfter(m, e, |log|), Apply(s, e))
  {
    hide Appendable, Witness, StartedBefore, Apply, ConfigInv, SourceMap;
    EndFacts(s, e, objects);
    var more := log + [e];
    assert more[m.start.value] == log[m.start.value] && more[|log|] == e;
    ResultsStay(log, m, s, e, MarksAfter(m, e, |log|), Apply(s, e));
  }

  /** Configuring and recording an inventory leave the marks alone. */
  lemma OtherMarks(log: seq<Event>, m: Marks, s: State, e: Event, s': State)
    requires MarksInv(log, m, s) && s'.sources == s.sources && s'.last == s.last && s'.completed == s.completed
    requires s'.active.runID == s.active.runID && s'.active.results == s.active.results
    requires s.active.runID != "" ==> s'.config == s.config
    ensures MarksInv(log + [e], m, s')
  {
    hide Witness, StartedBefore;
    ResultsStay(log, m, s, e, m, s');
    var more := log + [e];
    if m.start.Some? {
      assert more[m.start.value] == log[m.start.value];
      if s.active.runID == "" {
        assert more[m.end.value] == log[m.end.value];
      }
    }
  }

  lemma OtherFacts(s: State, e: Event, objects: set<Digest>)
    requires Step(s, e, objects).Some? && !e.body.action.RunStarted? && !EndsRun(e) && !ClosesSource(e)
    ensures var t := Step(s, e, objects).value;
            t.sources == s.sources && t.last == s.last && t.completed == s.completed &&
            t.active.runID == s.active.runID && t.active.results == s.active.results &&
            (s.active.runID != "" ==> t.config == s.config)
  {
    hide SourceEventValid, OutcomeFromReplay, ConfigLoads, InventoryAdmitted, SourceMap;
  }

  lemma StepApplies(s: State, e: Event, objects: set<Digest>)
    requires Step(s, e, objects).Some? && (e.body.action.RunStarted? || EndsRun(e) || ClosesSource(e))
    ensures Appendable(s, e, objects) && Step(s, e, objects).value == Apply(s, e)
  {
    hide Appendable, Apply;
  }

  lemma MarksStep(log: seq<Event>, m: Marks, s: State, e: Event, objects: set<Digest>)
    requires MarksInv(log, m, s) && Step(s, e, objects).Some? && ConfigInv(s, objects)
    ensures MarksInv(log + [e], MarksAfter(m, e, |log|), Step(s, e, objects).value)
  {
    hide Step, MarksInv, Apply, Appendable, ConfigInv;
    if e.body.action.RunStarted? || EndsRun(e) || ClosesSource(e) {
      StepApplies(s, e, objects);
      if e.body.action.RunStarted? {
        StartMarks(log, m, s, e, objects);
      } else if EndsRun(e) {
        EndMarks(log, m, s, e, objects);
      } else {
        SourceMarks(log, m, s, e, objects);
      }
    } else {
      OtherFacts(s, e, objects);
      OtherMarks(log, m, s, e, Step(s, e, objects).value);
    }
  }

  lemma {:induction false} AcceptedLogMarks(log: seq<Event>, objects: set<Digest>)
    requires Replay(log, objects).Some?
    ensures MarksInv(log, MarksOf(log), Replay(log, objects).value)
  {
    hide Step, MarksInv, ConfigInv;
    if log == [] {
      NoMarks();
    } else {
      var n := |log| - 1;
      AcceptedLogMarks(log[..n], objects);
      ConfigKept(log[..n], objects);
      MarksStep(log[..n], MarksOf(log[..n]), Replay(log[..n], objects).value, log[n], objects);
      assert log[..n] + [log[n]] == log;
    }
  }

  lemma NoMarks()
    ensures MarksInv([], MarksOf([]), INITIAL)
  {
  }

  lemma ConfigKept(log: seq<Event>, objects: set<Digest>)
    requires Replay(log, objects).Some?
    ensures ConfigInv(Replay(log, objects).value, objects)
  {
    hide Replay, ConfigInv;
    AcceptedLogSound(log, objects);
    InvConfig(Replay(log, objects).value, objects);
  }

  lemma InvConfig(s: State, objects: set<Digest>)
    requires Inv(s, objects)
    ensures ConfigInv(s, objects)
  {
    hide ConfigInv;
  }

  // ---- Successes ----

  /** When the log last says that the source succeeded. */
  function LastSuccessOf(log: seq<Event>, id: string): Option<Time> {
    if log == [] then None
    else
      var b := log[|log| - 1].body;
      if b.action.SourceSucceeded? && b.sourceID == id then Some(b.observedAt) else LastSuccessOf(log[..|log| - 1], id)
  }

  lemma SuccessStep(s: State, e: Event, objects: set<Digest>, id: string)
    requires Step(s, e, objects).Some?
    ensures var known, t := if id in s.sources then s.sources[id].lastSuccessAt else None, Step(s, e, objects).value;
            (if id in t.sources then t.sources[id].lastSuccessAt else None) ==
            if e.body.action.SourceSucceeded? && e.body.sourceID == id then Some(e.body.observedAt) else known
  {
    hide SuccessfulInventories, OutcomeFromReplay, ResultMatchesConfig, ConfigLoads, InventoryAdmitted, SourceMap;
  }

  /** The state remembers of each source when it last succeeded, whatever failed or was configured since. */
  lemma {:induction false} SuccessesRemembered(log: seq<Event>, objects: set<Digest>, id: string)
    requires Replay(log, objects).Some?
    ensures var s := Replay(log, objects).value;
            (if id in s.sources then s.sources[id].lastSuccessAt else None) == LastSuccessOf(log, id)
  {
    hide Step;
    if log != [] {
      var n := |log| - 1;
      SuccessesRemembered(log[..n], objects, id);
      SuccessStep(Replay(log[..n], objects).value, log[n], objects, id);
    }
  }

  // ---- What a ready status means ----

  ghost predicate LatestStart(log: seq<Event>, start: nat) {
    start < |log| && log[start].body.action.RunStarted? &&
    forall j :: start < j < |log| ==> !log[j].body.action.RunStarted?
  }

  lemma {:induction false} MarksAreLatest(log: seq<Event>)
    ensures match MarksOf(log).start
            case None => forall j :: 0 <= j < |log| ==> !log[j].body.action.RunStarted?
            case Some(start) => LatestStart(log, start)
    ensures MarksOf(log).end.Some? ==>
              forall j :: MarksOf(log).end.value < j < |log| ==> !EndsRun(log[j])
  {
    if log != [] {
      MarksAreLatest(log[..|log| - 1]);
    }
  }

  /** A success of the source in a run with the latest run's id, under the active configuration, in time. */
  predicate Evidence(log: seq<Event>, c: Config, s: State, o: Options, source: Source, k: nat) {
    k < |log| && log[k].body.action.SourceSucceeded? && log[k].body.sourceID == source.id &&
    log[k].body.runID == s.last.runID && log[k].body.config == s.config && log[k].body.observedAt <= o.now &&
    Recent(c, o, log[k].body.observedAt)
  }

  /** The replayed state of a log whose status is ready under its configuration. */
  ghost predicate ReadyLog(log: seq<Event>, objects: set<Digest>, s: State, c: Config, o: Options) {
    Replay(log, objects) == Some(s) && s.config == ConfigDigest(c) && ReadyFor(c, s, o)
  }

  lemma SelectedEvidence(log: seq<Event>, objects: set<Digest>, s: State, c: Config, o: Options, i: nat)
    requires ReadyLog(log, objects, s, c, o) && i < |c.sources| && Selected(c.sources[i], o)
    ensures c.sources[i].id in MarksOf(log).results
    ensures var k := MarksOf(log).results[c.sources[i].id];
            Evidence(log, c, s, o, c.sources[i], k) && StartedBefore(log, k)
  {
    hide Replay, Selected, Recent, StartedBefore, AgentConfigured;
    AcceptedLogMarks(log, objects);
  }

  lemma SomeSelected(objects: set<Digest>, s: State, c: Config, o: Options) returns (i: nat)
    requires StoredConfigValid(c) && forall a :: a in o.requiredAgents && KnownAgent(a) ==> AgentConfigured(c, a)
    ensures i < |c.sources| && Selected(c.sources[i], o)
  {
    if a :| a in o.requiredAgents && KnownAgent(a) {
      assert AgentConfigured(c, a);
      i :| i < |c.sources| && c.sources[i].required && c.sources[i].agent == a;
    } else {
      var j :| 0 <= j < |c.sources| && c.sources[j].required;
      i := j;
    }
  }

  lemma ReadySelects(log: seq<Event>, objects: set<Digest>, s: State, c: Config, o: Options) returns (i: nat)
    requires ReadyLog(log, objects, s, c, o)
    ensures i < |c.sources| && Selected(c.sources[i], o)
    ensures SourceMap(c.sources) == s.activeSources && DistinctIDs(c.sources)
  {
    hide Replay, Selected, AgentConfigured, SourceReady, SourceMap;
    ConfigKept(log, objects);
    i := SomeSelected(objects, s, c, o);
  }

  /** Readiness is sound: the latest run was closed by run_finished, and every selected source has a success
      under the active configuration, not in the future and within the maximum age. */
  lemma ReadinessSound(log: seq<Event>, objects: set<Digest>, s: State, c: Config, o: Options)
    returns (start: nat, end: nat)
    requires ReadyLog(log, objects, s, c, o)
    ensures LatestStart(log, start) && s.last.runID == log[start].body.runID
    ensures start < end < |log| && log[end].body.action.RunFinished?
    ensures forall j :: end < j < |log| ==> !EndsRun(log[j])
    ensures s.completed.config == log[start].body.config
    ensures forall i :: 0 <= i < |c.sources| && Selected(c.sources[i], o) ==>
              exists k :: Evidence(log, c, s, o, c.sources[i], k)
  {
    hide Replay, Selected, Recent, Evidence, StartedBefore, AgentConfigured, SourceReady, SourceMap;
    forall i | 0 <= i < |c.sources| && Selected(c.sources[i], o)
      ensures exists k :: Evidence(log, c, s, o, c.sources[i], k)
    {
      SelectedEvidence(log, objects, s, c, o, i);
    }
    AcceptedLogMarks(log, objects);
    MarksAreLatest(log);
    var i := ReadySelects(log, objects, s, c, o);
    SelectedEvidence(log, objects, s, c, o, i);
    start, end := MarksOf(log).start.value, MarksOf(log).end.value;
  }

  /** With a limit in force, a ready status takes a success in the log within that limit of every selected source. */
  lemma ReadyWithinLimit(log: seq<Event>, objects: set<Digest>, s: State, c: Config, o: Options, i: nat, limit: int)
    returns (k: nat)
    requires ReadyLog(log, objects, s, c, o) && i < |c.sources| && Selected(c.sources[i], o)
    requires LimitInForce(c, o, limit)
    ensures k < |log| && log[k].body.action.SourceSucceeded? && log[k].body.sourceID == c.sources[i].id
    ensures log[k].body.config == ConfigDigest(c)
    ensures log[k].body.observedAt <= o.now <= log[k].body.observedAt + limit
  {
    hide Replay, Selected, StartedBefore, AgentConfigured, SourceReady;
    SelectedEvidence(log, objects, s, c, o, i);
    k := MarksOf(log).results[c.sources[i].id];
  }

  /** A result recorded after the latest start was recorded under the configuration of that run. */
  lemma ConfigWithinRun(log: seq<Event>, objects: set<Digest>, start: nat, k: nat)
    requires Replay(log, objects).Some? && LatestStart(log, start) && start < k < |log| && ClosesSource(log[k])
    ensures log[k].body.config == log[start].body.config
  {
    hide Step, ResultsInv, ClosedInv, Appendable, Apply, Witness;
    var before := log[..k];
    ReplayPrefix(log, k + 1, objects);
    assert log[..k + 1][..k] == before;
    var s := Replay(before, objects).value;
    StepApplies(s, log[k], objects);
    SourceFacts(s, log[k], objects);
    AcceptedLogMarks(before, objects);
    MarksAreLatest(before);
    assert before[start] == log[start];
  }

  /** Whether the success of every selected source was recorded by the latest run itself. */
  ghost predicate EvidenceInRun(log: seq<Event>, s: State, c: Config, o: Options, start: nat) {
    forall i :: 0 <= i < |c.sources| && Selected(c.sources[i], o) ==>
      exists k :: start < k && Evidence(log, c, s, o, c.sources[i], k)
  }

  lemma UnderConfigInRun(log: seq<Event>, objects: set<Digest>, s: State, c: Config, o: Options, start: nat)
    requires ReadyLog(log, objects, s, c, o) && LatestStart(log, start) && s.completed.config == s.config
    ensures EvidenceInRun(log, s, c, o, start)
  {
    hide Replay, Selected, Recent, Evidence, StartedBefore, AgentConfigured, SourceReady, SourceMap, ResultsInv;
    AcceptedLogMarks(log, objects);
    MarksAreLatest(log);
    var _ := ReadySelects(log, objects, s, c, o);
    forall i | 0 <= i < |c.sources| && Selected(c.sources[i], o)
      ensures exists k :: start < k && Evidence(log, c, s, o, c.sources[i], k)
    {
      SelectedEvidence(log, objects, s, c, o, i);
      SourceMapAt(c.sources, i);
      assert c.sources[i].id in s.completed.sources;
    }
  }

  /** A ready status does not by itself place the evidence in the latest run: nothing refuses a run id that was
      used before. It does exactly when the last completed run ran under the active configuration. */
  lemma ReadyInLatestRunExactly(log: seq<Event>, objects: set<Digest>, s: State, c: Config, o: Options, start: nat)
    requires ReadyLog(log, objects, s, c, o) && LatestStart(log, start)
    ensures EvidenceInRun(log, s, c, o, start) <==> s.completed.config == s.config
  {
    hide Replay, Selected, Recent, StartedBefore, AgentConfigured, SourceReady, SourceMap, ReadyFor, LatestStart;
    var i := ReadySelects(log, objects, s, c, o);
    var start', _ := ReadinessSound(log, objects, s, c, o);
    OneLatestStart(log, start, start');
    if EvidenceInRun(log, s, c, o, start) {
      var k :| start < k && Evidence(log, c, s, o, c.sources[i], k);
      ConfigWithinRun(log, objects, start, k);
    }
    if s.completed.config == s.config {
      UnderConfigInRun(log, objects, s, c, o, start);
    }
  }

  lemma OneLatestStart(log: seq<Event>, a: nat, b: nat)
    requires LatestStart(log, a) && LatestStart(log, b)
    ensures a == b
  {
  }

  /** With a run id that no earlier run used, the evidence does lie in the latest run. */
  lemma FreshRunIsReady(log: seq<Event>, objects: set<Digest>, s: State, c: Config, o: Options, start: nat)
    requires ReadyLog(log, objects, s, c, o) && LatestStart(log, start)
    requires forall j :: 0 <= j < start && log[j].body.action.RunStarted? ==>
               log[j].body.runID != log[start].body.runID
    ensures EvidenceInRun(log, s, c, o, start)
  {
    hide Replay, Selected, Recent, AgentConfigured, SourceReady, SourceMap, ReadyFor;
    var i := ReadySelects(log, objects, s, c, o);
    SelectedEvidence(log, objects, s, c, o, i);
    var start', _ := ReadinessSound(log, objects, s, c, o);
    OneLatestStart(log, start, start');
    var k := MarksOf(log).results[c.sources[i].id];
    var j: nat :| j < k && log[j].body.action.RunStarted? && log[j].body.runID == log[k].body.runID &&
      log[j].body.config == log[k].body.config;
    assert j == start;
    UnderConfigInRun(log, objects, s, c, o, start);
  }
}
