/** Safety over every accepted audit log: a successful run is backed by complete inventories. */
module CaptureSafety {
  import opened Primitives
  import opened CaptureTypes
  import opened CaptureInventory
  import opened CaptureState

  /** Each result belongs to a configured source, and a success has the inventories a success needs. */
  ghost predicate Backed(sources: map<string, Source>, inventories: map<string, seq<Inventory>>,
                         results: map<string, SourceResult>)
  {
    forall id :: id in results ==>
      id in sources && ResultMatchesConfig(results[id], sources[id]) &&
      (results[id].outcome.Success? ==> SuccessfulInventories(sources[id], Listed(inventories, id)))
  }

  /** The inventories held for a run are stored, valid, and taken by that run for that configured source. */
  ghost predicate Owned(runID: string, sources: map<string, Source>, inventories: map<string, seq<Inventory>>,
                        objects: set<Digest>)
  {
    forall id, i :: id in inventories && 0 <= i < |inventories[id]| ==>
      OwnedBy(runID, sources, id, inventories[id][i], objects)
  }

  ghost predicate OwnedBy(runID: string, sources: map<string, Source>, id: string, inventory: Inventory,
                          objects: set<Digest>)
  {
    id in sources && InventoryLoads(inventory.sha, objects) && inventory.sha == InventoryDigest(inventory.body) &&
    inventory.body.runID == runID && inventory.body.sourceID == id &&
    inventory.body.sourceConfig == SourceDigest(sources[id])
  }

  predicate HasRequired(sources: map<string, Source>) {
    exists id :: id in sources && sources[id].required
  }

  /** What success of the last completed run means. */
  ghost predicate CompletedSound(c: Completed, objects: set<Digest>) {
    Owned(c.runID, c.sources, c.inventories, objects) && Backed(c.sources, c.inventories, c.results) &&
    (c.outcome.Success? ==>
       HasRequired(c.sources) &&
       forall id :: id in c.sources ==> id in c.results && c.results[id].outcome.Success?)
  }

  ghost predicate ConfigInv(s: State, objects: set<Digest>) {
    if s.config.Absent? then s.activeSources == map[] && s.active == IDLE
    else ConfigLoads(s.config, objects) && s.activeSources == SourceMap(s.config.config.sources)
  }

  ghost predicate RefsInv(r: References, objects: set<Digest>) {
    r.configs <= objects && r.recorded <= objects && r.inventories.Keys == r.details.Keys &&
    forall id :: id in r.inventories ==>
      InventoryLoads(r.inventories[id], objects) &&
      r.details[id] == Inventory(r.inventories[id].inventory, r.inventories[id])
  }

  ghost predicate Inv(s: State, objects: set<Digest>) {
    ConfigInv(s, objects) && RefsInv(s.refs, objects) && (s.active.runID == "" ==> s.active == IDLE) &&
    Owned(s.active.runID, s.activeSources, s.active.inventories, objects) &&
    Backed(s.activeSources, s.active.inventories, s.active.results) && CompletedSound(s.completed, objects)
  }

  lemma {:induction false} SourceMapAt(sources: seq<Source>, i: nat)
    requires i < |sources|
    requires DistinctIDs(sources)
    ensures SourceMap(sources)[sources[i].id] == sources[i]
  {
    var n := |sources| - 1;
    if i < n {
      SourceMapAt(sources[..n], i);
    }
  }

  lemma ConfigHasRequired(c: Config)
    requires StoredConfigValid(c)
    ensures HasRequired(SourceMap(c.sources))
  {
    var i :| 0 <= i < |c.sources| && c.sources[i].required;
    SourceMapAt(c.sources, i);
    assert c.sources[i].id in SourceMap(c.sources);
  }

  lemma InventoryEventFacts(s: State, e: Event, objects: set<Digest>)
    requires e.body.action.InventoryRecorded? && Appendable(s, e, objects)
    ensures var b := e.body;
            b.inventory.InventoryDigest? && InventoryLoads(b.inventory, objects) && b.inventory in objects &&
            b.sourceID !in s.active.results && b.sourceID in s.activeSources && s.active.runID != "" &&
            OwnedBy(s.active.runID, s.activeSources, b.sourceID, Inventory(b.inventory.inventory, b.inventory),
                    objects)
  {
    hide SourceEventValid, OutcomeFromReplay, Tallied;
  }

  lemma OwnedAppend(runID: string, sources: map<string, Source>, inventories: map<string, seq<Inventory>>,
                    objects: set<Digest>, id: string, inventory: Inventory)
    requires Owned(runID, sources, inventories, objects) && OwnedBy(runID, sources, id, inventory, objects)
    ensures Owned(runID, sources, inventories[id := Listed(inventories, id) + [inventory]], objects)
  {
    hide OwnedBy;
    var after := inventories[id := Listed(inventories, id) + [inventory]];
    forall k, i | k in after && 0 <= i < |after[k]|
      ensures OwnedBy(runID, sources, k, after[k][i], objects)
    {
      if k == id && i < |after[k]| - 1 {
        assert after[k][i] == inventories[id][i];
      }
    }
  }

  lemma BackedAppend(sources: map<string, Source>, inventories: map<string, seq<Inventory>>,
                     results: map<string, SourceResult>, id: string, more: seq<Inventory>)
    requires Backed(sources, inventories, results) && id !in results
    ensures Backed(sources, inventories[id := more], results)
  {
    hide SuccessfulInventories, ResultMatchesConfig;
  }

  lemma BackedResult(sources: map<string, Source>, inventories: map<string, seq<Inventory>>,
                     results: map<string, SourceResult>, id: string, r: SourceResult)
    requires Backed(sources, inventories, results)
    requires id in sources && ResultMatchesConfig(r, sources[id])
    requires r.outcome.Success? ==> SuccessfulInventories(sources[id], Listed(inventories, id))
    ensures Backed(sources, inventories, results[id := r])
  {
    hide SuccessfulInventories, ResultMatchesConfig;
  }

  lemma RefsAppend(r: References, objects: set<Digest>, id: string, d: Digest)
    requires RefsInv(r, objects) && InventoryLoads(d, objects)
    ensures RefsInv(r.(inventories := r.inventories[id := d], details := r.details[id := Inventory(d.inventory, d)],
                       recorded := r.recorded + {d}), objects)
  {
    hide InventoryValid;
  }

  /** A recorded inventory cannot touch the results: its source has not completed. */
  lemma InventoryStep(s: State, e: Event, objects: set<Digest>)
    requires Inv(s, objects) && e.body.action.InventoryRecorded? && Appendable(s, e, objects)
    ensures Inv(Appended(s, e), objects)
  {
    InventoryEventFacts(s, e, objects);
    var b := e.body;
    var inventory := Inventory(b.inventory.inventory, b.inventory);
    hide CompletedSound, InventoryLoads, Appendable, OwnedBy, ConfigLoads, Owned, Backed, RefsInv, SourceMap;
    OwnedAppend(s.active.runID, s.activeSources, s.active.inventories, objects, b.sourceID, inventory);
    BackedAppend(s.activeSources, s.active.inventories, s.active.results, b.sourceID,
                 Listed(s.active.inventories, b.sourceID) + [inventory]);
    RefsAppend(s.refs, objects, b.sourceID, b.inventory);
  }

  lemma SourceEventFacts(s: State, e: Event, objects: set<Digest>)
    requires Appendable(s, e, objects)
    requires e.body.action.SourceSucceeded? || e.body.action.SourceFailed? || e.body.action.SourceSkipped?
    ensures var b := e.body;
            b.source.Some? && s.active.runID != "" && b.sourceID in s.activeSources &&
            ResultMatchesConfig(b.source.value, s.activeSources[b.sourceID]) &&
            (b.source.value.outcome.Success? ==>
               SuccessfulInventories(s.activeSources[b.sourceID], Listed(s.active.inventories, b.sourceID)))
  {
    hide OutcomeFromReplay, ConfigLoads, SuccessfulInventories, ResultMatchesConfig, ResultShapeValid;
  }

  lemma SourceStep(s: State, e: Event, objects: set<Digest>)
    requires Inv(s, objects) && Appendable(s, e, objects)
    requires e.body.action.SourceSucceeded? || e.body.action.SourceFailed? || e.body.action.SourceSkipped?
    ensures Inv(Appended(s, e), objects)
  {
    hide CompletedSound, InventoryLoads, Appendable, OwnedBy, ConfigLoads, Owned, Backed, RefsInv, SourceMap,
         ResultShapeValid, SuccessfulInventories, ResultMatchesConfig, SourceEventValid;
    var b := e.body;
    SourceEventFacts(s, e, objects);
    BackedResult(s.activeSources, s.active.inventories, s.active.results, b.sourceID, b.source.value);
  }

  lemma AllSucceeded(s: State)
    requires OutcomeFromReplay(s).Success?
    ensures forall id :: id in s.activeSources ==> id in s.active.results && s.active.results[id].outcome.Success?
  {
    forall id | id in s.activeSources
      ensures id in s.active.results && s.active.results[id].outcome.Success?
    {
      assert s.active.results[id] in ActiveOutcomes(s);
    }
  }

  lemma FinishFacts(s: State, e: Event, objects: set<Digest>)
    requires Inv(s, objects) && e.body.action.RunFinished? && Appendable(s, e, objects)
    ensures InRun(e.body, s) && OutcomeFromReplay(s) == e.body.outcome && !s.config.Absent?
    ensures var t := Appended(s, e);
            t.config == s.config && t.active == IDLE && t.refs == s.refs && t.activeSources == s.activeSources &&
            t.completed == CompletedBy(s, e)
  {
    hide SourceEventValid, OutcomeFromReplay, ConfigLoads, Owned, Backed, CompletedSound, RefsInv;
  }

  /** What the invariant says of the live run. */
  lemma LiveRun(s: State, objects: set<Digest>)
    requires Inv(s, objects) && !s.config.Absent?
    ensures Owned(s.active.runID, s.activeSources, s.active.inventories, objects)
    ensures Backed(s.activeSources, s.active.inventories, s.active.results)
    ensures HasRequired(s.activeSources)
  {
    ConfigHasRequired(s.config.config);
    hide InventoryLoads, HasRequired, Backed, RefsInv, SourceMap, StoredConfigValid, Owned, CompletedSound;
  }

  /** A run that finishes with success has a success for every configured source. */
  lemma FinishSound(s: State, e: Event, objects: set<Digest>)
    requires Inv(s, objects) && e.body.action.RunFinished? && Appendable(s, e, objects)
    ensures CompletedSound(CompletedBy(s, e), objects)
  {
    hide Inv, Appendable, HasRequired, OutcomeFromReplay, Backed, Owned, Appended;
    FinishFacts(s, e, objects);
    LiveRun(s, objects);
    if e.body.outcome.Success? {
      AllSucceeded(s);
    }
  }

  lemma NothingActive(runID: string, sources: map<string, Source>, objects: set<Digest>)
    ensures Owned(runID, sources, map[], objects) && Backed(sources, map[], map[])
  {
  }

  lemma FinishStep(s: State, e: Event, objects: set<Digest>)
    requires Inv(s, objects) && e.body.action.RunFinished? && Appendable(s, e, objects)
    ensures Inv(Appended(s, e), objects)
  {
    FinishFacts(s, e, objects);
    FinishSound(s, e, objects);
    NothingActive("", s.activeSources, objects);
    hide Appendable, ConfigLoads, OutcomeFromReplay, Backed, RefsInv, SourceMap, Owned, Appended, CompletedSound;
  }

  lemma StartStep(s: State, e: Event, objects: set<Digest>)
    requires Inv(s, objects) && Appendable(s, e, objects) && e.body.action.RunStarted?
    ensures Inv(Appended(s, e), objects)
  {
    assert e.body.runID != "" && !s.config.Absent? by { hide Inv; }
    NothingActive(e.body.runID, s.activeSources, objects);
    hide CompletedSound, ConfigLoads, SourceMap, Owned, Backed, RefsInv, Appendable;
  }

  lemma AbandonStep(s: State, e: Event, objects: set<Digest>)
    requires Inv(s, objects) && Appendable(s, e, objects) && e.body.action.RunAbandoned?
    ensures Inv(Appended(s, e), objects)
  {
    NothingActive("", s.activeSources, objects);
    hide CompletedSound, ConfigLoads, SourceMap, Owned, Backed, RefsInv, Appendable;
  }

  lemma ConfigureStep(s: State, e: Event, objects: set<Digest>)
    requires Inv(s, objects) && Step(s, e, objects).Some? && e.body.action.Configure?
    ensures Inv(Step(s, e, objects).value, objects)
  {
    hide CompletedSound, ConfigLoads, SourceMap, Owned, Backed, RefsInv, Appendable, Step;
    ConfigureFacts(s, e, objects);
    NothingActive("", SourceMap(e.body.config.config.sources), objects);
    ConfigRefs(s.refs, e.body.config, objects);
  }

  lemma ConfigureFacts(s: State, e: Event, objects: set<Digest>)
    requires Step(s, e, objects).Some? && e.body.action.Configure?
    ensures s.active.runID == "" && ConfigLoads(e.body.config, objects) && e.body.config.ConfigDigest?
    ensures var t := Step(s, e, objects).value;
            t.active == s.active && t.completed == s.completed && t.config == e.body.config &&
            t.refs == s.refs.(configs := s.refs.configs + {e.body.config}) &&
            t.activeSources == SourceMap(e.body.config.config.sources)
  {
    hide SourceEventValid, OutcomeFromReplay, StoredConfigValid, SourceMap;
  }

  lemma ConfigRefs(r: References, d: Digest, objects: set<Digest>)
    requires RefsInv(r, objects) && ConfigLoads(d, objects)
    ensures RefsInv(r.(configs := r.configs + {d}), objects)
  {
    hide InventoryLoads, StoredConfigValid;
  }

  /** Every step keeps the invariant. */
  lemma StepKeepsInv(s: State, e: Event, objects: set<Digest>)
    requires Inv(s, objects) && Step(s, e, objects).Some?
    ensures Inv(Step(s, e, objects).value, objects)
  {
    match e.body.action
    case Configure => ConfigureStep(s, e, objects);
    case RunStarted => StartStep(s, e, objects);
    case InventoryRecorded => InventoryStep(s, e, objects);
    case SourceSucceeded => SourceStep(s, e, objects);
    case SourceFailed => SourceStep(s, e, objects);
    case SourceSkipped => SourceStep(s, e, objects);
    case RunFinished => FinishStep(s, e, objects);
    case RunAbandoned => AbandonStep(s, e, objects);
    case UnsupportedAction(_) =>
  }

  /** Whatever the log, an accepted one replays to a state that keeps the invariant; in particular, a last
      completed run with outcome success is sound. */
  lemma {:induction false} AcceptedLogSound(log: seq<Event>, objects: set<Digest>)
    requires Replay(log, objects).Some?
    ensures Inv(Replay(log, objects).value, objects)
    ensures CompletedSound(Replay(log, objects).value.completed, objects)
  {
    hide Inv, CompletedSound, Step;
    if log == [] {
      InitialInv(objects);
    } else {
      var n := |log| - 1;
      AcceptedLogSound(log[..n], objects);
      StepKeepsInv(Replay(log[..n], objects).value, log[n], objects);
    }
    InvSound(Replay(log, objects).value, objects);
  }

  lemma InitialInv(objects: set<Digest>)
    ensures Inv(INITIAL, objects)
  {
  }

  lemma InvSound(s: State, objects: set<Digest>)
    requires Inv(s, objects)
    ensures CompletedSound(s.completed, objects)
  {
  }
}
