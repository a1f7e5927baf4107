/** The replay state as the program holds it: an object whose tables are updated in place and cloned when a
    run finishes. */
module CaptureReplayState {
  import opened Primitives
  import opened CaptureTypes
  import opened CaptureState

  /** A mutable table, shared by whoever holds a reference to it. */
  class Table<V> {
    var entries: map<string, V>

    constructor (entries: map<string, V>)
      ensures this.entries == entries
    {
      this.entries := entries;
    }

    method Put(id: string, value: V)
      modifies this
      ensures entries == old(entries)[id := value]
    {
      entries := entries[id := value];
    }

    method Clone() returns (copy: Table<V>)
      ensures fresh(copy) && copy.entries == entries
    {
      copy := new Table(entries);
    }
  }

  /** The scalar fields of the live run, and of the last completed run. */
  datatype RunHeader = RunHeader(runID: string, started: Option<Time>, fullReconcile: bool)

  datatype CompletedHeader = CompletedHeader(runID: string, config: Digest, outcome: Outcome, audit: Digest, at: Time,
                                             fullReconcile: bool)

  class ReplayState {
    var lastSequence: nat
    var lastEvent: Digest
    var config: Digest
    var runsCompleted: nat
    var run: RunHeader
    var last: LastRun
    var sources: map<string, SourceStatus>
    var refs: References
    var activeSources: Table<Source>
    var activeInventories: Table<seq<Inventory>>
    var activeResults: Table<SourceResult>
    var finished: CompletedHeader
    var completedSources: Table<Source>
    var completedInventories: Table<seq<Inventory>>
    var completedResults: Table<SourceResult>

    /** The tables that are updated in place. */
    ghost function Live(): set<object>
      reads this
    {
      {activeInventories, activeResults}
    }

    /** History shares no table with the live run. */
    ghost predicate Valid()
      reads this
    {
      activeSources != completedSources && activeInventories != completedInventories &&
      activeResults != completedResults
    }

    function Active(): ActiveRun
      reads this, activeInventories, activeResults
    {
      ActiveRun(run.runID, run.started, run.fullReconcile, activeInventories.entries, activeResults.entries)
    }

    function LastCompleted(): Completed
      reads this, completedSources, completedInventories, completedResults
    {
      Completed(finished.runID, finished.config, finished.outcome, finished.audit, finished.at,
                finished.fullReconcile, completedSources.entries, completedInventories.entries,
                completedResults.entries)
    }

    function View(): State
      reads this, activeSources, activeInventories, activeResults, completedSources, completedInventories
      reads completedResults
    {
      State(lastSequence, lastEvent, config, runsCompleted, Active(), last, sources, refs, activeSources.entries,
            LastCompleted())
    }

    constructor ()
      ensures Valid() && View() == INITIAL && fresh(Live())
    {
      lastSequence, lastEvent, config, runsCompleted := 0, Absent, Absent, 0;
      run := RunHeader("", None, false);
      last := LastRun("", None, None, NoOutcome);
      sources := map[];
      refs := References(map[], map[], {}, {});
      finished := CompletedHeader("", Absent, NoOutcome, Absent, ZERO_TIME, false);
      activeSources := new Table(map[]);
      activeInventories := new Table(map[]);
      activeResults := new Table(map[]);
      completedSources := new Table(map[]);
      completedInventories := new Table(map[]);
      completedResults := new Table(map[]);
      new;
      assert Active() == IDLE && LastCompleted() == NO_RUN;
      hide Active, LastCompleted;
    }

    /** Replay installs the sources of a configure event. */
    method InstallSources(installed: map<string, Source>)
      requires Valid()
      modifies this
      ensures Valid() && fresh(Live() - old(Live()))
      ensures View() == old(View()).(activeSources := installed)
    {
      activeSources := new Table(installed);
    }

    method RememberInventory(id: string, inventory: Inventory)
      requires Valid()
      modifies this, activeInventories
      ensures Valid() && Live() == old(Live())
      ensures View() == Remember(old(View()), id, inventory)
    {
      refs := refs.(details := refs.details[id := inventory]);
      var held := if id in activeInventories.entries then activeInventories.entries[id] else [];
      activeInventories.Put(id, held + [inventory]);
    }

    method ClearInventories()
      requires Valid()
      modifies this
      ensures Valid() && fresh(activeInventories) && activeResults == old(activeResults)
      ensures View() == old(View()).(active := old(View()).active.(inventories := map[]))
    {
      activeInventories := new Table(map[]);
    }

    method ClearResults()
      requires Valid()
      modifies this
      ensures Valid() && fresh(activeResults) && activeInventories == old(activeInventories)
      ensures View() == old(View()).(active := old(View()).active.(results := map[]))
    {
      activeResults := new Table(map[]);
    }

    /** The header of the live run and the record of the last run. */
    method SetRun(run: RunHeader, last: LastRun)
      requires Valid()
      modifies this
      ensures Valid() && Live() == old(Live())
      ensures View() == old(View()).(
                last := last, active := old(View()).active.(runID := run.runID, started := run.started,
                                                            fullReconcile := run.fullReconcile))
    {
      this.run := run;
      this.last := last;
    }

    method FinishRun(b: EventBody)
      requires Valid()
      modifies this
      ensures Valid() && fresh(Live())
      ensures View() == EndRun(old(View()), b)
    {
      hide View;
      assert last == View().last by { ViewParts(); }
      SetRun(RunHeader("", None, false), last.(finishedAt := Some(b.observedAt), outcome := b.outcome));
      ClearInventories();
      ClearResults();
    }

    lemma ViewParts()
      ensures View().last == last && View().runsCompleted == runsCompleted && View().refs == refs
    {
    }

    method CloneSources()
      requires Valid()
      modifies this
      ensures Valid() && Live() == old(Live())
      ensures View() == old(View()).(completed := old(View()).completed.(sources := old(View()).activeSources))
    {
      completedSources := activeSources.Clone();
    }

    method CloneInventories()
      requires Valid()
      modifies this
      ensures Valid() && Live() == old(Live())
      ensures View() == old(View()).(completed :=
                old(View()).completed.(inventories := old(View()).active.inventories))
    {
      completedInventories := activeInventories.Clone();
    }

    method CloneResults()
      requires Valid()
      modifies this
      ensures Valid() && Live() == old(Live())
      ensures View() == old(View()).(completed := old(View()).completed.(results := old(View()).active.results))
    {
      completedResults := activeResults.Clone();
    }

    method SetCompleted(e: Event)
      requires Valid()
      modifies this
      ensures Valid() && Live() == old(Live())
      ensures var before := old(View());
              View() == before.(completed := CompletedBy(before, e).(sources := before.completed.sources,
                                                                     inventories := before.completed.inventories,
                                                                     results := before.completed.results),
                                runsCompleted := before.runsCompleted + 1)
    {
      finished := CompletedHeader(e.body.runID, e.body.config, e.body.outcome, e.sha, e.body.observedAt,
                                  run.fullReconcile);
      runsCompleted := runsCompleted + 1;
    }

    /** What the finished run leaves behind is cloned out of the live tables. */
    method CommitCompleted(e: Event)
      requires Valid()
      modifies this
      ensures Valid() && Live() == old(Live())
      ensures View() == old(View()).(completed := CompletedBy(old(View()), e),
                                     runsCompleted := old(View()).runsCompleted + 1)
    {
      hide View;
      SetCompleted(e);
      CloneSources();
      CloneInventories();
      CloneResults();
    }

    method RecordSourceResult(b: EventBody)
      requires Valid() && b.source.Some?
      modifies this, activeResults
      ensures Valid() && Live() == old(Live())
      ensures View() == RecordSource(old(View()), b, b.source.value)
    {
      activeResults.Put(b.sourceID, b.source.value);
      var before := if b.sourceID in sources then Some(sources[b.sourceID]) else None;
      sources := sources[b.sourceID := StatusAfter(before, b, b.source.value)];
    }

    method SetLink(e: Event)
      requires Valid()
      modifies this
      ensures Valid() && Live() == old(Live()) && activeResults == old(activeResults)
      ensures View() == old(View()).(lastSequence := e.body.sequence, lastEvent := e.sha)
    {
      lastSequence := e.body.sequence;
      lastEvent := e.sha;
    }

    method SetConfig(config: Digest)
      requires Valid()
      modifies this
      ensures Valid() && Live() == old(Live())
      ensures View() == old(View()).(config := config,
                                     refs := old(View()).refs.(configs := old(View()).refs.configs + {config}))
    {
      this.config := config;
      refs := refs.(configs := refs.configs + {config});
    }

    method ReferInventory(id: string, d: Digest)
      requires Valid()
      modifies this
      ensures Valid() && Live() == old(Live())
      ensures var r := old(View()).refs;
              View() == old(View()).(refs := r.(inventories := r.inventories[id := d], recorded := r.recorded + {d}))
    {
      refs := refs.(inventories := refs.inventories[id := d], recorded := refs.recorded + {d});
    }

    /** applyEvent. */
    method ApplyEvent(e: Event)
      requires Valid()
      modifies this, activeResults
      ensures Valid() && fresh(Live() - old(Live()))
      ensures View() == Apply(old(View()), e)
    {
      hide View;
      var b := e.body;
      SetLink(e);
      match b.action {
        case Configure =>
          SetConfig(b.config);
        case RunStarted =>
          assert last == View().last by { ViewParts(); }
          SetRun(RunHeader(b.runID, Some(b.observedAt), b.fullReconcile),
                 last.(runID := b.runID, startedAt := Some(b.observedAt)));
          ClearInventories();
          ClearResults();
        case InventoryRecorded =>
          ReferInventory(b.sourceID, b.inventory);
        case RunFinished =>
          CommitCompleted(e);
          FinishRun(b);
        case RunAbandoned =>
          FinishRun(b);
        case _ =>
          if b.source.Some? {
            RecordSourceResult(b);
          }
      }
    }
  }
}
