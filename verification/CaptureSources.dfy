/** The capture of one source: its inventories, its result, and the events that record them. */
module CaptureSources {
  import opened Primitives
  import opened Sorting
  import opened CaptureTypes
  import opened CaptureInventory
  import opened CaptureState
  import opened CaptureSafety
  import opened CaptureReplayState
  import opened CaptureSupervisor

  /** A clock never answers the zero time. */
  type Instant = t: Time | t != ZERO_TIME witness 1

  /** What an error is recognised by; a joined error is a set of these, and no error the empty set. */
  datatype Failure = WasCanceledFailure | DeadlinePassed | WriterLocked | NotExist | NotPermitted | OtherFailure

  type Failures = set<Failure>

  datatype Counts = Counts(examined: nat, changed: nat, appended: nat, gaps: nat, bytes: nat)

  datatype Execution = Execution(counts: Counts, issues: seq<string>, errors: Failures)

  /** Everything one source can answer during a run. */
  datatype SourceWorld = SourceWorld(
    canceledBefore: bool, canceledAfter: bool, expired: bool,
    discovered: Discovery, discoveryErrors: Failures, preGaps: nat, preGapErrors: Failures,
    sessions: seq<string>, listed: Counts, marker: string,
    execution: Execution, uncovered: nat,
    discoveredAgain: Discovery, postErrors: Failures, postGaps: nat, postGapErrors: Failures,
    contextErrors: Failures, errorText: string, preAt: Instant, postAt: Instant, endedAt: Instant)

  datatype Fault = NotIdle | NotConfigured | StorageFull | InventoryTooLarge | InventoryExists

  ghost predicate WorldOk(w: SourceWorld) {
    DiscoveryOk(w.discovered) && DiscoveryOk(w.discoveredAgain) && ValidSha(w.marker)
  }

  // ---- The result of one source ----

  function NewSourceResult(source: Source): SourceResult {
    SourceResult(source.id, source.agent, source.kind, source.required, SourceDigest(source), Absent, NoOutcome,
                 0, 0, 0, 0, 0, NoError, Absent)
  }

  function AddCounts(r: SourceResult, c: Counts): SourceResult {
    r.(filesExamined := r.filesExamined + c.examined, filesChanged := r.filesChanged + c.changed,
       eventsAppended := r.eventsAppended + c.appended, gapsAppended := r.gapsAppended + c.gaps,
       bytesCaptured := r.bytesCaptured + c.bytes)
  }

  /** classifyRunError: the first sentinel the joined error carries. */
  function ClassifyRunError(errors: Failures): ErrorCode {
    if WasCanceledFailure in errors then ErrCanceled
    else if DeadlinePassed in errors then ErrDeadline
    else if WriterLocked in errors then ErrWriterLocked
    else if NotExist in errors then ErrNotFound
    else if NotPermitted in errors then ErrPermission
    else ErrOther
  }

  /** setSourceOutcome. */
  function SetSourceOutcome(r: SourceResult, errors: Failures, text: string, complete: bool): SourceResult {
    if errors != {} then
      r.(outcome := Failed, errorCode := ClassifyRunError(errors), errorDetail := TextDigest(text))
    else if !complete then r.(outcome := Partial, errorCode := ErrInventoryIncomplete)
    else if r.outcome.Partial? || r.gapsAppended > 0 then
      r.(outcome := Partial, errorCode := if r.errorCode.NoError? then ErrGapsObserved else r.errorCode)
    else r.(outcome := Success, errorCode := NoError, errorDetail := Absent)
  }

  /** executeSource merged into the base result. */
  function Executed(base: SourceResult, x: Execution): SourceResult {
    var counted := AddCounts(base, x.counts);
    if x.errors == {} && (x.issues != [] || x.counts.gaps > 0) then
      counted.(outcome := Partial, errorCode := ErrGapsObserved, errorDetail := TextDigest(Joined(x.issues)))
    else counted.(outcome := NoOutcome, errorCode := NoError, errorDetail := Absent)
  }

  function Joined(issues: seq<string>): string {
    if issues == [] then "" else if |issues| == 1 then issues[0] else issues[0] + "\0" + Joined(issues[1..])
  }

  predicate Executes(source: Source, w: SourceWorld) {
    !w.expired && (source.kind.OpenCodeNative? ==> w.discoveryErrors == {})
  }

  /** Every error a source meets outside its inventories. */
  function Errors(source: Source, w: SourceWorld): Failures {
    w.discoveryErrors + w.preGapErrors + w.contextErrors +
    (if Executes(source, w) then w.execution.errors else {}) +
    (if w.uncovered > 0 then {OtherFailure} else {}) +
    if source.kind.OpenCodeNative? then {} else w.postGapErrors + w.postErrors
  }

  /** Every gap or issue a source reports. */
  predicate GapFree(source: Source, w: SourceWorld) {
    (source.kind.OpenCodeNative? ==> w.listed.gaps == 0) && w.preGaps == 0 &&
    (Executes(source, w) ==> w.execution.counts.gaps == 0 && w.execution.issues == []) &&
    (!source.kind.OpenCodeNative? ==> w.postGaps == 0)
  }

  /** When a captured source counts as a success. */
  predicate Succeeds(source: Source, w: SourceWorld, inventories: seq<Inventory>) {
    Errors(source, w) == {} && GapFree(source, w) && SuccessfulInventories(source, inventories)
  }

  /** The sentinel that a failure is named after: cancellation first, then the deadline, the lock, absence, permission. */
  predicate Blames(errors: Failures, code: ErrorCode) {
    match code
    case ErrCanceled => WasCanceledFailure in errors
    case ErrDeadline => DeadlinePassed in errors && WasCanceledFailure !in errors
    case ErrWriterLocked => WriterLocked in errors && errors !! {WasCanceledFailure, DeadlinePassed}
    case ErrNotFound => NotExist in errors && errors !! {WasCanceledFailure, DeadlinePassed, WriterLocked}
    case ErrPermission =>
      NotPermitted in errors && errors !! {WasCanceledFailure, DeadlinePassed, WriterLocked, NotExist}
    case ErrOther => errors !! {WasCanceledFailure, DeadlinePassed, WriterLocked, NotExist, NotPermitted}
    case _ => false
  }

  /** The inventories taken before and after a file source was read differ. */
  predicate Diverged(source: Source, inventories: seq<Inventory>) {
    !source.kind.OpenCodeNative? && |inventories| == 2 && !Equivalent(inventories[0].body, inventories[1].body)
  }

  /** What a source answered when it was read at all. */
  function Answered(source: Source, w: SourceWorld): Counts {
    if !w.expired && (source.kind.OpenCodeNative? ==> w.discoveryErrors == {}) then w.execution.counts
    else Counts(0, 0, 0, 0, 0)
  }

  function Announced(source: Source, w: SourceWorld): Counts {
    if source.kind.OpenCodeNative? then w.listed else Counts(0, 0, 0, 0, 0)
  }

  /** Each count adds up what was listed and what was read; gaps that were recorded around the capture are added. */
  predicate Amounts(r: SourceResult, source: Source, w: SourceWorld) {
    var read, listed := Answered(source, w), Announced(source, w);
    r.filesExamined == listed.examined + read.examined && r.filesChanged == listed.changed + read.changed &&
    r.eventsAppended == listed.appended + read.appended && r.bytesCaptured == listed.bytes + read.bytes &&
    r.gapsAppended == listed.gaps + read.gaps + (if w.preGapErrors == {} then w.preGaps else 0) +
                      (if !source.kind.OpenCodeNative? && w.postGapErrors == {} then w.postGaps else 0)
  }

  /** The verdict: failed on any error or when the inventories differ, and then named after the errors; partial when
      only the inventories or the gaps are against it. */
  ghost predicate Judged(r: SourceResult, source: Source, w: SourceWorld, inventories: seq<Inventory>) {
    (r.outcome.Success? <==> Succeeds(source, w, inventories)) &&
    (r.outcome.Failed? <==> Errors(source, w) != {} || Diverged(source, inventories)) &&
    (r.outcome.Partial? <==> !r.outcome.Success? && !r.outcome.Failed?) &&
    (r.outcome.Failed? ==> Blames(Errors(source, w), r.errorCode)) &&
    (r.outcome.Partial? ==>
       r.errorCode == if SuccessfulInventories(source, inventories) then ErrGapsObserved else ErrInventoryIncomplete) &&
    Amounts(r, source, w)
  }

  // ---- The inventories of one source ----

  /** The latest inventory of a source, unless it was taken under another source configuration. */
  function PriorIn(details: map<string, Inventory>, source: Source): Option<Inventory> {
    if source.id in details && details[source.id].body.sourceConfig == SourceDigest(source)
    then Some(details[source.id]) else None
  }

  function PriorOf(s: State, source: Source): Option<Inventory> {
    PriorIn(s.refs.details, source)
  }

  /** What is seen of a source before it is read. */
  function SeenBefore(source: Source, w: SourceWorld, runID: string, known: map<string, InventoryItem>)
    : seq<InventoryItem>
  {
    if source.kind.OpenCodeNative? then ListedItems(w.sessions, runID, w.discoveryErrors == {}, w.marker)
    else Discovered(w.discovered, known, runID)
  }

  function CompleteBefore(source: Source, w: SourceWorld): bool {
    if source.kind.OpenCodeNative? then w.discoveryErrors == {} else w.discovered.complete
  }

  /** The inventory before the source is read: what is seen, merged with the predecessor. */
  ghost predicate IsPre(pre: InventoryBody, source: Source, w: SourceWorld, runID: string, prior: Option<Inventory>) {
    Finished(pre, source, runID, w.preAt, PreCapture, SeenBefore(source, w, runID, KnownOf(prior)), KnownOf(prior),
             CompleteBefore(source, w))
  }

  /** The inventory after a file source was read: what is seen again, merged with the one from before. */
  ghost predicate IsPost(post: InventoryBody, source: Source, w: SourceWorld, runID: string, pre: InventoryBody) {
    Finished(post, source, runID, w.postAt, PostCapture, Discovered(w.discoveredAgain, Known(pre.items), runID),
             Known(pre.items), w.discoveredAgain.complete)
  }

  /** What a captured source records. */
  ghost predicate RecordedFor(inventories: seq<Inventory>, source: Source, w: SourceWorld, runID: string,
                              prior: Option<Inventory>)
  {
    |inventories| == (if source.kind.OpenCodeNative? then 1 else 2) &&
    (forall x :: x in inventories ==> x.sha == InventoryDigest(x.body)) &&
    IsPre(inventories[0].body, source, w, runID, prior) &&
    (!source.kind.OpenCodeNative? ==> IsPost(inventories[1].body, source, w, runID, inventories[0].body))
  }

  /** An inventory that is not written: too many items, or too long an encoding. */
  predicate Refused(body: InventoryBody, tooLong: InventoryBody -> bool) {
    |body.items| > MAX_ITEMS || tooLong(body)
  }

  ghost predicate PostRefused(pre: InventoryBody, source: Source, w: SourceWorld, runID: string,
                              tooLong: InventoryBody -> bool)
  {
    exists post :: IsPost(post, source, w, runID, pre) && Refused(post, tooLong)
  }

  /** The inventory before the capture, or the one after it, is not written. */
  ghost predicate Oversized(source: Source, w: SourceWorld, runID: string, prior: Option<Inventory>,
                            tooLong: InventoryBody -> bool)
  {
    exists pre :: IsPre(pre, source, w, runID, prior) &&
      (Refused(pre, tooLong) || (!source.kind.OpenCodeNative? && PostRefused(pre, source, w, runID, tooLong)))
  }

  /** A source whose inventories were all written is not over-large: its inventories are determined. */
  lemma WrittenFits(inventories: seq<Inventory>, source: Source, w: SourceWorld, runID: string,
                    prior: Option<Inventory>, tooLong: InventoryBody -> bool)
    requires RecordedFor(inventories, source, w, runID, prior)
    requires forall x :: x in inventories ==> !Refused(x.body, tooLong)
    ensures !Oversized(source, w, runID, prior, tooLong)
  {
    hide Finished, Refused, Discovered, SeenBefore, CompleteBefore;
    var first := inventories[0];
    assert first in inventories;
    forall pre | IsPre(pre, source, w, runID, prior)
      ensures pre == first.body
    {
      FinishedUnique(pre, first.body, source, runID, w.preAt, PreCapture,
                     SeenBefore(source, w, runID, KnownOf(prior)), KnownOf(prior), CompleteBefore(source, w));
    }
    if !source.kind.OpenCodeNative? {
      var second := inventories[1];
      assert second in inventories;
      forall post | IsPost(post, source, w, runID, first.body)
        ensures post == second.body
      {
        FinishedUnique(post, second.body, source, runID, w.postAt, PostCapture,
                       Discovered(w.discoveredAgain, Known(first.body.items), runID), Known(first.body.items),
                       w.discoveredAgain.complete);
      }
    }
  }

  predicate IsInventoryOf(d: Digest, runID: string, id: string) {
    d.InventoryDigest? && d.inventory.runID == runID && d.inventory.sourceID == id
  }

  /** An inventory of this run and source was stored before. */
  ghost predicate StoredBy(objects: set<Digest>, runID: string, id: string) {
    exists d :: d in objects && IsInventoryOf(d, runID, id)
  }

  ghost predicate AddsOnly(before: set<Digest>, after: set<Digest>, runID: string, id: string) {
    before <= after && forall d :: d in after ==> d in before || IsInventoryOf(d, runID, id)
  }

  /** Why the capture of a source was stopped. */
  ghost predicate FaultMeans(fault: Fault, source: Source, w: SourceWorld, runID: string, prior: Option<Inventory>,
                             tooLong: InventoryBody -> bool, objects: set<Digest>)
  {
    match fault
    case StorageFull => true
    case InventoryTooLarge => Oversized(source, w, runID, prior, tooLong)
    case InventoryExists => StoredBy(objects, runID, source.id)
    case _ => false
  }

  // ---- Drafts that are always accepted ----

  /** What the events of a run leave alone. */
  datatype Frame = Frame(runID: string, fullReconcile: bool, config: Digest, sources: map<string, Source>,
                         runsCompleted: nat, completed: Completed)

  function FrameOf(s: State): Frame {
    Frame(s.active.runID, s.active.fullReconcile, s.config, s.activeSources, s.runsCompleted, s.completed)
  }

  function Draft(runID: string, config: Digest, at: Time, action: Action, outcome: Outcome): EventBody {
    EventBody(0, "", runID, at, action, outcome, "", None, Absent, config, false, Absent)
  }

  function InventoryDraft(runID: string, config: Digest, at: Time, id: string, d: Digest): EventBody {
    Draft(runID, config, at, InventoryRecorded, Recorded).(sourceID := id, inventory := d)
  }

  /** appendSourceEvent. */
  function SourceDraft(runID: string, config: Digest, at: Time, r: SourceResult): EventBody {
    var action := if r.outcome.Success? then SourceSucceeded
                  else if r.outcome.Skipped? then SourceSkipped else SourceFailed;
    Draft(runID, config, at, action, r.outcome).(sourceID := r.sourceID, source := Some(r), inventory := r.inventory)
  }

  function StartDraft(runID: string, config: Digest, at: Time, full: bool): EventBody {
    Draft(runID, config, at, RunStarted, Started).(fullReconcile := full)
  }

  function FinishDraft(runID: string, config: Digest, at: Time, full: bool, outcome: Outcome): EventBody {
    Draft(runID, config, at, RunFinished, outcome).(fullReconcile := full)
  }

  function AbandonDraft(runID: string, config: Digest, at: Time): EventBody {
    Draft(runID, config, at, RunAbandoned, Abandoned)
  }

  function SealFor(s: State, draft: EventBody, id: string): Event {
    Seal(draft, id, s.lastSequence, s.lastEvent)
  }

  /** Whatever identifier the event is given, it is accepted. */
  ghost predicate Admissible(s: State, draft: EventBody, objects: set<Digest>) {
    forall id :: id != "" ==> Appendable(s, SealFor(s, draft, id), objects)
  }

  predicate InRunOf(s: State, source: Source) {
    s.active.runID != "" && ValidDigest(s.config) && source.id in s.activeSources &&
    s.activeSources[source.id] == source && source.id !in s.active.results && ValidSourceID(source.id) &&
    source.agent == AgentOfKind(source.kind)
  }

  ghost predicate BuiltFor(body: InventoryBody, source: Source, runID: string, at: Time) {
    Tallied(body) && SameHeader(body, NewInventory(source, runID, at).(phase := body.phase))
  }

  lemma InventoryAdmissible(s: State, at: Instant, source: Source, body: InventoryBody, objects: set<Digest>)
    requires InRunOf(s, source) && BuiltFor(body, source, s.active.runID, at)
    requires InventoryLoads(InventoryDigest(body), objects)
    ensures Admissible(s, InventoryDraft(s.active.runID, s.config, at, source.id, InventoryDigest(body)), objects)
  {
    hide InventoryValid, Tallied;
  }

  /** What recording the inventory `body` makes of the state. */
  ghost predicate Holds(before: State, after: State, id: string, body: InventoryBody) {
    var d := InventoryDigest(body);
    FrameOf(after) == FrameOf(before) && after.active.results == before.active.results &&
    LastInventoryOf(after, id) == d && after.refs.details == before.refs.details[id := Inventory(body, d)] &&
    after.active.inventories == before.active.inventories[id := InventoriesOf(before, id) + [Inventory(body, d)]]
  }

  lemma InventoryEffect(s: State, at: Instant, source: Source, body: InventoryBody, id: string)
    ensures var draft := InventoryDraft(s.active.runID, s.config, at, source.id, InventoryDigest(body));
            Holds(s, Appended(s, SealFor(s, draft, id)), source.id, body)
  {
  }

  predicate ResultReady(s: State, source: Source, r: SourceResult) {
    ResultMatchesConfig(r, source) && ResultShapeValid(r) &&
    (r.inventory.Absent? || r.inventory == LastInventoryOf(s, source.id)) &&
    if r.outcome.Success? then
      !r.inventory.Absent? && r.errorCode.NoError? && r.errorDetail.Absent? &&
      SuccessfulInventories(source, InventoriesOf(s, source.id))
    else !r.errorCode.NoError?
  }

  lemma SourceAdmissible(s: State, at: Instant, source: Source, r: SourceResult, objects: set<Digest>)
    requires InRunOf(s, source) && ResultReady(s, source, r)
    ensures Admissible(s, SourceDraft(s.active.runID, s.config, at, r), objects)
  {
    hide SuccessfulInventories;
  }

  lemma SourceEffect(s: State, at: Instant, r: SourceResult, id: string)
    ensures var t := Appended(s, SealFor(s, SourceDraft(s.active.runID, s.config, at, r), id));
            FrameOf(t) == FrameOf(s) && t.active.results == s.active.results[r.sourceID := r] &&
            t.active.inventories == s.active.inventories && t.refs == s.refs
  {
  }

  // ---- Appending to the audit ----

  /** The state held in memory is `v`, and it is what replaying the audit yields. */
  ghost predicate Linked(sup: Supervisor, state: ReplayState, v: State)
    reads sup, state, state.activeSources, state.activeInventories, state.activeResults, state.completedSources,
          state.completedInventories, state.completedResults
  {
    state.Valid() && state.View() == v && Replay(sup.audit, sup.objects) == Some(v)
  }

  lemma LinkedInv(sup: Supervisor, state: ReplayState, v: State)
    requires Linked(sup, state, v)
    ensures Inv(v, sup.objects)
  {
    hide Inv;
    AcceptedLogSound(sup.audit, sup.objects);
  }

  method Record(sup: Supervisor, state: ReplayState, ghost v: State, draft: EventBody)
    returns (ok: bool, ghost e: Event)
    requires Linked(sup, state, v) && !draft.action.Configure? && Admissible(v, draft, sup.objects)
    modifies sup`audit, sup`writesLeft, state, state.Live()
    ensures Linked(sup, state, if ok then Appended(v, e) else v) && fresh(state.Live() - old(state.Live()))
    ensures ok ==> e == SealFor(v, draft, e.body.eventID) && e.body.eventID != "" &&
                   sup.audit == old(sup.audit) + [e] && sup.writesLeft == old(sup.writesLeft) - 1
    ensures !ok ==> sup.audit == old(sup.audit) && sup.writesLeft == old(sup.writesLeft) == 0
  {
    hide Replay, Appendable, Appended, ReplayState.View;
    ghost var log := sup.audit;
    var r := sup.AppendEvent(state, draft);
    ok := r.Accepted?;
    assert forall id :: id != "" ==> Appendable(v, Seal(draft, id, v.lastSequence, v.lastEvent), sup.objects) by {
      assert forall id :: SealFor(v, draft, id) == Seal(draft, id, v.lastSequence, v.lastEvent);
    }
    e := Seal(draft, "", 0, Absent);
    if ok {
      e := sup.audit[|log|];
      AppendableHasID(v, e, sup.objects);
      assert sup.audit == log + [e];
      AppendRefinesReplay(log, e, sup.objects);
    }
  }

  lemma AppendableHasID(s: State, e: Event, objects: set<Digest>)
    requires Appendable(s, e, objects)
    ensures e.body.eventID != ""
  {
  }

  /** Nothing written before is lost. */
  twostate predicate Extended(sup: Supervisor)
    reads sup
  {
    old(sup.audit) <= sup.audit && old(sup.objects) <= sup.objects
  }

  /** writeInventory: only an inventory that validates is written. */
  method WriteInventory(sup: Supervisor, state: ReplayState, ghost v: State, body: InventoryBody)
    returns (r: Result<Digest, Fault>)
    requires Linked(sup, state, v)
    modifies sup`objects, sup`writesLeft
    ensures Linked(sup, state, v)
    ensures var d, valid := InventoryDigest(body), InventoryValid(Inventory(body, InventoryDigest(body)));
            r == if !valid || sup.tooLong(body) then Err(InventoryTooLarge)
                 else if old(sup.writesLeft) == 0 then Err(StorageFull)
                 else if d in old(sup.objects) then Err(InventoryExists)
                 else Ok(d)
    ensures r.Ok? ==> InventoryLoads(r.value, sup.objects) && sup.objects == old(sup.objects) + {r.value} &&
                      sup.writesLeft == old(sup.writesLeft) - 1
    ensures r.Err? ==> sup.objects == old(sup.objects) && sup.writesLeft == old(sup.writesLeft)
  {
    hide Replay, ReplayState.View;
    var d := InventoryDigest(body);
    var valid := ValidateInventory(Inventory(body, d));
    hide InventoryValid;
    if !valid || sup.tooLong(body) {
      return Err(InventoryTooLarge);
    }
    if sup.writesLeft == 0 {
      return Err(StorageFull);
    }
    if d in sup.objects {
      return Err(InventoryExists);
    }
    ReplayMonotone(sup.audit, sup.objects, sup.objects + {d});
    sup.writesLeft := sup.writesLeft - 1;
    sup.objects := sup.objects + {d};
    r := Ok(d);
  }

  lemma BuiltValid(s: State, source: Source, at: Instant, body: InventoryBody)
    requires InRunOf(s, source) && BuiltFor(body, source, s.active.runID, at)
    ensures InventoryValid(Inventory(body, InventoryDigest(body))) <==> |body.items| <= MAX_ITEMS
  {
    BuiltInventoryValid(source, s.active.runID, at, body);
  }

  method RecordInventory(sup: Supervisor, state: ReplayState, ghost v: State, runID: string, config: Digest,
                         source: Source, body: InventoryBody, at: Instant)
    returns (r: Result<Digest, Fault>, ghost w: State)
    requires Linked(sup, state, v) && InRunOf(v, source) && v.active.runID == runID && v.config == config
    requires BuiltFor(body, source, runID, at)
    modifies sup, state, state.Live()
    ensures Linked(sup, state, w) && fresh(state.Live() - old(state.Live())) && Extended(sup)
    ensures r.Ok? ==> r.value == InventoryDigest(body) && Holds(v, w, source.id, body) &&
                      sup.writesLeft >= old(sup.writesLeft) - 2
    ensures r.Err? ==> w == v
    ensures r == Err(StorageFull) ==> old(sup.writesLeft) < 2
    ensures r == Err(InventoryTooLarge) <==> Refused(body, sup.tooLong)
    ensures r == Err(InventoryExists) ==> InventoryDigest(body) in old(sup.objects)
    ensures r.Err? ==> r.error.StorageFull? || r.error.InventoryTooLarge? || r.error.InventoryExists?
    ensures sup.objects <= old(sup.objects) + {InventoryDigest(body)}
  {
    hide Linked, InventoryValid, BuiltFor, InRunOf, Holds, Admissible, InventoryLoads, Appended;
    BuiltValid(v, source, at, body);
    w := v;
    r := WriteInventory(sup, state, v, body);
    if r.Ok? {
      InventoryAdmissible(v, at, source, body, sup.objects);
      var ok, e := Record(sup, state, v, InventoryDraft(runID, config, at, source.id, r.value));
      if ok {
        InventoryEffect(v, at, source, body, e.body.eventID);
        w := Appended(v, e);
      } else {
        r := Err(StorageFull);
      }
    }
  }

  /** priorInventory; what the audit refers to always loads. */
  method PriorInventory(sup: Supervisor, state: ReplayState, ghost v: State, source: Source)
    returns (prior: Option<Inventory>)
    requires Linked(sup, state, v)
    ensures prior == PriorOf(v, source) && PriorOk(prior)
  {
    LinkedInv(sup, state, v);
    var d := LastInventoryOf(state.View(), source.id);
    hide ReplayState.View;
    if d.Absent? {
      return None;
    }
    prior := sup.LoadInventory(d);
    if prior.Some? && prior.value.body.sourceConfig != SourceDigest(source) {
      prior := None;
    }
  }

  // ---- Capturing one source ----

  /** The result while its source is being captured: bound to the source, nothing negative, no verdict yet. */
  predicate Pending(base: SourceResult, source: Source) {
    ResultMatchesConfig(base, source) && base.filesExamined >= 0 && base.filesChanged >= 0 &&
    base.eventsAppended >= 0 && base.gapsAppended >= 0 && base.bytesCaptured >= 0 &&
    !base.inventory.Malformed? && !base.errorDetail.Malformed? &&
    ((base.outcome.NoOutcome? && base.errorCode.NoError?) || (base.outcome.Partial? && base.errorCode.ErrGapsObserved?))
  }

  predicate Clean(base: SourceResult) {
    base.gapsAppended == 0 && !base.outcome.Partial?
  }

  function AddGaps(base: SourceResult, gaps: nat, errors: Failures): SourceResult {
    if errors == {} then base.(gapsAppended := base.gapsAppended + gaps) else base
  }

  /** What is known of a source once it was read: the listing, the gaps of its inventory, the capture itself. */
  function Accounted(source: Source, w: SourceWorld, inventory: Digest): SourceResult {
    var blank := NewSourceResult(source);
    var listed := if source.kind.OpenCodeNative? then AddCounts(blank, w.listed) else blank;
    var base := AddGaps(listed.(inventory := inventory), w.preGaps, w.preGapErrors);
    if Executes(source, w) then Executed(base, w.execution) else base
  }

  lemma CountsPending(base: SourceResult, source: Source, c: Counts)
    requires Pending(base, source)
    ensures Pending(AddCounts(base, c), source) && AddCounts(base, c).inventory == base.inventory
    ensures Clean(AddCounts(base, c)) <==> Clean(base) && c.gaps == 0
  {
  }

  lemma GapsPending(base: SourceResult, source: Source, gaps: nat, errors: Failures)
    requires Pending(base, source)
    ensures Pending(AddGaps(base, gaps, errors), source) && AddGaps(base, gaps, errors).inventory == base.inventory
    ensures errors == {} ==> (Clean(AddGaps(base, gaps, errors)) <==> Clean(base) && gaps == 0)
  {
  }

  lemma ExecutedPending(base: SourceResult, source: Source, x: Execution)
    requires Pending(base, source) && base.outcome.NoOutcome?
    ensures Pending(Executed(base, x), source) && Executed(base, x).inventory == base.inventory
    ensures x.errors == {} ==> (Clean(Executed(base, x)) <==> Clean(base) && x.counts.gaps == 0 && x.issues == [])
  {
    hide Joined;
  }

  lemma BlankPending(source: Source)
    ensures Pending(NewSourceResult(source), source) && Clean(NewSourceResult(source))
  {
  }

  lemma AddingKeepsOutcome(base: SourceResult, c: Counts, gaps: nat, errors: Failures)
    ensures AddCounts(base, c).outcome == base.outcome && AddGaps(base, gaps, errors).outcome == base.outcome
  {
  }

  lemma WithInventoryPending(base: SourceResult, source: Source, inventory: Digest)
    requires Pending(base, source) && !inventory.Malformed?
    ensures var r := base.(inventory := inventory);
            Pending(r, source) && r.inventory == inventory && (Clean(r) <==> Clean(base)) && r.outcome == base.outcome
  {
  }

  lemma NoErrors(source: Source, w: SourceWorld)
    requires Errors(source, w) == {}
    ensures w.preGapErrors == {} && (Executes(source, w) ==> w.execution.errors == {})
  {
    hide Executes;
    assert w.preGapErrors <= Errors(source, w);
    assert Executes(source, w) ==> w.execution.errors <= Errors(source, w);
  }

  lemma AccountedPending(source: Source, w: SourceWorld, inventory: Digest)
    requires !inventory.Malformed?
    ensures var base := Accounted(source, w, inventory);
            Pending(base, source) && base.inventory == inventory &&
            (Errors(source, w) == {} ==>
               (Clean(AddGaps(base, if source.kind.OpenCodeNative? then 0 else w.postGaps, {})) <==> GapFree(source, w)))
  {
    hide Pending, Clean, AddCounts, AddGaps, Executed, Errors, Executes, NewSourceResult;
    var blank := NewSourceResult(source);
    BlankPending(source);
    CountsPending(blank, source, w.listed);
    AddingKeepsOutcome(blank, w.listed, 0, {});
    var listed := if source.kind.OpenCodeNative? then AddCounts(blank, w.listed) else blank;
    WithInventoryPending(listed, source, inventory);
    var bound := listed.(inventory := inventory);
    GapsPending(bound, source, w.preGaps, w.preGapErrors);
    AddingKeepsOutcome(bound, w.listed, w.preGaps, w.preGapErrors);
    var base := AddGaps(bound, w.preGaps, w.preGapErrors);
    BlankOutcome(source);
    ExecutedPending(base, source, w.execution);
    GapsPending(Accounted(source, w, inventory), source, if source.kind.OpenCodeNative? then 0 else w.postGaps, {});
    if Errors(source, w) == {} {
      NoErrors(source, w);
    }
  }

  lemma BlankOutcome(source: Source)
    ensures NewSourceResult(source).outcome.NoOutcome?
  {
  }

  lemma PostPending(base: SourceResult, source: Source, inventory: Digest, gaps: nat, errors: Failures)
    requires Pending(base, source) && !inventory.Malformed?
    ensures var post := AddGaps(base.(inventory := inventory), gaps, errors);
            Pending(post, source) && post.inventory == inventory &&
            (errors == {} ==> (Clean(post) <==> Clean(AddGaps(base, gaps, {}))))
  {
  }

  /** The verdict on a captured source. */
  lemma Verdict(base: SourceResult, source: Source, errors: Failures, text: string, complete: bool)
    requires Pending(base, source) && ValidSourceID(source.id) && source.agent == AgentOfKind(source.kind)
    ensures var r := SetSourceOutcome(base, errors, text, complete);
            ResultMatchesConfig(r, source) && ResultShapeValid(r) && r.inventory == base.inventory &&
            !r.outcome.Skipped? && (r.outcome.Success? <==> errors == {} && complete && Clean(base)) &&
            (r.outcome.Success? ==> r.errorCode.NoError? && r.errorDetail.Absent?) &&
            (!r.outcome.Success? ==> !r.errorCode.NoError?) &&
            (r.outcome.Failed? <==> errors != {}) && (WasCanceled(r) <==> WasCanceledFailure in errors) &&
            (r.outcome.Partial? <==> !r.outcome.Success? && !r.outcome.Failed?) &&
            (r.outcome.Failed? ==> Blames(errors, r.errorCode)) &&
            (r.outcome.Partial? ==> r.errorCode == if complete then ErrGapsObserved else ErrInventoryIncomplete)
  {
  }

  /** A verdict leaves the counts alone. */
  lemma VerdictKeepsAmounts(base: SourceResult, source: Source, w: SourceWorld, errors: Failures, text: string,
                            complete: bool)
    requires Amounts(base, source, w)
    ensures Amounts(SetSourceOutcome(base, errors, text, complete), source, w)
  {
    hide Answered, Announced;
  }

  lemma ExecutedAmounts(base: SourceResult, x: Execution)
    ensures var r := Executed(base, x);
            r.filesExamined == base.filesExamined + x.counts.examined &&
            r.filesChanged == base.filesChanged + x.counts.changed &&
            r.eventsAppended == base.eventsAppended + x.counts.appended &&
            r.gapsAppended == base.gapsAppended + x.counts.gaps && r.bytesCaptured == base.bytesCaptured + x.counts.bytes
  {
    hide Joined;
  }

  lemma AccountedAmounts(source: Source, w: SourceWorld, inventory: Digest, last: Digest)
    ensures source.kind.OpenCodeNative? ==> Amounts(Accounted(source, w, inventory), source, w)
    ensures !source.kind.OpenCodeNative? ==>
              Amounts(AddGaps(Accounted(source, w, inventory).(inventory := last), w.postGaps, w.postGapErrors), source, w)
  {
    hide Executed;
    var blank := NewSourceResult(source);
    var listed := if source.kind.OpenCodeNative? then AddCounts(blank, w.listed) else blank;
    ExecutedAmounts(AddGaps(listed.(inventory := inventory), w.preGaps, w.preGapErrors), w.execution);
  }

  /** An unnamed error changes no name that is given. */
  lemma BlamesMore(errors: Failures, code: ErrorCode)
    requires Blames(errors + {OtherFailure}, code)
    ensures Blames(errors, code)
  {
  }

  /** The inventory taken before the source is read. */
  method PreInventory(sup: Supervisor, state: ReplayState, ghost v: State, runID: string, config: Digest,
                      source: Source, w: SourceWorld)
    returns (r: Result<InventoryBody, Fault>, ghost u: State)
    requires Linked(sup, state, v) && InRunOf(v, source) && v.active.runID == runID && v.config == config && WorldOk(w)
    modifies sup, state, state.Live()
    ensures Linked(sup, state, u) && fresh(state.Live() - old(state.Live())) && Extended(sup)
    ensures r.Ok? ==> IsPre(r.value, source, w, runID, PriorOf(v, source)) && !Refused(r.value, sup.tooLong) &&
                      Holds(v, u, source.id, r.value) && sup.writesLeft >= old(sup.writesLeft) - 2 &&
                      sup.objects <= old(sup.objects) + {InventoryDigest(r.value)}
    ensures r.Err? ==> u == v && FaultMeans(r.error, source, w, runID, PriorOf(v, source), sup.tooLong, old(sup.objects))
    ensures r == Err(StorageFull) ==> old(sup.writesLeft) < 2
    ensures AddsOnly(old(sup.objects), sup.objects, runID, source.id)
  {
    hide Linked, InRunOf, Holds, DiscoveryOk, Discovered, PriorOk, ListedItems, Finished, Refused, Oversized, PriorIn;
    var prior := PriorInventory(sup, state, v, source);
    var body: InventoryBody;
    if source.kind.OpenCodeNative? {
      body := BuildSessionInventory(source, runID, w.preAt, w.sessions, prior, w.discoveryErrors == {}, w.marker);
    } else {
      var forceFull;
      body, forceFull := BuildFileInventory(source, runID, w.preAt, w.discovered, prior);
    }
    assert IsPre(body, source, w, runID, prior);
    PreBuilt(body, source, w, runID, prior, sup.tooLong);
    var d;
    d, u := RecordInventory(sup, state, v, runID, config, source, body, w.preAt);
    r := if d.Ok? then Ok(body) else Err(d.error);
  }

  /** The inventory of a file source after it was read, built on the one from before. */
  method PostInventory(sup: Supervisor, state: ReplayState, ghost v: State, runID: string, config: Digest,
                       source: Source, w: SourceWorld, pre: InventoryBody)
    returns (r: Result<InventoryBody, Fault>, ghost u: State)
    requires Linked(sup, state, v) && InRunOf(v, source) && v.active.runID == runID && v.config == config && WorldOk(w)
    requires BuiltFor(pre, source, runID, w.preAt)
    modifies sup, state, state.Live()
    ensures Linked(sup, state, u) && fresh(state.Live() - old(state.Live())) && Extended(sup)
    ensures r.Ok? ==> IsPost(r.value, source, w, runID, pre) && !Refused(r.value, sup.tooLong) &&
                      Holds(v, u, source.id, r.value) && sup.writesLeft >= old(sup.writesLeft) - 2
    ensures r.Err? ==> u == v && (r.error.StorageFull? || r.error.InventoryTooLarge? || r.error.InventoryExists?)
    ensures r == Err(StorageFull) ==> old(sup.writesLeft) < 2
    ensures r == Err(InventoryTooLarge) ==> PostRefused(pre, source, w, runID, sup.tooLong)
    ensures r == Err(InventoryExists) ==>
              exists d :: d in old(sup.objects) && IsInventoryOf(d, runID, source.id) && d.inventory.phase.PostCapture?
    ensures AddsOnly(old(sup.objects), sup.objects, runID, source.id)
  {
    hide Linked, InRunOf, Holds, DiscoveryOk, Discovered, Finished, Refused, PriorOk;
    BuiltIsPrior(pre, source, runID, w.preAt);
    var body, forceFull := BuildFileInventory(source, runID, w.postAt, w.discoveredAgain,
                                              Some(Inventory(pre, InventoryDigest(pre))));
    PostBuilt(body, source, w, runID, pre);
    body := body.(phase := PostCapture);
    var d;
    d, u := RecordInventory(sup, state, v, runID, config, source, body, w.postAt);
    r := if d.Ok? then Ok(body) else Err(d.error);
  }

  /** What the first inventory means for the run. */
  lemma PreBuilt(body: InventoryBody, source: Source, w: SourceWorld, runID: string, prior: Option<Inventory>,
                 tooLong: InventoryBody -> bool)
    requires IsPre(body, source, w, runID, prior)
    ensures BuiltFor(body, source, runID, w.preAt) && body.phase.PreCapture?
    ensures IsInventoryOf(InventoryDigest(body), runID, source.id)
    ensures Refused(body, tooLong) ==> Oversized(source, w, runID, prior, tooLong)
  {
    hide Merged, Increasing, Tallied, SeenBefore, CompleteBefore, Refused;
  }

  lemma PostBuilt(body: InventoryBody, source: Source, w: SourceWorld, runID: string, pre: InventoryBody)
    requires Finished(body, source, runID, w.postAt, PreCapture, Discovered(w.discoveredAgain, Known(pre.items), runID),
                      Known(pre.items), w.discoveredAgain.complete)
    ensures var post := body.(phase := PostCapture);
            IsPost(post, source, w, runID, pre) && BuiltFor(post, source, runID, w.postAt) &&
            IsInventoryOf(InventoryDigest(post), runID, source.id)
  {
    hide Merged, Increasing, Total, Keys, ItemValid, Discovered;
  }

  lemma BuiltIsPrior(pre: InventoryBody, source: Source, runID: string, at: Time)
    requires BuiltFor(pre, source, runID, at)
    ensures PriorOk(Some(Inventory(pre, InventoryDigest(pre))))
    ensures KnownOf(Some(Inventory(pre, InventoryDigest(pre)))) == Known(pre.items)
  {
    hide Tallied;
  }

  lemma HoldsKeepsRun(v: State, u: State, source: Source, body: InventoryBody)
    requires InRunOf(v, source) && Holds(v, u, source.id, body)
    ensures InRunOf(u, source) && FrameOf(u) == FrameOf(v) && u.active.results == v.active.results
    ensures u.active.runID == v.active.runID && u.config == v.config
    ensures LastInventoryOf(u, source.id) == InventoryDigest(body)
    ensures InventoriesOf(u, source.id) == InventoriesOf(v, source.id) + [Inventory(body, InventoryDigest(body))]
    ensures u.active.inventories.Keys == v.active.inventories.Keys + {source.id}
    ensures SameElsewhere(v, u, source.id)
    ensures u.refs.details == v.refs.details[source.id := Inventory(body, InventoryDigest(body))]
  {
  }

  ghost predicate SameElsewhere(v: State, u: State, id: string) {
    forall other :: other != id ==>
      InventoriesOf(u, other) == InventoriesOf(v, other) && SameDetail(u.refs.details, v.refs.details, other)
  }

  predicate SameDetail(a: map<string, Inventory>, b: map<string, Inventory>, id: string) {
    (id in a <==> id in b) && (id in a ==> a[id] == b[id])
  }

  /** The identities that a source shows as source markers during a run. */
  function MarkersIn(source: Source, w: SourceWorld): set<string> {
    if source.kind.OpenCodeNative? then if w.discoveryErrors == {} then {} else {w.marker}
    else set x | x in w.discovered.issues + w.discoveredAgain.issues && x.itemType.SourceMarker? :: x.identity
  }

  lemma SeenMarkers(source: Source, w: SourceWorld, runID: string, known: map<string, InventoryItem>)
    ensures Markers(SeenBefore(source, w, runID, known)) <= MarkersIn(source, w)
    ensures !source.kind.OpenCodeNative? ==> Markers(Discovered(w.discoveredAgain, known, runID)) <= MarkersIn(source, w)
  {
    if source.kind.OpenCodeNative? {
      SessionsAre(w.sessions, runID);
    } else {
      DiscoveredMarkers(w.discovered, known, runID);
      DiscoveredMarkers(w.discoveredAgain, known, runID);
    }
  }

  lemma DiscoveredMarkers(d: Discovery, known: map<string, InventoryItem>, runID: string)
    ensures Markers(Discovered(d, known, runID)) <= set x | x in d.issues && x.itemType.SourceMarker? :: x.identity
  {
    forall x | x in Discovered(d, known, runID) && x.itemType.SourceMarker?
      ensures exists y :: y in d.issues && y.itemType.SourceMarker? && y.identity == x.identity
    {
      var i :| 0 <= i < |Discovered(d, known, runID)| && Discovered(d, known, runID)[i] == x;
      assert i >= |d.files|;
      assert d.issues[i - |d.files|] in d.issues;
    }
  }

  /** The inventory that a source now has descends from the one it had. */
  ghost predicate Descended(before: map<string, Inventory>, after: map<string, Inventory>, source: Source,
                            markers: set<string>)
  {
    PriorIn(before, source).Some? ==>
      PriorIn(after, source).Some? &&
      Descends(PriorIn(before, source).value.body.items, PriorIn(after, source).value.body.items, markers)
  }

  lemma NothingDescended(details: map<string, Inventory>, source: Source, markers: set<string>)
    ensures Descended(details, details, source, markers)
  {
    hide Descends;
    if PriorIn(details, source).Some? {
      DescendsFromItself(PriorIn(details, source).value.body.items, markers);
    }
  }

  /** The first inventory of a run continues the line of a source. */
  lemma PreDescends(before: map<string, Inventory>, pre: InventoryBody, source: Source, w: SourceWorld, runID: string)
    requires IsPre(pre, source, w, runID, PriorIn(before, source))
    ensures var after := before[source.id := Inventory(pre, InventoryDigest(pre))];
            Descended(before, after, source, MarkersIn(source, w)) &&
            PriorIn(after, source) == Some(Inventory(pre, InventoryDigest(pre)))
  {
    hide Descends, Tallied, Increasing, Merged, SeenBefore, CompleteBefore, MarkersIn, Markers;
    if PriorIn(before, source).Some? {
      var items := PriorIn(before, source).value.body.items;
      DescendsFromItself(items, MarkersIn(source, w));
      SeenMarkers(source, w, runID, Known(items));
      DescendsNext(items, items, pre.items, SeenBefore(source, w, runID, Known(items)), CompleteBefore(source, w),
                   MarkersIn(source, w));
    }
  }

  lemma PostDescends(before: map<string, Inventory>, middle: map<string, Inventory>, pre: InventoryBody,
                     post: InventoryBody, source: Source, w: SourceWorld, runID: string)
    requires Descended(before, middle, source, MarkersIn(source, w)) && !source.kind.OpenCodeNative?
    requires PriorIn(middle, source) == Some(Inventory(pre, InventoryDigest(pre)))
    requires IsPost(post, source, w, runID, pre)
    ensures Descended(before, middle[source.id := Inventory(post, InventoryDigest(post))], source, MarkersIn(source, w))
  {
    hide Descends, Tallied, Increasing, Merged, Discovered, MarkersIn, Markers;
    if PriorIn(before, source).Some? {
      SeenMarkers(source, w, runID, Known(pre.items));
      DescendsNext(PriorIn(before, source).value.body.items, pre.items, post.items,
                   Discovered(w.discoveredAgain, Known(pre.items), runID), w.discoveredAgain.complete,
                   MarkersIn(source, w));
    }
  }

  predicate CompletePair(pre: InventoryBody, last: InventoryBody) {
    pre.status.InvAvailable? && pre.available > 0 && last.status.InvAvailable?
  }

  lemma CompleteMeans(source: Source, pre: InventoryBody, last: InventoryBody, runID: string, at: Time)
    requires BuiltFor(pre, source, runID, at) && pre.phase.PreCapture?
    ensures var first, second := Inventory(pre, InventoryDigest(pre)), Inventory(last, InventoryDigest(last));
            if source.kind.OpenCodeNative?
            then SuccessfulInventories(source, [first]) <==> CompletePair(pre, pre)
            else last.phase.PostCapture? ==>
                   (SuccessfulInventories(source, [first, second]) <==> Equivalent(pre, last) && CompletePair(pre, last))
  {
  }

  /** What a captured source leaves behind. */
  ghost predicate Captured(v: State, u: State, source: Source, w: SourceWorld, r: SourceResult) {
    FrameOf(u) == FrameOf(v) && u.active.results == v.active.results[source.id := r] && r.sourceID == source.id &&
    SameElsewhere(v, u, source.id) && u.active.inventories.Keys <= v.active.inventories.Keys + {source.id} &&
    ResultMatchesConfig(r, source) && !r.outcome.Skipped? &&
    (WasCanceled(r) <==> WasCanceledFailure in Errors(source, w)) && Judged(r, source, w, InventoriesOf(u, source.id))
  }

  /** A source whose inventories are recorded, before the verdict: what it counted and which errors it met. */
  datatype Taken = Taken(base: SourceResult, errors: Failures, complete: bool)

  ghost predicate TakenOk(v: State, u: State, source: Source, w: SourceWorld, t: Taken) {
    InRunOf(u, source) && FrameOf(u) == FrameOf(v) && u.active.results == v.active.results &&
    SameElsewhere(v, u, source.id) && u.active.inventories.Keys <= v.active.inventories.Keys + {source.id} &&
    Pending(t.base, source) && t.base.inventory == LastInventoryOf(u, source.id) && !t.base.inventory.Absent? &&
    (t.errors == {} && t.complete && Clean(t.base) <==> Succeeds(source, w, InventoriesOf(u, source.id))) &&
    t.errors == Errors(source, w) + (if Diverged(source, InventoriesOf(u, source.id)) then {OtherFailure} else {}) &&
    (t.errors == {} ==> (t.complete <==> SuccessfulInventories(source, InventoriesOf(u, source.id)))) &&
    Amounts(t.base, source, w)
  }

  /** The errors met before the second inventory. */
  function ErrorsBefore(source: Source, w: SourceWorld): Failures {
    w.discoveryErrors + w.preGapErrors + (if Executes(source, w) then w.execution.errors else {}) +
    if w.uncovered > 0 then {OtherFailure} else {}
  }

  lemma NativeTaken(v: State, u: State, source: Source, w: SourceWorld, pre: InventoryBody, runID: string)
    requires source.kind.OpenCodeNative? && InRunOf(v, source) && Holds(v, u, source.id, pre)
    requires InventoriesOf(v, source.id) == [] && BuiltFor(pre, source, runID, w.preAt) && pre.phase.PreCapture?
    ensures TakenOk(v, u, source, w, Taken(Accounted(source, w, InventoryDigest(pre)),
                                           ErrorsBefore(source, w) + w.contextErrors, CompletePair(pre, pre)))
  {
    hide Pending, Accounted, Holds, BuiltFor, InRunOf, SameElsewhere, FrameOf, CompletePair, SuccessfulInventories,
         Amounts, Equivalent, Clean, GapFree, Executes, LastInventoryOf, InventoriesOf;
    HoldsKeepsRun(v, u, source, pre);
    AccountedPending(source, w, InventoryDigest(pre));
    AccountedAmounts(source, w, InventoryDigest(pre), InventoryDigest(pre));
    NoGaps(Accounted(source, w, InventoryDigest(pre)));
    CompleteMeans(source, pre, pre, runID, w.preAt);
    assert InventoriesOf(u, source.id) == [Inventory(pre, InventoryDigest(pre))];
  }

  lemma NoGaps(base: SourceResult)
    ensures AddGaps(base, 0, {}) == base
  {
  }

  lemma FileTaken(v: State, mid: State, u: State, source: Source, w: SourceWorld, pre: InventoryBody,
                  post: InventoryBody, runID: string)
    requires !source.kind.OpenCodeNative? && InRunOf(v, source)
    requires Holds(v, mid, source.id, pre) && Holds(mid, u, source.id, post)
    requires InventoriesOf(v, source.id) == [] && BuiltFor(pre, source, runID, w.preAt)
    requires pre.phase.PreCapture? && post.phase.PostCapture?
    ensures var base := Accounted(source, w, InventoryDigest(pre)).(inventory := InventoryDigest(post));
            var errors := ErrorsBefore(source, w) + w.postGapErrors + w.postErrors + w.contextErrors +
                          (if Equivalent(pre, post) then {} else {OtherFailure});
            TakenOk(v, u, source, w, Taken(AddGaps(base, w.postGaps, w.postGapErrors), errors, CompletePair(pre, post)))
  {
    hide Pending, Accounted, Holds, BuiltFor, InRunOf, FrameOf, CompletePair, SuccessfulInventories, AddGaps, Clean,
         Amounts, GapFree, Executes, LastInventoryOf, InventoriesOf, Equivalent;
    HoldsKeepsRun(v, mid, source, pre);
    HoldsKeepsRun(mid, u, source, post);
    AccountedPending(source, w, InventoryDigest(pre));
    AccountedAmounts(source, w, InventoryDigest(pre), InventoryDigest(post));
    PostPending(Accounted(source, w, InventoryDigest(pre)), source, InventoryDigest(post), w.postGaps, w.postGapErrors);
    CompleteMeans(source, pre, post, runID, w.preAt);
    assert InventoriesOf(u, source.id) ==
           [Inventory(pre, InventoryDigest(pre)), Inventory(post, InventoryDigest(post))];
  }

  /** Inventory, capture and, for files, inventory again. */
  method TakeSource(sup: Supervisor, state: ReplayState, ghost v: State, runID: string, config: Digest,
                    source: Source, w: SourceWorld)
    returns (r: Result<Taken, Fault>, ghost u: State)
    requires Linked(sup, state, v) && InRunOf(v, source) && v.active.runID == runID && v.config == config && WorldOk(w)
    requires InventoriesOf(v, source.id) == []
    modifies sup, state, state.Live()
    ensures Linked(sup, state, u) && fresh(state.Live() - old(state.Live())) && Extended(sup)
    ensures r.Ok? ==> TakenOk(v, u, source, w, r.value) && sup.writesLeft >= old(sup.writesLeft) - 4 &&
                      Fits(InventoriesOf(u, source.id), source, w, runID, PriorOf(v, source), sup.tooLong)
    ensures r.Err? ==> FrameOf(u) == FrameOf(v) &&
                       FaultMeans(r.error, source, w, runID, PriorOf(v, source), sup.tooLong, old(sup.objects))
    ensures r == Err(StorageFull) ==> old(sup.writesLeft) < 4
    ensures Kept(v, u, source, w) && AddsOnly(old(sup.objects), sup.objects, runID, source.id)
  {
    hide Fits, Kept, FaultMeans, AddsOnly, IsPre, IsPost, Refused, PriorIn, Linked, InRunOf, Holds, BuiltFor, Accounted,
         AddGaps, CompletePair, Equivalent, SuccessfulInventories, TakenOk, WorldOk, Appended, Admissible, FrameOf,
         InventoriesOf, Executes, ErrorsBefore, BuiltFor;
    var pre;
    pre, u := PreInventory(sup, state, v, runID, config, source, w);
    if pre.Err? {
      NothingKept(v, source, w);
      r := Err(pre.error);
      return;
    }
    PreBuilt(pre.value, source, w, runID, PriorOf(v, source), sup.tooLong);
    HoldsKeepsRun(v, u, source, pre.value);
    PreKept(v, u, source, w, runID, pre.value);
    ghost var mid, stored := u, sup.objects;
    var base := Accounted(source, w, InventoryDigest(pre.value));
    var errors := ErrorsBefore(source, w);
    var last := pre.value;
    if source.kind.OpenCodeNative? {
      NativeTaken(v, u, source, w, last, runID);
      PreFits(v, u, source, w, runID, last, sup.tooLong);
      errors := errors + w.contextErrors;
    } else {
      var post;
      post, u := PostInventory(sup, state, mid, runID, config, source, w, last);
      AddsThrough(old(sup.objects), stored, sup.objects, runID, source.id);
      if post.Err? {
        PostFault(old(sup.objects), stored, post.error, source, w, runID, PriorOf(v, source), last, sup.tooLong);
        r := Err(post.error);
        return;
      }
      PostIsPost(post.value, source, w, runID, last);
      FileTaken(v, mid, u, source, w, last, post.value, runID);
      PostKept(v, mid, u, source, w, runID, last, post.value);
      PostFits(v, mid, u, source, w, runID, last, post.value, sup.tooLong);
      last := post.value;
      base := AddGaps(base.(inventory := InventoryDigest(last)), w.postGaps, w.postGapErrors);
      errors := errors + w.postGapErrors + w.postErrors + w.contextErrors +
                (if Equivalent(pre.value, last) then {} else {OtherFailure});
    }
    r := Ok(Taken(base, errors, CompletePair(pre.value, last)));
  }

  /** The inventories of a captured source are the ones its discoveries determine, and all of them could be written. */
  ghost predicate Fits(inventories: seq<Inventory>, source: Source, w: SourceWorld, runID: string,
                       prior: Option<Inventory>, tooLong: InventoryBody -> bool)
  {
    RecordedFor(inventories, source, w, runID, prior) && !Oversized(source, w, runID, prior, tooLong)
  }

  /** Other sources are left alone, and the inventories of this one are continued. */
  ghost predicate Kept(v: State, u: State, source: Source, w: SourceWorld) {
    SameElsewhere(v, u, source.id) && Descended(v.refs.details, u.refs.details, source, MarkersIn(source, w))
  }

  lemma NothingKept(v: State, source: Source, w: SourceWorld)
    ensures Kept(v, v, source, w)
  {
    hide Descended;
    NothingDescended(v.refs.details, source, MarkersIn(source, w));
  }

  lemma PreKept(v: State, u: State, source: Source, w: SourceWorld, runID: string, pre: InventoryBody)
    requires IsPre(pre, source, w, runID, PriorOf(v, source)) && SameElsewhere(v, u, source.id)
    requires u.refs.details == v.refs.details[source.id := Inventory(pre, InventoryDigest(pre))]
    ensures Kept(v, u, source, w) && PriorOf(u, source) == Some(Inventory(pre, InventoryDigest(pre)))
  {
    hide Descended, IsPre, SameElsewhere, PriorIn;
    PreDescends(v.refs.details, pre, source, w, runID);
  }

  lemma PostKept(v: State, mid: State, u: State, source: Source, w: SourceWorld, runID: string, pre: InventoryBody,
                 post: InventoryBody)
    requires !source.kind.OpenCodeNative? && Kept(v, mid, source, w)
    requires PriorOf(mid, source) == Some(Inventory(pre, InventoryDigest(pre)))
    requires IsPost(post, source, w, runID, pre) && InRunOf(mid, source) && Holds(mid, u, source.id, post)
    ensures Kept(v, u, source, w)
  {
    hide Descended, IsPost, PriorIn, FrameOf, InRunOf, Holds;
    HoldsKeepsRun(mid, u, source, post);
    PostDescends(v.refs.details, mid.refs.details, pre, post, source, w, runID);
  }

  lemma PreFits(v: State, u: State, source: Source, w: SourceWorld, runID: string, pre: InventoryBody,
                tooLong: InventoryBody -> bool)
    requires source.kind.OpenCodeNative? && IsPre(pre, source, w, runID, PriorOf(v, source)) && !Refused(pre, tooLong)
    requires InventoriesOf(v, source.id) == [] && InRunOf(v, source) && Holds(v, u, source.id, pre)
    ensures Fits(InventoriesOf(u, source.id), source, w, runID, PriorOf(v, source), tooLong)
  {
    hide IsPre, Refused, Oversized, PriorIn, InRunOf, Holds, FrameOf, SameElsewhere, InventoriesOf;
    HoldsKeepsRun(v, u, source, pre);
    assert InventoriesOf(u, source.id) == [Inventory(pre, InventoryDigest(pre))];
    WrittenFits(InventoriesOf(u, source.id), source, w, runID, PriorOf(v, source), tooLong);
  }

  lemma PostFits(v: State, mid: State, u: State, source: Source, w: SourceWorld, runID: string, pre: InventoryBody,
                 post: InventoryBody, tooLong: InventoryBody -> bool)
    requires !source.kind.OpenCodeNative? && InventoriesOf(v, source.id) == []
    requires IsPre(pre, source, w, runID, PriorOf(v, source)) && !Refused(pre, tooLong)
    requires IsPost(post, source, w, runID, pre) && !Refused(post, tooLong)
    requires InRunOf(v, source) && Holds(v, mid, source.id, pre) && Holds(mid, u, source.id, post)
    ensures Fits(InventoriesOf(u, source.id), source, w, runID, PriorOf(v, source), tooLong)
  {
    hide IsPre, IsPost, Refused, Oversized, PriorIn, InRunOf, Holds, FrameOf, SameElsewhere, InventoriesOf;
    HoldsKeepsRun(v, mid, source, pre);
    HoldsKeepsRun(mid, u, source, post);
    assert InventoriesOf(u, source.id) ==
           [Inventory(pre, InventoryDigest(pre)), Inventory(post, InventoryDigest(post))];
    WrittenFits(InventoriesOf(u, source.id), source, w, runID, PriorOf(v, source), tooLong);
  }

  lemma PostIsPost(post: InventoryBody, source: Source, w: SourceWorld, runID: string, pre: InventoryBody)
    requires IsPost(post, source, w, runID, pre)
    ensures post.phase.PostCapture?
  {
  }

  lemma AddsThrough(a: set<Digest>, b: set<Digest>, c: set<Digest>, runID: string, id: string)
    requires AddsOnly(a, b, runID, id) && AddsOnly(b, c, runID, id)
    ensures AddsOnly(a, c, runID, id)
  {
    hide IsInventoryOf;
  }

  /** The second inventory differs from the first, so one that exists was stored before the source was reached. */
  lemma PostFault(before: set<Digest>, stored: set<Digest>, fault: Fault, source: Source, w: SourceWorld, runID: string,
                  prior: Option<Inventory>, pre: InventoryBody, tooLong: InventoryBody -> bool)
    requires stored <= before + {InventoryDigest(pre)} && IsPre(pre, source, w, runID, prior)
    requires fault.StorageFull? || fault.InventoryTooLarge? || fault.InventoryExists?
    requires !source.kind.OpenCodeNative?
    requires fault.InventoryTooLarge? ==> PostRefused(pre, source, w, runID, tooLong)
    requires fault.InventoryExists? ==>
               exists d :: d in stored && IsInventoryOf(d, runID, source.id) && d.inventory.phase.PostCapture?
    ensures FaultMeans(fault, source, w, runID, prior, tooLong, before)
  {
    hide PostRefused, Refused, Merged, Increasing, Tallied, SeenBefore, CompleteBefore;
    if fault.InventoryExists? {
      var d :| d in stored && IsInventoryOf(d, runID, source.id) && d.inventory.phase.PostCapture?;
      assert d != InventoryDigest(pre);
    }
  }

  lemma TakenReady(v: State, u: State, source: Source, w: SourceWorld, t: Taken)
    requires TakenOk(v, u, source, w, t)
    ensures ResultReady(u, source, SetSourceOutcome(t.base, t.errors, w.errorText, t.complete))
  {
    hide Pending, Clean, Errors, SetSourceOutcome, GapFree, LastInventoryOf, InventoriesOf, SuccessfulInventories,
         ResultShapeValid, ResultMatchesConfig, FrameOf, SameElsewhere, Amounts, Blames;
    Verdict(t.base, source, t.errors, w.errorText, t.complete);
  }

  lemma TakenCaptured(v: State, u: State, u': State, source: Source, w: SourceWorld, t: Taken)
    requires TakenOk(v, u, source, w, t)
    requires var r := SetSourceOutcome(t.base, t.errors, w.errorText, t.complete);
             FrameOf(u') == FrameOf(u) && u'.active.results == u.active.results[source.id := r] &&
             u'.active.inventories == u.active.inventories && u'.refs == u.refs
    ensures Captured(v, u', source, w, SetSourceOutcome(t.base, t.errors, w.errorText, t.complete))
  {
    hide Pending, Clean, Errors, SetSourceOutcome, GapFree, LastInventoryOf, SuccessfulInventories, ResultShapeValid,
         FrameOf, Amounts, Blames, Diverged;
    Verdict(t.base, source, t.errors, w.errorText, t.complete);
    VerdictKeepsAmounts(t.base, source, w, t.errors, w.errorText, t.complete);
    SameInventories(u, u', source.id);
    if Diverged(source, InventoriesOf(u, source.id)) {
      BlamesMore(Errors(source, w), SetSourceOutcome(t.base, t.errors, w.errorText, t.complete).errorCode);
    } else {
      assert t.errors == Errors(source, w);
    }
  }

  /** One source of the run, from its first inventory to the event that closes it. */
  method CaptureSource(sup: Supervisor, state: ReplayState, ghost v: State, runID: string, config: Digest,
                       source: Source, w: SourceWorld)
    returns (r: Result<SourceResult, Fault>, ghost u: State)
    requires Linked(sup, state, v) && InRunOf(v, source) && v.active.runID == runID && v.config == config && WorldOk(w)
    requires InventoriesOf(v, source.id) == []
    modifies sup, state, state.Live()
    ensures Linked(sup, state, u) && fresh(state.Live() - old(state.Live())) && Extended(sup)
    ensures r.Ok? ==> Captured(v, u, source, w, r.value) && sup.writesLeft >= old(sup.writesLeft) - 5 &&
                      Fits(InventoriesOf(u, source.id), source, w, runID, PriorOf(v, source), sup.tooLong)
    ensures r.Err? ==> FrameOf(u) == FrameOf(v) &&
                       FaultMeans(r.error, source, w, runID, PriorOf(v, source), sup.tooLong, old(sup.objects))
    ensures r == Err(StorageFull) ==> old(sup.writesLeft) < 5
    ensures Kept(v, u, source, w) && AddsOnly(old(sup.objects), sup.objects, runID, source.id)
  {
    hide Fits, Kept, AddsOnly, Oversized, StoredBy, PriorIn, Linked, InRunOf, TakenOk, SetSourceOutcome, Captured,
         ResultReady, WorldOk, InventoriesOf;
    var taken;
    taken, u := TakeSource(sup, state, v, runID, config, source, w);
    if taken.Err? {
      r := Err(taken.error);
      return;
    }
    var t := taken.value;
    ghost var mid := u;
    TakenReady(v, mid, source, w, t);
    TakenKeepsRun(v, mid, source, w, t);
    var result := SetSourceOutcome(t.base, t.errors, w.errorText, t.complete);
    r, u := RecordResult(sup, state, mid, runID, config, source, result, w.endedAt);
    if r.Ok? {
      TakenCaptured(v, mid, u, source, w, t);
      SameInventories(mid, u, source.id);
      KeptThrough(v, mid, u, source, w);
    }
  }

  lemma SameInventories(s: State, t: State, id: string)
    requires t.active.inventories == s.active.inventories
    ensures InventoriesOf(t, id) == InventoriesOf(s, id)
  {
  }

  lemma KeptThrough(v: State, u: State, t: State, source: Source, w: SourceWorld)
    requires Kept(v, u, source, w) && t.refs == u.refs && t.active.inventories == u.active.inventories
    ensures Kept(v, t, source, w)
  {
    hide Descended;
  }

  lemma TakenKeepsRun(v: State, u: State, source: Source, w: SourceWorld, t: Taken)
    requires TakenOk(v, u, source, w, t)
    ensures InRunOf(u, source) && FrameOf(u) == FrameOf(v)
  {
  }

  /** The event that closes a source with this result. */
  predicate Closes(e: Event, result: SourceResult) {
    e.body.source == Some(result) && e.body.sourceID == result.sourceID && e.body.outcome == result.outcome &&
    e.body.action == if result.outcome.Success? then SourceSucceeded
                     else if result.outcome.Skipped? then SourceSkipped else SourceFailed
  }

  /** appendSourceEvent for a result that is ready. */
  method RecordResult(sup: Supervisor, state: ReplayState, ghost v: State, runID: string, config: Digest,
                      source: Source, result: SourceResult, at: Instant)
    returns (r: Result<SourceResult, Fault>, ghost u: State)
    requires Linked(sup, state, v) && InRunOf(v, source) && v.active.runID == runID && v.config == config
    requires ResultReady(v, source, result)
    modifies sup, state, state.Live()
    ensures Linked(sup, state, u) && fresh(state.Live() - old(state.Live())) && Extended(sup)
    ensures r.Ok? ==> r.value == result && FrameOf(u) == FrameOf(v) && u.refs == v.refs &&
                      u.active.results == v.active.results[source.id := result] &&
                      u.active.inventories == v.active.inventories && sup.writesLeft >= old(sup.writesLeft) - 1 &&
                      |sup.audit| == |old(sup.audit)| + 1 && Closes(sup.audit[|old(sup.audit)|], result)
    ensures r.Err? ==> u == v && r.error.StorageFull? && old(sup.writesLeft) == 0 && sup.audit == old(sup.audit)
    ensures sup.objects == old(sup.objects)
  {
    hide Linked, InRunOf, Admissible, Appended, FrameOf;
    assert result.sourceID == source.id by { hide InRunOf; }
    hide ResultReady;
    SourceAdmissible(v, at, source, result, sup.objects);
    var ok, e := Record(sup, state, v, SourceDraft(runID, config, at, result));
    if ok {
      SourceEffect(v, at, result, e.body.eventID);
      u, r := Appended(v, e), Ok(result);
    } else {
      u, r := v, Err(StorageFull);
    }
  }
}
