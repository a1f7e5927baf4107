/** The supervisor over its store: replaying the audit, appending to it, running a capture, recovering one. */
module CaptureSupervisor {
  import opened Primitives
  import opened CaptureTypes
  import opened CaptureInventory
  import opened CaptureState
  import opened CaptureSafety
  import opened CaptureSnapshot
  import opened CaptureReplayState

  datatype AppendResult = Accepted | Rejected | WriteFailed

  /** The event that appendEvent builds from a draft. */
  function Seal(draft: EventBody, eventID: string, lastSequence: nat, lastEvent: Digest): Event {
    var body := draft.(eventID := if draft.eventID == "" then eventID else draft.eventID,
                       sequence := lastSequence + 1, previous := lastEvent);
    Event(body, EventDigest(body))
  }

  /** What replaying through a target means: the prefix ending at the first event with that hash, which has to
      be a successful finish; without a target, the whole log. */
  ghost function ReplayedThrough(log: seq<Event>, target: Digest, objects: set<Digest>): Option<State> {
    if target.Absent? then Replay(log, objects)
    else if k: nat :| EndsAt(log, k, target) then
      if SuccessfulFinish(log[k]) then Replay(log[..k + 1], objects) else None
    else None
  }

  lemma EmptyReplay(log: seq<Event>, objects: set<Digest>)
    ensures Replay(log[..0], objects) == Some(INITIAL)
  {
  }

  lemma ThroughBroken(log: seq<Event>, target: Digest, i: nat, objects: set<Digest>)
    requires i < |log| && Replay(log[..i + 1], objects).None?
    requires !target.Absent? ==> forall j :: 0 <= j < i ==> log[j].sha != target
    ensures ReplayedThrough(log, target, objects).None?
  {
    BrokenPrefix(log, i + 1, objects);
    if !target.Absent? {
      forall k: nat | EndsAt(log, k, target)
        ensures Replay(log[..k + 1], objects).None?
      {
      }
    }
  }

  lemma ThroughFound(log: seq<Event>, target: Digest, i: nat, objects: set<Digest>)
    requires i < |log| && !target.Absent? && log[i].sha == target
    requires forall j :: 0 <= j < i ==> log[j].sha != target
    ensures ReplayedThrough(log, target, objects) ==
            if SuccessfulFinish(log[i]) then Replay(log[..i + 1], objects) else None
  {
    assert EndsAt(log, i, target);
    assert forall k: nat :: EndsAt(log, k, target) ==> k == i;
  }

  lemma ThroughAll(log: seq<Event>, target: Digest, objects: set<Digest>)
    requires !target.Absent? ==> forall j :: 0 <= j < |log| ==> log[j].sha != target
    ensures ReplayedThrough(log, target, objects) == if target.Absent? then Replay(log, objects) else None
  {
  }

  class Supervisor {
    /** The inventories whose encoding exceeds the maximum record size. */
    const tooLong: InventoryBody -> bool
    /** The immutable objects that were written, the audit log, and how many more writes the disk will take. */
    var objects: set<Digest>
    var audit: seq<Event>
    var writesLeft: nat

    /** Every audit this supervisor leaves behind replays. */
    ghost predicate Valid()
      reads this
    {
      Replay(audit, objects).Some?
    }

    constructor (writes: nat, tooLong: InventoryBody -> bool)
      ensures Valid() && audit == [] && objects == {} && writesLeft == writes && this.tooLong == tooLong
    {
      this.tooLong := tooLong;
      objects, audit, writesLeft := {}, [], writes;
    }

    /** loadInventory: the object was written and validates. */
    method LoadInventory(d: Digest) returns (r: Option<Inventory>)
      ensures r.Some? <==> InventoryLoads(d, objects)
      ensures r.Some? ==> d.InventoryDigest? && r.value == Inventory(d.inventory, d)
    {
      if d !in objects || !d.InventoryDigest? {
        return None;
      }
      var ok := ValidateInventory(Inventory(d.inventory, d));
      r := if ok then Some(Inventory(d.inventory, d)) else None;
    }

    /** replayAuditThrough; an absent target replays the whole audit. */
    method ReplayAuditThrough(target: Digest) returns (r: Option<ReplayState>)
      ensures r.Some? ==> fresh(r.value) && fresh(r.value.Live()) && r.value.Valid()
      ensures match ReplayedThrough(audit, target, objects)
              case None => r.None?
              case Some(s) => r.Some? && r.value.View() == s
    {
      hide Replay, Step, ReplayState.View, SuccessfulFinish;
      var state := new ReplayState();
      EmptyReplay(audit, objects);
      var i := 0;
      while i < |audit|
        invariant 0 <= i <= |audit|
        invariant fresh(state) && fresh(state.Live()) && state.Valid()
        invariant Replay(audit[..i], objects) == Some(state.View())
        invariant !target.Absent? ==> forall j :: 0 <= j < i ==> audit[j].sha != target
      {
        var e := audit[i];
        assert audit[..i + 1] == audit[..i] + [e];
        ReplayExtend(audit[..i], e, objects);
        var accepted := ReplayStep(state, e);
        if !accepted {
          ThroughBroken(audit, target, i, objects);
          return None;
        }
        if !target.Absent? && e.sha == target {
          ThroughFound(audit, target, i, objects);
          if !SuccessfulFinish(e) {
            return None;
          }
          return Some(state);
        }
        i := i + 1;
      }
      assert audit[..i] == audit;
      ThroughAll(audit, target, objects);
      r := if target.Absent? then Some(state) else None;
    }

    /** One event of the replay: validated, its objects loaded, applied in place. */
    method ReplayStep(state: ReplayState, e: Event) returns (accepted: bool)
      requires state.Valid()
      modifies state, state.Live()
      ensures accepted <==> Step(old(state.View()), e, objects).Some?
      ensures accepted ==> Some(state.View()) == Step(old(state.View()), e, objects)
      ensures accepted ==> state.Valid() && fresh(state.Live() - old(state.Live()))
    {
      hide Replay, EventValid, InventoryLoads, ConfigLoads, InventoryBound, ReplayState.View, Apply, Remember;
      if e.body.action.Configure? && !ConfigLoads(e.body.config, objects) {
        return false;
      }
      var inventory: Option<Inventory> := None;
      if e.body.action.InventoryRecorded? {
        inventory := LoadInventory(e.body.inventory);
        if inventory.None? || !InventoryBound(e.body.inventory.inventory, e.body, state.View().activeSources) {
          return false;
        }
      }
      if !EventValid(e, state.View()) {
        return false;
      }
      if e.body.action.Configure? {
        ConfigDigestLoads(e.body.config, objects);
        state.InstallSources(SourceMap(e.body.config.config.sources));
      }
      if inventory.Some? {
        state.RememberInventory(e.body.sourceID, inventory.value);
      }
      state.ApplyEvent(e);
      return true;
    }

    /** appendEvent: an event that is rejected, or that cannot be written, changes nothing. */
    method AppendEvent(state: ReplayState, draft: EventBody) returns (r: AppendResult)
      requires state.Valid()
      modifies this`audit, this`writesLeft, state, state.Live()
      ensures state.Valid() && fresh(state.Live() - old(state.Live()))
      ensures r.Accepted? ==>
                var before := old(state.View());
                old(writesLeft) > 0 && writesLeft == old(writesLeft) - 1 &&
                |audit| == |old(audit)| + 1 && audit[..|old(audit)|] == old(audit) &&
                audit[|old(audit)|] == Seal(draft, audit[|old(audit)|].body.eventID, before.lastSequence,
                                            before.lastEvent) &&
                Appendable(before, audit[|old(audit)|], objects) &&
                state.View() == Appended(before, audit[|old(audit)|])
      ensures !r.Accepted? ==>
                audit == old(audit) && writesLeft == old(writesLeft) && state.View() == old(state.View())
      ensures r.WriteFailed? ==> old(writesLeft) == 0
      ensures r.Rejected? ==>
                exists id :: id != "" && !Appendable(old(state.View()),
                  Seal(draft, id, old(state.View()).lastSequence, old(state.View()).lastEvent), objects)
    {
      hide Replay, EventValid, InventoryLoads, InventoryBound, ReplayState.View, Apply, Remember;
      var view := state.View();
      var id: string := FreshID();
      var e := Seal(draft, id, view.lastSequence, view.lastEvent);
      var inventory: Option<Inventory> := None;
      if e.body.action.InventoryRecorded? {
        inventory := LoadInventory(e.body.inventory);
        if inventory.None? || !InventoryBound(e.body.inventory.inventory, e.body, view.activeSources) {
          return Rejected;
        }
      }
      if !EventValid(e, view) {
        return Rejected;
      }
      if writesLeft == 0 {
        return WriteFailed;
      }
      writesLeft := writesLeft - 1;
      audit := audit + [e];
      if inventory.Some? {
        state.RememberInventory(e.body.sourceID, inventory.value);
      }
      state.ApplyEvent(e);
      return Accepted;
    }

    /** ledger.NewEventID: some identifier that is not empty. */
    method FreshID() returns (id: string)
      ensures id != ""
    {
      var suffix: string := *;
      id := "event-" + suffix;
    }
  }

  lemma ConfigDigestLoads(d: Digest, objects: set<Digest>)
    requires ConfigLoads(d, objects)
    ensures d.ConfigDigest?
  {
  }

  lemma BrokenPrefix(log: seq<Event>, k: nat, objects: set<Digest>)
    requires k <= |log| && Replay(log[..k], objects).None?
    ensures forall n :: k <= n <= |log| ==> Replay(log[..n], objects).None?
    ensures Replay(log, objects).None?
  {
    forall n | k <= n <= |log|
      ensures Replay(log[..n], objects).None?
    {
      assert log[..n][..k] == log[..k];
      if Replay(log[..n], objects).Some? {
        ReplayPrefix(log[..n], k, objects);
      }
    }
    assert log[..|log|] == log;
  }
}
