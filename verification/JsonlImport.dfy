/** Incremental import: each import resumes from the ledger, and any chopping of a growing file records what one
    import of its final bytes records. */
module JsonlImport {
  import opened Primitives
  import opened JsonlLines
  import opened JsonlRecords
  import K = JsonlKeys

  /** A ledger record: the segment that was preserved, an event of a line, the gap of a source that shrank, or anything
      another adapter wrote. */
  datatype Event =
    | Segment(path: string, start: nat, end: nat, bytes: Bytes)
    | Line(core: Core, segment: EventID)
    | Truncation(path: string, previous: nat, current: nat)
    | Foreign(text: string)

  function EventIDOf(e: Event): EventID {
    match e
    case Segment(path, start, end, bytes) => SegmentID(path, start, end, bytes)
    case Line(core, _) => IDOf(core)
    case Truncation(path, previous, current) => TruncationID(path, previous, current)
    case Foreign(text) => ForeignID(text)
  }

  function KnownIDs(ledger: seq<Event>): set<EventID> {
    set e | e in ledger :: EventIDOf(e)
  }

  predicate IsPartial(c: Core) {
    c.kind == GapKind && c.reason.TrailingPartial?
  }

  /** The events of terminated lines of one source, in ledger order. */
  function LinesOf(ledger: seq<Event>, path: string): seq<Core> {
    if ledger == [] then []
    else
      var n := |ledger| - 1;
      LinesOf(ledger[..n], path) +
      if ledger[n].Line? && ledger[n].core.path == path && !IsPartial(ledger[n].core) then [ledger[n].core] else []
  }

  /** What an event commits: everything but a gap, and a gap only for a terminated line. */
  predicate Commits(c: Core) {
    c.kind != GapKind || c.reason.InvalidTerminated?
  }

  function MaxEnd(cores: seq<Core>): nat {
    if cores == [] then 0
    else
      var n := |cores| - 1;
      var before := MaxEnd(cores[..n]);
      if Commits(cores[n]) && cores[n].end > before then cores[n].end else before
  }

  /** The offset of a source once `e` was visited. */
  function Advanced(before: nat, e: Event, path: string): nat {
    if e.Truncation? && e.path == path then e.current
    else if e.Line? && e.core.path == path && Commits(e.core) && e.core.end > before then e.core.end
    else before
  }

  /** The offset of a source that the ledger yields: the furthest end since the last reset. */
  function LedgerOffset(ledger: seq<Event>, path: string): nat {
    if ledger == [] then 0
    else Advanced(LedgerOffset(ledger[..|ledger| - 1], path), ledger[|ledger| - 1], path)
  }

  ghost predicate NeverShrank(ledger: seq<Event>) {
    forall e :: e in ledger ==> !e.Truncation?
  }

  /** Without a reset, the offset is the furthest end of all committed lines. */
  lemma {:induction false} OffsetIsMaxEnd(ledger: seq<Event>, path: string)
    requires NeverShrank(ledger)
    ensures LedgerOffset(ledger, path) == MaxEnd(LinesOf(ledger, path))
  {
    hide IDOf;
    if ledger != [] {
      var n := |ledger| - 1;
      assert ledger == ledger[..n] + [ledger[n]];
      OffsetIsMaxEnd(ledger[..n], path);
      var lines := LinesOf(ledger[..n], path);
      if ledger[n].Line? {
        assert (lines + [ledger[n].core])[..|lines|] == lines;
      }
      assert lines + [] == lines;
    }
  }

  // ---- The state of an import ----

  class ImportState {
    var knownIDs: set<EventID>
    var committed: map<string, nat>

    function Offset(path: string): nat
      reads this
    {
      OffsetIn(committed, path)
    }

    /** loadImportState: one pass over the ledger. */
    constructor (ledger: seq<Event>)
      ensures knownIDs == KnownIDs(ledger)
      ensures forall path :: Offset(path) == LedgerOffset(ledger, path)
    {
      hide Loaded, KnownIDs;
      var known: set<EventID>, offsets: map<string, nat> := {}, map[];
      NothingLoaded();
      var i := 0;
      while i < |ledger|
        invariant 0 <= i <= |ledger|
        invariant Loaded(known, offsets, ledger[..i])
      {
        var e := ledger[i];
        LoadedNext(known, offsets, ledger, i);
        known := known + {EventIDOf(e)};
        if e.Truncation? {
          offsets := offsets[e.path := e.current];
        } else if e.Line? && Commits(e.core) && e.core.end > OffsetIn(offsets, e.core.path) {
          offsets := offsets[e.core.path := e.core.end];
        }
        i := i + 1;
      }
      assert ledger[..i] == ledger;
      LoadedIs(known, offsets, ledger);
      knownIDs, committed := known, offsets;
    }
  }

  function OffsetIn(offsets: map<string, nat>, path: string): nat {
    if path in offsets then offsets[path] else 0
  }

  ghost predicate Loaded(known: set<EventID>, offsets: map<string, nat>, ledger: seq<Event>) {
    known == KnownIDs(ledger) && forall path :: OffsetIn(offsets, path) == LedgerOffset(ledger, path)
  }

  lemma LoadedIs(known: set<EventID>, offsets: map<string, nat>, ledger: seq<Event>)
    requires Loaded(known, offsets, ledger)
    ensures known == KnownIDs(ledger) && forall path :: OffsetIn(offsets, path) == LedgerOffset(ledger, path)
  {
  }

  lemma NothingLoaded()
    ensures Loaded({}, map[], [])
  {
  }

  lemma LoadedNext(known: set<EventID>, offsets: map<string, nat>, ledger: seq<Event>, i: nat)
    requires i < |ledger| && Loaded(known, offsets, ledger[..i])
    ensures var e := ledger[i];
            Loaded(known + {EventIDOf(e)},
                   if e.Truncation? then offsets[e.path := e.current]
                   else if e.Line? && Commits(e.core) && e.core.end > OffsetIn(offsets, e.core.path)
                   then offsets[e.core.path := e.core.end] else offsets,
                   ledger[..i + 1])
  {
    hide Commits, IDOf;
    var e := ledger[i];
    assert ledger[..i + 1][..i] == ledger[..i];
    assert ledger[..i + 1] == ledger[..i] + [e];
    KnownConcat(ledger[..i], [e]);
    assert e in [e];
    var after := if e.Truncation? then offsets[e.path := e.current]
                 else if e.Line? && Commits(e.core) && e.core.end > OffsetIn(offsets, e.core.path)
                 then offsets[e.core.path := e.core.end] else offsets;
    forall path
      ensures OffsetIn(after, path) == LedgerOffset(ledger[..i + 1], path)
    {
      assert OffsetIn(offsets, path) == LedgerOffset(ledger[..i], path);
      assert LedgerOffset(ledger[..i + 1], path) == Advanced(LedgerOffset(ledger[..i], path), e, path);
    }
  }

  lemma LinesNext(ledger: seq<Event>, e: Event, path: string)
    ensures LinesOf(ledger + [e], path) ==
            LinesOf(ledger, path) +
            if e.Line? && e.core.path == path && !IsPartial(e.core) then [e.core] else []
  {
    assert (ledger + [e])[..|ledger|] == ledger;
  }

  lemma {:induction false} LinesConcat(a: seq<Event>, b: seq<Event>, path: string)
    ensures LinesOf(a + b, path) == LinesOf(a, path) + LinesOf(b, path)
  {
    if b == [] {
      assert a + b == a;
    } else {
      var n := |b| - 1;
      assert (a + b)[..|a| + n] == a + b[..n];
      LinesConcat(a, b[..n], path);
    }
  }

  // ---- Queueing ----

  /** queueProjection: an event that is already known is skipped. */
  method Queue(state: ImportState, pending: seq<Event>, segment: EventID, core: Core) returns (more: seq<Event>)
    modifies state`knownIDs
    ensures more == pending + if IDOf(core) in old(state.knownIDs) then [] else [Line(core, segment)]
    ensures state.knownIDs == old(state.knownIDs) + {IDOf(core)}
  {
    if IDOf(core) in state.knownIDs {
      assert state.knownIDs == state.knownIDs + {IDOf(core)};
      return pending;
    }
    state.knownIDs := state.knownIDs + {IDOf(core)};
    more := pending + [Line(core, segment)];
  }

  /** The events that stand for some cores. */
  function Events(cores: seq<Core>, segment: EventID): (r: seq<Event>)
    ensures |r| == |cores| && forall i :: 0 <= i < |r| ==> r[i] == Line(cores[i], segment)
  {
    seq(|cores|, i requires 0 <= i < |cores| => Line(cores[i], segment))
  }

  lemma EventsConcat(a: seq<Core>, b: seq<Core>, segment: EventID)
    ensures Events(a + b, segment) == Events(a, segment) + Events(b, segment)
  {
  }

  lemma UnknownNext(known: set<EventID>, cores: seq<Core>, c: Core)
    ensures Unknown(known, cores + [c]) ==
            Unknown(known, cores) + if IDOf(c) in known + IDs(cores) then [] else [c]
    ensures IDs(cores + [c]) == IDs(cores) + {IDOf(c)}
  {
    UnknownConcat(known, cores, [c]);
    assert forall k :: Unknown(k, [c]) == if IDOf(c) in k then [] else [c];
  }

  method ProjectionKeysOf(projections: seq<Projection>) returns (keys: seq<string>)
    ensures |keys| == |projections| && forall i :: 0 <= i < |keys| ==> keys[i] == KeyFor(projections, i)
  {
    keys := K.UniqueProjectionKeys(ProjectionKeys(projections));
  }

  lemma CandidatesOfLine(adapter: Adapter, path: string, line: Bytes, start: nat)
    ensures var projections, all := ProjectionsOf(adapter, line), LineCandidates(adapter, path, line, start);
            |all| == |projections| &&
            forall i :: 0 <= i < |all| ==>
              all[i] == CoreOf(adapter, path, line, start, projections[i], KeyFor(projections, i))
  {
  }

  /** All projections of one terminated line. */
  method QueueLine(adapter: Adapter, state: ImportState, path: string, line: Bytes, start: nat, segment: EventID)
    returns (queued: seq<Event>)
    modifies state`knownIDs
    ensures queued == Events(Unknown(old(state.knownIDs), LineCandidates(adapter, path, line, start)), segment)
    ensures state.knownIDs == old(state.knownIDs) + IDs(LineCandidates(adapter, path, line, start))
  {
    hide IDOf, Unknown, IDs, LineCandidates, CoreOf, KeyFor, Events, K.Effective, K.KeyAt, ProjectionKeys;
    var projections := ProjectionsOf(adapter, line);
    var keys := ProjectionKeysOf(projections);
    CandidatesOfLine(adapter, path, line, start);
    ghost var all := LineCandidates(adapter, path, line, start);
    NothingQueued(state.knownIDs, segment);
    queued := [];
    var i := 0;
    while i < |projections|
      invariant 0 <= i <= |projections|
      invariant queued == Events(Unknown(old(state.knownIDs), all[..i]), segment)
      invariant state.knownIDs == old(state.knownIDs) + IDs(all[..i])
    {
      var core := CoreOf(adapter, path, line, start, projections[i], keys[i]);
      assert all[..i + 1] == all[..i] + [core];
      UnknownNext(old(state.knownIDs), all[..i], core);
      EventsConcat(Unknown(old(state.knownIDs), all[..i]),
                   if IDOf(core) in state.knownIDs then [] else [core], segment);
      queued := Queue(state, queued, segment, core);
      i := i + 1;
    }
    assert all[..i] == all;
  }

  lemma NothingQueued(known: set<EventID>, segment: EventID)
    ensures Events(Unknown(known, []), segment) == [] && IDs([]) == {}
  {
  }

  // ---- Importing one file ----

  function PartialCore(adapter: Adapter, path: string, line: Bytes, start: nat): Core {
    CoreOf(adapter, path, line, start, GapProjection(TrailingPartial), "")
  }

  /** The events of an unterminated last line: a gap, unless the same gap is known. */
  function PartialEvents(adapter: Adapter, known: set<EventID>, path: string, b: Bytes, segment: EventID): seq<Event> {
    var at := TerminatedEnd(b);
    if at == |b| then []
    else
      var c := PartialCore(adapter, path, b[at..], at);
      if IDOf(c) in known then [] else [Line(c, segment)]
  }

  lemma LastLine(b: Bytes, offset: nat)
    requires offset <= TerminatedEnd(b) && offset < |b|
    ensures offset < TerminatedEnd(b) <==> b[LineEnd(b, offset) - 1] == NEWLINE
    ensures offset == TerminatedEnd(b) ==> LineEnd(b, offset) == |b|
  {
    if offset < TerminatedEnd(b) {
      LineInside(b, offset);
    }
  }

  /** The loop over the lines from `start` on. The offset of the source ends where its last terminated line ends. */
  method ReadLines(adapter: Adapter, state: ImportState, path: string, b: Bytes, start: nat, segment: EventID)
    returns (events: seq<Event>)
    requires start <= TerminatedEnd(b)
    modifies state
    ensures var known, all := old(state.knownIDs), Candidates(adapter, path, b, start);
            events == Events(Unknown(known, all), segment) +
                      PartialEvents(adapter, known + IDs(all), path, b, segment)
    ensures start < TerminatedEnd(b) ==>
              state.committed == old(state.committed)[path := TerminatedEnd(b)]
    ensures start == TerminatedEnd(b) ==> state.committed == old(state.committed)
    ensures state.knownIDs == old(state.knownIDs) + KnownIDs(events)
  {
    hide IDOf, Unknown, IDs, LineCandidates, PartialCore, Events, LineEnd, TerminatedEnd, KnownIDs, Candidates;
    ghost var known, last, all := state.knownIDs, TerminatedEnd(b), Candidates(adapter, path, b, start);
    ghost var done: seq<Core> := [];
    NothingQueued(known, segment);
    NothingLeft(adapter, path, b);
    events := [];
    var offset := start;
    while offset < |b|
      invariant start <= offset <= last && all == done + Candidates(adapter, path, b, offset)
      invariant events == Events(Unknown(known, done), segment) && state.knownIDs == known + IDs(done)
      invariant state.committed ==
                if offset == start then old(state.committed) else old(state.committed)[path := offset]
      decreases |b| - offset
    {
      var end := ReadLine(b, offset);
      LastLine(b, offset);
      if b[end - 1] != NEWLINE {
        events := Queue(state, events, segment, PartialCore(adapter, path, b[offset..end], offset));
        break;
      }
      CandidatesStep(adapter, path, b, offset);
      ghost var line := LineCandidates(adapter, path, b[offset..end], offset);
      var queued := QueueLine(adapter, state, path, b[offset..end], offset, segment);
      UnknownConcat(known, done, line);
      EventsConcat(Unknown(known, done), Unknown(known + IDs(done), line), segment);
      IDsConcat(done, line);
      assert done + (line + Candidates(adapter, path, b, end)) == (done + line) + Candidates(adapter, path, b, end);
      done := done + line;
      events := events + queued;
      state.committed := state.committed[path := end];
      offset := end;
    }
    assert Candidates(adapter, path, b, offset) == [] && all == done;
    PartialTail(adapter, known + IDs(all), path, b, segment);
    QueuedIDs(adapter, known, all, path, b, segment);
  }

  lemma NothingLeft(adapter: Adapter, path: string, b: Bytes)
    ensures Candidates(adapter, path, b, TerminatedEnd(b)) == []
    ensures TerminatedEnd(b) <= |b|
  {
  }

  lemma IDsConcat(a: seq<Core>, b: seq<Core>)
    ensures IDs(a + b) == IDs(a) + IDs(b)
  {
  }

  function PartialIDs(adapter: Adapter, path: string, b: Bytes): set<EventID> {
    var at := TerminatedEnd(b);
    if at == |b| then {} else {IDOf(PartialCore(adapter, path, b[at..], at))}
  }

  lemma PartialTail(adapter: Adapter, known: set<EventID>, path: string, b: Bytes, segment: EventID)
    ensures var at := TerminatedEnd(b);
            var c := PartialCore(adapter, path, b[at..|b|], at);
            at < |b| ==>
              PartialEvents(adapter, known, path, b, segment) == (if IDOf(c) in known then [] else [Line(c, segment)]) &&
              PartialIDs(adapter, path, b) == {IDOf(c)}
    ensures TerminatedEnd(b) == |b| ==>
              PartialEvents(adapter, known, path, b, segment) == [] && PartialIDs(adapter, path, b) == {}
  {
    hide PartialCore, IDOf, TerminatedEnd;
    assert b[TerminatedEnd(b)..] == b[TerminatedEnd(b)..|b|];
  }

  lemma EventsIDs(cores: seq<Core>, segment: EventID)
    ensures KnownIDs(Events(cores, segment)) == IDs(cores)
  {
    var events := Events(cores, segment);
    forall c | c in cores
      ensures IDOf(c) in KnownIDs(events)
    {
      var i :| 0 <= i < |cores| && cores[i] == c;
      assert events[i] in events;
    }
  }

  lemma KnownConcat(a: seq<Event>, b: seq<Event>)
    ensures KnownIDs(a + b) == KnownIDs(a) + KnownIDs(b)
  {
  }

  lemma PartialKnown(adapter: Adapter, known: set<EventID>, path: string, b: Bytes, segment: EventID)
    ensures KnownIDs(PartialEvents(adapter, known, path, b, segment)) == PartialIDs(adapter, path, b) - known
  {
    hide PartialCore, IDOf, TerminatedEnd;
    var at := TerminatedEnd(b);
    var c := PartialCore(adapter, path, b[at..], at);
    assert KnownIDs([Line(c, segment)]) == {IDOf(c)} by {
      assert Line(c, segment) in [Line(c, segment)];
    }
    assert KnownIDs([]) == {};
  }

  lemma QueuedIDs(adapter: Adapter, known: set<EventID>, all: seq<Core>, path: string, b: Bytes, segment: EventID)
    ensures known + KnownIDs(Events(Unknown(known, all), segment) +
                             PartialEvents(adapter, known + IDs(all), path, b, segment)) ==
            known + IDs(all) + PartialIDs(adapter, path, b)
  {
    hide Unknown, IDs, PartialCore, Events, PartialEvents, PartialIDs, KnownIDs;
    PartialKnown(adapter, known + IDs(all), path, b, segment);
    var lines, partial := Events(Unknown(known, all), segment), PartialEvents(adapter, known + IDs(all), path, b, segment);
    KnownConcat(lines, partial);
    EventsIDs(Unknown(known, all), segment);
    UnknownIDs(known, all);
  }

  // ---- What the ledger holds ----

  function BytesOf(files: map<string, Bytes>, path: string): Bytes {
    if path in files then files[path] else []
  }

  predicate Unterminated(raw: Bytes) {
    raw != [] && raw[|raw| - 1] != NEWLINE
  }

  /** For every source, the ledger holds the events of exactly the terminated lines of the bytes seen so far, each
      once and in order; the other line events are gaps for lines that were not terminated. */
  ghost predicate Inv(adapter: Adapter, ledger: seq<Event>, files: map<string, Bytes>) {
    (forall path :: LinesOf(ledger, path) == Expected(adapter, path, BytesOf(files, path))) && NeverShrank(ledger) &&
    forall e :: e in ledger && e.Line? && IsPartial(e.core) ==> Unterminated(e.core.raw)
  }

  /** What the import state knows is what reloading it from the ledger would yield. */
  ghost predicate Current(state: ImportState, ledger: seq<Event>)
    reads state
  {
    Loaded(state.knownIDs, state.committed, ledger)
  }

  lemma {:induction false} MaxEndBounds(cores: seq<Core>)
    ensures forall c :: c in cores && Commits(c) ==> c.end <= MaxEnd(cores)
    ensures MaxEnd(cores) > 0 ==> exists c :: c in cores && c.end == MaxEnd(cores)
  {
    if cores != [] {
      var n := |cores| - 1;
      assert cores == cores[..n] + [cores[n]];
      MaxEndBounds(cores[..n]);
    }
  }

  lemma ExpectedMembers(adapter: Adapter, path: string, b: Bytes)
    ensures IDs(Expected(adapter, path, b)) == IDs(Candidates(adapter, path, b, 0))
    ensures forall c :: c in Expected(adapter, path, b) ==> c in Candidates(adapter, path, b, 0)
  {
    UnknownIDs({}, Candidates(adapter, path, b, 0));
  }

  /** The resumed offset is the end of the last terminated line. */
  lemma ResumedOffset(adapter: Adapter, path: string, b: Bytes)
    requires Positional(adapter)
    ensures MaxEnd(Expected(adapter, path, b)) == TerminatedEnd(b)
  {
    hide Candidates, Expected, Positional, TerminatedEnd, MaxEnd, IDs;
    var all, expected := Candidates(adapter, path, b, 0), Expected(adapter, path, b);
    CandidatesWithin(adapter, path, b, 0);
    ExpectedMembers(adapter, path, b);
    MaxEndBounds(expected);
    if TerminatedEnd(b) > 0 {
      var c :| c in all && c.end == TerminatedEnd(b);
      var d := SameID(all, expected, c);
      assert Commits(d);
    }
  }

  lemma SameID(all: seq<Core>, some: seq<Core>, c: Core) returns (d: Core)
    requires IDs(all) == IDs(some) && c in all && c.identity.None? && forall d :: d in some ==> d.identity.None?
    ensures d in some && IDOf(d) == IDOf(c) && d.end == c.end
  {
    assert IDOf(c) in IDs(some);
    d :| d in some && IDOf(d) == IDOf(c);
  }

  lemma InLines(ledger: seq<Event>, e: Event)
    requires e in ledger && e.Line? && !IsPartial(e.core)
    ensures e.core in LinesOf(ledger, e.core.path)
  {
    if ledger != [] {
      var n := |ledger| - 1;
      if ledger[n] != e {
        assert e in ledger[..n];
        InLines(ledger[..n], e);
      }
    }
  }

  lemma {:induction false} LinesInLedger(ledger: seq<Event>, path: string)
    ensures forall c :: c in LinesOf(ledger, path) ==> c.path == path && IDOf(c) in KnownIDs(ledger)
  {
    hide IDOf;
    if ledger != [] {
      var n := |ledger| - 1;
      LinesInLedger(ledger[..n], path);
      assert ledger == ledger[..n] + [ledger[n]];
      KnownConcat(ledger[..n], [ledger[n]]);
      assert ledger[n] in [ledger[n]];
    }
  }

  /** A line beyond the terminated lines seen so far is not known. */
  lemma NewLineIsFresh(adapter: Adapter, ledger: seq<Event>, files: map<string, Bytes>, path: string, x: Core)
    requires Inv(adapter, ledger, files) && x.path == path && TerminatedEnd(BytesOf(files, path)) <= x.start
    requires x.raw != [] && x.raw[|x.raw| - 1] == NEWLINE && x.identity.None?
    ensures IDOf(x) !in KnownIDs(ledger)
    ensures IDOf(x) !in IDs(Candidates(adapter, path, BytesOf(files, path), 0))
  {
    hide Candidates, Expected, TerminatedEnd, LinesOf;
    var old_ := BytesOf(files, path);
    CandidatesWithin(adapter, path, old_, 0);
    ExpectedMembers(adapter, path, old_);
    if IDOf(x) in KnownIDs(ledger) {
      var e :| e in ledger && EventIDOf(e) == IDOf(x);
      if !IsPartial(e.core) {
        InLines(ledger, e);
      }
    }
  }

  /** What an import adds is what the new bytes are expected to add, from the old offset or from the beginning. */
  lemma AddedLines(adapter: Adapter, ledger: seq<Event>, files: map<string, Bytes>, path: string, b: Bytes,
                   known: set<EventID>, start: nat)
    requires Positional(adapter) && Inv(adapter, ledger, files) && Grown(BytesOf(files, path), b)
    requires start == 0 || start == TerminatedEnd(BytesOf(files, path))
    requires forall id: EventID :: id.LineID? ==> (id in known <==> id in KnownIDs(ledger))
    ensures start <= TerminatedEnd(b)
    ensures Expected(adapter, path, b) ==
            LinesOf(ledger, path) + Unknown(known, Candidates(adapter, path, b, start))
    ensures b == BytesOf(files, path) ==> Unknown(known, Candidates(adapter, path, b, start)) == []
  {
    hide Candidates, TerminatedEnd, LinesOf, Unknown, KnownIDs, IDs;
    var before := BytesOf(files, path);
    var c := TerminatedEnd(before);
    var seen, added := Candidates(adapter, path, before, 0), Candidates(adapter, path, b, c);
    CandidatesGrow(adapter, path, before, b, 0);
    UnknownConcat({}, seen, added);
    UnknownConcat(known, seen, added);
    assert {} + IDs(seen) == IDs(seen);
    CandidatesWithin(adapter, path, b, c);
    forall x | x in added
      ensures IDOf(x) !in known && IDOf(x) !in IDs(seen)
    {
      NewLineIsFresh(adapter, ledger, files, path, x);
    }
    UnknownLocal(IDs(seen), known, added);
    UnknownLocal(known + IDs(seen), known, added);
    SeenIsKnown(adapter, ledger, files, path, known);
    AllKnown(known, seen);
    NothingLeft(adapter, path, before);
    NothingUnknown(known);
    assert [] + Unknown(known, added) == Unknown(known, added);
  }

  lemma NothingUnknown(known: set<EventID>)
    ensures Unknown(known, []) == []
  {
  }

  lemma SeenIsKnown(adapter: Adapter, ledger: seq<Event>, files: map<string, Bytes>, path: string, known: set<EventID>)
    requires Inv(adapter, ledger, files) && Positional(adapter)
    requires forall id: EventID :: id.LineID? ==> (id in known <==> id in KnownIDs(ledger))
    ensures IDs(Candidates(adapter, path, BytesOf(files, path), 0)) <= known
  {
    hide Candidates, LinesOf, KnownIDs, Expected;
    ExpectedMembers(adapter, path, BytesOf(files, path));
    CandidatesWithin(adapter, path, BytesOf(files, path), 0);
    LinesInLedger(ledger, path);
  }

  lemma {:induction false} EventsLines(cores: seq<Core>, segment: EventID, path: string)
    requires forall c :: c in cores ==> c.path == path && !IsPartial(c)
    ensures LinesOf(Events(cores, segment), path) == cores
    ensures forall other :: other != path ==> LinesOf(Events(cores, segment), other) == []
  {
    if cores != [] {
      var n := |cores| - 1;
      EventsLines(cores[..n], segment, path);
      assert Events(cores, segment)[..n] == Events(cores[..n], segment);
      assert cores == cores[..n] + [cores[n]];
    }
  }

  /** The lines among what an import appends. */
  lemma PendingLines(adapter: Adapter, known: set<EventID>, path: string, b: Bytes, start: nat, head: seq<Event>,
                     segment: EventID)
    requires Positional(adapter) && start <= TerminatedEnd(b) && |head| <= 1 && forall e :: e in head ==> e.Segment?
    ensures var all := Candidates(adapter, path, b, start);
            var pending := head + (Events(Unknown(known, all), segment) +
                                   PartialEvents(adapter, known + IDs(all), path, b, segment));
            LinesOf(pending, path) == Unknown(known, all) &&
            (forall other :: other != path ==> LinesOf(pending, other) == []) && NeverShrank(pending) &&
            forall e :: e in pending && e.Line? && IsPartial(e.core) ==> Unterminated(e.core.raw)
  {
    hide Candidates, TerminatedEnd, Unknown, IDs, Events, PartialEvents, Positional, LinesOf, IsPartial, Unterminated;
    var all := Candidates(adapter, path, b, start);
    var fresh_ := Unknown(known, all);
    var lines, partial := Events(fresh_, segment), PartialEvents(adapter, known + IDs(all), path, b, segment);
    FreshLines(adapter, known, path, b, start);
    EventsLines(fresh_, segment, path);
    PartialIsPartial(adapter, known + IDs(all), path, b, segment);
    forall p
      ensures LinesOf(head + (lines + partial), p) == if p == path then fresh_ else []
    {
      LinesConcat(head, lines + partial, p);
      LinesConcat(lines, partial, p);
      HeadLines(head, p);
      assert [] + (LinesOf(lines, p) + []) == LinesOf(lines, p);
    }
    LinesOnly(fresh_, segment);
  }

  lemma FreshLines(adapter: Adapter, known: set<EventID>, path: string, b: Bytes, start: nat)
    requires Positional(adapter) && start <= TerminatedEnd(b)
    ensures forall c :: c in Unknown(known, Candidates(adapter, path, b, start)) ==> c.path == path && !IsPartial(c)
  {
    hide Candidates, TerminatedEnd, Unknown, Positional;
    CandidatesWithin(adapter, path, b, start);
    UnknownIDs(known, Candidates(adapter, path, b, start));
  }

  lemma LinesOnly(cores: seq<Core>, segment: EventID)
    ensures forall e :: e in Events(cores, segment) ==> e.Line? && e.core in cores
  {
  }

  lemma HeadLines(head: seq<Event>, path: string)
    requires |head| <= 1 && forall e :: e in head ==> e.Segment?
    ensures LinesOf(head, path) == []
  {
    if head != [] {
      assert head[0] in head && head[..0] == [];
    }
  }

  lemma PartialIsPartial(adapter: Adapter, known: set<EventID>, path: string, b: Bytes, segment: EventID)
    ensures var partial := PartialEvents(adapter, known, path, b, segment);
            (forall p :: LinesOf(partial, p) == []) &&
            forall e :: e in partial ==> e.Line? && IsPartial(e.core) && Unterminated(e.core.raw)
  {
    var at := TerminatedEnd(b);
    if at < |b| {
      var raw := b[at..];
      assert raw[|raw| - 1] == b[|b| - 1];
      var one := [Line(PartialCore(adapter, path, raw, at), segment)];
      assert one[..0] == [];
    }
  }

  /** Importing a file that grew since the ledger last saw it. */
  method ImportFile(adapter: Adapter, state: ImportState, ghost ledger: seq<Event>, ghost files: map<string, Bytes>,
                    path: string, b: Bytes, full: bool)
    returns (pending: seq<Event>)
    requires Positional(adapter) && Inv(adapter, ledger, files) && Current(state, ledger)
    requires Grown(BytesOf(files, path), b)
    modifies state
    ensures Inv(adapter, ledger + pending, files[path := b]) && Current(state, ledger + pending)
    ensures b == BytesOf(files, path) ==> LinesOf(pending, path) == []
    ensures forall other :: other != path ==> LinesOf(pending, other) == []
  {
    hide Candidates, TerminatedEnd, Unknown, IDs, Events, PartialEvents, Positional, Inv, Loaded, LinesOf, Grown,
         KnownIDs, LedgerOffset, NeverShrank;
    ghost var before := BytesOf(files, path);
    var committed := state.Offset(path);
    OffsetIsEnd(adapter, state.knownIDs, state.committed, ledger, files, path);
    var start := if full then 0 else committed;
    if start == |b| {
      NothingToImport(adapter, ledger, files, path, b, start);
      assert ledger + [] == ledger;
      return [];
    }
    TerminatedGrows(before, b);
    NothingLeft(adapter, path, b);
    var segment := Segment(path, start, |b|, b[start..]);
    var id := EventIDOf(segment);
    pending := if id in state.knownIDs then [] else [segment];
    ghost var known, offsets, head := state.knownIDs + {id}, state.committed, pending;
    LoadedIs(state.knownIDs, offsets, ledger);
    AddedLines(adapter, ledger, files, path, b, known, start);
    state.knownIDs := state.knownIDs + {id};
    var events := ReadLines(adapter, state, path, b, start, id);
    PendingLines(adapter, known, path, b, start, head, id);
    pending := pending + events;
    InvAfter(adapter, ledger, files, path, b, pending, known, start);
    KnownConcat(head, events);
    HeadKnown(state.knownIDs, ledger, head, segment);
    KnownConcat(ledger, pending);
    CurrentAfter(adapter, state.knownIDs, state.committed, offsets, ledger, pending, files, path, b, start);
  }

  lemma OffsetIsEnd(adapter: Adapter, known: set<EventID>, offsets: map<string, nat>, ledger: seq<Event>,
                    files: map<string, Bytes>, path: string)
    requires Positional(adapter) && Inv(adapter, ledger, files) && Loaded(known, offsets, ledger)
    ensures OffsetIn(offsets, path) == TerminatedEnd(BytesOf(files, path))
  {
    hide TerminatedEnd, Expected, Positional;
    LoadedIs(known, offsets, ledger);
    OffsetIsMaxEnd(ledger, path);
    ResumedOffset(adapter, path, BytesOf(files, path));
  }

  lemma NothingToImport(adapter: Adapter, ledger: seq<Event>, files: map<string, Bytes>, path: string, b: Bytes,
                        start: nat)
    requires Inv(adapter, ledger, files) && Grown(BytesOf(files, path), b) && start == |b|
    requires start == 0 || start == TerminatedEnd(BytesOf(files, path))
    ensures b == BytesOf(files, path) && Inv(adapter, ledger, files[path := b]) && forall p :: LinesOf([], p) == []
  {
    hide Expected, LinesOf;
    assert BytesOf(files, path) == b[..|b|] == b;
    assert forall p :: BytesOf(files[path := b], p) == BytesOf(files, p);
    NoLines();
  }

  lemma NoLines()
    ensures forall path :: LinesOf([], path) == []
  {
  }

  lemma HeadKnown(known: set<EventID>, ledger: seq<Event>, head: seq<Event>, segment: Event)
    requires head == if EventIDOf(segment) in KnownIDs(ledger) then [] else [segment]
    ensures KnownIDs(ledger) + KnownIDs(head) == KnownIDs(ledger) + {EventIDOf(segment)}
  {
    assert head == [segment] ==> segment in head;
  }

  lemma InvAfter(adapter: Adapter, ledger: seq<Event>, files: map<string, Bytes>, path: string, b: Bytes,
                 pending: seq<Event>, known: set<EventID>, start: nat)
    requires Inv(adapter, ledger, files) && start <= TerminatedEnd(b)
    requires LinesOf(pending, path) == Unknown(known, Candidates(adapter, path, b, start))
    requires (forall other :: other != path ==> LinesOf(pending, other) == []) && NeverShrank(pending)
    requires forall e :: e in pending && e.Line? && IsPartial(e.core) ==> Unterminated(e.core.raw)
    requires Expected(adapter, path, b) == LinesOf(ledger, path) + Unknown(known, Candidates(adapter, path, b, start))
    ensures Inv(adapter, ledger + pending, files[path := b])
  {
    hide Candidates, TerminatedEnd, Unknown, LinesOf, Expected;
    forall p
      ensures LinesOf(ledger + pending, p) == Expected(adapter, p, BytesOf(files[path := b], p))
    {
      LinesConcat(ledger, pending, p);
      assert LinesOf(ledger, p) + [] == LinesOf(ledger, p);
    }
  }

  lemma CurrentAfter(adapter: Adapter, known: set<EventID>, after: map<string, nat>, offsets: map<string, nat>,
                     ledger: seq<Event>, pending: seq<Event>, files: map<string, Bytes>, path: string, b: Bytes, start: nat)
    requires Positional(adapter) && Inv(adapter, ledger, files) && Inv(adapter, ledger + pending, files[path := b])
    requires Grown(BytesOf(files, path), b) && start <= TerminatedEnd(b)
    requires start == 0 || start == TerminatedEnd(BytesOf(files, path))
    requires forall p :: OffsetIn(offsets, p) == LedgerOffset(ledger, p)
    requires forall other :: other != path ==> LinesOf(pending, other) == []
    requires known == KnownIDs(ledger + pending)
    requires after == if start < TerminatedEnd(b) then offsets[path := TerminatedEnd(b)] else offsets
    ensures Loaded(known, after, ledger + pending)
  {
    hide Candidates, TerminatedEnd, LinesOf, Expected, MaxEnd, KnownIDs, Positional, LedgerOffset;
    ResumedOffset(adapter, path, b);
    ResumedOffset(adapter, path, BytesOf(files, path));
    TerminatedGrows(BytesOf(files, path), b);
    forall p
      ensures OffsetIn(after, p) == LedgerOffset(ledger + pending, p)
    {
      OffsetIsMaxEnd(ledger, p);
      OffsetIsMaxEnd(ledger + pending, p);
      LinesConcat(ledger, pending, p);
      assert LinesOf(ledger, p) + [] == LinesOf(ledger, p);
    }
  }

  // ---- Whole histories ----

  datatype Source = Source(path: string, bytes: Bytes)

  /** One import of an explicit set of sources, or records that other adapters append in between. */
  datatype Entry = Import(sources: seq<Source>, full: bool) | Others(texts: seq<string>)

  function Updated(files: map<string, Bytes>, sources: seq<Source>): map<string, Bytes> {
    if sources == [] then files
    else
      var n := |sources| - 1;
      Updated(files, sources[..n])[sources[n].path := sources[n].bytes]
  }

  /** Every source only grows. */
  ghost predicate SourcesGrow(files: map<string, Bytes>, sources: seq<Source>) {
    forall i :: 0 <= i < |sources| ==> Grown(BytesOf(Updated(files, sources[..i]), sources[i].path), sources[i].bytes)
  }

  function FilesAfter(history: seq<Entry>): map<string, Bytes> {
    if history == [] then map[]
    else
      var n := |history| - 1;
      match history[n]
      case Import(sources, _) => Updated(FilesAfter(history[..n]), sources)
      case Others(_) => FilesAfter(history[..n])
  }

  ghost predicate OnlyGrows(history: seq<Entry>) {
    forall i :: 0 <= i < |history| && history[i].Import? ==>
      SourcesGrow(FilesAfter(history[..i]), history[i].sources)
  }

  lemma UpdatedNext(files: map<string, Bytes>, sources: seq<Source>, i: nat)
    requires i < |sources|
    ensures Updated(files, sources[..i + 1]) == Updated(files, sources[..i])[sources[i].path := sources[i].bytes]
    ensures Updated(files, sources[..0]) == files
  {
    assert sources[..i + 1][..i] == sources[..i];
  }

  /** Every source of the import is what the ledger last saw. */
  ghost predicate Unchanged(files: map<string, Bytes>, sources: seq<Source>) {
    forall s :: s in sources ==> s.bytes == BytesOf(files, s.path)
  }

  lemma {:induction false} UnchangedFiles(files: map<string, Bytes>, sources: seq<Source>, i: nat)
    requires Unchanged(files, sources) && i <= |sources|
    ensures forall path :: BytesOf(Updated(files, sources[..i]), path) == BytesOf(files, path)
  {
    if i > 0 {
      UpdatedNext(files, sources, i - 1);
      UnchangedFiles(files, sources, i - 1);
      assert sources[i - 1] in sources;
    }
  }

  /** ImportSources: the state is loaded from the ledger, the files are imported one after the other, and the
      events are appended. Importing unchanged sources appends no line event, incrementally or in full. */
  method ImportSources(adapter: Adapter, ledger: seq<Event>, ghost files: map<string, Bytes>, sources: seq<Source>,
                       full: bool)
    returns (after: seq<Event>)
    requires Positional(adapter) && Inv(adapter, ledger, files) && SourcesGrow(files, sources)
    ensures ledger <= after && Inv(adapter, after, Updated(files, sources))
    ensures Unchanged(files, sources) ==> forall path :: LinesOf(after[|ledger|..], path) == []
  {
    hide Positional, Inv, LinesOf, Grown, Unchanged, Updated, Loaded, KnownIDs, LedgerOffset;
    var state := new ImportState(ledger);
    assert Current(state, ledger) by { LoadedFrom(state.knownIDs, state.committed, ledger); }
    after := ledger;
    assert sources[..0] == [] && ledger[|ledger|..] == [];
    NoLines();
    NoUpdates(files);
    var i := 0;
    while i < |sources|
      invariant 0 <= i <= |sources| && ledger <= after && fresh(state)
      invariant Current(state, after) && Inv(adapter, after, Updated(files, sources[..i]))
      invariant Unchanged(files, sources) ==> forall path :: LinesOf(after[|ledger|..], path) == []
    {
      ghost var now := Updated(files, sources[..i]);
      UpdatedNext(files, sources, i);
      var pending := ImportFile(adapter, state, after, now, sources[i].path, sources[i].bytes, full);
      if Unchanged(files, sources) {
        UnchangedSource(files, sources, i);
        forall path
          ensures LinesOf((after + pending)[|ledger|..], path) == []
        {
          assert (after + pending)[|ledger|..] == after[|ledger|..] + pending;
          LinesConcat(after[|ledger|..], pending, path);
        }
      }
      after := after + pending;
      i := i + 1;
    }
    assert sources[..i] == sources;
  }

  lemma LoadedFrom(known: set<EventID>, offsets: map<string, nat>, ledger: seq<Event>)
    requires known == KnownIDs(ledger) && forall path :: OffsetIn(offsets, path) == LedgerOffset(ledger, path)
    ensures Loaded(known, offsets, ledger)
  {
  }

  lemma NoUpdates(files: map<string, Bytes>)
    ensures Updated(files, []) == files
  {
  }

  lemma UnchangedSource(files: map<string, Bytes>, sources: seq<Source>, i: nat)
    requires Unchanged(files, sources) && i < |sources|
    ensures sources[i].bytes == BytesOf(Updated(files, sources[..i]), sources[i].path)
  {
    UnchangedFiles(files, sources, i);
    assert sources[i] in sources;
  }

  lemma OthersKeepInv(adapter: Adapter, ledger: seq<Event>, files: map<string, Bytes>, texts: seq<string>)
    requires Inv(adapter, ledger, files)
    ensures Inv(adapter, ledger + OthersEvents(texts), files)
  {
    hide Expected, LinesOf;
    forall path
      ensures LinesOf(ledger + OthersEvents(texts), path) == LinesOf(ledger, path)
    {
      LinesConcat(ledger, OthersEvents(texts), path);
      OthersLines(texts, path);
      assert LinesOf(ledger, path) + [] == LinesOf(ledger, path);
    }
  }

  function OthersEvents(texts: seq<string>): (r: seq<Event>)
    ensures |r| == |texts| && forall i :: 0 <= i < |r| ==> r[i] == Foreign(texts[i])
  {
    seq(|texts|, i requires 0 <= i < |texts| => Foreign(texts[i]))
  }

  lemma {:induction false} OthersLines(texts: seq<string>, path: string)
    ensures LinesOf(OthersEvents(texts), path) == []
  {
    if texts != [] {
      OthersLines(texts[..|texts| - 1], path);
      assert OthersEvents(texts)[..|texts| - 1] == OthersEvents(texts[..|texts| - 1]);
    }
  }

  lemma HistoryNext(history: seq<Entry>, i: nat)
    requires i < |history|
    ensures FilesAfter(history[..i + 1]) ==
            match history[i]
            case Import(sources, _) => Updated(FilesAfter(history[..i]), sources)
            case Others(_) => FilesAfter(history[..i])
    ensures FilesAfter(history[..0]) == map[]
  {
    assert history[..i + 1][..i] == history[..i];
  }

  lemma EmptyLedger(adapter: Adapter)
    ensures Inv(adapter, [], map[])
  {
    forall path
      ensures Expected(adapter, path, []) == []
    {
    }
  }

  /** Any history of imports of growing sources, incremental or in full, interleaved with what other adapters write,
      leaves for each source exactly the line events that one import of its final bytes records, and these record every
      terminated line as what it is. */
  method RunHistory(adapter: Adapter, history: seq<Entry>) returns (ledger: seq<Event>)
    requires Positional(adapter) && OnlyGrows(history)
    ensures Inv(adapter, ledger, FilesAfter(history))
    ensures forall path :: LinesOf(ledger, path) == Expected(adapter, path, BytesOf(FilesAfter(history), path))
    ensures forall path :: Records(adapter, path, BytesOf(FilesAfter(history), path), LinesOf(ledger, path))
  {
    hide Positional, LinesOf, SourcesGrow, Expected, FilesAfter, Records;
    ledger := [];
    EmptyLedger(adapter);
    NoHistory();
    assert history[..0] == [];
    var i := 0;
    while i < |history|
      invariant 0 <= i <= |history|
      invariant Inv(adapter, ledger, FilesAfter(history[..i]))
    {
      HistoryNext(history, i);
      match history[i] {
        case Import(sources, full) =>
          ledger := ImportSources(adapter, ledger, FilesAfter(history[..i]), sources, full);
        case Others(texts) =>
          OthersKeepInv(adapter, ledger, FilesAfter(history[..i]), texts);
          ledger := ledger + OthersEvents(texts);
      }
      i := i + 1;
    }
    assert history[..i] == history;
    forall path
      ensures Records(adapter, path, BytesOf(FilesAfter(history), path), LinesOf(ledger, path))
    {
      ExpectedRecords(adapter, path, BytesOf(FilesAfter(history), path));
    }
  }

  lemma NoHistory()
    ensures FilesAfter([]) == map[]
  {
  }

  // ---- The ranges tile the source ----

  /** The ranges of the lines from `from` on. */
  function Ranges(b: Bytes, from: nat): seq<(nat, nat)>
    requires from <= TerminatedEnd(b)
    decreases |b| - from
  {
    if from == TerminatedEnd(b) then []
    else
      LineInside(b, from);
      [(from, LineEnd(b, from))] + Ranges(b, LineEnd(b, from))
  }

  /** The range at `k` is not empty, starts where the one before ends, and ends with a newline. */
  predicate TileAt(r: seq<(nat, nat)>, b: Bytes, from: nat, k: nat)
    requires k < |r|
  {
    r[k].0 < r[k].1 <= |b| && r[k].0 == (if k == 0 then from else r[k - 1].1) && b[r[k].1 - 1] == NEWLINE
  }

  /** Adjacent ranges of terminated lines, from one place to another. */
  predicate Tiles(r: seq<(nat, nat)>, b: Bytes, from: nat, to: nat) {
    (forall k :: 0 <= k < |r| ==> TileAt(r, b, from, k)) && (if r == [] then from else r[|r| - 1].1) == to
  }

  lemma TilesNext(r: seq<(nat, nat)>, b: Bytes, from: nat, end: nat, to: nat)
    requires Tiles(r, b, end, to) && from < end <= |b| && b[end - 1] == NEWLINE
    ensures Tiles([(from, end)] + r, b, from, to)
  {
    var more := [(from, end)] + r;
    forall k | 0 <= k < |more|
      ensures TileAt(more, b, from, k)
    {
      if k > 0 {
        assert TileAt(r, b, end, k - 1);
      }
    }
  }

  lemma {:induction false} RangesAdjacent(b: Bytes, from: nat)
    requires from <= TerminatedEnd(b)
    ensures Tiles(Ranges(b, from), b, from, TerminatedEnd(b))
    decreases |b| - from
  {
    hide LineEnd, TerminatedEnd, Tiles;
    if from < TerminatedEnd(b) {
      LineInside(b, from);
      RangesAdjacent(b, LineEnd(b, from));
      RangesStep(b, from);
      TilesNext(Ranges(b, LineEnd(b, from)), b, from, LineEnd(b, from), TerminatedEnd(b));
    } else {
      NoTiles(b, from);
    }
  }

  lemma NoTiles(b: Bytes, from: nat)
    ensures Tiles([], b, from, from)
  {
  }

  lemma RangesStep(b: Bytes, from: nat)
    requires from < TerminatedEnd(b)
    ensures LineEnd(b, from) <= TerminatedEnd(b) && from < LineEnd(b, from)
    ensures Ranges(b, from) == [(from, LineEnd(b, from))] + Ranges(b, LineEnd(b, from))
  {
    LineInside(b, from);
  }

  /** The ranges are those of the recorded events. */
  lemma {:induction false} RangesRecorded(adapter: Adapter, path: string, b: Bytes, from: nat)
    requires from <= TerminatedEnd(b)
    ensures forall x :: x in Ranges(b, from) <==> exists c :: c in Candidates(adapter, path, b, from) && (c.start, c.end) == x
    decreases |b| - from
  {
    hide LineCandidates, LineEnd, TerminatedEnd, Ranges, Candidates;
    if from < TerminatedEnd(b) {
      CandidatesStep(adapter, path, b, from);
      RangesStep(b, from);
      var end := LineEnd(b, from);
      var line, rest := LineCandidates(adapter, path, b[from..end], from), Candidates(adapter, path, b, end);
      SameStart(adapter, path, b, from);
      RangesRecorded(adapter, path, b, end);
      assert line[0] in line;
      assert forall c :: c in line + rest <==> c in line || c in rest;
    } else {
      NothingLeft(adapter, path, b);
      NoRanges(b);
    }
  }

  lemma NoRanges(b: Bytes)
    ensures TerminatedEnd(b) <= |b| && Ranges(b, TerminatedEnd(b)) == []
  {
  }

  /** The ranges of the recorded events are adjacent and cover everything up to the last newline. */
  lemma RangesTile(adapter: Adapter, path: string, b: Bytes, from: nat)
    requires from <= TerminatedEnd(b)
    ensures Tiles(Ranges(b, from), b, from, TerminatedEnd(b))
    ensures forall x :: x in Ranges(b, from) <==> exists c :: c in Candidates(adapter, path, b, from) && (c.start, c.end) == x
  {
    hide Ranges, Tiles, Candidates, TerminatedEnd;
    RangesAdjacent(b, from);
    RangesRecorded(adapter, path, b, from);
  }

  lemma SameStart(adapter: Adapter, path: string, b: Bytes, from: nat)
    requires from < TerminatedEnd(b)
    ensures forall c :: c in LineCandidates(adapter, path, b[from..LineEnd(b, from)], from) ==>
              (c.start, c.end) == (from, LineEnd(b, from))
  {
    hide LineCandidates;
    var end := LineEnd(b, from);
    forall c | c in LineCandidates(adapter, path, b[from..end], from)
      ensures (c.start, c.end) == (from, end)
    {
      CandidateAt(adapter, path, b[from..end], from, c);
    }
  }

  // ---- Each event once, and none dropped ----

  /** No event is recorded twice. */
  lemma {:induction false} UnknownDistinct(known: set<EventID>, cores: seq<Core>)
    ensures DistinctIDs(Unknown(known, cores)) && forall c :: c in Unknown(known, cores) ==> IDOf(c) !in known
    decreases |cores|
  {
    hide IDOf;
    if cores != [] {
      if IDOf(cores[0]) in known {
        UnknownDistinct(known, cores[1..]);
      } else {
        UnknownDistinct(known + {IDOf(cores[0])}, cores[1..]);
        var rest := Unknown(known + {IDOf(cores[0])}, cores[1..]);
        assert forall i :: 0 <= i < |rest| ==> rest[i] in rest;
      }
    }
  }

  /** No supplied key contains the marker of a duplicate. */
  ghost predicate PlainKeys(adapter: Adapter) {
    forall line :: Plain(adapter.project(line))
  }

  lemma {:induction false} CandidatesDistinct(adapter: Adapter, path: string, b: Bytes, from: nat)
    requires PlainKeys(adapter) && Positional(adapter) && from <= TerminatedEnd(b)
    ensures DistinctIDs(Candidates(adapter, path, b, from))
    decreases |b| - from
  {
    hide LineCandidates, LineEnd, TerminatedEnd, Plain, Positional;
    if from < TerminatedEnd(b) {
      CandidatesStep(adapter, path, b, from);
      var end := LineEnd(b, from);
      var line, rest := LineCandidates(adapter, path, b[from..end], from), Candidates(adapter, path, b, end);
      LineDistinct(adapter, path, b[from..end], from);
      CandidatesDistinct(adapter, path, b, end);
      SameStart(adapter, path, b, from);
      CandidatesWithin(adapter, path, b, end);
      forall i, j | 0 <= i < |line| && 0 <= j < |rest|
        ensures IDOf(line[i]) != IDOf(rest[j])
      {
        assert line[i] in line && rest[j] in rest;
      }
    }
  }

  /** With plain keys, de-duplication drops nothing: every projection of every terminated line is recorded. */
  lemma NothingDropped(adapter: Adapter, path: string, b: Bytes)
    requires PlainKeys(adapter) && Positional(adapter)
    ensures Expected(adapter, path, b) == Candidates(adapter, path, b, 0)
  {
    hide Candidates, PlainKeys, Positional;
    CandidatesDistinct(adapter, path, b, 0);
    AllFresh({}, Candidates(adapter, path, b, 0));
  }

  // ---- A projection that is dropped ----

  /** An adapter that makes three projections of every line, with keys that clash. */
  function ClashingAdapter(): Adapter {
    Adapter(line => true, line => Clashing(), path => "thread", text => true)
  }

  function Clashing(): seq<Projection> {
    seq(|K.CLASHING|, i requires 0 <= i < |K.CLASHING| =>
      Projection(K.CLASHING[i], None, OtherKind("message"), "", OtherReason(""), K.CLASHING[i]))
  }

  /** Importing one line with such keys records two of its three projections, although all three say different things. */
  lemma ClashDropsProjection(path: string)
    ensures Positional(ClashingAdapter())
    ensures var b := [48, NEWLINE];
            |Candidates(ClashingAdapter(), path, b, 0)| == 3 && |Expected(ClashingAdapter(), path, b)| == 2
  {
    hide K.Effective, K.KeyAt, K.Earlier;
    var b: Bytes := [48, NEWLINE];
    var adapter := ClashingAdapter();
    assert TerminatedEnd(b) == 2 && LineEnd(b, 0) == 2;
    CandidatesStep(adapter, path, b, 0);
    NothingLeft(adapter, path, b);
    var all := Candidates(adapter, path, b, 0);
    assert b[0..2] == b;
    assert all == LineCandidates(adapter, path, b, 0);
    CandidatesOfLine(adapter, path, b, 0);
    assert ProjectionKeys(Clashing()) == K.CLASHING;
    K.ClashingKeys();
    FirstKey();
    assert IDOf(all[1]) == IDOf(all[2]) && IDOf(all[0]) != IDOf(all[1]);
    assert all == [all[0], all[1], all[2]];
    ThreeUnknown(all[0], all[1], all[2]);
  }

  lemma FirstKey()
    ensures K.KeyAt(K.Effective(K.CLASHING), 0) == "a"
  {
    assert K.Effective(K.CLASHING) == K.CLASHING;
  }

  lemma ThreeUnknown(a: Core, b: Core, c: Core)
    requires IDOf(a) != IDOf(b) == IDOf(c)
    ensures Unknown({}, [a, b, c]) == [a, b]
  {
    hide IDOf;
    assert [a, b, c][1..] == [b, c] && [b, c][1..] == [c] && [c][1..] == [];
    assert {} + {IDOf(a)} == {IDOf(a)};
    assert Unknown({IDOf(a)} + {IDOf(b)}, [c]) == [];
    assert Unknown({IDOf(a)}, [b, c]) == [b] + Unknown({IDOf(a)} + {IDOf(b)}, [c]);
    assert [b] + [] == [b] && [a] + [b] == [a, b];
  }
}
