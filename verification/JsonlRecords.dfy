/** What the ledger says of each line: stated on the recorded events themselves, line by line. */
module JsonlRecords {
  import opened Primitives
  import opened JsonlLines
  import K = JsonlKeys

  // ---- Lines, by their newlines ----

  /** A terminated line: it follows a newline or the beginning, and its only newline is its last byte. */
  ghost predicate IsLine(b: Bytes, start: nat, end: nat) {
    start < end <= |b| && b[end - 1] == NEWLINE && (forall i :: start <= i < end - 1 ==> b[i] != NEWLINE) &&
    (start == 0 || b[start - 1] == NEWLINE)
  }

  /** The events recorded of one range, in order. */
  function EventsAt(cores: seq<Core>, start: nat, end: nat): seq<Core> {
    if cores == [] then []
    else
      var n := |cores| - 1;
      EventsAt(cores[..n], start, end) + if cores[n].start == start && cores[n].end == end then [cores[n]] else []
  }

  // ---- What a line has to leave in the ledger ----

  /** The event says what the projection says, on the thread of the source when the projection names none. */
  predicate Says(adapter: Adapter, path: string, c: Core, p: Projection) {
    c.kind == p.kind && c.reason == p.reason && c.content == p.content && c.identity == p.identity &&
    c.threadID == if adapter.blank(p.threadID) then adapter.threadOf(path) else p.threadID
  }

  ghost predicate Plain(projections: seq<Projection>) {
    forall i :: 0 <= i < |projections| ==> !K.Contains(projections[i].key, K.DUPLICATE)
  }

  /** A line that is not JSON leaves one gap, a valid one without projections one unknown event, and any other one an
      event for each projection, in order; where a supplied key imitates a duplicate, projections may be missing. */
  ghost predicate LineRecorded(adapter: Adapter, path: string, line: Bytes, events: seq<Core>) {
    var projections := adapter.project(line);
    if !adapter.valid(line) then
      |events| == 1 && Says(adapter, path, events[0], Projection("", None, GapKind, "", InvalidTerminated, ""))
    else if projections == [] then
      |events| == 1 &&
      Says(adapter, path, events[0],
           Projection("", None, OtherKind("unknown"), "", OtherReason("valid_json_without_projection"), ""))
    else
      events != [] &&
      (forall c :: c in events ==> exists p :: p in projections && Says(adapter, path, c, p)) &&
      (Plain(projections) ==>
         |events| == |projections| &&
         forall i :: 0 <= i < |events| ==> Says(adapter, path, events[i], projections[i]))
  }

  /** The events of the source are those of its terminated lines, in order; one is a gap exactly when its bytes are not
      valid. */
  ghost predicate Records(adapter: Adapter, path: string, b: Bytes, cores: seq<Core>) {
    (forall c :: c in cores ==>
       c.path == path && IsLine(b, c.start, c.end) && c.raw == b[c.start..c.end] &&
       (c.kind == GapKind <==> !adapter.valid(c.raw)) && (c.kind == GapKind ==> c.reason == InvalidTerminated)) &&
    (forall i, j :: 0 <= i < j < |cores| ==> cores[i].start <= cores[j].start) &&
    forall start: nat, end: nat :: IsLine(b, start, end) ==>
      LineRecorded(adapter, path, b[start..end], EventsAt(cores, start, end))
  }

  // ---- One line ----

  lemma Singleton(cores: seq<Core>)
    requires |cores| == 1
    ensures Unknown({}, cores) == cores
  {
    assert cores[1..] == [];
    assert Unknown({} + {IDOf(cores[0])}, []) == [];
  }

  lemma {:induction false} UnknownFirst(cores: seq<Core>)
    requires cores != []
    ensures Unknown({}, cores) != [] && forall c :: c in Unknown({}, cores) ==> c in cores
  {
    hide IDOf;
    UnknownIDs({}, cores);
  }

  ghost predicate DistinctIDs(cores: seq<Core>) {
    forall i, j :: 0 <= i < j < |cores| ==> IDOf(cores[i]) != IDOf(cores[j])
  }

  lemma {:induction false} AllFresh(known: set<EventID>, cores: seq<Core>)
    requires DistinctIDs(cores) && forall i :: 0 <= i < |cores| ==> IDOf(cores[i]) !in known
    ensures Unknown(known, cores) == cores
    decreases |cores|
  {
    hide IDOf;
    if cores != [] {
      assert forall i :: 0 <= i < |cores| - 1 ==> cores[1..][i] == cores[i + 1];
      AllFresh(known + {IDOf(cores[0])}, cores[1..]);
      assert cores == [cores[0]] + cores[1..];
    }
  }

  lemma PlainFallback(adapter: Adapter, line: Bytes)
    requires Plain(adapter.project(line))
    ensures Plain(ProjectionsOf(adapter, line))
  {
  }

  /** The projections of a line differ in their keys when these are plain. */
  lemma LineDistinct(adapter: Adapter, path: string, line: Bytes, start: nat)
    requires Plain(adapter.project(line)) && Positional(adapter)
    ensures DistinctIDs(LineCandidates(adapter, path, line, start))
  {
    hide ThreadFor, ProjectionsOf, K.Effective, K.KeyAt;
    PlainFallback(adapter, line);
    var projections := ProjectionsOf(adapter, line);
    var keys := ProjectionKeys(projections);
    forall key | key in keys
      ensures !K.Contains(key, K.DUPLICATE)
    {
      var i :| 0 <= i < |keys| && keys[i] == key;
      assert keys[i] == projections[i].key;
    }
    K.PlainKeysDistinct(keys);
    forall c | c in LineCandidates(adapter, path, line, start)
      ensures c.identity.None?
    {
      CandidateAt(adapter, path, line, start, c);
    }
    var all := LineCandidates(adapter, path, line, start);
    forall i, j | 0 <= i < j < |all|
      ensures IDOf(all[i]) != IDOf(all[j])
    {
      assert all[i] in all && all[j] in all;
    }
  }

  lemma CandidatesSay(adapter: Adapter, path: string, line: Bytes, start: nat)
    ensures var projections, all := ProjectionsOf(adapter, line), LineCandidates(adapter, path, line, start);
            |all| == |projections| && forall i :: 0 <= i < |all| ==> Says(adapter, path, all[i], projections[i])
  {
    hide ProjectionsOf, KeyFor;
  }

  lemma LineMeans(adapter: Adapter, path: string, line: Bytes, start: nat)
    requires Positional(adapter)
    ensures LineRecorded(adapter, path, line, Unknown({}, LineCandidates(adapter, path, line, start)))
  {
    hide LineCandidates, Unknown, Says, Positional, IDOf;
    var all := LineCandidates(adapter, path, line, start);
    CandidatesSay(adapter, path, line, start);
    if !adapter.valid(line) || adapter.project(line) == [] {
      Singleton(all);
    } else {
      UnknownFirst(all);
      forall c | c in Unknown({}, all)
        ensures exists p :: p in adapter.project(line) && Says(adapter, path, c, p)
      {
        var i :| 0 <= i < |all| && all[i] == c;
        assert adapter.project(line)[i] in adapter.project(line);
      }
      if Plain(adapter.project(line)) {
        LineDistinct(adapter, path, line, start);
        AllFresh({}, all);
      }
    }
  }

  // ---- All lines ----

  /** Reading starts at the beginning of a line. */
  predicate Aligned(b: Bytes, from: nat) {
    from <= |b| && (from == 0 || b[from - 1] == NEWLINE)
  }

  lemma FirstLine(b: Bytes, from: nat)
    requires Aligned(b, from) && from < TerminatedEnd(b)
    ensures from < LineEnd(b, from) <= TerminatedEnd(b) && IsLine(b, from, LineEnd(b, from))
    ensures Aligned(b, LineEnd(b, from))
    ensures forall start: nat, end: nat :: IsLine(b, start, end) && from <= start ==>
              if start == from then end == LineEnd(b, from) else LineEnd(b, from) <= start
  {
    LineInside(b, from);
    forall start: nat, end: nat | IsLine(b, start, end) && from <= start
      ensures if start == from then end == LineEnd(b, from) else LineEnd(b, from) <= start
    {
      if start == from {
        FirstNewline(b, from, end - 1);
      } else {
        FirstNewline(b, from, start - 1);
      }
    }
  }

  lemma LineIsTerminated(b: Bytes, start: nat, end: nat)
    requires IsLine(b, start, end)
    ensures start < TerminatedEnd(b)
  {
    LastNewline(b, end - 1);
  }

  /** What a candidate of the bytes from `from` on is. */
  ghost predicate OfLine(adapter: Adapter, path: string, b: Bytes, from: nat, c: Core) {
    from <= c.start && c.path == path && IsLine(b, c.start, c.end) && c.raw == b[c.start..c.end] && c.identity.None? &&
    (c.kind == GapKind <==> !adapter.valid(c.raw)) && (c.kind == GapKind ==> c.reason == InvalidTerminated)
  }

  lemma CandidateOfLine(adapter: Adapter, path: string, b: Bytes, from: nat, c: Core)
    requires Positional(adapter) && Aligned(b, from) && from < TerminatedEnd(b)
    requires LineEnd(b, from) <= |b| && c in LineCandidates(adapter, path, b[from..LineEnd(b, from)], from)
    ensures OfLine(adapter, path, b, from, c) && c.start == from && c.end == LineEnd(b, from)
  {
    hide ThreadFor, KeyFor, LineEnd, TerminatedEnd;
    FirstLine(b, from);
    var line := b[from..LineEnd(b, from)];
    var projections := ProjectionsOf(adapter, line);
    var i :| 0 <= i < |projections| && c == CoreOf(adapter, path, line, from, projections[i], KeyFor(projections, i));
    assert projections[i] in projections;
  }

  lemma {:induction false} CandidatesOfLines(adapter: Adapter, path: string, b: Bytes, from: nat)
    requires Positional(adapter) && Aligned(b, from) && from <= TerminatedEnd(b)
    ensures forall c :: c in Candidates(adapter, path, b, from) ==> OfLine(adapter, path, b, from, c)
    ensures Ascending(Candidates(adapter, path, b, from))
    decreases |b| - from
  {
    hide LineCandidates, LineEnd, TerminatedEnd, Positional;
    if from < TerminatedEnd(b) {
      FirstLine(b, from);
      CandidatesStep(adapter, path, b, from);
      var end := LineEnd(b, from);
      var line, rest := LineCandidates(adapter, path, b[from..end], from), Candidates(adapter, path, b, end);
      CandidatesOfLines(adapter, path, b, end);
      forall c | c in line
        ensures OfLine(adapter, path, b, from, c) && c.start == from && c.end == end
      {
        CandidateOfLine(adapter, path, b, from, c);
      }
      OfLineLater(adapter, path, b, from, end);
      AscendingConcat(line, rest, from);
    }
  }

  lemma OfLineLater(adapter: Adapter, path: string, b: Bytes, from: nat, end: nat)
    requires from <= end
    ensures forall c :: OfLine(adapter, path, b, end, c) ==> OfLine(adapter, path, b, from, c) && end <= c.start
  {
  }

  ghost predicate Ascending(cores: seq<Core>) {
    forall i, j :: 0 <= i < j < |cores| ==> cores[i].start <= cores[j].start
  }

  lemma AscendingConcat(a: seq<Core>, b: seq<Core>, at: nat)
    requires Ascending(b) && (forall c :: c in a ==> c.start == at) && forall c :: c in b ==> at <= c.start
    ensures Ascending(a + b)
  {
    forall i, j | 0 <= i < j < |a + b|
      ensures (a + b)[i].start <= (a + b)[j].start
    {
      assert i < |a| ==> (a + b)[i] in a;
      assert j < |a| ==> (a + b)[j] in a;
      assert j >= |a| ==> (a + b)[j] == b[j - |a|] && b[j - |a|] in b;
      assert i >= |a| ==> (a + b)[i] == b[i - |a|];
    }
  }

  lemma {:induction false} UnknownAscends(known: set<EventID>, cores: seq<Core>)
    requires Ascending(cores)
    ensures Ascending(Unknown(known, cores))
    decreases |cores|
  {
    hide IDOf;
    if cores != [] {
      assert forall i :: 0 <= i < |cores| - 1 ==> cores[1..][i] == cores[i + 1];
      if IDOf(cores[0]) in known {
        UnknownAscends(known, cores[1..]);
      } else {
        var rest := Unknown(known + {IDOf(cores[0])}, cores[1..]);
        UnknownAscends(known + {IDOf(cores[0])}, cores[1..]);
        UnknownIDs(known + {IDOf(cores[0])}, cores[1..]);
        forall c | c in rest
          ensures cores[0].start <= c.start
        {
          var i :| 0 <= i < |cores[1..]| && cores[1..][i] == c;
          assert c == cores[i + 1];
        }
      }
    }
  }

  lemma {:induction false} EventsAtConcat(a: seq<Core>, b: seq<Core>, start: nat, end: nat)
    ensures EventsAt(a + b, start, end) == EventsAt(a, start, end) + EventsAt(b, start, end)
  {
    if b == [] {
      assert a + b == a;
    } else {
      var n := |b| - 1;
      assert (a + b)[..|a| + n] == a + b[..n];
      EventsAtConcat(a, b[..n], start, end);
    }
  }

  lemma {:induction false} AllAt(cores: seq<Core>, start: nat, end: nat)
    ensures (forall c :: c in cores ==> c.start == start && c.end == end) ==> EventsAt(cores, start, end) == cores
    ensures (forall c :: c in cores ==> c.start != start) ==> EventsAt(cores, start, end) == []
  {
    if cores != [] {
      var n := |cores| - 1;
      assert cores == cores[..n] + [cores[n]];
      AllAt(cores[..n], start, end);
    }
  }

  lemma LineApart(line: seq<Core>, rest: seq<Core>, from: nat, known: set<EventID>)
    requires forall c :: c in line ==> c.identity.None? && c.start == from
    requires forall c :: c in rest ==> c.identity.None? && c.start != from
    ensures Unknown(known + IDs(line), rest) == Unknown(known, rest)
  {
    UnknownLocal(known + IDs(line), known, rest);
  }

  /** The events of a line are the unknown ones among its own candidates. */
  lemma {:induction false} EventsOfLine(adapter: Adapter, path: string, b: Bytes, from: nat, start: nat, end: nat)
    requires Positional(adapter) && Aligned(b, from) && from <= TerminatedEnd(b)
    requires IsLine(b, start, end) && from <= start
    ensures EventsAt(Unknown({}, Candidates(adapter, path, b, from)), start, end) ==
            Unknown({}, LineCandidates(adapter, path, b[start..end], start))
    decreases |b| - from
  {
    hide LineCandidates, LineEnd, TerminatedEnd, Positional, IDOf, IDs, Unknown, IsLine, OfLine, Aligned;
    LineIsTerminated(b, start, end);
    FirstLine(b, from);
    CandidatesStep(adapter, path, b, from);
    var next := LineEnd(b, from);
    var line, rest := LineCandidates(adapter, path, b[from..next], from), Candidates(adapter, path, b, next);
    LineAndRest(adapter, path, b, from, next);
    UnknownConcat({}, line, rest);
    LineApart(line, rest, from, {});
    var mine, others := Unknown({}, line), Unknown({}, rest);
    assert {} + IDs(line) == IDs(line);
    EventsAtConcat(mine, others, start, end);
    UnknownIDs({}, line);
    UnknownIDs({}, rest);
    AllAt(mine, start, end);
    if start == from {
      AllAt(others, start, end);
    } else {
      EventsOfLine(adapter, path, b, next, start, end);
    }
  }

  lemma LineAndRest(adapter: Adapter, path: string, b: Bytes, from: nat, next: nat)
    requires Positional(adapter) && Aligned(b, from) && from < TerminatedEnd(b) && next == LineEnd(b, from)
    ensures from < next <= TerminatedEnd(b)
    ensures forall c :: c in LineCandidates(adapter, path, b[from..next], from) ==>
              c.identity.None? && c.start == from && c.end == next
    ensures forall c :: c in Candidates(adapter, path, b, next) ==> c.identity.None? && next <= c.start
  {
    hide LineCandidates, Candidates, LineEnd, TerminatedEnd, Positional, IsLine;
    FirstLine(b, from);
    CandidatesOfLines(adapter, path, b, next);
    forall c | c in LineCandidates(adapter, path, b[from..next], from)
      ensures c.identity.None? && c.start == from && c.end == next
    {
      CandidateOfLine(adapter, path, b, from, c);
    }
  }

  /** What one import of the bytes records, said of every line. */
  lemma ExpectedRecords(adapter: Adapter, path: string, b: Bytes)
    requires Positional(adapter)
    ensures Records(adapter, path, b, Expected(adapter, path, b))
  {
    hide Candidates, Unknown, LineCandidates, LineRecorded, Positional, EventsAt;
    var all := Candidates(adapter, path, b, 0);
    CandidatesOfLines(adapter, path, b, 0);
    UnknownIDs({}, all);
    UnknownAscends({}, all);
    forall start: nat, end: nat | IsLine(b, start, end)
      ensures LineRecorded(adapter, path, b[start..end], EventsAt(Unknown({}, all), start, end))
    {
      EventsOfLine(adapter, path, b, 0, start, end);
      LineMeans(adapter, path, b[start..end], start);
    }
  }
}
