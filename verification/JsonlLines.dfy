/** The lines of a growing file and the events they stand for. */
module JsonlLines {
  import opened Primitives
  import K = JsonlKeys

  type Byte = b: int | 0 <= b < 256

  type Bytes = seq<Byte>

  const NEWLINE: Byte := 10

  datatype Kind = GapKind | OtherKind(name: string)

  datatype Reason = TrailingPartial | InvalidTerminated | OtherReason(text: string)

  /** What an adapter makes of a line: keys may be blank, an identity of its own is optional, and the rest is carried
      along. */
  datatype Projection = Projection(key: string, identity: Option<string>, kind: Kind, threadID: string, reason: Reason,
                                   content: string)

  /** An agent's adapter; the thread of a source does not change while the source grows. */
  datatype Adapter = Adapter(valid: Bytes -> bool, project: Bytes -> seq<Projection>, threadOf: string -> string,
                             blank: string -> bool)

  /** What a line event records, apart from the segment it was read from and the time. The identity of the event is
      the digest of the identity that the adapter gave it, if any, and otherwise of source, thread, range, raw bytes and
      key. */
  datatype Core = Core(path: string, threadID: string, start: nat, end: nat, raw: Bytes, key: string,
                       identity: Option<string>, kind: Kind, reason: Reason, content: string)

  datatype EventID =
    | SegmentID(path: string, start: nat, end: nat, bytes: Bytes)
    | LineID(path: string, threadID: string, start: nat, end: nat, raw: Bytes, key: string)
    | StableID(identity: string)
    | TruncationID(path: string, previous: nat, current: nat)
    | ForeignID(text: string)

  function IDOf(c: Core): EventID {
    match c.identity
    case Some(identity) => StableID(identity)
    case None => LineID(c.path, c.threadID, c.start, c.end, c.raw, c.key)
  }

  function IDs(cores: seq<Core>): set<EventID> {
    set c | c in cores :: IDOf(c)
  }

  // ---- Lines ----

  /** The end of the line that starts at `from`: past its newline, or the end of the bytes. */
  function LineEnd(b: Bytes, from: nat): (end: nat)
    requires from < |b|
    ensures from < end <= |b|
    ensures forall i :: from <= i < end - 1 ==> b[i] != NEWLINE
    ensures b[end - 1] != NEWLINE ==> end == |b|
    decreases |b| - from
  {
    if b[from] == NEWLINE || from + 1 == |b| then from + 1 else LineEnd(b, from + 1)
  }

  /** bufio's ReadBytes: scans for the newline. */
  method ReadLine(b: Bytes, from: nat) returns (end: nat)
    requires from < |b|
    ensures end == LineEnd(b, from)
  {
    end := from + 1;
    while b[end - 1] != NEWLINE && end < |b|
      invariant from < end <= |b|
      invariant LineEnd(b, from) == LineEnd(b, end - 1)
      decreases |b| - end
    {
      end := end + 1;
    }
  }

  /** The end of the last terminated line. */
  function TerminatedEnd(b: Bytes): (end: nat)
    ensures end <= |b| && (end > 0 ==> b[end - 1] == NEWLINE)
    ensures forall i :: end <= i < |b| ==> b[i] != NEWLINE
  {
    if b == [] then 0
    else if b[|b| - 1] == NEWLINE then |b|
    else
      var end := TerminatedEnd(b[..|b| - 1]);
      assert forall i :: end <= i < |b| - 1 ==> b[i] == b[..|b| - 1][i];
      end
  }

  lemma FirstNewline(b: Bytes, from: nat, i: nat)
    requires from <= i < |b| && b[i] == NEWLINE
    ensures LineEnd(b, from) <= i + 1
  {
  }

  lemma LastNewline(b: Bytes, i: nat)
    requires i < |b| && b[i] == NEWLINE
    ensures i < TerminatedEnd(b)
  {
  }

  lemma LineInside(b: Bytes, from: nat)
    requires from < TerminatedEnd(b)
    ensures LineEnd(b, from) <= TerminatedEnd(b) && b[LineEnd(b, from) - 1] == NEWLINE
  {
    FirstNewline(b, from, TerminatedEnd(b) - 1);
  }

  lemma {:induction false} LineOfPrefix(b: Bytes, more: Bytes, from: nat)
    requires Grown(b, more) && from < |b| && b[LineEnd(b, from) - 1] == NEWLINE
    ensures LineEnd(more, from) == LineEnd(b, from)
  {
    var x, y := LineEnd(b, from), LineEnd(more, from);
    assert forall i :: 0 <= i < |b| ==> more[i] == b[i];
    FirstNewline(more, from, x - 1);
    if more[y - 1] == NEWLINE {
      FirstNewline(b, from, y - 1);
    }
  }

  // ---- The events of a line ----

  function ProjectionKeys(projections: seq<Projection>): seq<string> {
    seq(|projections|, i requires 0 <= i < |projections| => projections[i].key)
  }

  /** The key under which the projection at `i` is recorded. */
  function KeyFor(projections: seq<Projection>, i: nat): string
    requires i < |projections|
  {
    var keys := ProjectionKeys(projections);
    if keys == [""] then "" else K.KeyAt(K.Effective(keys), i)
  }

  function ThreadFor(adapter: Adapter, path: string, threadID: string): string {
    if adapter.blank(threadID) then adapter.threadOf(path) else threadID
  }

  function GapProjection(reason: Reason): Projection {
    Projection("", None, GapKind, "", reason, "")
  }

  /** The projections of a terminated line: a gap when it is not valid JSON, something even when the adapter
      projects nothing. */
  function ProjectionsOf(adapter: Adapter, line: Bytes): (r: seq<Projection>)
    ensures r != []
  {
    if !adapter.valid(line) then [GapProjection(InvalidTerminated)]
    else if adapter.project(line) == [] then
      [Projection("", None, OtherKind("unknown"), "", OtherReason("valid_json_without_projection"), "")]
    else adapter.project(line)
  }

  function CoreOf(adapter: Adapter, path: string, line: Bytes, start: nat, p: Projection, key: string): Core {
    Core(path, ThreadFor(adapter, path, p.threadID), start, start + |line|, line, key, p.identity, p.kind, p.reason,
         p.content)
  }

  function LineCandidates(adapter: Adapter, path: string, line: Bytes, start: nat): (r: seq<Core>)
    ensures |r| > 0
  {
    var projections := ProjectionsOf(adapter, line);
    seq(|projections|, i requires 0 <= i < |projections| =>
      CoreOf(adapter, path, line, start, projections[i], KeyFor(projections, i)))
  }

  /** The candidates of every terminated line from `from` on. */
  function Candidates(adapter: Adapter, path: string, b: Bytes, from: nat): seq<Core>
    requires from <= TerminatedEnd(b)
    decreases |b| - from
  {
    if from == TerminatedEnd(b) then []
    else
      LineInside(b, from);
      var end := LineEnd(b, from);
      LineCandidates(adapter, path, b[from..end], from) + Candidates(adapter, path, b, end)
  }

  /** The cores that are not known yet, each identity once. */
  function Unknown(known: set<EventID>, cores: seq<Core>): seq<Core>
    decreases |cores|
  {
    if cores == [] then []
    else if IDOf(cores[0]) in known then Unknown(known, cores[1..])
    else [cores[0]] + Unknown(known + {IDOf(cores[0])}, cores[1..])
  }

  /** What one import of the bytes records of their terminated lines. */
  function Expected(adapter: Adapter, path: string, b: Bytes): seq<Core> {
    Unknown({}, Candidates(adapter, path, b, 0))
  }

  /** The adapter projects no gap of its own, and its events are identified by their position. */
  ghost predicate Positional(adapter: Adapter) {
    forall line, p :: p in adapter.project(line) ==> p.kind != GapKind && p.identity.None?
  }

  /** What a positional adapter makes of a terminated line. */
  predicate IsPositional(c: Core) {
    c.identity.None? && (c.kind != GapKind || c.reason.InvalidTerminated?)
  }

  // ---- De-duplication ----

  lemma IDsFirst(cores: seq<Core>)
    ensures IDs(cores) == if cores == [] then {} else {IDOf(cores[0])} + IDs(cores[1..])
  {
    if cores != [] {
      assert cores == [cores[0]] + cores[1..];
    }
  }

  lemma {:induction false} UnknownConcat(known: set<EventID>, a: seq<Core>, b: seq<Core>)
    ensures Unknown(known, a + b) == Unknown(known, a) + Unknown(known + IDs(a), b)
    decreases |a|
  {
    hide IDOf, IDs;
    if a == [] {
      IDsFirst(a);
      assert a + b == b && known + IDs(a) == known;
    } else {
      assert (a + b)[1..] == a[1..] + b && (a + b)[0] == a[0];
      IDsFirst(a);
      if IDOf(a[0]) in known {
        UnknownConcat(known, a[1..], b);
        assert known + IDs(a) == known + IDs(a[1..]);
      } else {
        UnknownConcat(known + {IDOf(a[0])}, a[1..], b);
        assert known + IDs(a) == known + {IDOf(a[0])} + IDs(a[1..]);
      }
    }
  }

  /** Only the identities among the cores matter. */
  lemma {:induction false} UnknownLocal(known: set<EventID>, other: set<EventID>, cores: seq<Core>)
    requires forall c :: c in cores ==> (IDOf(c) in known <==> IDOf(c) in other)
    ensures Unknown(known, cores) == Unknown(other, cores)
    decreases |cores|
  {
    if cores != [] {
      assert forall c :: c in cores[1..] ==> c in cores;
      if IDOf(cores[0]) in known {
        UnknownLocal(known, other, cores[1..]);
      } else {
        UnknownLocal(known + {IDOf(cores[0])}, other + {IDOf(cores[0])}, cores[1..]);
      }
    }
  }

  lemma {:induction false} AllKnown(known: set<EventID>, cores: seq<Core>)
    requires IDs(cores) <= known
    ensures Unknown(known, cores) == []
    decreases |cores|
  {
    if cores != [] {
      assert IDOf(cores[0]) in IDs(cores);
      assert IDs(cores[1..]) <= IDs(cores);
      AllKnown(known, cores[1..]);
    }
  }

  lemma {:induction false} UnknownIDs(known: set<EventID>, cores: seq<Core>)
    ensures IDs(Unknown(known, cores)) == IDs(cores) - known
    ensures forall c :: c in Unknown(known, cores) ==> c in cores
    decreases |cores|
  {
    if cores != [] {
      assert cores == [cores[0]] + cores[1..];
      assert IDs(cores) == {IDOf(cores[0])} + IDs(cores[1..]);
      if IDOf(cores[0]) in known {
        UnknownIDs(known, cores[1..]);
      } else {
        UnknownIDs(known + {IDOf(cores[0])}, cores[1..]);
        var rest := Unknown(known + {IDOf(cores[0])}, cores[1..]);
        assert IDs([cores[0]] + rest) == {IDOf(cores[0])} + IDs(rest);
      }
    }
  }

  // ---- Growth ----

  ghost predicate Grown(b: Bytes, more: Bytes) {
    |b| <= |more| && more[..|b|] == b
  }

  lemma SliceOfPrefix(b: Bytes, more: Bytes, i: nat, j: nat)
    requires Grown(b, more) && i <= j <= |b|
    ensures more[i..j] == b[i..j]
  {
    assert forall k :: 0 <= k < |b| ==> more[k] == more[..|b|][k] == b[k];
  }

  lemma TerminatedGrows(b: Bytes, more: Bytes)
    requires Grown(b, more)
    ensures TerminatedEnd(b) <= TerminatedEnd(more)
  {
    var end := TerminatedEnd(b);
    if end > 0 {
      assert more[end - 1] == more[..|b|][end - 1];
      LastNewline(more, end - 1);
    }
  }

  lemma CandidatesStep(adapter: Adapter, path: string, b: Bytes, from: nat)
    requires from < TerminatedEnd(b)
    ensures from < LineEnd(b, from) <= TerminatedEnd(b) && b[LineEnd(b, from) - 1] == NEWLINE
    ensures Candidates(adapter, path, b, from) ==
            LineCandidates(adapter, path, b[from..LineEnd(b, from)], from) +
            Candidates(adapter, path, b, LineEnd(b, from))
  {
    hide LineCandidates;
    LineInside(b, from);
  }

  /** The terminated lines of the old bytes are terminated lines of the new ones, at the same places. */
  lemma {:induction false} CandidatesGrow(adapter: Adapter, path: string, b: Bytes, more: Bytes, from: nat)
    requires Grown(b, more) && from <= TerminatedEnd(b)
    ensures TerminatedEnd(b) <= TerminatedEnd(more)
    ensures Candidates(adapter, path, more, from) ==
            Candidates(adapter, path, b, from) + Candidates(adapter, path, more, TerminatedEnd(b))
    decreases |b| - from
  {
    hide LineCandidates, LineEnd, TerminatedEnd;
    TerminatedGrows(b, more);
    if from < TerminatedEnd(b) {
      CandidatesStep(adapter, path, b, from);
      CandidatesStep(adapter, path, more, from);
      LineOfPrefix(b, more, from);
      var next := LineEnd(b, from);
      SliceOfPrefix(b, more, from, next);
      CandidatesGrow(adapter, path, b, more, next);
    }
  }

  /** A core of a terminated line that starts in `from..` and ends by `to`. */
  predicate Within(c: Core, path: string, b: Bytes, from: nat, to: nat) {
    c.path == path && from <= c.start < c.end <= to <= |b| && c.raw == b[c.start..c.end] &&
    c.raw[|c.raw| - 1] == NEWLINE
  }

  /** What the projections of a line become. */
  lemma CandidateAt(adapter: Adapter, path: string, line: Bytes, start: nat, c: Core)
    requires c in LineCandidates(adapter, path, line, start)
    ensures c.path == path && c.start == start && c.end == start + |line| && c.raw == line
    ensures Positional(adapter) ==> IsPositional(c)
  {
    hide ThreadFor, KeyFor;
    var projections := ProjectionsOf(adapter, line);
    var i :| 0 <= i < |projections| && c == CoreOf(adapter, path, line, start, projections[i], KeyFor(projections, i));
    assert projections[i] in projections;
  }

  lemma LineWithin(adapter: Adapter, path: string, b: Bytes, from: nat)
    requires from < TerminatedEnd(b)
    ensures LineEnd(b, from) <= TerminatedEnd(b)
    ensures var line := LineCandidates(adapter, path, b[from..LineEnd(b, from)], from);
            (forall c :: c in line ==> Within(c, path, b, from, LineEnd(b, from)) && c.end == LineEnd(b, from)) &&
            (Positional(adapter) ==> forall c :: c in line ==> IsPositional(c))
  {
    hide LineCandidates, Positional;
    LineInside(b, from);
    var end := LineEnd(b, from);
    var raw := b[from..end];
    assert raw[|raw| - 1] == b[end - 1];
    forall c | c in LineCandidates(adapter, path, raw, from)
      ensures Within(c, path, b, from, end) && c.end == end
      ensures Positional(adapter) ==> IsPositional(c)
    {
      CandidateAt(adapter, path, raw, from, c);
    }
  }

  /** Every candidate lies within the terminated lines, in its source, and ends with its newline. */
  lemma {:induction false} CandidatesWithin(adapter: Adapter, path: string, b: Bytes, from: nat)
    requires from <= TerminatedEnd(b)
    ensures forall c :: c in Candidates(adapter, path, b, from) ==> Within(c, path, b, from, TerminatedEnd(b))
    ensures from < TerminatedEnd(b) ==> exists c :: c in Candidates(adapter, path, b, from) && c.end == TerminatedEnd(b)
    ensures Positional(adapter) ==> forall c :: c in Candidates(adapter, path, b, from) ==> IsPositional(c)
    decreases |b| - from
  {
    hide LineCandidates, Positional, LineEnd, TerminatedEnd;
    if from < TerminatedEnd(b) {
      LineWithin(adapter, path, b, from);
      var end := LineEnd(b, from);
      var line := LineCandidates(adapter, path, b[from..end], from);
      assert line[0] in line;
      CandidatesWithin(adapter, path, b, end);
    }
  }
}
