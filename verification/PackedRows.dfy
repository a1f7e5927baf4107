/** Packed storage rows of a harness session and their expansion into one event per member. */
module PackedRows {
  import opened Primitives

  /** Machine integers: Dafny checks that no operation on them overflows. */
  newtype Int64 = x: int | -0x8000_0000_0000_0000 <= x <= 0x7fff_ffff_ffff_ffff

  const MAX_SAFE: Int64 := 0x1f_ffff_ffff_ffff

  predicate Safe(x: Int64) {
    -MAX_SAFE <= x <= MAX_SAFE
  }

  predicate SafeInt(x: int) {
    -(MAX_SAFE as int) <= x <= MAX_SAFE as int
  }

  /** A decoded row: None stands for a value that is absent or has another type. */
  datatype Row = Row(tag: string, keys: set<string>, seq0: Option<Int64>, time0: Option<Int64>, data: Option<Data>)

  datatype Data = Data(keys: set<string>, turn: Option<Int64>, step: Option<Int64>, index: Option<Int64>,
                       dt: Option<seq<Int64>>, texts: Option<seq<string>>, args: Option<seq<string>>,
                       id: Option<string>, name: Option<string>)

  datatype Chunk =
    | TextDelta(index: Int64, text: string)
    | ReasoningDelta(index: Int64, text: string)
    | ToolCallDelta(index: Int64, arguments: string, id: string, name: Option<string>)

  datatype Event = Event(seqno: Int64, time: Int64, turn: Int64, step: Int64, chunk: Chunk)

  datatype RowError =
    | BadEnvelope | BadSequence | BadTime | BadData | BadDataKeys | BadPosition | BadDeltas | BadMembers | LengthMismatch
    | SequenceRange | BadCallID | BadCallName | TimeRange

  datatype Expansion = NotPacked | Rejected(error: RowError) | Expanded(events: seq<Event>)

  const TEXT := "text-chunks"
  const REASONING := "reasoning-chunks"
  const TOOL_CALL := "tool-call-chunks"

  predicate IsPacked(tag: string) {
    tag == TEXT || tag == REASONING || tag == TOOL_CALL
  }

  const ENVELOPE_KEYS := {"type", "seq0", "time0", "data"}
  const TEXT_KEYS := {"turn", "step", "index", "dt", "texts"}
  const CALL_KEYS := {"turn", "step", "index", "id", "dt", "args"}
  const NAMED_CALL_KEYS := {"turn", "step", "index", "id", "name", "dt", "args"}

  predicate SafeValue(v: Option<Int64>) {
    v.Some? && Safe(v.value)
  }

  predicate AllSafe(dt: seq<Int64>) {
    forall i :: 0 <= i < |dt| ==> Safe(dt[i])
  }

  function Members(tag: string, d: Data): Option<seq<string>> {
    if tag == TOOL_CALL then d.args else d.texts
  }

  /** The time of a member: the first time plus the deltas up to it, as unbounded integers. */
  function TimeAt(time0: int, dt: seq<Int64>, k: nat): int
    requires k <= |dt|
  {
    if k == 0 then time0 else TimeAt(time0, dt, k - 1) + dt[k - 1] as int
  }

  /** The first deltas keep every time safe. */
  predicate TimesSafe(time0: int, dt: seq<Int64>, n: nat) {
    n <= |dt| && forall k :: 0 <= k <= n ==> SafeInt(TimeAt(time0, dt, k))
  }

  /** The shape that a row has to have before its numbers are looked at together. */
  predicate WellShaped(row: Row) {
    row.keys == ENVELOPE_KEYS && SafeValue(row.seq0) && row.seq0.value >= 0 && SafeValue(row.time0) && row.data.Some? &&
    DataShaped(row.tag, row.data.value)
  }

  predicate DataShaped(tag: string, d: Data) {
    (if tag == TOOL_CALL then d.keys == CALL_KEYS || d.keys == NAMED_CALL_KEYS else d.keys == TEXT_KEYS) &&
    SafeValue(d.turn) && SafeValue(d.step) && SafeValue(d.index) && d.dt.Some? && AllSafe(d.dt.value) &&
    Members(tag, d).Some? && |Members(tag, d).value| == |d.dt.value| + 1 &&
    (tag == TOOL_CALL ==> d.id.Some? && ("name" in d.keys ==> d.name.Some?))
  }

  /** Every sequence number and every time of the row is a safe integer. */
  predicate InRange(row: Row)
    requires WellShaped(row)
  {
    var dt := row.data.value.dt.value;
    SafeInt(row.seq0.value as int + |dt|) && TimesSafe(row.time0.value as int, dt, |dt|)
  }

  predicate Expandable(row: Row) {
    IsPacked(row.tag) && WellShaped(row) && InRange(row)
  }

  function ChunkOf(tag: string, d: Data, member: string): Chunk
    requires IsPacked(tag) && DataShaped(tag, d)
  {
    if tag == TEXT then TextDelta(d.index.value, member)
    else if tag == REASONING then ReasoningDelta(d.index.value, member)
    else ToolCallDelta(d.index.value, member, d.id.value, if "name" in d.keys then d.name else None)
  }

  /** The event that a member stands for. */
  ghost predicate Stands(row: Row, k: nat, e: Event)
    requires IsPacked(row.tag) && WellShaped(row) && k <= |row.data.value.dt.value|
  {
    var d := row.data.value;
    e.seqno as int == row.seq0.value as int + k && e.time as int == TimeAt(row.time0.value as int, d.dt.value, k) &&
    e.turn == d.turn.value && e.step == d.step.value && e.chunk == ChunkOf(row.tag, d, Members(row.tag, d).value[k])
  }

  /** One event per member, in order. */
  ghost predicate IsExpansion(row: Row, events: seq<Event>) {
    Expandable(row) && |events| == |row.data.value.dt.value| + 1 &&
    forall k :: 0 <= k < |events| ==> Stands(row, k, events[k])
  }

  /** The guards on the shape, in the order in which the source takes them. */
  method CheckShape(row: Row) returns (error: Option<RowError>)
    requires IsPacked(row.tag)
    ensures error.None? <==> WellShaped(row) && SafeInt(row.seq0.value as int + |row.data.value.dt.value|)
  {
    if row.keys != ENVELOPE_KEYS {
      return Some(BadEnvelope);
    }
    if !SafeValue(row.seq0) || row.seq0.value < 0 {
      return Some(BadSequence);
    }
    if !SafeValue(row.time0) {
      return Some(BadTime);
    }
    if row.data.None? {
      return Some(BadData);
    }
    var d := row.data.value;
    if row.tag == TOOL_CALL {
      if d.keys != CALL_KEYS && d.keys != NAMED_CALL_KEYS {
        return Some(BadDataKeys);
      }
    } else if d.keys != TEXT_KEYS {
      return Some(BadDataKeys);
    }
    if !SafeValue(d.turn) || !SafeValue(d.step) || !SafeValue(d.index) {
      return Some(BadPosition);
    }
    if d.dt.None? {
      return Some(BadDeltas);
    }
    var i := 0;
    while i < |d.dt.value|
      invariant 0 <= i <= |d.dt.value| && AllSafe(d.dt.value[..i])
    {
      if d.dt.value[i] < -MAX_SAFE || d.dt.value[i] > MAX_SAFE {
        return Some(BadDeltas);
      }
      i := i + 1;
    }
    var members := Members(row.tag, d);
    if members.None? || |members.value| == 0 {
      return Some(BadMembers);
    }
    if |d.dt.value| != |members.value| - 1 {
      return Some(LengthMismatch);
    }
    if |members.value| - 1 > (MAX_SAFE - row.seq0.value) as int {
      return Some(SequenceRange);
    }
    if row.tag == TOOL_CALL {
      if d.id.None? {
        return Some(BadCallID);
      }
      if "name" in d.keys && d.name.None? {
        return Some(BadCallName);
      }
    }
    assert d.dt.value[..i] == d.dt.value;
    return None;
  }

  /** expandStorageRecord. A row is expanded exactly when it has the shape and every number stays safe. */
  method ExpandStorageRecord(row: Row) returns (r: Expansion)
    ensures r.NotPacked? <==> !IsPacked(row.tag)
    ensures r.Expanded? <==> Expandable(row)
    ensures r.Expanded? ==> IsExpansion(row, r.events)
  {
    if !IsPacked(row.tag) {
      return NotPacked;
    }
    var error := CheckShape(row);
    if error.Some? {
      return Rejected(error.value);
    }
    var d := row.data.value;
    var members := Members(row.tag, d).value;
    var events: seq<Event> := [];
    var currentTime := row.time0.value;
    var i := 0;
    while i < |members|
      invariant 0 <= i <= |members| && |events| == i
      invariant forall k :: 0 <= k < i ==> Stands(row, k, events[k])
      invariant currentTime as int == TimeAt(row.time0.value as int, d.dt.value, if i == 0 then 0 else i - 1)
      invariant TimesSafe(row.time0.value as int, d.dt.value, if i == 0 then 0 else i - 1)
    {
      if i > 0 {
        var delta := d.dt.value[i - 1];
        assert Safe(delta);
        if (delta > 0 && currentTime > MAX_SAFE - delta) || (delta < 0 && currentTime < -MAX_SAFE - delta) {
          assert !SafeInt(TimeAt(row.time0.value as int, d.dt.value, i));
          return Rejected(TimeRange);
        }
        currentTime := currentTime + delta;
      }
      var event := Event(row.seq0.value + i as Int64, currentTime, d.turn.value, d.step.value,
                         ChunkOf(row.tag, d, members[i]));
      events := events + [event];
      i := i + 1;
    }
    return Expanded(events);
  }

  // ---- Packing: the rows and the runs of events they stand for ----

  predicate SameHeader(a: Chunk, b: Chunk) {
    match (a, b)
    case (TextDelta(i, _), TextDelta(j, _)) => i == j
    case (ReasoningDelta(i, _), ReasoningDelta(j, _)) => i == j
    case (ToolCallDelta(i, _, id, name), ToolCallDelta(j, _, id', name')) => i == j && id == id' && name == name'
    case _ => false
  }

  function Text(c: Chunk): string {
    if c.ToolCallDelta? then c.arguments else c.text
  }

  predicate Follows(a: Event, b: Event) {
    b.seqno as int == a.seqno as int + 1 && SafeInt(b.time as int - a.time as int) && a.turn == b.turn && a.step == b.step &&
    SameHeader(a.chunk, b.chunk)
  }

  predicate SafeEvent(e: Event) {
    0 <= e.seqno <= MAX_SAFE && Safe(e.time) && Safe(e.turn) && Safe(e.step) && Safe(e.chunk.index)
  }

  predicate Linked(events: seq<Event>, k: int)
    requires 0 < k < |events|
  {
    Follows(events[k - 1], events[k])
  }

  /** Events that follow one another within safe numbers, differing only in sequence, time and text. */
  ghost predicate IsRun(events: seq<Event>) {
    events != [] && (forall k :: 0 <= k < |events| ==> SafeEvent(events[k])) &&
    forall k :: 0 < k < |events| ==> Linked(events, k)
  }

  function Delta(events: seq<Event>, k: nat): Int64
    requires 0 < k < |events| && Linked(events, k)
  {
    (events[k].time as int - events[k - 1].time as int) as Int64
  }

  /** The row of a run. */
  ghost function Pack(events: seq<Event>): Row
    requires IsRun(events)
  {
    var first := events[0];
    var dt := seq(|events| - 1, k requires 0 <= k < |events| - 1 => Delta(events, k + 1));
    var texts := seq(|events|, k requires 0 <= k < |events| => Text(events[k].chunk));
    Row(match first.chunk case TextDelta(_, _) => TEXT case ReasoningDelta(_, _) => REASONING case _ => TOOL_CALL,
        ENVELOPE_KEYS, Some(first.seqno), Some(first.time),
        Some(match first.chunk
             case ToolCallDelta(index, _, id, name) =>
               Data(if name.Some? then NAMED_CALL_KEYS else CALL_KEYS, Some(first.turn), Some(first.step), Some(index),
                    Some(dt), None, Some(texts), Some(id), name)
             case _ =>
               Data(TEXT_KEYS, Some(first.turn), Some(first.step), Some(first.chunk.index), Some(dt), Some(texts), None,
                    None, None)))
  }

  /** The row without the values that its tag and keys leave unread. */
  function Normal(row: Row): Row
    requires IsPacked(row.tag) && WellShaped(row)
  {
    var d := row.data.value;
    row.(data := Some(if row.tag == TOOL_CALL then d.(texts := None, name := if "name" in d.keys then d.name else None)
                      else d.(args := None, id := None, name := None)))
  }

  lemma {:induction false} RunFacts(events: seq<Event>, k: nat)
    requires IsRun(events) && k < |events|
    ensures events[k].seqno as int == events[0].seqno as int + k
    ensures events[k].turn == events[0].turn && events[k].step == events[0].step
    ensures SameHeader(events[0].chunk, events[k].chunk)
    ensures TimeAt(events[0].time as int, Pack(events).data.value.dt.value, k) == events[k].time as int
  {
    if k > 0 {
      RunFacts(events, k - 1);
      assert Linked(events, k);
    }
  }

  /** Every run is the expansion of its row. */
  lemma PackThenExpand(events: seq<Event>)
    requires IsRun(events)
    ensures IsExpansion(Pack(events), events)
  {
    var row := Pack(events);
    assert SafeEvent(events[0]);
    PackShape(events);
    forall k | 0 <= k < |events|
      ensures Stands(row, k, events[k]) && SafeInt(TimeAt(row.time0.value as int, row.data.value.dt.value, k))
    {
      RunFacts(events, k);
      assert SafeEvent(events[k]);
    }
    RunFacts(events, |events| - 1);
    assert SafeEvent(events[|events| - 1]);
  }

  lemma PackShape(events: seq<Event>)
    requires IsRun(events)
    ensures WellShaped(Pack(events)) && IsPacked(Pack(events).tag)
  {
    assert SafeEvent(events[0]);
    forall k | 0 < k < |events|
      ensures Safe(Delta(events, k))
    {
      assert Linked(events, k);
    }
    assert "name" in NAMED_CALL_KEYS && "name" !in CALL_KEYS;
  }

  lemma StandsSafe(row: Row, k: nat, e: Event)
    requires Expandable(row) && k <= |row.data.value.dt.value| && Stands(row, k, e)
    ensures SafeEvent(e)
    ensures Text(e.chunk) == Members(row.tag, row.data.value).value[k]
  {
  }

  lemma StandsNext(row: Row, k: nat, a: Event, b: Event)
    requires Expandable(row) && k < |row.data.value.dt.value| && Stands(row, k, a) && Stands(row, k + 1, b)
    ensures Follows(a, b) && b.time as int - a.time as int == row.data.value.dt.value[k] as int
  {
    assert Safe(row.data.value.dt.value[k]);
  }

  lemma ExpansionRuns(row: Row, events: seq<Event>)
    requires IsExpansion(row, events)
    ensures IsRun(events)
    ensures forall k :: 0 < k < |events| ==> Delta(events, k) == row.data.value.dt.value[k - 1]
    ensures forall k :: 0 <= k < |events| ==> Text(events[k].chunk) == Members(row.tag, row.data.value).value[k]
  {
    hide Stands, Follows, SafeEvent, InRange, AllSafe;
    forall k | 0 <= k < |events|
      ensures SafeEvent(events[k]) && Text(events[k].chunk) == Members(row.tag, row.data.value).value[k]
    {
      StandsSafe(row, k, events[k]);
    }
    forall k | 0 < k < |events|
      ensures Linked(events, k) && Delta(events, k) == row.data.value.dt.value[k - 1]
    {
      StandsNext(row, k - 1, events[k - 1], events[k]);
    }
  }

  /** Every expansion is a run, and packing it gives the row back. */
  lemma ExpandThenPack(row: Row, events: seq<Event>)
    requires IsExpansion(row, events)
    ensures IsRun(events) && Pack(events) == Normal(row)
  {
    hide IsRun, InRange, AllSafe, Safe, SafeInt;
    ExpansionRuns(row, events);
    var d := Pack(events).data.value;
    assert Stands(row, 0, events[0]);
    assert "name" in NAMED_CALL_KEYS && "name" !in CALL_KEYS;
    assert d.dt.value == row.data.value.dt.value;
    assert Members(Pack(events).tag, d).value == Members(row.tag, row.data.value).value;
  }

  /** Events are the expansion of a row exactly when they form a run, and of only one row up to unread values. */
  lemma RunsExactly(events: seq<Event>)
    ensures IsRun(events) <==> exists row :: IsExpansion(row, events)
    ensures forall row, other :: IsExpansion(row, events) && IsExpansion(other, events) ==> Normal(row) == Normal(other)
  {
    if IsRun(events) {
      PackThenExpand(events);
    }
    forall row | IsExpansion(row, events)
      ensures IsRun(events) && Pack(events) == Normal(row)
    {
      ExpandThenPack(row, events);
    }
  }

  /** A row has one expansion only. */
  lemma ExpansionUnique(row: Row, a: seq<Event>, b: seq<Event>)
    requires IsExpansion(row, a) && IsExpansion(row, b)
    ensures a == b
  {
    forall k | 0 <= k < |a|
      ensures a[k] == b[k]
    {
      assert Stands(row, k, a[k]) && Stands(row, k, b[k]);
    }
  }
}
