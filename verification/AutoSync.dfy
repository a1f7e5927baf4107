/** Automatic synchronization: four operations over a configuration and an audit whose last event is the state. */
module AutoSync {
  import opened Primitives

  const SECOND := 1_000_000_000
  const MINUTE := 60 * SECOND
  const MAX_INT64 := 0x7fff_ffff_ffff_ffff
  const DEFAULT_INTERVAL := 15 * MINUTE
  const DEFAULT_MAXIMUM_RETRY := 6 * 60 * MINUTE
  const DEFAULT_MAXIMUM_ERRORS := 5

  datatype Mode = Disabled | Ready | Retrying | Suspended

  datatype Action = Enable | Disable | Recover | Attempt | OtherAction(name: string)

  datatype Config = Config(enabled: bool, evidenceRoot: string, executable: string, remote: string,
                           intervalSeconds: int, maximumRetrySeconds: int, maximumErrors: int, updatedAt: Time)

  datatype EventBody = EventBody(sequence: nat, observedAt: Time, action: Action, outcome: string, resulting: Mode,
                                 errors: int, next: Option<Time>, lastAttempt: Option<Time>,
                                 lastSuccess: Option<Time>, lastSyncOutcome: string, errorCode: string,
                                 errorDetail: string, exported: bool, synced: bool, config: Digest, previous: Digest)

  datatype Event = Event(body: EventBody, sha: Digest)

  /** SHA-256 of a canonical encoding, taken as injective. */
  datatype Digest = Absent | ConfigDigest(config: Config) | EventDigest(event: EventBody)

  datatype State = State(mode: Mode, errors: int, next: Option<Time>, lastAttempt: Option<Time>,
                         lastSuccess: Option<Time>, lastSyncOutcome: string, errorCode: string, lastSequence: nat,
                         lastEvent: Digest, config: Digest)

  const INITIAL := State(Disabled, 0, None, None, None, "", "", 0, Absent, Absent)

  // ---- The audit ----

  /** validateEvent. */
  predicate EventValid(e: Event, prior: State) {
    var b := e.body;
    b.sequence == prior.lastSequence + 1 && b.previous == prior.lastEvent && b.observedAt != ZERO_TIME && b.errors >= 0 &&
    e.sha == EventDigest(b) &&
    match b.action
    case Enable => b.resulting.Ready? && b.errors == 0 && b.config != Absent
    case Disable => b.resulting.Disabled? && b.errors == 0 && b.config != Absent
    case Recover => b.resulting.Ready? && b.errors == 0 && b.config != Absent
    case Attempt =>
      b.lastAttempt.Some? && b.lastSyncOutcome != "" && b.config != Absent && b.exported &&
      (b.lastSyncOutcome != "export_failed" ==> b.synced) && (b.resulting.Ready? ==> b.errors == 0) &&
      (b.resulting.Retrying? ==> b.errors != 0 && b.next.Some?) && (b.resulting.Suspended? ==> b.errorCode != "") &&
      (!b.resulting.Ready? ==> b.errorDetail != "")
    case OtherAction(_) => false
  }

  /** stateFromEvent: nothing of the prior state survives unless the event carries it. */
  function StateFromEvent(e: Event): State {
    var b := e.body;
    State(b.resulting, b.errors, b.next, b.lastAttempt, b.lastSuccess, b.lastSyncOutcome, b.errorCode, b.sequence,
          e.sha, b.config)
  }

  function Replay(log: seq<Event>): Option<State> {
    if log == [] then Some(INITIAL)
    else
      var n := |log| - 1;
      match Replay(log[..n])
      case None => None
      case Some(s) => if EventValid(log[n], s) then Some(StateFromEvent(log[n])) else None
  }

  method ReplayEvents(log: seq<Event>) returns (r: Option<State>)
    ensures r == Replay(log)
  {
    var state := INITIAL;
    var i := 0;
    while i < |log|
      invariant 0 <= i <= |log|
      invariant Replay(log[..i]) == Some(state)
    {
      assert log[..i + 1][..i] == log[..i];
      if !EventValid(log[i], state) {
        BrokenAudit(log, i + 1);
        return None;
      }
      state := StateFromEvent(log[i]);
      i := i + 1;
    }
    assert log[..i] == log;
    r := Some(state);
  }

  lemma {:induction false} BrokenAudit(log: seq<Event>, i: nat)
    requires i <= |log| && Replay(log[..i]).None?
    ensures Replay(log).None?
    decreases |log| - i
  {
    if i == |log| {
      assert log[..i] == log;
    } else {
      assert log[..i + 1][..i] == log[..i];
      BrokenAudit(log, i + 1);
    }
  }

  function Seal(draft: EventBody, prior: State): Event {
    var body := draft.(sequence := prior.lastSequence + 1, previous := prior.lastEvent);
    Event(body, EventDigest(body))
  }

  // ---- Settings ----

  predicate ValidName(name: string) {
    1 <= |name| <= 255 && name[0] != '-' && forall i :: 0 <= i < |name| ==> NameChar(name[i])
  }

  predicate NameChar(c: char) {
    'a' <= c <= 'z' || 'A' <= c <= 'Z' || '0' <= c <= '9' || c in "._-"
  }

  /** validateConfig, apart from what the file system answers. */
  predicate ConfigValid(c: Config) {
    var interval, retry := c.intervalSeconds * SECOND, c.maximumRetrySeconds * SECOND;
    MINUTE <= interval <= 1439 * MINUTE && interval % MINUTE == 0 && interval <= retry <= 7 * 24 * 60 * MINUTE &&
    retry % MINUTE == 0 && 1 <= c.maximumErrors <= 20 && ValidName(c.remote) && c.updatedAt != ZERO_TIME &&
    (c.enabled ==> IsAbsolute(c.evidenceRoot) && IsAbsolute(c.executable))
  }

  datatype Options = Options(evidenceRoot: string, executable: string, remote: string, interval: int,
                             maximumRetry: int, maximumErrors: int)

  /** Go's division of durations truncates toward zero. */
  function Seconds(duration: int): int {
    if duration >= 0 then duration / SECOND else -(-duration / SECOND)
  }

  /** prepareConfig: zero asks for the default. */
  function Prepared(o: Options, now: Time): Config {
    Config(true, o.evidenceRoot, o.executable, if o.remote == "" then "origin" else o.remote,
           Seconds(if o.interval == 0 then DEFAULT_INTERVAL else o.interval),
           Seconds(if o.maximumRetry == 0 then DEFAULT_MAXIMUM_RETRY else o.maximumRetry),
           if o.maximumErrors == 0 then DEFAULT_MAXIMUM_ERRORS else o.maximumErrors, now)
  }

  function DefaultDisabled(now: Time): Config {
    Config(false, "", "", "origin", Seconds(DEFAULT_INTERVAL), Seconds(DEFAULT_MAXIMUM_RETRY), DEFAULT_MAXIMUM_ERRORS, now)
  }

  /** What is asked for in seconds, a fraction being dropped; zero asks for the default. */
  predicate AsksFor(duration: int, seconds: int, default: int) {
    if duration == 0 then seconds == default
    else if duration > 0 then seconds * SECOND <= duration < (seconds + 1) * SECOND
    else (seconds - 1) * SECOND < duration <= seconds * SECOND
  }

  /** The settings that a request becomes: a quarter of an hour, six hours and five errors by default. */
  predicate FromOptions(c: Config, o: Options, now: Time) {
    c.enabled && c.evidenceRoot == o.evidenceRoot && c.executable == o.executable && c.updatedAt == now &&
    (if o.remote == "" then c.remote == "origin" else c.remote == o.remote) &&
    AsksFor(o.interval, c.intervalSeconds, 900) && AsksFor(o.maximumRetry, c.maximumRetrySeconds, 21600) &&
    (if o.maximumErrors == 0 then c.maximumErrors == 5 else c.maximumErrors == o.maximumErrors)
  }

  lemma PreparedMeans(o: Options, now: Time)
    ensures FromOptions(Prepared(o, now), o, now)
  {
  }

  /** The settings that are accepted, in whole minutes: between one and 1439 for the interval, and no more than a week
      between two attempts. */
  lemma AcceptedExactly(c: Config)
    ensures ConfigValid(c) <==>
            (exists k: nat :: 1 <= k <= 1439 && c.intervalSeconds == 60 * k) &&
            (exists k: nat :: k <= 7 * 24 * 60 && c.maximumRetrySeconds == 60 * k) &&
            c.intervalSeconds <= c.maximumRetrySeconds && 1 <= c.maximumErrors <= 20 && ValidName(c.remote) &&
            c.updatedAt != ZERO_TIME && (c.enabled ==> IsAbsolute(c.evidenceRoot) && IsAbsolute(c.executable))
  {
    hide ValidName, IsAbsolute;
    if ConfigValid(c) {
      assert c.intervalSeconds == 60 * (c.intervalSeconds / 60);
      assert c.maximumRetrySeconds == 60 * (c.maximumRetrySeconds / 60);
    }
  }

  predicate SameSettings(a: Config, b: Config) {
    a.(updatedAt := ZERO_TIME) == b.(updatedAt := ZERO_TIME)
  }

  // ---- Backoff ----

  /** The delay before attempt `errors + 1`: exponential, capped. */
  function Backoff(c: Config, errors: int): int
    requires errors > 0
  {
    Min(c.intervalSeconds * SECOND * Pow2(errors - 1), c.maximumRetrySeconds * SECOND)
  }

  lemma Double(x: int, n: nat)
    ensures x * Pow2(n + 1) == 2 * (x * Pow2(n))
  {
  }

  lemma {:induction false} PowerGrows(x: int, m: int, a: nat, b: nat)
    requires a <= b && x >= 0 && x * Pow2(a) >= m
    ensures x * Pow2(b) >= m
    decreases b - a
  {
    if a < b {
      Double(x, a);
      assert x * Pow2(a) >= 0 by { NonNegative(x, Pow2(a)); }
      PowerGrows(x, m, a + 1, b);
    }
  }

  lemma NonNegative(x: int, p: nat)
    requires x >= 0
    ensures x * p >= 0
  {
  }

  /** retryDelay: the doubling loop stays within 64 bits and computes the capped exponential. */
  method RetryDelay(c: Config, errors: int) returns (delay: int)
    requires ConfigValid(c) && errors > 0
    ensures delay == Backoff(c, errors)
  {
    hide ValidName, IsAbsolute, Pow2;
    var base := c.intervalSeconds * SECOND;
    var maximum := c.maximumRetrySeconds * SECOND;
    delay := base;
    assert base * Pow2(0) == base by { PowerZero(base); }
    var count := 1;
    while count < errors && delay < maximum
      invariant 1 <= count <= errors
      invariant 0 < base <= maximum <= MAX_INT64 && 0 < delay <= maximum
      invariant delay == Min(base * Pow2(count - 1), maximum)
    {
      Double(base, count - 1);
      if delay > maximum / 2 {
        delay := maximum;
        count := count + 1;
        break;
      }
      assert delay * 2 <= MAX_INT64;
      delay := delay * 2;
      count := count + 1;
    }
    if count < errors {
      PowerGrows(base, maximum, count - 1, errors - 1);
    }
    if delay > maximum {
      delay := maximum;
    }
  }

  lemma PowerZero(x: int)
    ensures x * Pow2(0) == x
  {
  }

  // ---- The invariant ----

  /** The time of the last attempt that succeeded. */
  function LastSuccess(log: seq<Event>): Option<Time> {
    if log == [] then None
    else
      var b := log[|log| - 1].body;
      if b.action.Attempt? && b.outcome == "succeeded" then Some(b.observedAt) else LastSuccess(log[..|log| - 1])
  }

  /** A suspension is followed only by a recovery or by disabling. */
  predicate SuspensionsHeld(log: seq<Event>) {
    forall i :: 0 < i < |log| && log[i - 1].body.resulting.Suspended? ==>
      log[i].body.action.Recover? || log[i].body.action.Disable?
  }

  /** What the state of the machine says, under the configuration it is bound to. */
  predicate ModeOk(s: State, c: Config) {
    match s.mode
    case Disabled => s.errors == 0 && s.next.None?
    case Ready => s.errors == 0 && s.next.None?
    case Retrying =>
      0 < s.errors < c.maximumErrors && s.lastAttempt.Some? &&
      s.next == Some(s.lastAttempt.value + Backoff(c, s.errors))
    case Suspended => 0 < s.errors <= c.maximumErrors && s.errorCode != "" && s.next.None?
  }

  ghost predicate Bound(config: Option<Config>, s: State) {
    match config
    case None => s == INITIAL
    case Some(c) =>
      ConfigValid(c) && s.config == ConfigDigest(c) && (c.enabled <==> !s.mode.Disabled?) && ModeOk(s, c)
  }

  ghost predicate Inv(config: Option<Config>, log: seq<Event>) {
    Replay(log).Some? && Bound(config, Replay(log).value) && (config.None? <==> log == []) &&
    Replay(log).value.lastSuccess == LastSuccess(log) && SuspensionsHeld(log)
  }

  lemma ReplayLast(log: seq<Event>)
    requires Replay(log).Some? && log != []
    ensures Replay(log).value == StateFromEvent(log[|log| - 1])
  {
  }

  /** An accepted event that is bound to the configuration and carries the last success forward keeps the
      invariant. */
  lemma AppendKeepsInv(config: Option<Config>, log: seq<Event>, c: Config, e: Event)
    requires Inv(config, log) && EventValid(e, Replay(log).value)
    requires ConfigValid(c) && e.body.config == ConfigDigest(c) && (c.enabled <==> !e.body.resulting.Disabled?)
    requires ModeOk(StateFromEvent(e), c)
    requires e.body.lastSuccess == if e.body.action.Attempt? && e.body.outcome == "succeeded"
                                   then Some(e.body.observedAt) else Replay(log).value.lastSuccess
    requires Replay(log).value.mode.Suspended? ==> e.body.action.Recover? || e.body.action.Disable?
    ensures Inv(Some(c), log + [e]) && Replay(log + [e]) == Some(StateFromEvent(e))
  {
    hide EventValid, ConfigValid, ModeOk, SuspensionsHeld;
    assert (log + [e])[..|log|] == log;
    if log != [] {
      ReplayLast(log);
    }
    SuspensionsAppend(log, e);
  }

  lemma SuspensionsAppend(log: seq<Event>, e: Event)
    requires SuspensionsHeld(log)
    requires (log != [] && log[|log| - 1].body.resulting.Suspended?) ==> e.body.action.Recover? || e.body.action.Disable?
    ensures SuspensionsHeld(log + [e])
  {
  }

  // ---- The manager ----

  datatype SyncOutcome = Synced | SyncConflict | RemoteRejected | RetryRequired | SyncFailed(name: string)

  /** What the outside does during an attempt; error texts and outcome names are never empty. */
  datatype World = World(exportError: Option<string>, sync: SyncOutcome, syncError: Option<string>)

  predicate WorldOk(w: World) {
    (w.exportError.Some? ==> w.exportError.value != "") && (w.syncError.Some? ==> w.syncError.value != "") &&
    (w.sync.SyncFailed? ==> w.sync.name != "")
  }

  function OutcomeName(o: SyncOutcome): string {
    match o
    case Synced => "synced"
    case SyncConflict => "conflict"
    case RemoteRejected => "remote_rejected"
    case RetryRequired => "retry_required"
    case SyncFailed(name) => name
  }

  /** classifyFailure. */
  function ClassifyFailure(w: World): string {
    if w.exportError.Some? then "export_failed"
    else
      match w.sync
      case SyncConflict => "conflict"
      case RemoteRejected => "remote_rejected"
      case RetryRequired => "remote_changed"
      case _ => "sync_failed"
  }

  function ErrorDetail(w: World): string {
    if w.exportError.Some? then w.exportError.value
    else if w.syncError.Some? then w.syncError.value
    else "automatic synchronization failed without an error detail"
  }

  predicate Terminal(code: string) {
    code == "conflict" || code == "remote_rejected"
  }

  /** The export succeeded, but the remote side needs a decision: retrying cannot help. */
  predicate NeedsDecision(w: World) {
    w.exportError.None? && (w.sync.SyncConflict? || w.sync.RemoteRejected?)
  }

  /** The code of a failure that is retried. */
  predicate Retried(w: World, code: string) {
    match code
    case "export_failed" => w.exportError.Some?
    case "remote_changed" => w.exportError.None? && w.sync.RetryRequired?
    case "sync_failed" => w.exportError.None? && (w.sync.Synced? || w.sync.SyncFailed?)
    case _ => false
  }

  /** A failure is terminal exactly when the remote side needs a decision, and every failure has its code. */
  lemma FailureMeans(w: World)
    ensures var code := ClassifyFailure(w);
            (Terminal(code) <==> NeedsDecision(w)) && (!NeedsDecision(w) ==> Retried(w, code)) && code != "" &&
            (NeedsDecision(w) ==> code == if w.sync.SyncConflict? then "conflict" else "remote_rejected")
  {
  }

  /** What a failed attempt leaves: suspended at once when a decision is needed, at the limit otherwise, and with the
      code of the failure. */
  predicate FailureHeld(s: State, w: World, errors: int, maximum: int) {
    (s.mode.Suspended? <==> NeedsDecision(w) || errors >= maximum) &&
    (s.mode.Retrying? <==> !NeedsDecision(w) && errors < maximum) &&
    (NeedsDecision(w) ==> s.errorCode == if w.sync.SyncConflict? then "conflict" else "remote_rejected") &&
    (!NeedsDecision(w) && errors >= maximum ==> s.errorCode == "retry_limit_reached") &&
    (s.mode.Retrying? ==> Retried(w, s.errorCode)) && SyncNamed(w, s.lastSyncOutcome)
  }

  /** The outcome that an attempt records of the export and the synchronization. */
  predicate SyncNamed(w: World, name: string) {
    if w.exportError.Some? then name == "export_failed"
    else
      match w.sync
      case Synced => name == "synced"
      case SyncConflict => name == "conflict"
      case RemoteRejected => name == "remote_rejected"
      case RetryRequired => name == "retry_required"
      case SyncFailed(outcome) => name == outcome
  }

  /** How an operation ended: nothing to do, an event appended, or refused. */
  datatype Ending = NothingToDo | Appended | InvalidSettings | UnboundSchedule | StillSuspended | NotEnabled

  /** What an attempt reports. */
  datatype RunEnding =
    | NotRun(mode: Mode) | Deferred(until: Time) | Succeeded | RetryAt(at: Time) | SuspendedNow(code: string)

  type Instant = t: Time | t != ZERO_TIME witness 1

  function Draft(at: Time, action: Action, outcome: string, resulting: Mode, s: State, config: Config): EventBody {
    EventBody(0, at, action, outcome, resulting, 0, None, s.lastAttempt, s.lastSuccess, s.lastSyncOutcome, "", "",
              false, false, ConfigDigest(config), Absent)
  }

  class Manager {
    var config: Option<Config>
    var log: seq<Event>
    /** Whether the platform scheduler holds the task; it can change on its own. */
    var registered: bool

    ghost predicate Valid()
      reads this
    {
      Inv(config, log)
    }

    ghost function Current(): State
      requires Valid()
      reads this
    {
      Replay(log).value
    }

    constructor (registered: bool)
      ensures Valid() && config.None? && log == [] && this.registered == registered
    {
      this.config, this.log, this.registered := None, [], registered;
    }

    /** appendEvent for an event that is accepted, together with the configuration it is bound to. */
    method Append(c: Config, draft: EventBody, s: State)
      requires Valid() && s == Current()
      requires EventValid(Seal(draft, s), s)
      requires ConfigValid(c) && draft.config == ConfigDigest(c) && (c.enabled <==> !draft.resulting.Disabled?)
      requires ModeOk(StateFromEvent(Seal(draft, s)), c)
      requires draft.lastSuccess == if draft.action.Attempt? && draft.outcome == "succeeded"
                                    then Some(draft.observedAt) else s.lastSuccess
      requires s.mode.Suspended? ==> draft.action.Recover? || draft.action.Disable?
      modifies this`config, this`log
      ensures Valid() && config == Some(c) && log == old(log) + [Seal(draft, s)]
      ensures Current() == StateFromEvent(Seal(draft, s))
    {
      hide EventValid, ConfigValid, ModeOk;
      var e := Seal(draft, s);
      AppendKeepsInv(config, log, c, e);
      config := Some(c);
      log := log + [e];
    }

    /** enable. A suspended machine keeps its schedule until it is recovered or disabled. */
    method Enable(o: Options, now: Instant) returns (r: Ending)
      requires Valid()
      modifies this
      ensures Valid()
      ensures !r.Appended? ==> config == old(config) && log == old(log) && registered == old(registered)
      ensures r.InvalidSettings? <==> !ConfigValid(Prepared(o, now))
      ensures r.NothingToDo? || r.UnboundSchedule? || r.StillSuspended? || r.InvalidSettings? || r.Appended?
      ensures ConfigValid(Prepared(o, now)) ==>
                var on := old(config).Some? && old(config).value.enabled;
                (r.NothingToDo? <==> on && old(registered) && SameSettings(old(config).value, Prepared(o, now))) &&
                (r.UnboundSchedule? <==> !on && old(registered)) &&
                (r.StillSuspended? <==> !r.NothingToDo? && old(Current()).mode.Suspended?)
      ensures r.Appended? ==>
                config == Some(Prepared(o, now)) && FromOptions(config.value, o, now) && registered &&
                Current().mode.Ready? &&
                Current().lastSuccess == old(Current()).lastSuccess && Current().lastAttempt.None? &&
                |log| == |old(log)| + 1 && log[..|old(log)|] == old(log) && log[|old(log)|].body.action.Enable?
    {
      hide ConfigValid, Prepared, EventValid, ModeOk, AsksFor;
      var prepared := Prepared(o, now);
      PreparedMeans(o, now);
      if !ConfigValid(prepared) {
        return InvalidSettings;
      }
      var replayed := ReplayEvents(log);
      var s := replayed.value;
      if config.Some? && config.value.enabled && SameSettings(config.value, prepared) && registered && !s.mode.Disabled? {
        return NothingToDo;
      }
      if registered && (config.None? || !config.value.enabled) {
        return UnboundSchedule;
      }
      if config.Some? && config.value.enabled && s.mode.Suspended? {
        return StillSuspended;
      }
      var outcome := if registered || config.Some? then "updated" else "enabled";
      var draft := Draft(now, Action.Enable, outcome, Ready, s, prepared).(lastAttempt := None);
      PlainDraft(draft, s, prepared);
      Append(prepared, draft, s);
      registered := true;
      r := Appended;
    }

    /** disable. */
    method Disable(now: Instant) returns (r: Ending)
      requires Valid()
      modifies this
      ensures Valid() && (r.NothingToDo? || r.Appended?)
      ensures r.NothingToDo? <==> old(config).Some? && !old(config).value.enabled && !old(registered)
      ensures old(config).None? ==>
                config.Some? && config.value == Config(false, "", "", "origin", 900, 21600, 5, config.value.updatedAt)
      ensures r.Appended? ==>
                |log| == |old(log)| + 1 && log[..|old(log)|] == old(log) && log[|old(log)|].body.action.Disable? &&
                config == Some(if old(config).None? then DefaultDisabled(now)
                               else old(config).value.(enabled := false, updatedAt := now))
      ensures r.NothingToDo? ==> config == old(config) && log == old(log) && registered == old(registered)
      ensures config.Some? && !config.value.enabled && !registered && Current().mode.Disabled?
      ensures Current().lastSuccess == old(Current()).lastSuccess && Current().lastAttempt == old(Current()).lastAttempt
    {
      hide ConfigValid, EventValid, ModeOk;
      var replayed := ReplayEvents(log);
      var s := replayed.value;
      if config.Some? && !config.value.enabled && !registered && s.mode.Disabled? {
        return NothingToDo;
      }
      var next := if config.None? then DefaultDisabled(now) else config.value.(enabled := false, updatedAt := now);
      DisabledValid(config, now);
      var draft := Draft(now, Action.Disable, "disabled", Disabled, s, next);
      PlainDraft(draft, s, next);
      Append(next, draft, s);
      registered := false;
      r := Appended;
    }

    /** recover. */
    method Recover(now: Instant) returns (r: Ending)
      requires Valid()
      modifies this`config, this`log
      ensures Valid() && config == old(config)
      ensures r.NotEnabled? <==> config.None? || !config.value.enabled
      ensures r.Appended? <==> old(Current()).mode.Retrying? || old(Current()).mode.Suspended?
      ensures !r.Appended? ==> log == old(log)
      ensures r.Appended? ==> |log| == |old(log)| + 1 && log[..|old(log)|] == old(log) && Current().errors == 0
      ensures !r.NotEnabled? ==> Current().mode.Ready?
      ensures Current().lastSuccess == old(Current()).lastSuccess && Current().lastAttempt == old(Current()).lastAttempt
    {
      hide ConfigValid, EventValid, ModeOk;
      if config.None? || !config.value.enabled {
        return NotEnabled;
      }
      var replayed := ReplayEvents(log);
      var s := replayed.value;
      if s.mode.Ready? {
        return NothingToDo;
      }
      var draft := Draft(now, Action.Recover, "recovered", Ready, s, config.value);
      PlainDraft(draft, s, config.value);
      Append(config.value, draft, s);
      r := Appended;
    }

    /** run: one scheduled attempt. */
    method Run(w: World, now: Instant) returns (r: RunEnding)
      requires Valid() && WorldOk(w)
      modifies this`config, this`log
      ensures Valid() && config == old(config)
      ensures r.NotRun? || r.Deferred? ==> log == old(log)
      ensures r.NotRun? <==> old(config).None? || !old(config).value.enabled || old(Current()).mode.Suspended?
      ensures old(config).None? || !old(config).value.enabled ==> r == NotRun(Disabled)
      ensures old(Current()).mode.Suspended? ==> r == NotRun(Suspended)
      ensures r.Deferred? <==> old(Current()).next.Some? && now < old(Current()).next.value
      ensures !r.NotRun? && !r.Deferred? ==>
                old(config).Some? && |log| == |old(log)| + 1 && log[..|old(log)|] == old(log) &&
                log[|old(log)|].body.action.Attempt? && Current().lastAttempt == Some(now) &&
                (r.Succeeded? <==> w.exportError.None? && w.syncError.None?) &&
                (r.Succeeded? ==>
                   Current().mode.Ready? && Current().lastSuccess == Some(now) && SyncNamed(w, Current().lastSyncOutcome)) &&
                (!r.Succeeded? ==>
                   Current().lastSuccess == old(Current()).lastSuccess && Current().errors == old(Current()).errors + 1 &&
                   FailureHeld(Current(), w, old(Current()).errors + 1, old(config).value.maximumErrors))
      ensures r.SuspendedNow? <==> !r.NotRun? && Current().mode.Suspended?
      ensures r.RetryAt? ==>
                Current().mode.Retrying? && r.at == now + Backoff(config.value, Current().errors) &&
                Current().next == Some(r.at)
      ensures r.SuspendedNow? ==> r.code == Current().errorCode
    {
      hide ConfigValid, EventValid, ModeOk, Backoff, ClassifyFailure, ErrorDetail, OutcomeName, FailureHeld, SyncNamed;
      if config.None? || !config.value.enabled {
        QuietWhenOff(config, log);
        return NotRun(Disabled);
      }
      var c := config.value;
      var replayed := ReplayEvents(log);
      var s := replayed.value;
      QuietNext(s, c);
      if s.mode.Suspended? {
        return NotRun(Suspended);
      }
      BoundFacts(c, log, s);
      if s.next.Some? && now < s.next.value {
        return Deferred(s.next.value);
      }
      if w.exportError.None? && w.syncError.None? {
        var draft := Draft(now, Attempt, "succeeded", Ready, s, c).(
          lastAttempt := Some(now), lastSuccess := Some(now), lastSyncOutcome := OutcomeName(w.sync),
          exported := true, synced := true);
        SucceededDraft(draft, s, c, w);
        NameMeans(w);
        Append(c, draft, s);
        return Succeeded;
      }
      r := Fail(c, w, now, s);
    }

    /** A failed attempt: retry later, or suspend. */
    method Fail(c: Config, w: World, now: Instant, s: State) returns (r: RunEnding)
      requires Valid() && WorldOk(w) && s == Current() && config == Some(c) && c.enabled
      requires !s.mode.Suspended? && (w.exportError.Some? || w.syncError.Some?)
      modifies this`config, this`log
      ensures Valid() && config == old(config) && |log| == |old(log)| + 1 && log[..|old(log)|] == old(log)
      ensures log[|old(log)|].body.action.Attempt?
      ensures Current().lastAttempt == Some(now) && Current().lastSuccess == s.lastSuccess
      ensures Current().errors == s.errors + 1 && FailureHeld(Current(), w, s.errors + 1, c.maximumErrors)
      ensures if Current().mode.Suspended? then r == SuspendedNow(Current().errorCode)
              else Current().mode.Retrying? && r.RetryAt? && r.at == now + Backoff(c, s.errors + 1) &&
                   Current().next == Some(r.at)
    {
      hide ConfigValid, EventValid, ModeOk, Backoff, ClassifyFailure, ErrorDetail, OutcomeName, Inv, Terminal,
           NeedsDecision, Retried, SyncNamed;
      BoundFacts(c, log, s);
      FailureMeans(w);
      NameMeans(w);
      var code := ClassifyFailure(w);
      var errors := s.errors + 1;
      var resulting, next := Retrying, None;
      if Terminal(code) || errors >= c.maximumErrors {
        resulting := Suspended;
        if errors >= c.maximumErrors && !Terminal(code) {
          code := "retry_limit_reached";
        }
      } else {
        var delay := RetryDelay(c, errors);
        next := Some(now + delay);
      }
      var draft := Draft(now, Attempt, "failed", resulting, s, c).(
        errors := errors, next := next, lastAttempt := Some(now),
        lastSyncOutcome := if w.exportError.Some? then "export_failed" else OutcomeName(w.sync),
        errorCode := code, errorDetail := ErrorDetail(w), exported := true, synced := w.exportError.None?);
      FailedDraft(draft, s, c, w, code);
      Append(c, draft, s);
      r := if resulting.Suspended? then SuspendedNow(code) else RetryAt(next.value);
    }
  }

  datatype Operation = DoEnable(options: Options, at: Instant) | DoDisable(at: Instant) | DoRecover(at: Instant)
                     | DoRun(world: World, at: Instant) | ScheduleChanges(registered: bool)

  predicate OperationOk(op: Operation) {
    op.DoRun? ==> WorldOk(op.world)
  }

  /** Over every sequence of operations, whatever the scheduler does on its own. */
  method Operate(m: Manager, operations: seq<Operation>)
    requires m.Valid() && forall i :: 0 <= i < |operations| ==> OperationOk(operations[i])
    modifies m
    ensures m.Valid() && old(m.log) <= m.log
    ensures var s := m.Current();
            (s.mode.Retrying? ==>
               m.config.Some? && 0 < s.errors < m.config.value.maximumErrors && s.lastAttempt.Some? &&
               s.next == Some(s.lastAttempt.value + Backoff(m.config.value, s.errors))) &&
            s.lastSuccess == LastSuccess(m.log)
    ensures SuspensionsHeld(m.log)
  {
    hide EventValid, ConfigValid, Backoff, SuspensionsHeld, LastSuccess;
    var i := 0;
    while i < |operations|
      invariant 0 <= i <= |operations| && m.Valid() && old(m.log) <= m.log
    {
      Perform(m, operations[i]);
      i := i + 1;
    }
    WhatHolds(m.config, m.log);
  }

  method Perform(m: Manager, op: Operation)
    requires m.Valid() && OperationOk(op)
    modifies m
    ensures m.Valid() && old(m.log) <= m.log
  {
    hide EventValid, ConfigValid, Inv, SameSettings, ClassifyFailure, Backoff;
    match op {
      case DoEnable(options, at) => var _ := m.Enable(options, at);
      case DoDisable(at) => var _ := m.Disable(at);
      case DoRecover(at) => var _ := m.Recover(at);
      case DoRun(world, at) => var _ := m.Run(world, at);
      case ScheduleChanges(registered) => m.registered := registered;
    }
  }

  /** What the invariant says of the current state. */
  lemma WhatHolds(config: Option<Config>, log: seq<Event>)
    requires Inv(config, log)
    ensures var s := Replay(log).value;
            (s.mode.Retrying? ==>
               config.Some? && 0 < s.errors < config.value.maximumErrors && s.lastAttempt.Some? &&
               s.next == Some(s.lastAttempt.value + Backoff(config.value, s.errors))) &&
            s.lastSuccess == LastSuccess(log)
    ensures SuspensionsHeld(log)
  {
    hide Backoff, EventValid, SuspensionsHeld, LastSuccess, Replay;
  }

  /** An event that resets the machine is accepted and describes a quiet state. */
  lemma PlainDraft(draft: EventBody, s: State, c: Config)
    requires draft.observedAt != ZERO_TIME && draft.errors == 0 && draft.next.None? && draft.config == ConfigDigest(c)
    requires ((draft.action.Enable? || draft.action.Recover?) && draft.resulting.Ready?) ||
             (draft.action.Disable? && draft.resulting.Disabled?)
    ensures EventValid(Seal(draft, s), s) && ModeOk(StateFromEvent(Seal(draft, s)), c)
  {
  }

  lemma DisabledValid(config: Option<Config>, now: Instant)
    requires config.Some? ==> ConfigValid(config.value)
    ensures ConfigValid(DefaultDisabled(now))
    ensures config.Some? ==> ConfigValid(config.value.(enabled := false, updatedAt := now))
  {
    assert NameChar('o') && NameChar('r') && NameChar('i') && NameChar('g') && NameChar('n');
  }

  lemma QuietWhenOff(config: Option<Config>, log: seq<Event>)
    requires Inv(config, log) && (config.None? || !config.value.enabled)
    ensures Replay(log).value.mode.Disabled? && Replay(log).value.next.None?
  {
  }

  lemma QuietNext(s: State, c: Config)
    requires ModeOk(s, c)
    ensures s.mode.Suspended? ==> s.next.None?
  {
  }

  lemma SucceededDraft(draft: EventBody, s: State, c: Config, w: World)
    requires WorldOk(w) && draft.observedAt != ZERO_TIME && draft.action.Attempt? && draft.resulting.Ready?
    requires draft.errors == 0 && draft.next.None? && draft.config == ConfigDigest(c) && draft.lastAttempt.Some?
    requires draft.lastSyncOutcome == OutcomeName(w.sync) && draft.exported && draft.synced
    ensures EventValid(Seal(draft, s), s) && ModeOk(StateFromEvent(Seal(draft, s)), c)
  {
  }

  lemma FailedDraft(draft: EventBody, s: State, c: Config, w: World, code: string)
    requires WorldOk(w) && draft.observedAt != ZERO_TIME && draft.action.Attempt? && draft.config == ConfigDigest(c)
    requires draft.lastAttempt.Some? && draft.exported && draft.synced == w.exportError.None?
    requires draft.lastSyncOutcome == if w.exportError.Some? then "export_failed" else OutcomeName(w.sync)
    requires draft.errorCode == code != "" && draft.errorDetail == ErrorDetail(w) && 0 < draft.errors <= c.maximumErrors
    requires (draft.resulting.Suspended? && draft.next.None?) ||
             (draft.resulting.Retrying? && draft.errors < c.maximumErrors &&
              draft.next == Some(draft.lastAttempt.value + Backoff(c, draft.errors)))
    ensures EventValid(Seal(draft, s), s) && ModeOk(StateFromEvent(Seal(draft, s)), c)
  {
    hide Backoff;
  }

  lemma BoundFacts(c: Config, log: seq<Event>, s: State)
    requires Inv(Some(c), log) && s == Replay(log).value && !s.mode.Suspended? && c.enabled
    ensures ConfigValid(c) && 0 <= s.errors < c.maximumErrors && (s.next.Some? ==> s.mode.Retrying?)
  {
  }

  lemma NameMeans(w: World)
    ensures SyncNamed(w, if w.exportError.Some? then "export_failed" else OutcomeName(w.sync))
  {
  }
}
