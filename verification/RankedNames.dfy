/** The names behind the ranks: the program sorts by a name, the model by a rank, and the order is the same. */
module RankedNames {
  import opened Ordering
  import opened CaptureTypes
  import I = CaptureInventory
  import S = CaptureStatus
  import D = CandidateTypes
  import V = CandidateVerify

  function StatusName(s: ItemStatus): string {
    match s
    case Available => "available" case Missing => "missing" case PermissionDenied => "permission_denied"
    case Unreadable => "unreadable" case Unverified => "unverified" case LinkRejected => "link_rejected"
    case GitBoundaryRejected => "git_boundary_rejected" case NotRegularSource => "not_regular_source"
    case NotRegularFile => "not_regular_file"
  }

  function TypeName(t: ItemType): string {
    match t case FileItem => "file" case SessionItem => "session" case SourceMarker => "source"
  }

  function CodeName(c: S.IssueCode): string {
    "capture_" + CodeEnd(c)
  }

  function CodeEnd(c: S.IssueCode): string {
    match c
    case MaxAgeInvalid => "max_age_invalid" case RunIncomplete => "run_incomplete"
    case LastRunAbandoned => "last_run_abandoned" case NeverAttempted => "source_never_attempted"
    case NotInLatestRun => "source_not_in_latest_run" case LatestFailed => "latest_required_source_failed"
    case NeverSucceeded => "agent_never_succeeded" case ClockAnomaly => "clock_anomaly"
    case Stale => "agent_stale" case AgentNotConfigured => "agent_not_configured"
  }

  function SupportName(s: D.SupportType): string {
    match s
    case UserInstruction => "user_instruction" case UserCorrection => "user_correction"
    case ExplicitRemember => "explicit_remember" case CompactionDrift => "compaction_drift"
    case StableRepetition => "stable_repetition"
  }

  function ReasonName(r: D.Reason): string {
    match r
    case ScopeConfirmation => "scope_confirmation_required" case ExplicitUserRemember => "explicit_user_remember"
    case Correction => "user_correction" case DriftWithCorrection => "compaction_drift_with_user_correction"
    case Repetition => "stable_repetition" case SingleTaskOnly => "single_task_instruction_only"
    case RuleChangeApproval => "rule_change_requires_explicit_approval" case SemanticConflict => "semantic_conflict"
  }

  /** The first character in which two names differ decides. */
  lemma {:induction false} LessAt(a: string, b: string, k: nat)
    requires k < |a| && k < |b| && a[..k] == b[..k] && a[k] < b[k]
    ensures Less(a, b)
    decreases k
  {
    if k > 0 {
      assert a[0] == a[..k][0] == b[..k][0] == b[0];
      assert a[1..][..k - 1] == a[..k][1..] == b[..k][1..] == b[1..][..k - 1];
      LessAt(a[1..], b[1..], k - 1);
    }
  }

  /** In an ascending list, names compare as their places do. */
  lemma PlacesCompare(names: seq<string>, i: nat, j: nat)
    requires V.Adjacent(names) && i < |names| && j < |names|
    ensures Less(names[i], names[j]) <==> i < j
  {
    V.AdjacentIsSorted(names);
    LessIrreflexive(names[i]);
    if j < i {
      LessAsymmetric(names[j], names[i]);
    }
  }

  const STATUSES := ["available", "git_boundary_rejected", "link_rejected", "missing", "not_regular_file",
                     "not_regular_source", "permission_denied", "unreadable", "unverified"]

  lemma StatusesAscend()
    ensures V.Adjacent(STATUSES)
  {
    hide Less;
    LessAt(STATUSES[0], STATUSES[1], 0);
    LessAt(STATUSES[1], STATUSES[2], 0);
    LessAt(STATUSES[2], STATUSES[3], 0);
    LessAt(STATUSES[3], STATUSES[4], 0);
    LessAt(STATUSES[4], STATUSES[5], 12);
    LessAt(STATUSES[5], STATUSES[6], 0);
    LessAt(STATUSES[6], STATUSES[7], 0);
    LessAt(STATUSES[7], STATUSES[8], 2);
  }

  lemma StatusesByName(a: ItemStatus, b: ItemStatus)
    ensures I.StatusRank(a) < I.StatusRank(b) <==> Less(StatusName(a), StatusName(b))
  {
    hide Less, V.Adjacent;
    StatusesAscend();
    assert forall s: ItemStatus :: 0 <= I.StatusRank(s) < |STATUSES| && STATUSES[I.StatusRank(s)] == StatusName(s);
    PlacesCompare(STATUSES, I.StatusRank(a), I.StatusRank(b));
  }

  lemma TypesByName(a: ItemType, b: ItemType)
    ensures I.TypeRank(a) < I.TypeRank(b) <==> Less(TypeName(a), TypeName(b))
  {
    hide Less, V.Adjacent;
    var names := ["file", "session", "source"];
    assert V.Adjacent(names) by {
      LessAt(names[0], names[1], 0);
      LessAt(names[1], names[2], 1);
      TwoSteps(names);
    }
    assert forall t: ItemType :: 0 <= I.TypeRank(t) < |names| && names[I.TypeRank(t)] == TypeName(t);
    PlacesCompare(names, I.TypeRank(a), I.TypeRank(b));
  }

  lemma TwoSteps(names: seq<string>)
    requires |names| == 3 && Less(names[0], names[1]) && Less(names[1], names[2])
    ensures V.Adjacent(names)
  {
  }

  /** A common beginning does not matter. */
  lemma {:induction false} BeginningsCancel(p: string, a: string, b: string)
    ensures Less(p + a, p + b) <==> Less(a, b)
    decreases |p|
  {
    if p == "" {
      assert p + a == a && p + b == b;
    } else {
      assert (p + a)[1..] == p[1..] + a && (p + b)[1..] == p[1..] + b;
      BeginningsCancel(p[1..], a, b);
    }
  }

  const CODES := ["agent_never_succeeded", "agent_not_configured", "agent_stale", "clock_anomaly", "last_run_abandoned",
                  "latest_required_source_failed", "max_age_invalid", "run_incomplete", "source_never_attempted",
                  "source_not_in_latest_run"]

  lemma FirstCodes()
    ensures forall i :: 0 < i < 6 ==> Less(CODES[i - 1], CODES[i])
  {
    hide Less;
    LessAt(CODES[0], CODES[1], 7);
    LessAt(CODES[1], CODES[2], 6);
    LessAt(CODES[2], CODES[3], 0);
    LessAt(CODES[3], CODES[4], 0);
    LessAt(CODES[4], CODES[5], 2);
  }

  lemma CodesAscend()
    ensures V.Adjacent(CODES)
  {
    hide Less;
    FirstCodes();
    LessAt(CODES[5], CODES[6], 0);
    LessAt(CODES[6], CODES[7], 0);
    LessAt(CODES[7], CODES[8], 0);
    LessAt(CODES[8], CODES[9], 8);
  }

  lemma CodesByName(a: S.IssueCode, b: S.IssueCode)
    ensures S.CodeRank(a) < S.CodeRank(b) <==> Less(CodeName(a), CodeName(b))
  {
    hide Less, V.Adjacent;
    CodesAscend();
    BeginningsCancel("capture_", CodeEnd(a), CodeEnd(b));
    assert forall c: S.IssueCode :: 0 <= S.CodeRank(c) < |CODES| && CODES[S.CodeRank(c)] == CodeEnd(c);
    PlacesCompare(CODES, S.CodeRank(a), S.CodeRank(b));
  }

  const SUPPORTS := ["compaction_drift", "explicit_remember", "stable_repetition", "user_correction", "user_instruction"]

  lemma SupportsAscend()
    ensures V.Adjacent(SUPPORTS)
  {
    hide Less;
    LessAt(SUPPORTS[0], SUPPORTS[1], 0);
    LessAt(SUPPORTS[1], SUPPORTS[2], 0);
    LessAt(SUPPORTS[2], SUPPORTS[3], 0);
    LessAt(SUPPORTS[3], SUPPORTS[4], 5);
  }

  lemma SupportsByName(a: D.SupportType, b: D.SupportType)
    ensures D.SupportRank(a) < D.SupportRank(b) <==> Less(SupportName(a), SupportName(b))
  {
    hide Less, V.Adjacent;
    SupportsAscend();
    assert forall s: D.SupportType :: 0 <= D.SupportRank(s) < |SUPPORTS| && SUPPORTS[D.SupportRank(s)] == SupportName(s);
    PlacesCompare(SUPPORTS, D.SupportRank(a), D.SupportRank(b));
  }

  const REASONS := ["compaction_drift_with_user_correction", "explicit_user_remember",
                    "rule_change_requires_explicit_approval", "scope_confirmation_required", "semantic_conflict",
                    "single_task_instruction_only", "stable_repetition", "user_correction"]

  lemma FirstReasons()
    ensures forall i :: 0 < i < 4 ==> Less(REASONS[i - 1], REASONS[i])
  {
    hide Less;
    LessAt(REASONS[0], REASONS[1], 0);
    LessAt(REASONS[1], REASONS[2], 0);
    LessAt(REASONS[2], REASONS[3], 0);
  }

  lemma ReasonsAscend()
    ensures V.Adjacent(REASONS)
  {
    hide Less;
    FirstReasons();
    LessAt(REASONS[3], REASONS[4], 1);
    LessAt(REASONS[4], REASONS[5], 1);
    LessAt(REASONS[5], REASONS[6], 1);
    LessAt(REASONS[6], REASONS[7], 0);
  }

  lemma ReasonsByName(a: D.Reason, b: D.Reason)
    ensures D.ReasonRank(a) < D.ReasonRank(b) <==> Less(ReasonName(a), ReasonName(b))
  {
    hide Less, V.Adjacent;
    ReasonsAscend();
    assert forall r: D.Reason :: 0 <= D.ReasonRank(r) < |REASONS| && REASONS[D.ReasonRank(r)] == ReasonName(r);
    PlacesCompare(REASONS, D.ReasonRank(a), D.ReasonRank(b));
  }
}
