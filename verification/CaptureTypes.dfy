/** The records of the capture supervisor: configuration, inventories, results and audit events. */
module CaptureTypes {
  import opened Primitives

  datatype Agent = AgentUnknown | Codex | ClaudeCode | OpenCode | OtherAgent(name: string)

  datatype SourceKind = CodexRollouts | ClaudeHome | OpenCodeNative | OpenCodeEvents | OtherKind(name: string)

  datatype Source = Source(id: string, agent: Agent, kind: SourceKind, required: bool,
                           path: string, binaryPath: string, stagingRoot: string)

  datatype Config = Config(intervalSeconds: int, fullReconcileEveryRuns: int, sourceTimeoutSeconds: int,
                           sources: seq<Source>)

  datatype ItemType = FileItem | SessionItem | SourceMarker

  datatype ItemStatus =
    | Available | Missing | PermissionDenied | Unreadable | Unverified
    | LinkRejected | GitBoundaryRejected | NotRegularSource | NotRegularFile

  datatype InventoryItem = InventoryItem(identity: string, itemType: ItemType, status: ItemStatus, content: string,
                                         bytes: int, modifiedAt: Option<Time>, lastSeenRunID: string)

  datatype Phase = PreCapture | PostCapture

  datatype InventoryStatus = InvAvailable | InvPartial | InvMissing | InvUnreadable | InvUnverified | InvEmpty

  datatype InventoryBody = InventoryBody(runID: string, sourceID: string, sourceConfig: Digest, agent: Agent,
                                         kind: SourceKind, phase: Phase, observedAt: Time, status: InventoryStatus,
                                         items: seq<InventoryItem>, available: int, missing: int, unreadable: int,
                                         unverified: int)

  datatype Inventory = Inventory(body: InventoryBody, sha: Digest)

  datatype Outcome =
    | Configured | Started | Recorded | Success | Partial | Failed | Skipped | Canceled | Abandoned | Incomplete
    | NoOutcome | OtherOutcome(name: string)

  datatype ErrorCode =
    | NoError | ErrCanceled | ErrCaptureCanceled | ErrDeadline | ErrWriterLocked | ErrNotFound | ErrPermission
    | ErrInventoryIncomplete | ErrGapsObserved | ErrRecoveryAbandoned | ErrOther | ErrCode(name: string)

  datatype SourceResult = SourceResult(sourceID: string, agent: Agent, kind: SourceKind, required: bool,
                                       sourceConfig: Digest, inventory: Digest, outcome: Outcome,
                                       filesExamined: int, filesChanged: int, eventsAppended: int, gapsAppended: int,
                                       bytesCaptured: int, errorCode: ErrorCode, errorDetail: Digest)

  datatype Action =
    | Configure | RunStarted | InventoryRecorded | SourceSucceeded | SourceFailed | SourceSkipped
    | RunFinished | RunAbandoned | UnsupportedAction(name: string)

  datatype EventBody = EventBody(sequence: nat, eventID: string, runID: string, observedAt: Time, action: Action,
                                 outcome: Outcome, sourceID: string, source: Option<SourceResult>,
                                 inventory: Digest, config: Digest, fullReconcile: bool, previous: Digest)

  datatype Event = Event(body: EventBody, sha: Digest)

  /** SHA-256 of a canonical encoding, taken as injective: a digest carries what was hashed.
      `Absent` is the empty string and `Malformed` a text that is not a digest. */
  datatype Digest =
    | Absent
    | Malformed(text: string)
    | TextDigest(text: string)
    | SourceDigest(source: Source)
    | ConfigDigest(config: Config)
    | InventoryDigest(inventory: InventoryBody)
    | EventDigest(event: EventBody)

  predicate ValidDigest(d: Digest) {
    !d.Absent? && !d.Malformed?
  }

  predicate IsLower(c: char) {
    'a' <= c <= 'z'
  }

  predicate IsIDChar(c: char) {
    IsLower(c) || '0' <= c <= '9' || c == '_' || c == '-'
  }

  /** The pattern of a source id: a lower-case letter followed by up to 63 id characters. */
  predicate ValidSourceID(id: string) {
    1 <= |id| <= 64 && IsLower(id[0]) && forall i :: 0 <= i < |id| ==> IsIDChar(id[i])
  }

  function AgentOfKind(kind: SourceKind): Agent {
    match kind
    case CodexRollouts => Codex
    case ClaudeHome => ClaudeCode
    case OpenCodeNative => OpenCode
    case OpenCodeEvents => OpenCode
    case OtherKind(_) => AgentUnknown
  }
}
