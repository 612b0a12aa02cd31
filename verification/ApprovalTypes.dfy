/**
 The records the approval coordinator works on, and the field checks it applies to
 values that come from outside (provider answers, runner answers, capabilities).
 */
module ApprovalTypes {
  import opened Options

  type Id = string

  /** Authority classes; `Unknown` stands for any other value a provider may send. */
  datatype Authority = PrivilegedOperation | ProjectWorkflow | Unknown
  datatype Console = Admin | Overview
  datatype Provider = Overseer | OtherProvider

  datatype Decision = Undecided | Approved | ChangesRequested | Rejected | Expired | Revoked | Garbled

  datatype WaitState =
    | Pending
    | VerificationDelayed
    | SecurityFailure
    | Declined(decision: Decision) // changes-requested, rejected, expired, revoked
    | ApprovedResumeQueued
    | ResumeDispatching
    | ResumeReconciliationRequired
    | Resumed
    | SessionClosed

  /** SHA-256 over a tuple, taken as injective: the digest is the tuple. */
  datatype ContinuationId =
    | Plain(sessionId: Id, approvalRef: Id, decisionVersion: Id)
    | Successor(waitId: Id, sessionId: Id, approvalRef: Id, decisionVersion: Id)

  datatype Wait = Wait(
    id: Id,
    sessionId: Id,
    userId: Id,
    projectId: Id,
    workspaceId: Id,
    managedThreadId: Id,
    approvalRef: Id,
    resourceRef: Id,
    authorityClass: Authority,
    consoleSurface: Console,
    subject: string,
    state: WaitState,
    decisionVersion: Id,
    continuationId: ContinuationId,
    successorOf: Option<Id>,
    checkAttempt: nat,
    nextCheckAt: nat,
    createdAt: nat,
    updatedAt: nat,
    decisionObservedAt: Option<nat>,
    dispatchReservedAt: Option<nat>,
    runnerRunId: Option<Id>,
    resumedAt: Option<nat>)

  datatype Summary = Summary(
    waitId: Id, approvalRef: Id, subject: string, consoleSurface: Console, state: WaitState, updatedAt: nat)

  datatype Lifecycle = Ready | PendingStart | Streaming | Paused | Blocked | Closed

  datatype Session = Session(
    userId: Id,
    workspaceId: Id,
    managedThreadId: Option<Id>,
    codexThreadId: Option<Id>,
    lifecycle: Lifecycle,
    waiting: Option<Summary>)

  /** What a provider says about one approval reference. */
  datatype Status = Status(
    provider: Provider,
    approvalRef: Id,
    authorityClass: Authority,
    decision: Decision,
    decisionVersion: Id,
    projectId: Id,
    workspaceId: Id,
    resourceRef: Id,
    subject: string)

  datatype Capability = Capability(
    sessionId: Id, userId: Id, projectId: Id, workspaceId: Id, resourceRef: Id, managedThreadId: Id,
    runnerRunId: Option<Id>)

  /** The waits of a server: `order` is the wait list, `records` the objects it refers to. */
  datatype Snapshot = Snapshot(order: seq<Id>, records: map<Id, Wait>, sessions: map<Id, Session>)

  // ---- wait states -------------------------------------------------------------------------

  /** WAIT_STATES_BLOCKING and PUBLISHED_WAIT_STATES are the same six states. */
  predicate Blocking(state: WaitState) {
    || state.Pending? || state.VerificationDelayed? || state.SecurityFailure? || state.ApprovedResumeQueued?
    || state.ResumeDispatching? || state.ResumeReconciliationRequired?
  }

  predicate Due(state: WaitState) {
    PreDispatch(state) || state.ResumeDispatching?
  }

  /** The wait has not been reserved for a dispatch since it was last queued. */
  predicate PreDispatch(state: WaitState) {
    state.Pending? || state.VerificationDelayed? || state.ApprovedResumeQueued?
  }

  predicate NonApproved(decision: Decision) {
    decision.ChangesRequested? || decision.Rejected? || decision.Expired? || decision.Revoked?
  }

  function ConsoleFor(authority: Authority): Console {
    if authority == PrivilegedOperation then Admin else Overview
  }

  // ---- field checks ------------------------------------------------------------------------

  const MAX_FIELD_LENGTH := 256
  const MAX_WAIT_ID_LENGTH := 64
  const MAX_RUNNER_RUN_ID_LENGTH := 64

  predicate TrimmedAway(c: char) {
    || '\t' <= c <= '\r' || c == ' ' || c == '\U{a0}' || c == '\U{1680}' || '\U{2000}' <= c <= '\U{200a}'
    || c == '\U{2028}' || c == '\U{2029}' || c == '\U{202f}' || c == '\U{205f}' || c == '\U{3000}' || c == '\U{feff}'
  }

  predicate ControlCharacter(c: char) {
    c <= '\U{1f}' || '\U{7f}' <= c <= '\U{9f}'
  }

  predicate ValidField(value: string) {
    && 0 < |value| <= MAX_FIELD_LENGTH
    && !TrimmedAway(value[0]) && !TrimmedAway(value[|value| - 1])
    && forall i :: 0 <= i < |value| ==> !ControlCharacter(value[i])
  }

  predicate OpaqueCharacter(c: char) {
    'A' <= c <= 'Z' || 'a' <= c <= 'z' || '0' <= c <= '9' || c == '.' || c == '_' || c == '-'
  }

  /** Every opaque character is a legal field character, so only the length is left to check. */
  predicate OpaqueToken(value: string, maxLength: nat) {
    && 0 < |value| <= maxLength
    && forall i :: 0 <= i < |value| ==> OpaqueCharacter(value[i])
  }

  predicate LowerHex(c: char) { '0' <= c <= '9' || 'a' <= c <= 'f' }

  predicate Sha256Text(value: string) {
    && |value| == 71 && value[..7] == "sha256:"
    && forall i :: 7 <= i < 71 ==> LowerHex(value[i])
  }
}
