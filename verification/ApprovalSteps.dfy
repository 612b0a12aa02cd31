/**
 The approval coordinator as a step system.

 One step is one body that runs under a session lock; the system is cut only where the
 coordinator waits for the provider or for the runner.  Every lock body takes a `Save`: the
 clock reading and the backoff jitter it sees, and whether the persistence call it makes succeeds.
 */
module ApprovalSteps {
  import opened Options
  import opened ApprovalTypes
  import opened ApprovalProjection

  datatype Save = Save(at: nat, jitter: int, ok: bool)

  /** An answer of the runner, as it arrives. */
  datatype DenialReason = ReasonClosed | ReasonThread | ReasonScope
  datatype DispatchResult =
    | Started(runnerRunId: Id)
    | Capacity(retryAt: nat)
    | Ambiguous
    | Denied(reason: DenialReason)
    | Malformed

  datatype Completion = Succeeded(managedThreadId: Id) | Failed | MalformedCompletion

  datatype UserRunFailure = FailSecurity | FailReconciliation

  /** A call the coordinator is waiting for. */
  datatype Call =
    | RegisterCall(capability: Capability, approvalRef: Id)
    | RefreshCall(waitId: Id, sessionId: Id, generation: nat)
    | DispatchCall(waitId: Id, sessionId: Id, generation: nat, fromTick: bool)
    | ReopenCall(sessionId: Id, priorId: Id)

  datatype Tick = Idle | Running(queue: seq<Id>, awaiting: bool)

  /** Facts the outside world has established, kept for the statements about runs. */
  datatype Fact =
    | ApprovedFact(waitId: Id, approvalRef: Id, projectId: Id, workspaceId: Id, resourceRef: Id,
                   authorityClass: Authority, decisionVersion: Id)
    | StartedFact(waitId: Id, runnerRunId: Id)
    | SucceededFact(waitId: Id, runnerRunId: Id, managedThreadId: Id)

  datatype CompletionRecord = CompletionRecord(waitId: Id, continuationId: ContinuationId, runnerRunId: Id)

  /** A published or audited result; `durable` says whether the disk showed it at that moment. */
  datatype Notice = Notice(waitId: Id, state: WaitState, durable: bool)

  datatype History = History(
    handOvers: multiset<Id>,              // calls of queueContinuation, by wait
    capacities: multiset<Id>,             // committed `capacity` results, by wait
    facts: set<Fact>,
    completions: seq<CompletionRecord>,   // completeRunner answers `true`
    notices: seq<Notice>)

  datatype State = State(
    mem: Snapshot,
    disk: Snapshot,
    generation: map<Id, nat>,
    retirements: set<Id>,
    failures: set<(ContinuationId, Id)>,
    tick: Tick,
    calls: map<nat, Call>,
    nextCall: nat,
    history: History)

  const MAX_DISPATCH_DELAY: nat := 60000

  // ---- small pieces ------------------------------------------------------------------------

  function Generation(generation: map<Id, nat>, sid: Id): nat {
    if sid in generation then generation[sid] else 0
  }

  function NextCheckAt(now: nat, attempt: nat, jitter: int): nat {
    var delays := [2000, 5000, 15000, 30000, 60000];
    var base: nat := delays[if attempt == 0 then 0 else if attempt > 5 then 4 else attempt - 1];
    var delay := base + (if jitter < 0 then jitter else 0);
    now + if delay < 0 then 0 else delay
  }

  /** The first usable identifier out of at most eight generated ones; `None` is a generator that throws. */
  function NextWaitId(candidates: seq<Option<Id>>, attempts: nat, records: map<Id, Wait>): (r: Option<Id>)
    ensures r.Some? ==> r.value !in records && OpaqueToken(r.value, MAX_WAIT_ID_LENGTH)
  {
    if attempts == 0 || candidates == [] || candidates[0].None? then None
    else if OpaqueToken(candidates[0].value, MAX_WAIT_ID_LENGTH) && candidates[0].value !in records then candidates[0]
    else NextWaitId(candidates[1..], attempts - 1, records)
  }

  function AddWait(m: Snapshot, w: Wait): Snapshot {
    m.(order := m.order + [w.id], records := m.records[w.id := w])
  }

  function Publish(s: State, id: Id, state: WaitState): State {
    var durable := id in s.disk.records && s.disk.records[id].state == state;
    s.(history := s.history.(notices := s.history.notices + [Notice(id, state, durable)]))
  }

  /** A persisted transition: memory, reprojected, becomes the durable snapshot. */
  function CommitSnapshot(s: State, m: Snapshot, sid: Id): State {
    var projected := Reproject(m, sid);
    s.(mem := projected, disk := projected)
  }

  function Commit(s: State, w: Wait, announce: bool): State {
    var saved := CommitSnapshot(s, s.mem.(records := s.mem.records[w.id := w]), w.sessionId);
    if announce then Publish(saved, w.id, w.state) else saved
  }

  /** `#persistWaitTransition`: commit, or leave every wait and the session as they were. */
  function Transition(s: State, w: Wait, ok: bool, announce: bool): State {
    if ok then Commit(s, w, announce) else s
  }

  function Learn(s: State, fact: Fact): State {
    s.(history := s.history.(facts := s.history.facts + {fact}))
  }

  function ReleaseTick(s: State, fromTick: bool): State {
    if fromTick && s.tick.Running? then s.(tick := s.tick.(awaiting := false)) else s
  }

  function DropCall(s: State, call: nat): State {
    s.(calls := s.calls - {call})
  }

  function OpenCall(s: State, call: Call): State {
    s.(calls := s.calls[s.nextCall := call], nextCall := s.nextCall + 1)
  }

  // ---- evidence ----------------------------------------------------------------------------

  function ExpectedContinuation(m: Snapshot, w: Wait): Option<ContinuationId> {
    match w.successorOf
    case None => Some(Plain(w.sessionId, w.approvalRef, w.decisionVersion))
    case Some(prior) =>
      if && OpaqueToken(w.id, MAX_WAIT_ID_LENGTH) && OpaqueToken(prior, MAX_WAIT_ID_LENGTH)
         && prior in m.records && prior != w.id
         && m.records[prior].state == SessionClosed
         && SameScope(m.records[prior], w)
      then Some(Successor(w.id, w.sessionId, w.approvalRef, w.decisionVersion))
      else None
  }

  predicate SameScope(prior: Wait, w: Wait) {
    && prior.sessionId == w.sessionId && prior.userId == w.userId && prior.projectId == w.projectId
    && prior.workspaceId == w.workspaceId && prior.managedThreadId == w.managedThreadId
    && prior.approvalRef == w.approvalRef && prior.resourceRef == w.resourceRef
    && prior.authorityClass == w.authorityClass && prior.consoleSurface == w.consoleSurface
  }

  predicate FieldsCanonical(w: Wait) {
    && ValidField(w.sessionId) && ValidField(w.userId) && ValidField(w.projectId) && ValidField(w.workspaceId)
    && ValidField(w.resourceRef) && ValidField(w.subject) && ValidField(w.approvalRef) && ValidField(w.managedThreadId)
    && Sha256Text(w.decisionVersion)
    && w.authorityClass != Unknown
    && w.consoleSurface == ConsoleFor(w.authorityClass)
  }

  predicate Bound(w: Wait, session: Session) {
    && session.userId == w.userId && session.workspaceId == w.workspaceId
    && w.managedThreadId != ""
    && session.managedThreadId == Some(w.managedThreadId)
    && session.codexThreadId == Some(w.managedThreadId)
  }

  /** `#isDispatchEvidenceCanonical` */
  predicate Evidence(m: Snapshot, w: Wait) {
    && FieldsCanonical(w)
    && w.sessionId in m.sessions
    && var session := m.sessions[w.sessionId];
    && Bound(w, session)
    && session.lifecycle == Paused
    && session.waiting == Some(ToPublic(w))
    && ExpectedContinuation(m, w) == Some(w.continuationId)
  }

  /** `#isCurrentWaitForSession` */
  predicate IsCurrent(s: State, id: Id, sid: Id, generation: nat, states: set<WaitState>, dispatchBinding: bool) {
    && id in s.mem.records && sid in s.mem.sessions
    && Generation(s.generation, sid) == generation
    && s.mem.records[id].sessionId == sid
    && Bound(s.mem.records[id], s.mem.sessions[sid])
    && (dispatchBinding ==>
          && s.mem.sessions[sid].lifecycle == Paused
          && s.mem.sessions[sid].waiting.Some?
          && s.mem.sessions[sid].waiting.value.waitId == id
          && s.mem.sessions[sid].waiting.value.state == s.mem.records[id].state)
    && s.mem.records[id].state in states
  }

  /** `#isRefreshWaitCurrentAndCanonical` */
  predicate IsRefreshCurrent(s: State, id: Id, sid: Id, generation: nat) {
    && IsCurrent(s, id, sid, generation, {Pending, VerificationDelayed}, false)
    && s.mem.sessions[sid].lifecycle == Paused
    && s.mem.sessions[sid].waiting == Some(ToPublic(s.mem.records[id]))
  }

  /** `#isWaitStatusTrusted` */
  predicate Trusted(w: Wait, status: Status) {
    && status.decision != Garbled
    && ValidField(status.approvalRef) && ValidField(status.projectId) && ValidField(status.workspaceId)
    && ValidField(status.resourceRef) && ValidField(status.subject)
    && status.approvalRef == w.approvalRef && status.projectId == w.projectId
    && status.workspaceId == w.workspaceId && status.resourceRef == w.resourceRef
    && status.authorityClass == w.authorityClass
    && Sha256Text(status.decisionVersion)
    && status.provider == Overseer
  }

  function ApprovalOf(w: Wait, decisionVersion: Id): Fact {
    ApprovedFact(w.id, w.approvalRef, w.projectId, w.workspaceId, w.resourceRef, w.authorityClass, decisionVersion)
  }

  // ---- register ----------------------------------------------------------------------------

  predicate RegisterInputValid(c: Capability, approvalRef: Id) {
    && ValidField(c.sessionId) && ValidField(c.userId) && ValidField(c.projectId) && ValidField(c.workspaceId)
    && ValidField(c.resourceRef) && ValidField(c.managedThreadId) && ValidField(approvalRef)
  }

  function Register(s: State, c: Capability, approvalRef: Id): State {
    if RegisterInputValid(c, approvalRef) then OpenCall(s, RegisterCall(c, approvalRef)) else s
  }

  predicate RegisterStatusAccepted(c: Capability, approvalRef: Id, status: Status) {
    && status.provider == Overseer && status.approvalRef == approvalRef && status.projectId == c.projectId
    && status.workspaceId == c.workspaceId && status.resourceRef == c.resourceRef
    && status.decision == Undecided && status.authorityClass != Unknown
    && ValidField(status.subject) && Sha256Text(status.decisionVersion)
  }

  predicate RegistrationAllowed(session: Session, c: Capability, streamingAuthorized: bool) {
    && (|| session.lifecycle == Ready || session.lifecycle == Paused
        || (session.lifecycle == Streaming && c.runnerRunId.Some?
            && OpaqueToken(c.runnerRunId.value, MAX_RUNNER_RUN_ID_LENGTH) && streamingAuthorized))
    && session.userId == c.userId && session.workspaceId == c.workspaceId
    && session.managedThreadId == Some(c.managedThreadId) && c.managedThreadId != ""
    && session.codexThreadId == Some(c.managedThreadId)
  }

  function RegisteredWait(id: Id, session: Session, c: Capability, status: Status, save: Save): Wait {
    var now := save.at;
    Wait(id, c.sessionId, session.userId, status.projectId, status.workspaceId, c.managedThreadId,
         status.approvalRef, status.resourceRef, status.authorityClass, ConsoleFor(status.authorityClass),
         status.subject, Pending, status.decisionVersion,
         Plain(c.sessionId, status.approvalRef, status.decisionVersion), None, 0, NextCheckAt(now, 1, save.jitter), now, now,
         None, None, None, None)
  }

  function RegisterReply(s: State, call: nat, status: Option<Status>, streamingAuthorized: bool,
                         candidates: seq<Option<Id>>, save: Save): State
    requires call in s.calls && s.calls[call].RegisterCall?
  {
    var c, approvalRef := s.calls[call].capability, s.calls[call].approvalRef;
    var s0 := DropCall(s, call);
    var newId := NextWaitId(candidates, 8, s.mem.records);
    if && status.Some? && RegisterStatusAccepted(c, approvalRef, status.value)
       && newId.Some?
       && c.sessionId in s.mem.sessions
       && RegistrationAllowed(s.mem.sessions[c.sessionId], c, streamingAuthorized)
       && !HasActiveWait(s.mem, c.sessionId)
       && save.ok
    then
      var w := RegisteredWait(newId.value, s.mem.sessions[c.sessionId], c, status.value, save);
      Publish(CommitSnapshot(s0, AddWait(s.mem, w), c.sessionId), w.id, w.state)
    else s0
  }

  // ---- dispatch ----------------------------------------------------------------------------

  function Fail(w: Wait, state: WaitState, now: nat): Wait {
    w.(state := state, updatedAt := now, nextCheckAt := now, dispatchReservedAt := None, runnerRunId := None)
  }

  /** `#handleDispatchBindingLossBeforeQueue` for a wait that is still listed */
  function BindingLoss(s: State, id: Id, generation: nat, save: Save): State
    requires id in s.mem.records
  {
    var w := s.mem.records[id];
    if ClosedDuring(s, w.sessionId, generation) then
      if w.state == SessionClosed then s else Transition(s, Fail(w, SessionClosed, save.at), save.ok, false)
    else Transition(s, Fail(w, SecurityFailure, save.at), save.ok, true)
  }

  predicate ClosedDuring(s: State, sid: Id, generation: nat) {
    sid in s.generation && s.generation[sid] > generation
  }

  function Reserved(w: Wait, now: nat): Wait {
    w.(state := ResumeDispatching, dispatchReservedAt := Some(now), updatedAt := now, nextCheckAt := now, runnerRunId := None)
  }

  /** `queueContinuation` is called: the wait is handed over to the runner. */
  function HandOver(s: State, id: Id, sid: Id, generation: nat, fromTick: bool): State {
    var afterOpen := OpenCall(s, DispatchCall(id, sid, generation, fromTick));
    var busy := if fromTick && s.tick.Running? then afterOpen.(tick := s.tick.(awaiting := true)) else afterOpen;
    busy.(history := busy.history.(handOvers := busy.history.handOvers + multiset{id}))
  }

  /** The first lock body of `#dispatchApprovedWait`; the flag says whether the dispatch goes on. */
  function Reserve(s: State, id: Id, reserve: Save, loss: Save): (State, bool)
    requires id in s.mem.records
  {
    var w := s.mem.records[id];
    var generation := Generation(s.generation, w.sessionId);
    if !(IsCurrent(s, id, w.sessionId, generation, {ApprovedResumeQueued, ResumeDispatching}, false) && Evidence(s.mem, w))
    then (BindingLoss(s, id, generation, loss), false)
    else if w.state == ApprovedResumeQueued
    then (Transition(s, Reserved(w, reserve.at), reserve.ok, true), reserve.ok)
    else (s, true)
  }

  /** `#dispatchApprovedWait` up to the call of `queueContinuation` */
  function Dispatch(s: State, id: Id, fromTick: bool, reserve: Save, loss: Save): State
    requires id in s.mem.records
  {
    var sid := s.mem.records[id].sessionId;
    var generation := Generation(s.generation, sid);
    var (s1, going) := Reserve(s, id, reserve, loss);
    if !going then s1
    else if IsCurrent(s1, id, sid, generation, {ResumeDispatching}, true) && Evidence(s1.mem, s1.mem.records[id])
    then HandOver(s1, id, sid, generation, fromTick)
    else BindingLoss(s1, id, generation, loss)
  }

  /** `#safeParseDispatchResult` */
  function ParseResult(result: DispatchResult, now: nat): DispatchResult {
    match result
    case Started(run) => if OpaqueToken(run, MAX_RUNNER_RUN_ID_LENGTH) then result else Malformed
    case Capacity(retryAt) => if now < retryAt <= now + MAX_DISPATCH_DELAY then result else Malformed
    case _ => result
  }

  function AppliedWait(w: Wait, result: DispatchResult, now: nat): Wait {
    var cleared := w.(updatedAt := now, runnerRunId := None, dispatchReservedAt := None);
    match result
    case Started(run) => w.(runnerRunId := Some(run), dispatchReservedAt := Some(now), updatedAt := now)
    case Capacity(retryAt) => cleared.(state := ApprovedResumeQueued, nextCheckAt := retryAt)
    case Ambiguous => cleared.(state := ResumeReconciliationRequired)
    case Malformed => cleared.(state := ResumeReconciliationRequired, nextCheckAt := now)
    case Denied(reason) => cleared.(state := if reason == ReasonClosed then SessionClosed else SecurityFailure)
  }

  function AppliedHistory(h: History, id: Id, result: DispatchResult): History {
    match result
    case Started(run) => h.(facts := h.facts + {StartedFact(id, run)})
    case Capacity(_) => h.(capacities := h.capacities + multiset{id})
    case _ => h
  }

  /** `#applyDispatchResult` */
  function ApplyResult(s: State, id: Id, result: DispatchResult, save: Save): State
    requires id in s.mem.records
  {
    if !save.ok then s
    else Commit(s.(history := AppliedHistory(s.history, id, result)), AppliedWait(s.mem.records[id], result, save.at), true)
  }

  /** A late answer that closing the session has already settled. */
  predicate SettledByClose(result: DispatchResult) {
    result.Capacity? || result == Denied(ReasonClosed)
  }

  function LostWait(w: Wait, result: DispatchResult, now: nat): Wait {
    if result.Started?
    then w.(state := ResumeReconciliationRequired, updatedAt := now, runnerRunId := Some(result.runnerRunId), dispatchReservedAt := Some(now))
    else w.(state := ResumeReconciliationRequired, updatedAt := now, runnerRunId := None, dispatchReservedAt := None)
  }

  /** `#applyDispatchResultWithBindingLoss` */
  function ApplyWithLoss(s: State, id: Id, sid: Id, generation: nat, result: DispatchResult, save: Save): State {
    if ClosedDuring(s, sid, generation) && SettledByClose(result) then s
    else if id !in s.mem.records then MissingWait(s, id, sid, ResumeReconciliationRequired, save)
    else Transition(s, LostWait(s.mem.records[id], result, save.at), save.ok, true)
  }

  /** `#persistMissingLiveWaitOutcome` */
  function MissingWait(s: State, id: Id, sid: Id, state: WaitState, save: Save): State {
    if sid !in s.mem.sessions || !save.ok then s
    else
      var session := s.mem.sessions[sid];
      var m := s.mem.(sessions := s.mem.sessions[sid :=
                 session.(waiting := None, lifecycle := if session.lifecycle == Closed then Closed else Blocked)]);
      Publish(s.(mem := m, disk := m), id, state)
  }

  function DispatchReply(s: State, call: nat, answer: DispatchResult, save: Save): State
    requires call in s.calls && s.calls[call].DispatchCall?
  {
    var c := s.calls[call];
    var result := ParseResult(answer, save.at);
    var s0 := ReleaseTick(DropCall(s, call), c.fromTick);
    if IsCurrent(s0, c.waitId, c.sessionId, c.generation, {ResumeDispatching}, true)
    then ApplyResult(s0, c.waitId, result, save)
    else ApplyWithLoss(s0, c.waitId, c.sessionId, c.generation, result, save)
  }

  // ---- refresh -----------------------------------------------------------------------------

  function Renamed(w: Wait, decisionVersion: Id): Wait {
    w.(decisionVersion := decisionVersion,
       continuationId := if w.successorOf.Some?
                         then Successor(w.id, w.sessionId, w.approvalRef, decisionVersion)
                         else Plain(w.sessionId, w.approvalRef, decisionVersion))
  }

  function RefreshedWait(w: Wait, status: Option<Status>, save: Save): Wait {
    var now := save.at;
    var counted := w.(checkAttempt := w.checkAttempt + 1, updatedAt := now);
    var later := NextCheckAt(now, w.checkAttempt + 2, save.jitter);
    match status
    case None => counted.(state := VerificationDelayed, nextCheckAt := later)
    case Some(st) =>
      if !Trusted(w, st) then Fail(counted, SecurityFailure, now)
      else if st.decision == Undecided then counted.(subject := st.subject, state := Pending, nextCheckAt := later)
      else
        var decided := Renamed(counted, st.decisionVersion).(subject := st.subject, decisionObservedAt := Some(now), nextCheckAt := now);
        if st.decision == Approved then decided.(state := ApprovedResumeQueued)
        else Fail(decided, Declined(st.decision), now)
  }

  function Refresh(s: State, id: Id): State
    requires id in s.mem.records && s.tick.Running?
  {
    var sid := s.mem.records[id].sessionId;
    var afterOpen := OpenCall(s, RefreshCall(id, sid, Generation(s.generation, sid)));
    afterOpen.(tick := s.tick.(awaiting := true))
  }

  function RefreshReply(s: State, call: nat, status: Option<Status>, save: Save, reserve: Save, loss: Save): State
    requires call in s.calls && s.calls[call].RefreshCall?
  {
    var c := s.calls[call];
    var s0 := ReleaseTick(DropCall(s, call), true);
    if IsRefreshCurrent(s0, c.waitId, c.sessionId, c.generation)
    then Refreshed(s0, c.waitId, status, save, reserve, loss)
    else s0
  }

  /** The answer is applied; an approval that is recorded goes straight on to the dispatch. */
  function Refreshed(s: State, id: Id, status: Option<Status>, save: Save, reserve: Save, loss: Save): State
    requires id in s.mem.records
  {
    var w := s.mem.records[id];
    var refreshed := RefreshedWait(w, status, save);
    var approved := status.Some? && Trusted(w, status.value) && status.value.decision == Approved;
    var s1 := if approved then Learn(s, ApprovalOf(w, status.value.decisionVersion)) else s;
    var s2 := Transition(s1, refreshed, save.ok, refreshed.state != w.state);
    if approved && save.ok then Dispatch(s2, id, true, reserve, loss) else s2
  }

  // ---- recovery, completion, failure --------------------------------------------------------

  /** `#recoverDispatchingWait` */
  function RecoverWait(s: State, id: Id, startup: bool, save: Save): State
    requires id in s.mem.records
  {
    var w := s.mem.records[id];
    var failed := w.runnerRunId.Some? && (w.continuationId, w.runnerRunId.value) in s.failures;
    if w.state != ResumeDispatching || (!startup && w.runnerRunId.Some? && !failed) then s
    else if !Evidence(s.mem, w) then BindingLoss(s, id, Generation(s.generation, w.sessionId), save)
    else
      var s1 := Transition(s, Fail(w, ResumeReconciliationRequired, save.at), save.ok, true);
      if save.ok && w.runnerRunId.Some? then s1.(failures := s.failures - {(w.continuationId, w.runnerRunId.value)}) else s1
  }

  predicate Completable(w: Wait, continuationId: ContinuationId, run: Id) {
    w.continuationId == continuationId && w.runnerRunId == Some(run) && w.state == ResumeDispatching
  }

  /** The first listed wait a completion is about. */
  function CompletionTarget(order: seq<Id>, records: map<Id, Wait>, continuationId: ContinuationId, run: Id): (r: Option<Id>)
    ensures r.Some? ==> r.value in records && Completable(records[r.value], continuationId, run)
    ensures r.None? ==> forall i :: 0 <= i < |order| && order[i] in records ==> !Completable(records[order[i]], continuationId, run)
  {
    if order == [] then None
    else if order[0] in records && Completable(records[order[0]], continuationId, run) then Some(order[0])
    else CompletionTarget(order[1..], records, continuationId, run)
  }

  function CompletedWait(m: Snapshot, w: Wait, result: Completion, now: nat): Wait {
    var settled := w.(updatedAt := now, nextCheckAt := now, dispatchReservedAt := None, resumedAt := None);
    if !Evidence(m, w) then settled.(state := SecurityFailure)
    else if result == Succeeded(w.managedThreadId) then settled.(state := Resumed, resumedAt := Some(now))
    else if result.Succeeded? && ValidField(result.managedThreadId) then settled.(state := SecurityFailure)
    else settled.(state := ResumeReconciliationRequired)
  }

  /** `completeRunner`: the new state and the answer.  A continuation that is no digest is `None`. */
  function CompleteRunner(s: State, continuationId: Option<ContinuationId>, run: Id, result: Completion, save: Save): (State, bool) {
    if continuationId.None? || !OpaqueToken(run, MAX_RUNNER_RUN_ID_LENGTH) then (s, false)
    else
      match CompletionTarget(s.mem.order, s.mem.records, continuationId.value, run)
      case None => (s, false)
      case Some(id) =>
        var sid := s.mem.records[id].sessionId;
        if sid !in s.mem.sessions || s.mem.sessions[sid].lifecycle == Closed then (s, false)
        else CompleteTarget(s, id, continuationId.value, run, result, save)
  }

  /** The lock body of `completeRunner` */
  function CompleteTarget(s: State, id: Id, continuationId: ContinuationId, run: Id, result: Completion, save: Save): (State, bool)
    requires id in s.mem.records
  {
    var s0 := if result.Succeeded? then Learn(s, SucceededFact(id, run, result.managedThreadId)) else s;
    var key := (continuationId, run);
    if !save.ok then (s0.(failures := s.failures + {key}), false)
    else
      var s1 := Commit(s0, CompletedWait(s.mem, s.mem.records[id], result, save.at), true);
      var record := CompletionRecord(id, continuationId, run);
      (s1.(failures := s.failures - {key}, history := s1.history.(completions := s1.history.completions + [record])), true)
  }

  function FirstBlocking(order: seq<Id>, records: map<Id, Wait>, sid: Id): (r: Option<Id>)
    ensures r.Some? ==> r.value in records && BlocksSession(records[r.value], sid)
    ensures r.None? ==> forall i :: 0 <= i < |order| && order[i] in records ==> !BlocksSession(records[order[i]], sid)
  {
    if order == [] then None
    else if order[0] in records && BlocksSession(records[order[0]], sid) then Some(order[0])
    else FirstBlocking(order[1..], records, sid)
  }

  /** `failUserRun` */
  function FailUserRun(s: State, sid: Id, failure: UserRunFailure, save: Save): (State, bool) {
    match FirstBlocking(s.mem.order, s.mem.records, sid)
    case None => (s, false)
    case Some(id) =>
      if sid !in s.mem.sessions || s.mem.sessions[sid].lifecycle == Closed then (s, false)
      else
        var state := if failure == FailSecurity then SecurityFailure else ResumeReconciliationRequired;
        (Transition(s, Fail(s.mem.records[id], state, save.at), save.ok, true), save.ok)
  }

  // ---- close, retirement, reopen -------------------------------------------------------------

  function Retire(records: map<Id, Wait>, sids: set<Id>, now: nat): map<Id, Wait> {
    map id | id in records ::
      if records[id].sessionId in sids && Blocking(records[id].state) then Fail(records[id], SessionClosed, now) else records[id]
  }

  /** `closeSessionWait`: the new state and whether it threw. */
  function CloseSessionWait(s: State, sid: Id, save: Save): (State, bool) {
    if sid !in s.mem.sessions || !HasActiveWait(s.mem, sid) then (s, false)
    else
      var prior := Generation(s.generation, sid);
      if save.ok
      then (CommitSnapshot(s, s.mem.(records := Retire(s.mem.records, {sid}, save.at)), sid).(generation := s.generation[sid := prior + 1]), false)
      else (s.(generation := s.generation[sid := prior]), true)
  }

  function WithLifecycle(m: Snapshot, sid: Id, lifecycle: Lifecycle): Snapshot
    requires sid in m.sessions
  {
    m.(sessions := m.sessions[sid := m.sessions[sid].(lifecycle := lifecycle)])
  }

  /** The session service archives a session: it marks it closed, closes its waits, and saves. */
  function CloseSession(s: State, sid: Id, save: Save): State {
    if sid !in s.mem.sessions then s
    else
      var closing := s.(mem := WithLifecycle(s.mem, sid, Closed));
      if !HasActiveWait(s.mem, sid) then
        if save.ok then closing.(disk := closing.mem) else closing
      else
        var (s1, threw) := CloseSessionWait(closing, sid, save);
        if threw then s1.(mem := s.mem) else s1
  }

  /** Retired waits of one session, in list order. */
  function RetiredNotices(order: seq<Id>, m: Snapshot, retirements: set<Id>, sid: Id): seq<Notice> {
    if order == [] then []
    else
      (if order[0] in retirements && order[0] in m.records && m.records[order[0]].sessionId == sid
       then [Notice(order[0], SessionClosed, m.records[order[0]].state == SessionClosed)] else [])
      + RetiredNotices(order[1..], m, retirements, sid)
  }

  /** One lock body of `#persistClosedSessionRetirements` */
  function PersistRetirements(s: State, sid: Id, save: Save): State {
    if !save.ok then s
    else
      var done := set id | id in s.retirements && id in s.mem.records && s.mem.records[id].sessionId == sid;
      if done == {} then s
      else
        s.(disk := s.mem, retirements := s.retirements - done,
           history := s.history.(notices := s.history.notices + RetiredNotices(s.mem.order, s.mem, s.retirements, sid)))
  }

  /** `reopenSessionWait` up to the provider, called by the session service. */
  function Reopen(s: State, sid: Id, save: Save): State {
    if sid !in s.mem.sessions || s.mem.sessions[sid].lifecycle != Closed then s
    else
      match Newest(s.mem.order, s.mem.records, sid, true)
      case None =>
        var ready := s.(mem := WithLifecycle(s.mem, sid, Ready));
        if save.ok then ready.(disk := ready.mem) else ready
      case Some(prior) => OpenCall(s, ReopenCall(sid, prior.id))
  }

  function SuccessorWait(id: Id, sid: Id, prior: Wait, status: Status, save: Save): Wait {
    var now := save.at;
    var approved := status.decision == Approved;
    Wait(id, sid, prior.userId, status.projectId, status.workspaceId, prior.managedThreadId,
         status.approvalRef, status.resourceRef, status.authorityClass, ConsoleFor(status.authorityClass),
         status.subject, if approved then ApprovedResumeQueued else Pending, status.decisionVersion,
         Successor(id, sid, status.approvalRef, status.decisionVersion), Some(prior.id), 0,
         if approved then now else NextCheckAt(now, 1, save.jitter), now, now,
         if approved then Some(now) else None, None, None, None)
  }

  predicate SuccessorAllowed(m: Snapshot, sid: Id, prior: Wait) {
    && sid in m.sessions && m.sessions[sid].lifecycle == Closed
    && !HasActiveWait(m, sid)
    && m.sessions[sid].userId == prior.userId && m.sessions[sid].workspaceId == prior.workspaceId
    && m.sessions[sid].managedThreadId == Some(prior.managedThreadId)
    && m.sessions[sid].codexThreadId == Some(prior.managedThreadId)
  }

  function ReopenReply(s: State, call: nat, status: Option<Status>, candidates: seq<Option<Id>>,
                       save: Save, reserve: Save, loss: Save): State
    requires call in s.calls && s.calls[call].ReopenCall?
  {
    var c := s.calls[call];
    var s0 := DropCall(s, call);
    if status.None? || c.priorId !in s.mem.records || !Trusted(s.mem.records[c.priorId], status.value) then s0
    else if NonApproved(status.value.decision) then ReopenReady(s0, c.sessionId, save)
    else ReopenSuccessor(s0, c.sessionId, c.priorId, status.value, candidates, save, reserve, loss)
  }

  /** The approval was refused meanwhile: the session opens without a wait. */
  function ReopenReady(s: State, sid: Id, save: Save): State {
    if sid !in s.mem.sessions || s.mem.sessions[sid].lifecycle != Closed || !save.ok then s
    else
      var m := s.mem.(sessions := s.mem.sessions[sid := s.mem.sessions[sid].(lifecycle := Ready, waiting := None)]);
      s.(mem := m, disk := m)
  }

  /** The approval is pending or granted: a successor wait takes the closed one's place. */
  function ReopenSuccessor(s: State, sid: Id, priorId: Id, status: Status, candidates: seq<Option<Id>>,
                           save: Save, reserve: Save, loss: Save): State
    requires priorId in s.mem.records
  {
    var prior := s.mem.records[priorId];
    var newId := NextWaitId(candidates, 8, s.mem.records);
    if newId.None? || !SuccessorAllowed(s.mem, sid, prior) then s
    else
      var w := SuccessorWait(newId.value, sid, prior, status, save);
      var approved := status.decision == Approved;
      var s1 := if approved then Learn(s, ApprovalOf(w, w.decisionVersion)) else s;
      if !save.ok then s1
      else
        var afterOpen := s.mem.(sessions := s.mem.sessions[sid := s.mem.sessions[sid].(lifecycle := Ready, waiting := None)]);
        var s2 := Publish(CommitSnapshot(s1, AddWait(afterOpen, w), sid), w.id, w.state);
        if approved then Dispatch(s2, w.id, false, reserve, loss) else s2
  }

  // ---- tick and restart ----------------------------------------------------------------------

  function DueWaits(order: seq<Id>, records: map<Id, Wait>, now: nat): seq<Id> {
    if order == [] then []
    else
      (if order[0] in records && Due(records[order[0]].state) && records[order[0]].nextCheckAt <= now then [order[0]] else [])
      + DueWaits(order[1..], records, now)
  }

  function TickStart(s: State, now: nat): State {
    if s.tick.Running? || s.retirements != {} then s
    else s.(tick := Running(DueWaits(s.mem.order, s.mem.records, now), false))
  }

  function TickNext(s: State, save: Save, loss: Save): State {
    if s.tick.Idle? || s.tick.awaiting then s
    else if s.tick.queue == [] then s.(tick := Idle)
    else
      var id := s.tick.queue[0];
      var s0 := s.(tick := Running(s.tick.queue[1..], false));
      if id !in s.mem.records then s0
      else
        var w := s.mem.records[id];
        if w.sessionId !in s.mem.sessions || s.mem.sessions[w.sessionId].lifecycle == Closed then s0
        else
          match w.state
          case Pending => Refresh(s0, id)
          case VerificationDelayed => Refresh(s0, id)
          case ApprovedResumeQueued => Dispatch(s0, id, true, save, loss)
          case ResumeDispatching => RecoverWait(s0, id, false, save)
          case _ => s0
  }

  /** One wait of the loop in `recover`. */
  function RecoverAtStartup(s: State, id: Id, save: Save): State {
    if || id !in s.mem.records || s.retirements != {} || s.mem.records[id].sessionId !in s.mem.sessions
       || s.mem.sessions[s.mem.records[id].sessionId].lifecycle == Closed
    then s
    else RecoverWait(s, id, true, save)
  }

  /** What loading the file does to a session: a run does not survive the process. */
  function Loaded(session: Session): Session {
    if session.lifecycle == Streaming || session.lifecycle == PendingStart then session.(lifecycle := Ready) else session
  }

  function ClosedSessions(sessions: map<Id, Session>): set<Id> {
    set sid | sid in sessions && sessions[sid].lifecycle == Closed
  }

  /** The constructor: retire the waits of closed sessions, then project every session. */
  function Constructed(loaded: Snapshot, now: nat): Snapshot {
    var records := Retire(loaded.records, ClosedSessions(loaded.sessions), now);
    Snapshot(loaded.order, records,
             map sid | sid in loaded.sessions :: Project(loaded.order, records, sid, loaded.sessions[sid]))
  }

  function RetiredAtStart(loaded: Snapshot): set<Id> {
    set id | id in loaded.records && loaded.records[id].sessionId in ClosedSessions(loaded.sessions) && Blocking(loaded.records[id].state)
  }

  /** The process stops (losing everything but the disk) and a new one starts. */
  function Restart(s: State, now: nat): State {
    var loaded := s.disk.(sessions := map sid | sid in s.disk.sessions :: Loaded(s.disk.sessions[sid]));
    State(Constructed(loaded, now), s.disk, map[], RetiredAtStart(loaded), {}, Idle, map[], s.nextCall, s.history)
  }

  function Initial(sessions: map<Id, Session>, now: nat): State {
    Restart(State(Snapshot([], map[], sessions), Snapshot([], map[], sessions), map[], {}, {}, Idle, map[], 0,
                  History(multiset{}, multiset{}, {}, [], [])), now)
  }

  // ---- runs ----------------------------------------------------------------------------------

  datatype Step =
    | DoRegister(capability: Capability, approvalRef: Id)
    | DoRegisterReply(call: nat, status: Option<Status>, streamingAuthorized: bool, candidates: seq<Option<Id>>, save: Save)
    | DoPersistRetirements(sid: Id, save: Save)
    | DoTickStart(now: nat)
    | DoTickNext(save: Save, loss: Save)
    | DoRefreshReply(call: nat, status: Option<Status>, save: Save, reserve: Save, loss: Save)
    | DoDispatchReply(call: nat, answer: DispatchResult, save: Save)
    | DoRecover(id: Id, save: Save)
    | DoComplete(continuationId: Option<ContinuationId>, run: Id, result: Completion, save: Save)
    | DoFailUserRun(sid: Id, failure: UserRunFailure, save: Save)
    | DoClose(sid: Id, save: Save)
    | DoReopen(sid: Id, save: Save)
    | DoReopenReply(call: nat, status: Option<Status>, candidates: seq<Option<Id>>, save: Save, reserve: Save, loss: Save)
    | DoRestart(now: nat)

  /** A reply step names an outstanding call of its kind. */
  predicate Enabled(s: State, step: Step) {
    match step
    case DoRegisterReply(call, _, _, _, _) => call in s.calls && s.calls[call].RegisterCall?
    case DoRefreshReply(call, _, _, _, _) => call in s.calls && s.calls[call].RefreshCall?
    case DoDispatchReply(call, _, _) => call in s.calls && s.calls[call].DispatchCall?
    case DoReopenReply(call, _, _, _, _, _) => call in s.calls && s.calls[call].ReopenCall?
    case _ => true
  }

  function Next(s: State, step: Step): State {
    if !Enabled(s, step) then s
    else
      match step
      case DoRegister(c, approvalRef) => Register(s, c, approvalRef)
      case DoRegisterReply(call, status, streamingAuthorized, candidates, save) =>
        RegisterReply(s, call, status, streamingAuthorized, candidates, save)
      case DoPersistRetirements(sid, save) => PersistRetirements(s, sid, save)
      case DoTickStart(now) => TickStart(s, now)
      case DoTickNext(save, loss) => TickNext(s, save, loss)
      case DoRefreshReply(call, status, save, reserve, loss) => RefreshReply(s, call, status, save, reserve, loss)
      case DoDispatchReply(call, answer, save) => DispatchReply(s, call, answer, save)
      case DoRecover(id, save) => RecoverAtStartup(s, id, save)
      case DoComplete(continuationId, run, result, save) => CompleteRunner(s, continuationId, run, result, save).0
      case DoFailUserRun(sid, failure, save) => FailUserRun(s, sid, failure, save).0
      case DoClose(sid, save) => CloseSession(s, sid, save)
      case DoReopen(sid, save) => Reopen(s, sid, save)
      case DoReopenReply(call, status, candidates, save, reserve, loss) =>
        ReopenReply(s, call, status, candidates, save, reserve, loss)
      case DoRestart(now) => Restart(s, now)
  }

  function Run(s: State, steps: seq<Step>): State {
    if steps == [] then s else Next(Run(s, steps[..|steps| - 1]), steps[|steps| - 1])
  }
}
