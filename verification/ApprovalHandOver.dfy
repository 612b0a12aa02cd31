/**
 When a wait is handed to the runner: in every run, safe or not, the evidence for it stands and its
 reservation is on disk; and a wait without that evidence is not handed over but fails.
 */
module ApprovalHandOver {
  import opened Options
  import opened ApprovalTypes
  import opened ApprovalProjection
  import opened ApprovalSteps
  import opened ApprovalSafety
  import opened ApprovalTheorems
  import opened ApprovalCoherence
  import opened ApprovalOutcomes
  import opened ApprovalLifecycle
  import opened ApprovalRuns

  // ---- the evidence --------------------------------------------------------------------------------

  /** What a wait stands for: who waits where for which approval of what. */
  datatype Standing = Standing(
    sessionId: Id, userId: Id, projectId: Id, workspaceId: Id, threadId: Id,
    approvalRef: Id, resourceRef: Id, authority: Authority, console: Console)

  function StandingOf(w: Wait): Standing {
    Standing(w.sessionId, w.userId, w.projectId, w.workspaceId, w.managedThreadId, w.approvalRef, w.resourceRef, w.authorityClass, w.consoleSurface)
  }

  predicate Readable(w: Wait) {
    && (forall field :: field in [w.sessionId, w.userId, w.projectId, w.workspaceId, w.managedThreadId, w.approvalRef, w.resourceRef, w.subject]
          ==> ValidField(field))
    && Sha256Text(w.decisionVersion)
    && ((w.authorityClass == PrivilegedOperation && w.consoleSurface == Admin) || (w.authorityClass == ProjectWorkflow && w.consoleSurface == Overview))
  }

  /** The continuation is the one of this approval in this version; a successor's prior wait is closed and stood for the same. */
  predicate Continues(m: Snapshot, w: Wait) {
    match w.successorOf
    case None => w.continuationId == Plain(w.sessionId, w.approvalRef, w.decisionVersion)
    case Some(prior) =>
      && w.continuationId == Successor(w.id, w.sessionId, w.approvalRef, w.decisionVersion)
      && OpaqueToken(w.id, 64) && OpaqueToken(prior, 64) && prior != w.id
      && prior in m.records && m.records[prior].state == SessionClosed && StandingOf(m.records[prior]) == StandingOf(w)
  }

  /** The session is paused on the wait's thread, and shows the wait as it is. */
  predicate PausedFor(session: Session, w: Wait) {
    session == Session(w.userId, w.workspaceId, Some(w.managedThreadId), Some(w.managedThreadId), Paused,
                       Some(Summary(w.id, w.approvalRef, w.subject, w.consoleSurface, w.state, w.updatedAt)))
  }

  predicate FitToRun(m: Snapshot, w: Wait) {
    Readable(w) && Continues(m, w) && w.sessionId in m.sessions && PausedFor(m.sessions[w.sessionId], w)
  }

  lemma EvidenceExactly(m: Snapshot, w: Wait)
    ensures Evidence(m, w) <==> FitToRun(m, w)
  {
    hide Sha256Text, OpaqueToken;
    var fields := [w.sessionId, w.userId, w.projectId, w.workspaceId, w.managedThreadId, w.approvalRef, w.resourceRef, w.subject];
    assert fields[0] in fields && fields[1] in fields && fields[2] in fields && fields[3] in fields
        && fields[4] in fields && fields[5] in fields && fields[6] in fields && fields[7] in fields;
    assert ValidField(w.managedThreadId) ==> w.managedThreadId != "";
  }

  // ---- handing over --------------------------------------------------------------------------------

  /** The wait has been reserved for the runner, in memory and on disk, and the evidence for it stands. */
  predicate HandedOver(s: State, id: Id) {
    && id in s.mem.records && id in s.disk.records && s.disk.records[id] == s.mem.records[id]
    && s.mem.records[id].state == ResumeDispatching && s.mem.records[id].runnerRunId == None
    && FitToRun(s.mem, s.mem.records[id])
  }

  /** The step has handed nothing over but what has been reserved. */
  ghost predicate HandsOverReserved(s: State, s': State) {
    forall id :: s'.history.handOvers[id] > s.history.handOvers[id] ==>
      HandedOver(s', id) && s'.history.handOvers == s.history.handOvers + multiset{id}
  }

  lemma LossHandsNothing(s: State, id: Id, generation: nat, loss: Save)
    requires id in s.mem.records
    ensures BindingLoss(s, id, generation, loss).history.handOvers == s.history.handOvers
  {
    hide Project, ClosedDuring;
  }

  lemma ReservedFor(w: Wait, now: nat)
    ensures var w' := Reserved(w, now); w'.id == w.id && w'.sessionId == w.sessionId && w'.state == ResumeDispatching && w'.runnerRunId == None
  {
  }

  lemma DispatchReserves(s: State, id: Id, fromTick: bool, reserve: Save, loss: Save)
    requires id in s.mem.records && s.mem.records[id].id == id && s.mem.records[id].state == ApprovedResumeQueued
    ensures HandsOverReserved(s, Dispatch(s, id, fromTick, reserve, loss))
  {
    hide Evidence, FitToRun, IsCurrent, Commit, BindingLoss, Reserved;
    var generation := Generation(s.generation, s.mem.records[id].sessionId);
    LossHandsNothing(s, id, generation, loss);
    var w := Reserved(s.mem.records[id], reserve.at);
    ReservedFor(s.mem.records[id], reserve.at);
    Committed(s, w, true);
    var s1 := Commit(s, w, true);
    LossHandsNothing(s1, id, generation, loss);
    EvidenceExactly(s1.mem, s1.mem.records[id]);
  }

  lemma TickReserves(s: State, save: Save, loss: Save)
    requires Sound(s)
    ensures HandsOverReserved(s, TickNext(s, save, loss))
  {
    hide Sound, Dispatch, RecoverWait, HandedOver;
    if s.tick.Running? && !s.tick.awaiting && s.tick.queue != [] && s.tick.queue[0] in s.mem.records {
      var id := s.tick.queue[0];
      var s0 := s.(tick := Running(s.tick.queue[1..], false));
      WaitKnown(s, id);
      RecoveryHandsNothing(s0, id, false, save);
      if s.mem.records[id].state == ApprovedResumeQueued { DispatchReserves(s0, id, true, save, loss); }
    }
  }

  lemma RecoveryHandsNothing(s: State, id: Id, startup: bool, save: Save)
    requires id in s.mem.records
    ensures RecoverWait(s, id, startup, save).history.handOvers == s.history.handOvers
  {
    hide Evidence, Project, ClosedDuring;
  }

  lemma RefreshReserves(s: State, id: Id, status: Option<Status>, save: Save, reserve: Save, loss: Save)
    requires id in s.mem.records && s.mem.records[id].id == id
    ensures HandsOverReserved(s, Refreshed(s, id, status, save, reserve, loss))
  {
    hide Dispatch, Trusted, HandedOver, Commit, RefreshedWait;
    var w := s.mem.records[id];
    var refreshed := RefreshedWait(w, status, save);
    var approved := status.Some? && Trusted(w, status.value) && status.value.decision == Approved;
    var s1 := if approved then Learn(s, ApprovalOf(w, status.value.decisionVersion)) else s;
    SameId(w, status, save);
    Committed(s1, refreshed, refreshed.state != w.state);
    if approved && save.ok {
      ApprovedQueues(w, status.value, save);
      DispatchReserves(Commit(s1, refreshed, refreshed.state != w.state), id, true, reserve, loss);
    }
  }

  lemma ApprovedQueues(w: Wait, status: Status, save: Save)
    requires Trusted(w, status) && status.decision == Approved
    ensures RefreshedWait(w, Some(status), save).state == ApprovedResumeQueued
  {
  }

  lemma {:induction false} ReopenReserves(s: State, call: nat, status: Option<Status>, candidates: seq<Option<Id>>, save: Save, reserve: Save, loss: Save)
    requires call in s.calls && s.calls[call].ReopenCall?
    ensures HandsOverReserved(s, ReopenReply(s, call, status, candidates, save, reserve, loss))
  {
    hide Dispatch, Trusted, HandedOver, HasActiveWait, Project, SuccessorAllowed, SuccessorWait, Blocking;
    var c := s.calls[call];
    var s0 := DropCall(s, call);
    var newId := NextWaitId(candidates, 8, s.mem.records);
    if status.Some? && c.priorId in s.mem.records && newId.Some? && SuccessorAllowed(s.mem, c.sessionId, s.mem.records[c.priorId])
       && status.value.decision == Approved {
      SuccessorReserves(s0, c.sessionId, c.priorId, newId.value, status.value, save, reserve, loss);
    }
  }

  lemma {:induction false} SuccessorReserves(s: State, sid: Id, priorId: Id, id: Id, status: Status, save: Save, reserve: Save, loss: Save)
    requires priorId in s.mem.records && SuccessorAllowed(s.mem, sid, s.mem.records[priorId]) && status.decision == Approved
    ensures sid in s.mem.sessions
    ensures var w := SuccessorWait(id, sid, s.mem.records[priorId], status, save);
            var ready := s.mem.(sessions := s.mem.sessions[sid := s.mem.sessions[sid].(lifecycle := Ready, waiting := None)]);
            var s2 := Publish(CommitSnapshot(Learn(s, ApprovalOf(w, w.decisionVersion)), AddWait(ready, w), sid), w.id, w.state);
            && w.id in s2.mem.records && HandsOverReserved(s, Dispatch(s2, w.id, false, reserve, loss))
  {
    hide Dispatch, HandedOver, Project, HasActiveWait;
    var w := SuccessorWait(id, sid, s.mem.records[priorId], status, save);
    var ready := s.mem.(sessions := s.mem.sessions[sid := s.mem.sessions[sid].(lifecycle := Ready, waiting := None)]);
    var s2 := Publish(CommitSnapshot(Learn(s, ApprovalOf(w, w.decisionVersion)), AddWait(ready, w), sid), w.id, w.state);
    DispatchReserves(s2, w.id, false, reserve, loss);
  }

  /** No other step hands anything over. */
  lemma OthersHandNothing(s: State, step: Step)
    requires !step.DoTickNext? && !step.DoRefreshReply? && !step.DoReopenReply? && !step.DoRecover?
    ensures Next(s, step).history.handOvers == s.history.handOvers
  {
    hide Project, IsCurrent, HasActiveWait, Evidence, NextWaitId, CompletedWait, OpaqueToken, RegisterStatusAccepted, RegistrationAllowed,
         DispatchReply, CompleteRunner;
    match step
    case DoDispatchReply(call, answer, save) => if Enabled(s, step) { ReplyHandsNothing(s, call, answer, save); }
    case DoComplete(continuationId, run, result, save) => CompletionHandsNothing(s, continuationId, run, result, save);
    case _ =>
  }

  lemma ReplyHandsNothing(s: State, call: nat, answer: DispatchResult, save: Save)
    requires call in s.calls && s.calls[call].DispatchCall?
    ensures DispatchReply(s, call, answer, save).history.handOvers == s.history.handOvers
  {
    hide Project, IsCurrent, ClosedDuring, ParseResult, AppliedWait, LostWait;
  }

  lemma CompletionHandsNothing(s: State, continuationId: Option<ContinuationId>, run: Id, result: Completion, save: Save)
    ensures CompleteRunner(s, continuationId, run, result, save).0.history.handOvers == s.history.handOvers
  {
    hide Project, CompletedWait, OpaqueToken, Completable;
  }

  /**
   In every run a wait is handed to the runner one at a time, only with its evidence, and only when its
   reservation is on disk.
   */
  lemma {:induction false} HandedOverIsReserved(sessions: map<Id, Session>, now: nat, steps: seq<Step>, step: Step, id: Id)
    requires var s := Run(Initial(sessions, now), steps); Next(s, step).history.handOvers[id] > s.history.handOvers[id]
    ensures var s, s' := Run(Initial(sessions, now), steps), Next(Run(Initial(sessions, now), steps), step);
            HandedOver(s', id) && s'.history.handOvers == s.history.handOvers + multiset{id}
  {
    hide Run, Sound, HandedOver, TickNext, Refreshed, ReopenReply, RecoverWait, IsCurrent, Evidence;
    RunSound(sessions, now, steps);
    var s := Run(Initial(sessions, now), steps);
    match step
    case DoTickNext(save, loss) => TickReserves(s, save, loss);
    case DoRefreshReply(call, status, save, reserve, loss) =>
      if Enabled(s, step) { RefreshReplyReserves(s, call, status, save, reserve, loss); }
    case DoReopenReply(call, status, candidates, save, reserve, loss) =>
      if Enabled(s, step) { ReopenReserves(s, call, status, candidates, save, reserve, loss); }
    case DoRecover(w, save) => if w in s.mem.records { RecoveryHandsNothing(s, w, true, save); }
    case _ => OthersHandNothing(s, step);
  }

  lemma RefreshReplyReserves(s: State, call: nat, status: Option<Status>, save: Save, reserve: Save, loss: Save)
    requires Sound(s) && call in s.calls && s.calls[call].RefreshCall?
    ensures HandsOverReserved(s, RefreshReply(s, call, status, save, reserve, loss))
  {
    hide Sound, Refreshed, HandedOver, Bound;
    var c := s.calls[call];
    var s0 := ReleaseTick(DropCall(s, call), true);
    if c.waitId in s.mem.records {
      WaitKnown(s, c.waitId);
      RefreshReserves(s0, c.waitId, status, save, reserve, loss);
    }
  }

  /** A queued wait of an open session without that evidence is not handed over: it fails, or stays as it is when that cannot be saved. */
  lemma {:induction false} UnfitIsRefused(sessions: map<Id, Session>, now: nat, steps: seq<Step>, save: Save, loss: Save)
    requires var s := Run(Initial(sessions, now), steps);
             && s.tick.Running? && !s.tick.awaiting && s.tick.queue != [] && s.tick.queue[0] in s.mem.records
             && s.mem.records[s.tick.queue[0]].state == ApprovedResumeQueued
             && OpenSession(s.mem, s.mem.records[s.tick.queue[0]].sessionId)
             && !FitToRun(s.mem, s.mem.records[s.tick.queue[0]])
    ensures var s, s' := Run(Initial(sessions, now), steps), Next(Run(Initial(sessions, now), steps), DoTickNext(save, loss));
            var id := s.tick.queue[0];
            && s'.history.handOvers == s.history.handOvers
            && (if loss.ok
                then && id in s'.mem.records && s'.mem == s'.disk && s'.mem.records == s.mem.records[id := s'.mem.records[id]]
                     && GivenUpAs(s.mem.records[id], s'.mem.records[id], SecurityFailure, loss.at)
                else s'.mem == s.mem && s'.disk == s.disk)
  {
    hide Run, Sound, Evidence, FitToRun, Commit, IsCurrent;
    RunSound(sessions, now, steps);
    var s := Run(Initial(sessions, now), steps);
    var id := s.tick.queue[0];
    WaitKnown(s, id);
    EvidenceExactly(s.mem, s.mem.records[id]);
    var s0 := s.(tick := Running(s.tick.queue[1..], false));
    Committed(s0, Fail(s.mem.records[id], SecurityFailure, loss.at), true);
  }
}
