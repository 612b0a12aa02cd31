/**
 What registering, failing, recovering, closing and reopening do to waits and sessions, state by state.
 */
module ApprovalLifecycle {
  import opened Options
  import opened ApprovalTypes
  import opened ApprovalProjection
  import opened ApprovalSteps
  import opened ApprovalSafety
  import opened ApprovalTheorems
  import opened ApprovalCoherence
  import opened ApprovalRuns
  import opened ApprovalOutcomes

  // ---- identifiers -----------------------------------------------------------------------------------

  /** A generated identifier that can be used. */
  predicate Usable(candidate: Option<Id>, records: map<Id, Wait>) {
    candidate.Some? && OpaqueToken(candidate.value, 64) && candidate.value !in records
  }

  /** The candidate at `k` is usable, and none of those before it is, nor has the generator thrown. */
  predicate FirstUsableAt(candidates: seq<Option<Id>>, attempts: nat, records: map<Id, Wait>, k: int) {
    && 0 <= k < attempts && k < |candidates| && Usable(candidates[k], records)
    && forall j :: 0 <= j < k ==> candidates[j].Some? && !Usable(candidates[j], records)
  }

  /** The identifier drawn is the first usable one, and there is one exactly when one is usable in so many attempts. */
  lemma {:induction false} FirstUsable(candidates: seq<Option<Id>>, attempts: nat, records: map<Id, Wait>)
    ensures var id := NextWaitId(candidates, attempts, records);
            && (id.Some? <==> exists k :: FirstUsableAt(candidates, attempts, records, k))
            && forall k :: FirstUsableAt(candidates, attempts, records, k) ==> id == candidates[k]
    decreases attempts
  {
    hide OpaqueToken;
    if attempts > 0 && candidates != [] && candidates[0].Some? {
      var rest, fewer := candidates[1..], attempts - 1;
      FirstUsable(rest, fewer, records);
      if Usable(candidates[0], records) {
        assert FirstUsableAt(candidates, attempts, records, 0);
      } else {
        forall k | FirstUsableAt(candidates, attempts, records, k) ensures FirstUsableAt(rest, fewer, records, k - 1) && rest[k - 1] == candidates[k] {
          forall j | 0 <= j < k - 1 ensures rest[j] == candidates[j + 1] {}
        }
        if k :| FirstUsableAt(rest, fewer, records, k) {
          forall j | 0 <= j < k + 1 ensures candidates[j].Some? && !Usable(candidates[j], records) { if j > 0 { assert rest[j - 1] == candidates[j]; } }
          assert FirstUsableAt(candidates, attempts, records, k + 1);
        }
      }
    }
  }

  // ---- registration ------------------------------------------------------------------------------

  /** A registration asks the provider exactly when every field of the request can be read; otherwise nothing happens. */
  lemma RegistrationAsks(s: State, c: Capability, approvalRef: Id)
    ensures var s' := Next(s, DoRegister(c, approvalRef));
            if forall field :: field in [c.sessionId, c.userId, c.projectId, c.workspaceId, c.resourceRef, c.managedThreadId, approvalRef] ==> ValidField(field)
            then s' == s.(calls := s.calls[s.nextCall := RegisterCall(c, approvalRef)], nextCall := s.nextCall + 1)
            else s' == s
  {
    hide ValidField;
    var fields := [c.sessionId, c.userId, c.projectId, c.workspaceId, c.resourceRef, c.managedThreadId, approvalRef];
    assert fields[0] in fields && fields[1] in fields && fields[2] in fields && fields[3] in fields && fields[4] in fields && fields[5] in fields && fields[6] in fields;
  }

  /** The provider knows the approval, has not decided it, and means this scope. */
  predicate ConfirmsRequest(c: Capability, approvalRef: Id, status: Option<Status>) {
    && status.Some?
    && var st := status.value;
    && st.provider == Overseer && st.decision == Undecided && st.authorityClass != Unknown
    && st.approvalRef == approvalRef && st.projectId == c.projectId && st.workspaceId == c.workspaceId && st.resourceRef == c.resourceRef
    && ValidField(st.subject) && Sha256Text(st.decisionVersion)
  }

  /** The session is the caller's, on the caller's thread, and free to wait. */
  predicate CanWait(m: Snapshot, c: Capability, streamingAuthorized: bool) {
    && c.sessionId in m.sessions
    && var session := m.sessions[c.sessionId];
    && session.userId == c.userId && session.workspaceId == c.workspaceId && c.managedThreadId != ""
    && session.managedThreadId == Some(c.managedThreadId) && session.codexThreadId == Some(c.managedThreadId)
    && (match session.lifecycle
        case Ready => true
        case Paused => true
        case Streaming => c.runnerRunId.Some? && OpaqueToken(c.runnerRunId.value, 64) && streamingAuthorized
        case _ => false)
    && forall id :: id in m.records && m.records[id].sessionId == c.sessionId ==> !Blocking(m.records[id].state)
  }

  /** A new wait for the approval of this scope. */
  predicate WaitsFor(w: Wait, c: Capability, approvalRef: Id, status: Status, save: Save) {
    && w.state == Pending && w.sessionId == c.sessionId && w.userId == c.userId && w.projectId == c.projectId && w.workspaceId == c.workspaceId
    && w.managedThreadId == c.managedThreadId && w.approvalRef == approvalRef && w.resourceRef == c.resourceRef
    && w.authorityClass == status.authorityClass && w.consoleSurface == (if status.authorityClass == PrivilegedOperation then Admin else Overview)
    && w.subject == status.subject && w.decisionVersion == status.decisionVersion
    && w.continuationId == Plain(c.sessionId, approvalRef, status.decisionVersion) && w.successorOf == None
    && w.checkAttempt == 0 && DueAfterPause(w, save) && w.createdAt == save.at && w.updatedAt == save.at
    && w.runnerRunId == None && w.dispatchReservedAt == None && w.decisionObservedAt == None && w.resumedAt == None
  }

  lemma {:induction false} RegisteredAs(id: Id, session: Session, c: Capability, approvalRef: Id, status: Status, save: Save)
    requires session.userId == c.userId && status.projectId == c.projectId && status.workspaceId == c.workspaceId
    requires status.resourceRef == c.resourceRef && status.approvalRef == approvalRef
    ensures WaitsFor(RegisteredWait(id, session, c, status, save), c, approvalRef, status, save)
    ensures RegisteredWait(id, session, c, status, save).id == id
  {
  }

  lemma MayWait(m: Snapshot, c: Capability, streamingAuthorized: bool)
    ensures CanWait(m, c, streamingAuthorized)
            <==> c.sessionId in m.sessions && RegistrationAllowed(m.sessions[c.sessionId], c, streamingAuthorized) && !HasActiveWait(m, c.sessionId)
  {
    forall id | id in m.records ensures BlocksSession(m.records[id], c.sessionId) <==> m.records[id].sessionId == c.sessionId && Blocking(m.records[id].state) {}
  }

  lemma {:induction false} Adds(s: State, m: Snapshot, w: Wait)
    requires Listed(m) && m == s.mem && w.id !in m.records && Blocking(w.state) && OpenSession(m, w.sessionId) && !HasActiveWait(m, w.sessionId)
    ensures var s' := Publish(CommitSnapshot(s, AddWait(m, w), w.sessionId), w.id, w.state);
            && s'.mem.records == m.records[w.id := w] && s'.mem == s'.disk
            && w.sessionId in s'.mem.sessions && s'.mem.sessions[w.sessionId].lifecycle == Paused
            && s'.mem.sessions[w.sessionId].waiting == Some(ToPublic(w))
  {
    var m' := AddWait(m, w);
    NothingNewest(m, w.sessionId);
    NewestFrame(m.order, m.records, m'.records, w.sessionId, false);
    assert m'.order[..|m'.order| - 1] == m.order;
  }

  /**
   A registration is answered with a new pending wait, which its session then shows, exactly when the
   provider confirms the request, an identifier is left, the session can wait and saving succeeds;
   otherwise nothing changes.
   */
  lemma {:induction false} RegistrationOutcome(sessions: map<Id, Session>, now: nat, steps: seq<Step>, call: nat, status: Option<Status>,
                                               streamingAuthorized: bool, candidates: seq<Option<Id>>, save: Save)
    requires var s := Run(Initial(sessions, now), steps); call in s.calls && s.calls[call].RegisterCall?
    ensures var s := Run(Initial(sessions, now), steps);
            var s' := Next(s, DoRegisterReply(call, status, streamingAuthorized, candidates, save));
            var c, approvalRef, newId := s.calls[call].capability, s.calls[call].approvalRef, NextWaitId(candidates, 8, s.mem.records);
            if ConfirmsRequest(c, approvalRef, status) && newId.Some? && CanWait(s.mem, c, streamingAuthorized) && save.ok
            then && newId.value !in s.mem.records && newId.value in s'.mem.records
                 && s'.mem.records == s.mem.records[newId.value := s'.mem.records[newId.value]] && s'.mem == s'.disk
                 && WaitsFor(s'.mem.records[newId.value], c, approvalRef, status.value, save)
                 && c.sessionId in s'.mem.sessions && s'.mem.sessions[c.sessionId].lifecycle == Paused
                 && s'.mem.sessions[c.sessionId].waiting == Some(ToPublic(s'.mem.records[newId.value]))
            else s'.mem == s.mem && s'.disk == s.disk
  {
    hide Run, Sound, WaitsFor, CanWait, RegisteredWait, RegistrationAllowed, HasActiveWait, CommitSnapshot, Publish, Sha256Text, ValidField, OpaqueToken;
    RunSound(sessions, now, steps);
    var s := Run(Initial(sessions, now), steps);
    var c, approvalRef, newId := s.calls[call].capability, s.calls[call].approvalRef, NextWaitId(candidates, 8, s.mem.records);
    MayWait(s.mem, c, streamingAuthorized);
    if ConfirmsRequest(c, approvalRef, status) && newId.Some? && CanWait(s.mem, c, streamingAuthorized) && save.ok {
      var session := s.mem.sessions[c.sessionId];
      SoundIsListed(s);
      WaitingSession(s.mem, c, streamingAuthorized);
      RegisteredAs(newId.value, session, c, approvalRef, status.value, save);
      IsPending(RegisteredWait(newId.value, session, c, status.value, save), c, approvalRef, status.value, save);
      Adds(DropCall(s, call), s.mem, RegisteredWait(newId.value, session, c, status.value, save));
    }
  }

  lemma WaitingSession(m: Snapshot, c: Capability, streamingAuthorized: bool)
    requires CanWait(m, c, streamingAuthorized)
    ensures OpenSession(m, c.sessionId) && m.sessions[c.sessionId].userId == c.userId
  {
  }

  lemma IsPending(w: Wait, c: Capability, approvalRef: Id, status: Status, save: Save)
    requires WaitsFor(w, c, approvalRef, status, save)
    ensures Blocking(w.state) && w.sessionId == c.sessionId
  {
  }

  // ---- failure and recovery ------------------------------------------------------------------------

  /** The wait is given up for this reason, and its run forgotten. */
  predicate GivenUpAs(w: Wait, w': Wait, state: WaitState, now: nat) {
    w' == w.(state := state, updatedAt := now, nextCheckAt := now, dispatchReservedAt := None, runnerRunId := None)
  }

  /** In a safe run a failed user run gives the active wait of its session up, or changes nothing when saving fails. */
  lemma {:induction false} FailureOutcome(sessions: map<Id, Session>, now: nat, steps: seq<Step>, id: Id, failure: UserRunFailure, save: Save)
    requires SafeRun(Initial(sessions, now), steps)
    requires var m := Run(Initial(sessions, now), steps).mem;
             id in m.records && Blocking(m.records[id].state) && OpenSession(m, m.records[id].sessionId)
    ensures var s := Run(Initial(sessions, now), steps);
            var w := s.mem.records[id];
            var s' := Next(s, DoFailUserRun(w.sessionId, failure, save));
            && FailUserRun(s, w.sessionId, failure, save) == (s', save.ok)
            && if save.ok
            then && id in s'.mem.records && s'.mem == s'.disk && s'.mem.records == s.mem.records[id := s'.mem.records[id]]
                 && GivenUpAs(w, s'.mem.records[id], match failure case FailSecurity => SecurityFailure case FailReconciliation => ResumeReconciliationRequired, save.at)
            else s' == s
  {
    hide Run, Sound, Coherent, SafeRun, Commit;
    RunCoherent(sessions, now, steps);
    var s := Run(Initial(sessions, now), steps);
    var w := s.mem.records[id];
    SoundIsListed(s);
    ListedAt(s.mem, id);
    FirstIsIt(s, id);
    var state := if failure == FailSecurity then SecurityFailure else ResumeReconciliationRequired;
    Committed(s, Fail(w, state, save.at), true);
  }

  /** Without an active wait, or for a session that is closed or unknown, a failed user run is answered `false` and changes nothing. */
  lemma {:induction false} NothingToFail(s: State, sid: Id, failure: UserRunFailure, save: Save)
    requires !OpenSession(s.mem, sid) || forall id :: id in s.mem.records && s.mem.records[id].sessionId == sid ==> !Blocking(s.mem.records[id].state)
    ensures FailUserRun(s, sid, failure, save) == (s, false) && Next(s, DoFailUserRun(sid, failure, save)) == s
  {
    hide Blocking, Transition;
    var first := FirstBlocking(s.mem.order, s.mem.records, sid);
    if first.Some? { assert BlocksSession(s.mem.records[first.value], sid); }
  }

  lemma FirstIsIt(s: State, id: Id)
    requires Listed(s.mem) && Coherent(s) && id in s.mem.records && Blocking(s.mem.records[id].state)
    ensures FirstBlocking(s.mem.order, s.mem.records, s.mem.records[id].sessionId) == Some(id)
  {
    CoherentParts(s);
    ListedAt(s.mem, id);
    var first := FirstBlocking(s.mem.order, s.mem.records, s.mem.records[id].sessionId);
  }

  /**
   In a safe run a dispatch without acknowledgement that the process finds at its start, or that the
   tick finds without a run or with a completion that could not be saved, needs reconciliation.
   */
  lemma {:induction false} RecoveryOutcome(sessions: map<Id, Session>, now: nat, steps: seq<Step>, id: Id, startup: bool, save: Save)
    requires SafeRun(Initial(sessions, now), steps) && save.ok
    requires var m := Run(Initial(sessions, now), steps).mem;
             id in m.records && m.records[id].state == ResumeDispatching && OpenSession(m, m.records[id].sessionId)
    ensures var s := Run(Initial(sessions, now), steps);
            var w, s' := s.mem.records[id], RecoverWait(s, id, startup, save);
            if startup || w.runnerRunId == None || (w.continuationId, w.runnerRunId.value) in s.failures
            then && id in s'.mem.records && s'.mem == s'.disk && s'.mem.records == s.mem.records[id := s'.mem.records[id]]
                 && GivenUpAs(w, s'.mem.records[id], ResumeReconciliationRequired, save.at)
                 && s'.failures == s.failures - (if w.runnerRunId.Some? then {(w.continuationId, w.runnerRunId.value)} else {})
            else s' == s
  {
    hide Run, Sound, Coherent, SafeRun, RecoverWait;
    RunCoherent(sessions, now, steps);
    RecoverySettles(Run(Initial(sessions, now), steps), id, startup, save);
  }

  lemma RecoverySettles(s: State, id: Id, startup: bool, save: Save)
    requires Sound(s) && Coherent(s) && save.ok
    requires id in s.mem.records && s.mem.records[id].state == ResumeDispatching && OpenSession(s.mem, s.mem.records[id].sessionId)
    ensures var w, s' := s.mem.records[id], RecoverWait(s, id, startup, save);
            if startup || w.runnerRunId == None || (w.continuationId, w.runnerRunId.value) in s.failures
            then && id in s'.mem.records && s'.mem == s'.disk && s'.mem.records == s.mem.records[id := s'.mem.records[id]]
                 && GivenUpAs(w, s'.mem.records[id], ResumeReconciliationRequired, save.at)
                 && s'.failures == s.failures - (if w.runnerRunId.Some? then {(w.continuationId, w.runnerRunId.value)} else {})
                 && s'.tick == s.tick
            else s' == s
  {
    hide Sound, Coherent, Commit, Evidence;
    SoundIsListed(s);
    WaitKnown(s, id);
    EvidenceHolds(s, id);
    CommittedTick(s, Fail(s.mem.records[id], ResumeReconciliationRequired, save.at), true);
    Committed(s, Fail(s.mem.records[id], ResumeReconciliationRequired, save.at), true);
  }

  /** At its start the process settles a dispatch of an open session so, once no retirement is owed. */
  lemma {:induction false} StartupRecovery(sessions: map<Id, Session>, now: nat, steps: seq<Step>, id: Id, save: Save)
    requires SafeRun(Initial(sessions, now), steps) && save.ok
    requires var m := Run(Initial(sessions, now), steps).mem;
             id in m.records && m.records[id].state == ResumeDispatching && OpenSession(m, m.records[id].sessionId)
    ensures var s := Run(Initial(sessions, now), steps);
            var s' := Next(s, DoRecover(id, save));
            if s.retirements == {}
            then && id in s'.mem.records && s'.mem == s'.disk && s'.mem.records == s.mem.records[id := s'.mem.records[id]]
                 && GivenUpAs(s.mem.records[id], s'.mem.records[id], ResumeReconciliationRequired, save.at)
            else s' == s
  {
    hide Run, SafeRun, RecoverWait;
    RecoveryOutcome(sessions, now, steps, id, true, save);
  }

  /** A tick settles one only when its run is unknown or a completion of it could not be saved. */
  lemma {:induction false} TickRecovery(sessions: map<Id, Session>, now: nat, steps: seq<Step>, save: Save, loss: Save)
    requires SafeRun(Initial(sessions, now), steps) && save.ok
    requires var s := Run(Initial(sessions, now), steps);
             && s.tick.Running? && !s.tick.awaiting && s.tick.queue != [] && s.tick.queue[0] in s.mem.records
             && s.mem.records[s.tick.queue[0]].state == ResumeDispatching
             && OpenSession(s.mem, s.mem.records[s.tick.queue[0]].sessionId)
    ensures var s, s' := Run(Initial(sessions, now), steps), Next(Run(Initial(sessions, now), steps), DoTickNext(save, loss));
            var id, w := s.tick.queue[0], s.mem.records[s.tick.queue[0]];
            && s'.tick == Running(s.tick.queue[1..], false)
            && if w.runnerRunId == None || (w.continuationId, w.runnerRunId.value) in s.failures
               then && id in s'.mem.records && s'.mem == s'.disk && s'.mem.records == s.mem.records[id := s'.mem.records[id]]
                    && GivenUpAs(w, s'.mem.records[id], ResumeReconciliationRequired, save.at)
               else s'.mem == s.mem && s'.disk == s.disk
  {
    hide Run, Sound, Coherent, SafeRun, RecoverWait, Dispatch, Refresh;
    RunCoherent(sessions, now, steps);
    var s := Run(Initial(sessions, now), steps);
    var s0 := s.(tick := Running(s.tick.queue[1..], false));
    TickIrrelevant(s, s0.tick);
    SameSnapshots(s, s0);
    RecoverySettles(s0, s.tick.queue[0], false, save);
  }

  lemma CommittedTick(s: State, w: Wait, announce: bool)
    ensures Commit(s, w, announce).tick == s.tick && Commit(s, w, announce).failures == s.failures
  {
    hide Project;
  }

  /** In a safe run a tick hands the next queued wait of an open session over and waits for the answer; when the reservation cannot be saved it goes on. */
  lemma {:induction false} TickHandsOver(sessions: map<Id, Session>, now: nat, steps: seq<Step>, save: Save, loss: Save)
    requires SafeRun(Initial(sessions, now), steps)
    requires var s := Run(Initial(sessions, now), steps);
             && s.tick.Running? && !s.tick.awaiting && s.tick.queue != [] && s.tick.queue[0] in s.mem.records
             && s.mem.records[s.tick.queue[0]].state == ApprovedResumeQueued
             && OpenSession(s.mem, s.mem.records[s.tick.queue[0]].sessionId)
    ensures var s, s' := Run(Initial(sessions, now), steps), Next(Run(Initial(sessions, now), steps), DoTickNext(save, loss));
            var id, sid := s.tick.queue[0], s.mem.records[s.tick.queue[0]].sessionId;
            && s'.tick == Running(s.tick.queue[1..], save.ok)
            && if save.ok
               then && id in s'.mem.records && s'.mem == s'.disk && s'.mem.records[id].state == ResumeDispatching
                    && s'.calls == s.calls[s.nextCall := DispatchCall(id, sid, Generation(s.generation, sid), true)]
                    && s'.history.handOvers == s.history.handOvers + multiset{id}
               else s'.mem == s.mem && s'.disk == s.disk && s'.calls == s.calls && s'.history.handOvers == s.history.handOvers
  {
    hide Run, Sound, Coherent, SafeRun, Commit, Dispatch, Reserved, RecoverWait, Refresh;
    RunCoherent(sessions, now, steps);
    var s := Run(Initial(sessions, now), steps);
    var id := s.tick.queue[0];
    var s0 := s.(tick := Running(s.tick.queue[1..], false));
    TickIrrelevant(s, s0.tick);
    SameSnapshots(s, s0);
    WaitKnown(s, id);
    DispatchNeverFails(s0, id, true, save, loss);
    ReservedFrame(s0, s.mem.records[id], save.at);
  }

  lemma ReservedFrame(s: State, w: Wait, now: nat)
    ensures var s' := Commit(s, Reserved(w, now), true);
            && s'.mem == s'.disk && s'.mem.records == s.mem.records[w.id := Reserved(w, now)] && Reserved(w, now).state == ResumeDispatching
            && s'.tick == s.tick && s'.calls == s.calls && s'.nextCall == s.nextCall && s'.generation == s.generation
            && s'.history.handOvers == s.history.handOvers
  {
    hide Project;
  }

  /** A tick passes over a wait that is gone, over, or of a closed session. */
  lemma {:induction false} TickPassesOver(s: State, save: Save, loss: Save)
    requires s.tick.Running? && !s.tick.awaiting && s.tick.queue != []
    requires var id := s.tick.queue[0];
             id in s.mem.records ==>
               || !OpenSession(s.mem, s.mem.records[id].sessionId)
               || s.mem.records[id].state in {SecurityFailure, ResumeReconciliationRequired, Resumed, SessionClosed} || s.mem.records[id].state.Declined?
    ensures Next(s, DoTickNext(save, loss)) == s.(tick := Running(s.tick.queue[1..], false))
  {
    hide Dispatch, RecoverWait, Refresh;
  }

  /** An answer lets the tick that waits for it go on, and a tick whose queue is empty is over. */
  lemma {:induction false} TickGoesOn(s: State, step: Step)
    requires s.tick.Running?
    ensures step.DoTickNext? && !s.tick.awaiting && s.tick.queue == [] ==> Next(s, step).tick == Idle
    ensures step.DoDispatchReply? && Enabled(s, step) && s.calls[step.call].fromTick ==> Next(s, step).tick == Running(s.tick.queue, false)
    ensures step.DoRefreshReply? && Enabled(s, step) && !IsRefreshCurrent(s, s.calls[step.call].waitId, s.calls[step.call].sessionId, s.calls[step.call].generation)
            ==> Next(s, step).tick == Running(s.tick.queue, false)
  {
    hide Project, Evidence, Bound, ParseResult, AppliedWait, LostWait, Refreshed;
  }

  // ---- close and reopen ----------------------------------------------------------------------------

  /** Closing a session closes exactly its active waits, durably; when that cannot be saved, nothing of it remains. */
  lemma {:induction false} CloseOutcome(sessions: map<Id, Session>, now: nat, steps: seq<Step>, sid: Id, save: Save)
    requires var m := Run(Initial(sessions, now), steps).mem; sid in m.sessions && HasActiveWait(m, sid)
    ensures var s := Run(Initial(sessions, now), steps);
            var s' := Next(s, DoClose(sid, save));
            if save.ok
            then && s'.mem == s'.disk && s'.mem.records.Keys == s.mem.records.Keys
                 && sid in s'.mem.sessions && s'.mem.sessions[sid].lifecycle == Closed && s'.mem.sessions[sid].waiting == None
                 && Generation(s'.generation, sid) == Generation(s.generation, sid) + 1
                 && forall id :: id in s.mem.records ==>
                      if s.mem.records[id].sessionId == sid && Blocking(s.mem.records[id].state)
                      then GivenUpAs(s.mem.records[id], s'.mem.records[id], SessionClosed, save.at)
                      else s'.mem.records[id] == s.mem.records[id]
            else s'.mem == s.mem && s'.disk == s.disk && Generation(s'.generation, sid) == Generation(s.generation, sid)
  {
    hide Run, Blocking;
  }

  /** The wait is closed, of the session, and none of these is newer. */
  predicate NewestClosed(m: Snapshot, sid: Id, id: Id) {
    && id in m.records && m.records[id].sessionId == sid && m.records[id].state == SessionClosed
    && forall other :: other in m.records && m.records[other].sessionId == sid && m.records[other].state == SessionClosed
         ==> m.records[other].updatedAt <= m.records[id].updatedAt
  }

  /**
   Reopening asks the provider about the newest closed wait of a closed session; where there is none, the
   session is ready at once, and stays so in memory when that cannot be saved.
   */
  lemma {:induction false} ReopenAsks(sessions: map<Id, Session>, now: nat, steps: seq<Step>, sid: Id, save: Save)
    requires var m := Run(Initial(sessions, now), steps).mem; sid in m.sessions && m.sessions[sid].lifecycle == Closed
    ensures var s := Run(Initial(sessions, now), steps);
            var s' := Next(s, DoReopen(sid, save));
            if exists id :: NewestClosed(s.mem, sid, id)
            then && s'.mem == s.mem && s'.disk == s.disk && s.nextCall in s'.calls && s'.calls[s.nextCall].ReopenCall?
                 && s'.calls[s.nextCall].sessionId == sid && NewestClosed(s.mem, sid, s'.calls[s.nextCall].priorId)
            else && s'.mem == s.mem.(sessions := s.mem.sessions[sid := s.mem.sessions[sid].(lifecycle := Ready)])
                 && s'.disk == if save.ok then s'.mem else s.disk
  {
    hide Run, Sound, Listed, Newest, Blocking;
    RunSound(sessions, now, steps);
    var s := Run(Initial(sessions, now), steps);
    SoundIsListed(s);
    NewestIsNewest(s.mem.order, s.mem.records, sid, true);
    forall id | id in s.mem.records ensures id in s.mem.order && s.mem.records[id].id == id { ListedAt(s.mem, id); }
    var newest := Newest(s.mem.order, s.mem.records, sid, true);
    if newest.Some? { assert NewestClosed(s.mem, sid, newest.value.id); }
  }

  /** What a reopening that has got its answer does: a refused approval opens the session without a wait. */
  lemma {:induction false} ReopenRefused(s: State, call: nat, status: Option<Status>, candidates: seq<Option<Id>>, save: Save, reserve: Save, loss: Save)
    requires call in s.calls && s.calls[call].ReopenCall? && s.calls[call].priorId in s.mem.records
    requires VerdictOn(s.mem.records[s.calls[call].priorId], status).Refused? && save.ok
    requires var sid := s.calls[call].sessionId; sid in s.mem.sessions && s.mem.sessions[sid].lifecycle == Closed
    ensures var sid, s' := s.calls[call].sessionId, Next(s, DoReopenReply(call, status, candidates, save, reserve, loss));
            && s'.mem.records == s.mem.records && s'.mem == s'.disk
            && sid in s'.mem.sessions && s'.mem.sessions[sid].lifecycle == Ready && s'.mem.sessions[sid].waiting == None
  {
    hide ValidField, Sha256Text;
  }

  /** No answer, or one that cannot be trusted, leaves it closed. */
  lemma {:induction false} ReopenUntrusted(s: State, call: nat, status: Option<Status>, candidates: seq<Option<Id>>, save: Save, reserve: Save, loss: Save)
    requires call in s.calls && s.calls[call].ReopenCall? && s.calls[call].priorId in s.mem.records
    requires var verdict := VerdictOn(s.mem.records[s.calls[call].priorId], status); verdict == NoAnswer || verdict == Untrusted
    ensures var s' := Next(s, DoReopenReply(call, status, candidates, save, reserve, loss));
            s'.mem == s.mem && s'.disk == s.disk
  {
    hide Trusted;
  }

  /** The wait that takes the place of a closed one: of the same scope, under the answer's decision version. */
  predicate TakesOver(w: Wait, prior: Wait, status: Status, save: Save) {
    && w.sessionId == prior.sessionId && w.userId == prior.userId && w.managedThreadId == prior.managedThreadId
    && w.projectId == prior.projectId && w.workspaceId == prior.workspaceId && w.approvalRef == prior.approvalRef
    && w.resourceRef == prior.resourceRef && w.authorityClass == prior.authorityClass
    && w.successorOf == Some(prior.id) && w.decisionVersion == status.decisionVersion && w.subject == status.subject
    && w.continuationId == Successor(w.id, prior.sessionId, prior.approvalRef, status.decisionVersion)
    && w.checkAttempt == 0 && (w.state == Pending ==> DueAfterPause(w, save))
  }

  /** A pending approval puts a new pending wait in the place of the closed one. */
  lemma {:induction false} ReopenUndecided(sessions: map<Id, Session>, now: nat, steps: seq<Step>, call: nat, status: Option<Status>,
                                           candidates: seq<Option<Id>>, save: Save, reserve: Save, loss: Save)
    requires SafeRun(Initial(sessions, now), steps)
    requires var s := Run(Initial(sessions, now), steps);
             && call in s.calls && s.calls[call].ReopenCall? && s.calls[call].priorId in s.mem.records && save.ok
             && VerdictOn(s.mem.records[s.calls[call].priorId], status) == StillUndecided
             && s.calls[call].sessionId in s.mem.sessions && s.mem.sessions[s.calls[call].sessionId].lifecycle == Closed
             && !HasActiveWait(s.mem, s.calls[call].sessionId) && NextWaitId(candidates, 8, s.mem.records).Some?
    ensures var s := Run(Initial(sessions, now), steps);
            var s' := Next(s, DoReopenReply(call, status, candidates, save, reserve, loss));
            var id, prior := NextWaitId(candidates, 8, s.mem.records).value, s.mem.records[s.calls[call].priorId];
            && id in s'.mem.records && s'.mem.records == s.mem.records[id := s'.mem.records[id]] && s'.mem == s'.disk
            && s'.mem.records[id].state == Pending && TakesOver(s'.mem.records[id], prior, status.value, save)
            && s'.history.handOvers == s.history.handOvers
  {
    hide Run, Sound, Coherent, SafeRun, Evidence, HasActiveWait, FieldsCanonical, Project, Sha256Text, ValidField, OpaqueToken;
    RunCoherent(sessions, now, steps);
    var s := Run(Initial(sessions, now), steps);
    SoundIsListed(s);
    PriorKnown(s, call);
  }

  /** The prior wait of a reopening is the session's, and its bindings are still the session's. */
  lemma PriorKnown(s: State, call: nat)
    requires Listed(s.mem) && Coherent(s) && call in s.calls && s.calls[call].ReopenCall?
    ensures s.calls[call].priorId in s.mem.records
    ensures var prior := s.mem.records[s.calls[call].priorId];
            && prior.id == s.calls[call].priorId && prior.sessionId == s.calls[call].sessionId
            && prior.sessionId in s.mem.sessions && Bound(prior, s.mem.sessions[prior.sessionId])
  {
    assert CallCoherent(s.calls[call], s.mem.records);
    assert CanonicalWait(s.mem.records[s.calls[call].priorId], s.mem.sessions);
  }

  lemma SuccessorDispatched(s: State, sid: Id, w: Wait, reserve: Save, loss: Save)
    requires Sound(s) && Coherent(s) && sid in s.mem.sessions && w.sessionId == sid && w.id !in s.mem.records
    requires !HasActiveWait(s.mem, sid) && CanonicalWait(w, s.mem.sessions) && Succeeds(s.mem.records, w)
    requires w.state == ApprovedResumeQueued && w.runnerRunId == None && ApprovalOf(w, w.decisionVersion) in s.history.facts
    ensures var ready := s.mem.(sessions := s.mem.sessions[sid := s.mem.sessions[sid].(lifecycle := Ready, waiting := None)]);
            var s2 := Publish(CommitSnapshot(s, AddWait(ready, w), sid), w.id, w.state);
            && w.id in s2.mem.records
            && var s' := Dispatch(s2, w.id, false, reserve, loss);
            && s'.mem.records == s.mem.records[w.id := if reserve.ok then Reserved(w, reserve.at) else w] && s'.mem == s'.disk
            && s'.history.handOvers == s.history.handOvers + (if reserve.ok then multiset{w.id} else multiset{})
  {
    hide Sound, Coherent, Dispatch, Project, HasActiveWait, CanonicalWait, Succeeds;
    var ready := s.mem.(sessions := s.mem.sessions[sid := s.mem.sessions[sid].(lifecycle := Ready, waiting := None)]);
    var s2 := Publish(CommitSnapshot(s, AddWait(ready, w), sid), w.id, w.state);
    SuccessorAdded(s, sid, w, reserve, loss);
    AddWaitKeeps(s, ready, w);
    AddedIsOpen(s, ready, w);
    DispatchNeverFails(s2, w.id, false, reserve, loss);
    if reserve.ok { CommittedSnapshot(s2, Reserved(w, reserve.at), true); }
  }

  lemma {:induction false} ReplySucceeds(s: State, call: nat, status: Status, candidates: seq<Option<Id>>, save: Save, reserve: Save, loss: Save)
    requires call in s.calls && s.calls[call].ReopenCall? && s.calls[call].priorId in s.mem.records && save.ok
    requires Trusted(s.mem.records[s.calls[call].priorId], status) && status.decision == Approved
    requires SuccessorAllowed(s.mem, s.calls[call].sessionId, s.mem.records[s.calls[call].priorId])
    requires NextWaitId(candidates, 8, s.mem.records).Some?
    ensures var sid, prior := s.calls[call].sessionId, s.mem.records[s.calls[call].priorId];
            var w := SuccessorWait(NextWaitId(candidates, 8, s.mem.records).value, sid, prior, status, save);
            var s1 := Learn(DropCall(s, call), ApprovalOf(w, w.decisionVersion));
            var ready := s1.mem.(sessions := s1.mem.sessions[sid := s1.mem.sessions[sid].(lifecycle := Ready, waiting := None)]);
            var s2 := Publish(CommitSnapshot(s1, AddWait(ready, w), sid), w.id, w.state);
            && w.id in s2.mem.records
            && Next(s, DoReopenReply(call, Some(status), candidates, save, reserve, loss)) == Dispatch(s2, w.id, false, reserve, loss)
  {
    hide Trusted, Dispatch, Project, SuccessorAllowed;
    AllowedSession(s.mem, s.calls[call].sessionId, s.mem.records[s.calls[call].priorId]);
  }

  lemma AllowedSession(m: Snapshot, sid: Id, prior: Wait)
    requires SuccessorAllowed(m, sid, prior)
    ensures sid in m.sessions && m.sessions[sid].lifecycle == Closed && !HasActiveWait(m, sid)
  {
  }

  lemma SuccessorTakesOver(id: Id, sid: Id, prior: Wait, status: Status, save: Save)
    requires Trusted(prior, status) && prior.sessionId == sid
    ensures TakesOver(SuccessorWait(id, sid, prior, status, save), prior, status, save)
    ensures status.decision == Approved ==> SuccessorWait(id, sid, prior, status, save).state == ApprovedResumeQueued
  {
    hide ValidField, Sha256Text;
  }

  /** An approval that has come meanwhile puts a wait in its place that is handed over at once, unless its reservation cannot be saved. */
  lemma {:induction false} ReopenApproved(sessions: map<Id, Session>, now: nat, steps: seq<Step>, call: nat, status: Option<Status>,
                                          candidates: seq<Option<Id>>, save: Save, reserve: Save, loss: Save)
    requires SafeRun(Initial(sessions, now), steps)
    requires var s := Run(Initial(sessions, now), steps);
             && call in s.calls && s.calls[call].ReopenCall? && s.calls[call].priorId in s.mem.records && save.ok
             && VerdictOn(s.mem.records[s.calls[call].priorId], status) == Granted
             && s.calls[call].sessionId in s.mem.sessions && s.mem.sessions[s.calls[call].sessionId].lifecycle == Closed
             && !HasActiveWait(s.mem, s.calls[call].sessionId) && NextWaitId(candidates, 8, s.mem.records).Some?
    ensures var s := Run(Initial(sessions, now), steps);
            var s' := Next(s, DoReopenReply(call, status, candidates, save, reserve, loss));
            var id, prior := NextWaitId(candidates, 8, s.mem.records).value, s.mem.records[s.calls[call].priorId];
            && id in s'.mem.records && s'.mem.records == s.mem.records[id := s'.mem.records[id]] && s'.mem == s'.disk
            && TakesOver(s'.mem.records[id], prior, status.value, save)
            && s'.mem.records[id].state == (if reserve.ok then ResumeDispatching else ApprovedResumeQueued)
            && s'.history.handOvers == s.history.handOvers + (if reserve.ok then multiset{id} else multiset{})
  {
    hide Run, Sound, Coherent, SafeRun, Next, HasActiveWait, Trusted, CanonicalWait, Succeeds, Dispatch, SuccessorWait, CommitSnapshot, Publish;
    RunCoherent(sessions, now, steps);
    var s := Run(Initial(sessions, now), steps);
    SoundIsListed(s);
    PriorKnown(s, call);
    WaitIsCanonical(s, s.calls[call].priorId);
    CallIsCoherent(s, call);
    var sid, prior, id := s.calls[call].sessionId, s.mem.records[s.calls[call].priorId], NextWaitId(candidates, 8, s.mem.records).value;
    var w := SuccessorWait(id, sid, prior, status.value, save);
    SuccessorIsCanonical(s.mem, id, sid, prior, status.value, save);
    SuccessorTakesOver(id, sid, prior, status.value, save);
    var s0 := DropCall(s, call);
    DropCallKeeps(s, call, false);
    SameSnapshots(s, s0);
    LearnCoherent(s0, ApprovalOf(w, w.decisionVersion));
    NoRun(id, sid, prior, status.value, save);
    SuccessorDispatched(Learn(s0, ApprovalOf(w, w.decisionVersion)), sid, w, reserve, loss);
    ReplySucceeds(s, call, status.value, candidates, save, reserve, loss);
  }

  lemma NoRun(id: Id, sid: Id, prior: Wait, status: Status, save: Save)
    ensures SuccessorWait(id, sid, prior, status, save).runnerRunId == None
  {
  }

  // ---- ticks ---------------------------------------------------------------------------------------

  /** A tick takes the waits whose next check has come: those not yet decided, queued or dispatching. */
  lemma {:induction false} TickTakesDue(order: seq<Id>, records: map<Id, Wait>, now: nat, id: Id)
    ensures id in DueWaits(order, records, now)
            <==> && id in order && id in records && records[id].nextCheckAt <= now
                 && (records[id].state == Pending || records[id].state == VerificationDelayed || records[id].state == ApprovedResumeQueued
                     || records[id].state == ResumeDispatching)
  {
    if order != [] {
      TickTakesDue(order[1..], records, now, id);
      assert id in order <==> id == order[0] || id in order[1..];
    }
  }

  /** A tick that is under way asks the provider about the next wait, once, and waits for its answer. */
  lemma {:induction false} TickAsks(sessions: map<Id, Session>, now: nat, steps: seq<Step>, save: Save, loss: Save)
    requires var s := Run(Initial(sessions, now), steps);
             && s.tick.Running? && !s.tick.awaiting && s.tick.queue != [] && s.tick.queue[0] in s.mem.records
             && (s.mem.records[s.tick.queue[0]].state == Pending || s.mem.records[s.tick.queue[0]].state == VerificationDelayed)
             && OpenSession(s.mem, s.mem.records[s.tick.queue[0]].sessionId)
    ensures var s, s' := Run(Initial(sessions, now), steps), Next(Run(Initial(sessions, now), steps), DoTickNext(save, loss));
            var id, sid := s.tick.queue[0], s.mem.records[s.tick.queue[0]].sessionId;
            && s'.mem == s.mem && s'.disk == s.disk && s'.tick == Running(s.tick.queue[1..], true)
            && s'.calls == s.calls[s.nextCall := RefreshCall(id, sid, Generation(s.generation, sid))] && s'.nextCall == s.nextCall + 1
  {
    hide Run, Dispatch, RecoverWait;
  }

  /** In a safe run the answer is current unless the wait or its session has moved on. */
  lemma {:induction false} RefreshIsCurrent(sessions: map<Id, Session>, now: nat, steps: seq<Step>, call: nat)
    requires SafeRun(Initial(sessions, now), steps)
    requires var s := Run(Initial(sessions, now), steps);
             && call in s.calls && s.calls[call].RefreshCall? && s.calls[call].waitId in s.mem.records
             && s.mem.records[s.calls[call].waitId].sessionId == s.calls[call].sessionId
    ensures var s := Run(Initial(sessions, now), steps);
            var c := s.calls[call];
            var w := s.mem.records[c.waitId];
            IsRefreshCurrent(s, c.waitId, c.sessionId, c.generation)
            <==> && OpenSession(s.mem, c.sessionId) && Generation(s.generation, c.sessionId) == c.generation
                 && (w.state == Pending || w.state == VerificationDelayed)
  {
    hide Run, Sound, Coherent, SafeRun, Bound, ExpectedContinuation, FieldsCanonical;
    RunCoherent(sessions, now, steps);
    var s := Run(Initial(sessions, now), steps);
    SoundIsListed(s);
    var c := s.calls[call];
    if OpenSession(s.mem, c.sessionId) && Blocking(s.mem.records[c.waitId].state) { EvidenceHolds(s, c.waitId); }
  }

  /** Otherwise the answer is dropped. */
  lemma StaleRefreshIsDropped(s: State, call: nat, status: Option<Status>, save: Save, reserve: Save, loss: Save)
    requires call in s.calls && s.calls[call].RefreshCall?
    requires var c := s.calls[call]; !IsRefreshCurrent(s, c.waitId, c.sessionId, c.generation)
    ensures var s' := Next(s, DoRefreshReply(call, status, save, reserve, loss)); s'.mem == s.mem && s'.disk == s.disk && s'.history == s.history
  {
    hide Refreshed, Evidence, Bound;
    var c := s.calls[call];
    var s0 := ReleaseTick(DropCall(s, call), true);
    assert IsRefreshCurrent(s0, c.waitId, c.sessionId, c.generation) == IsRefreshCurrent(s, c.waitId, c.sessionId, c.generation);
  }

  // ---- restart -------------------------------------------------------------------------------------

  predicate Blocks(order: seq<Id>, records: map<Id, Wait>, sid: Id, id: Id) {
    id in order && id in records && records[id].sessionId == sid && Blocking(records[id].state)
  }

  /** A session after the restart: closed as before, paused when it waits, and ready instead of running. */
  predicate ComesBackAs(before: Session, after: Session, waits: bool) {
    && after.userId == before.userId && after.workspaceId == before.workspaceId
    && after.managedThreadId == before.managedThreadId && after.codexThreadId == before.codexThreadId
    && (match before.lifecycle
        case Closed => after.lifecycle == Closed && after.waiting == None
        case Blocked => (after.lifecycle == if waits then Paused else Blocked) && (after.waiting.Some? <==> waits)
        case _ => (after.lifecycle == if waits then Paused else Ready) && (after.waiting.Some? <==> waits))
  }

  /**
   A new process has the waits of the disk, except that it has closed the active ones of closed
   sessions; no session is left running, an open one is paused exactly when it has an active wait, and
   nothing is outstanding.
   */
  lemma RestartOutcome(s: State, now: nat)
    ensures var s' := Next(s, DoRestart(now));
            && s'.mem.order == s.disk.order && s'.mem.records.Keys == s.disk.records.Keys && s'.mem.sessions.Keys == s.disk.sessions.Keys
            && (forall id :: id in s.disk.records ==>
                  var w := s.disk.records[id];
                  if w.sessionId in s.disk.sessions && s.disk.sessions[w.sessionId].lifecycle == Closed && Blocking(w.state)
                  then GivenUpAs(w, s'.mem.records[id], SessionClosed, now) && id in s'.retirements
                  else s'.mem.records[id] == w && id !in s'.retirements)
            && (forall sid :: sid in s'.mem.sessions ==>
                  ComesBackAs(s.disk.sessions[sid], s'.mem.sessions[sid], exists id :: Blocks(s.disk.order, s.disk.records, sid, id)))
            && s'.calls == map[] && s'.tick == Idle && s'.disk == s.disk
  {
    hide Constructed, RetiredAtStart, Loaded, Blocking, GivenUpAs;
    var loaded := s.disk.(sessions := map sid | sid in s.disk.sessions :: Loaded(s.disk.sessions[sid]));
    ConstructedWaits(s.disk, loaded, now);
    ConstructedSessions(s.disk, loaded, now);
  }

  lemma ConstructedWaits(disk: Snapshot, loaded: Snapshot, now: nat)
    requires loaded == disk.(sessions := map sid | sid in disk.sessions :: Loaded(disk.sessions[sid]))
    ensures var m := Constructed(loaded, now);
            && m.order == disk.order && m.records.Keys == disk.records.Keys
            && forall id :: id in disk.records ==>
                 var w := disk.records[id];
                 if w.sessionId in disk.sessions && disk.sessions[w.sessionId].lifecycle == Closed && Blocking(w.state)
                 then GivenUpAs(w, m.records[id], SessionClosed, now) && id in RetiredAtStart(loaded)
                 else m.records[id] == w && id !in RetiredAtStart(loaded)
  {
    hide Blocking, Project;
    forall sid | sid in disk.sessions ensures sid in ClosedSessions(loaded.sessions) <==> disk.sessions[sid].lifecycle == Closed {}
  }

  lemma ConstructedSessions(disk: Snapshot, loaded: Snapshot, now: nat)
    requires loaded == disk.(sessions := map sid | sid in disk.sessions :: Loaded(disk.sessions[sid]))
    ensures var m := Constructed(loaded, now);
            && m.sessions.Keys == disk.sessions.Keys
            && forall sid :: sid in m.sessions ==>
                 ComesBackAs(disk.sessions[sid], m.sessions[sid], exists id :: Blocks(disk.order, disk.records, sid, id))
  {
    hide Newest, Retire, Blocks, ComesBackAs;
    var m := Constructed(loaded, now);
    forall sid | sid in m.sessions
      ensures ComesBackAs(disk.sessions[sid], m.sessions[sid], exists id :: Blocks(disk.order, disk.records, sid, id))
    {
      SessionComesBack(disk, loaded, now, sid);
    }
  }

  lemma SessionComesBack(disk: Snapshot, loaded: Snapshot, now: nat, sid: Id)
    requires loaded == disk.(sessions := map sid | sid in disk.sessions :: Loaded(disk.sessions[sid])) && sid in disk.sessions
    ensures var m := Constructed(loaded, now);
            sid in m.sessions && ComesBackAs(disk.sessions[sid], m.sessions[sid], exists id :: Blocks(disk.order, disk.records, sid, id))
  {
    hide Blocking, Newest;
    var records := Retire(loaded.records, ClosedSessions(loaded.sessions), now);
    NewestIsNewest(disk.order, records, sid, false);
    if disk.sessions[sid].lifecycle != Closed {
      assert sid !in ClosedSessions(loaded.sessions);
      forall id | id in records && records[id].sessionId == sid ensures records[id] == disk.records[id] {}
      forall id ensures Blocks(disk.order, disk.records, sid, id) <==> id in disk.order && id in records && Selected(records[id], sid, false) {}
    }
  }

  // ---- retirement ------------------------------------------------------------------------------------

  predicate NoticeOf(notice: Notice, id: Id) {
    notice.waitId == id && notice.state == SessionClosed
  }

  predicate Announced(notices: seq<Notice>, id: Id) {
    exists k :: 0 <= k < |notices| && NoticeOf(notices[k], id)
  }

  predicate OwedBy(s: State, sid: Id, id: Id) {
    id in s.retirements && id in s.mem.records && s.mem.records[id].sessionId == sid
  }

  /** Saving the retirements of a session puts memory on disk, announces exactly its retired waits, and still owes those of the others. */
  lemma {:induction false} RetirementOutcome(sessions: map<Id, Session>, now: nat, steps: seq<Step>, sid: Id, save: Save)
    ensures var s, s' := Run(Initial(sessions, now), steps), Next(Run(Initial(sessions, now), steps), DoPersistRetirements(sid, save));
            if save.ok && exists id :: OwedBy(s, sid, id)
            then && s'.mem == s.mem && s'.disk == s.mem && s.history.notices <= s'.history.notices
                 && (forall id :: id in s'.retirements <==> id in s.retirements && !OwedBy(s, sid, id))
                 && (forall id :: Announced(s'.history.notices[|s.history.notices|..], id) <==> OwedBy(s, sid, id))
            else s' == s
  {
    hide Run, Sound, RetiredNotices, Announced;
    RunSound(sessions, now, steps);
    var s := Run(Initial(sessions, now), steps);
    SoundIsListed(s);
    var notices := RetiredNotices(s.mem.order, s.mem, s.retirements, sid);
    if save.ok && exists id :: OwedBy(s, sid, id) {
      var s' := PersistRetirements(s, sid, save);
      Retires(s, sid, save);
      assert s'.history.notices[|s.history.notices|..] == notices;
      forall id ensures Announced(notices, id) <==> OwedBy(s, sid, id) {
        NoticesOfRetired(s.mem.order, s.mem, s.retirements, sid, id);
        if id in s.mem.records { ListedAt(s.mem, id); }
      }
    } else if save.ok {
      NothingOwed(s, sid, save);
    }
  }

  lemma Retires(s: State, sid: Id, save: Save)
    requires save.ok && exists id :: OwedBy(s, sid, id)
    ensures var s' := PersistRetirements(s, sid, save);
            && s'.mem == s.mem && s'.disk == s.mem
            && s'.history.notices == s.history.notices + RetiredNotices(s.mem.order, s.mem, s.retirements, sid)
            && forall id :: id in s'.retirements <==> id in s.retirements && !OwedBy(s, sid, id)
  {
    hide RetiredNotices;
    var owed :| OwedBy(s, sid, owed);
    var done := set id | id in s.retirements && id in s.mem.records && s.mem.records[id].sessionId == sid;
    assert owed in done;
    assert PersistRetirements(s, sid, save)
        == s.(disk := s.mem, retirements := s.retirements - done,
              history := s.history.(notices := s.history.notices + RetiredNotices(s.mem.order, s.mem, s.retirements, sid)));
  }

  lemma NothingOwed(s: State, sid: Id, save: Save)
    requires !exists id :: OwedBy(s, sid, id)
    ensures PersistRetirements(s, sid, save) == s
  {
    hide RetiredNotices;
    forall id | id in s.retirements && id in s.mem.records ensures s.mem.records[id].sessionId != sid { assert !OwedBy(s, sid, id); }
  }

  lemma {:induction false} NoticesOfRetired(order: seq<Id>, m: Snapshot, retirements: set<Id>, sid: Id, id: Id)
    ensures Announced(RetiredNotices(order, m, retirements, sid), id)
            <==> id in order && id in retirements && id in m.records && m.records[id].sessionId == sid
  {
    if order != [] {
      NoticesOfRetired(order[1..], m, retirements, sid, id);
      var rest := RetiredNotices(order[1..], m, retirements, sid);
      var notices := RetiredNotices(order, m, retirements, sid);
      assert id in order <==> id == order[0] || id in order[1..];
      if notices != rest { FirstAnnounced(notices[0], rest, id); }
    }
  }

  lemma {:induction false} FirstAnnounced(notice: Notice, rest: seq<Notice>, id: Id)
    ensures Announced([notice] + rest, id) <==> NoticeOf(notice, id) || Announced(rest, id)
  {
    hide NoticeOf;
    if Announced(rest, id) {
      var k :| 0 <= k < |rest| && NoticeOf(rest[k], id);
      assert ([notice] + rest)[k + 1] == rest[k];
    }
    if NoticeOf(notice, id) { assert NoticeOf(([notice] + rest)[0], id); }
  }

  /** A tick starts only when none is under way and every retirement has been saved. */
  lemma TickStarts(s: State, now: nat)
    ensures var s' := Next(s, DoTickStart(now));
            if s.tick == Idle && s.retirements == {} then s' == s.(tick := Running(DueWaits(s.mem.order, s.mem.records, now), false)) else s' == s
  {
  }

  /** No tick has started, and no retirement has been added. */
  predicate NoNewTick(s: State, s': State) {
    s'.retirements <= s.retirements && (s'.tick.Running? ==> s.tick.Running?)
  }

  lemma LossStartsNoTick(s: State, id: Id, generation: nat, save: Save)
    requires id in s.mem.records
    ensures NoNewTick(s, BindingLoss(s, id, generation, save))
  {
    hide Project, ClosedDuring;
  }

  lemma DispatchStartsNoTick(s: State, id: Id, fromTick: bool, reserve: Save, loss: Save)
    requires id in s.mem.records
    ensures NoNewTick(s, Dispatch(s, id, fromTick, reserve, loss))
  {
    hide Project, Evidence, IsCurrent, BindingLoss, Reserved;
    var (s1, going) := Reserve(s, id, reserve, loss);
    LossStartsNoTick(s, id, Generation(s.generation, s.mem.records[id].sessionId), loss);
    ReservedId(s.mem.records[id], reserve.at);
    if going { LossStartsNoTick(s1, id, Generation(s.generation, s.mem.records[id].sessionId), loss); }
  }

  lemma ReservedId(w: Wait, now: nat)
    ensures Reserved(w, now).id == w.id
  {
  }

  lemma RecoverStartsNoTick(s: State, id: Id, startup: bool, save: Save)
    requires id in s.mem.records
    ensures NoNewTick(s, RecoverWait(s, id, startup, save))
  {
    hide Project, Evidence, BindingLoss;
    LossStartsNoTick(s, id, Generation(s.generation, s.mem.records[id].sessionId), save);
  }

  lemma TickNextStartsNoTick(s: State, save: Save, loss: Save)
    ensures NoNewTick(s, TickNext(s, save, loss))
  {
    hide Dispatch, RecoverWait;
    if s.tick.Running? && s.tick.queue != [] && s.tick.queue[0] in s.mem.records {
      var s0 := s.(tick := Running(s.tick.queue[1..], false));
      DispatchStartsNoTick(s0, s.tick.queue[0], true, save, loss);
      RecoverStartsNoTick(s0, s.tick.queue[0], false, save);
    }
  }

  lemma RefreshStartsNoTick(s: State, call: nat, status: Option<Status>, save: Save, reserve: Save, loss: Save)
    requires Sound(s) && call in s.calls && s.calls[call].RefreshCall?
    ensures NoNewTick(s, RefreshReply(s, call, status, save, reserve, loss))
  {
    hide Sound, Dispatch, Trusted, Project, RefreshedWait, Bound;
    var id := s.calls[call].waitId;
    if id in s.mem.records {
      WaitKnown(s, id);
      var s0 := ReleaseTick(DropCall(s, call), true);
      var w := s.mem.records[id];
      var refreshed := RefreshedWait(w, status, save);
      SameId(w, status, save);
      var s1 := if status.Some? && Trusted(w, status.value) && status.value.decision == Approved then Learn(s0, ApprovalOf(w, status.value.decisionVersion)) else s0;
      DispatchStartsNoTick(Transition(s1, refreshed, save.ok, refreshed.state != w.state), id, true, reserve, loss);
    }
  }

  lemma {:induction false} ReopenStartsNoTick(s: State, call: nat, status: Option<Status>, candidates: seq<Option<Id>>, save: Save, reserve: Save, loss: Save)
    requires call in s.calls && s.calls[call].ReopenCall?
    ensures NoNewTick(s, ReopenReply(s, call, status, candidates, save, reserve, loss))
  {
    hide Dispatch, Trusted, Project, SuccessorWait, HasActiveWait, NextWaitId;
    var c := s.calls[call];
    var s0 := DropCall(s, call);
    var newId := NextWaitId(candidates, 8, s.mem.records);
    if status.Some? && c.priorId in s.mem.records && newId.Some? && SuccessorAllowed(s.mem, c.sessionId, s.mem.records[c.priorId]) {
      var sid, w := c.sessionId, SuccessorWait(newId.value, c.sessionId, s.mem.records[c.priorId], status.value, save);
      var ready := s.mem.(sessions := s.mem.sessions[sid := s.mem.sessions[sid].(lifecycle := Ready, waiting := None)]);
      var s2 := Publish(CommitSnapshot(Learn(s0, ApprovalOf(w, w.decisionVersion)), AddWait(ready, w), sid), w.id, w.state);
      SuccessorListed(s0, ready, w, sid);
      DispatchStartsNoTick(s2, w.id, false, reserve, loss);
    }
  }

  lemma SuccessorListed(s: State, m: Snapshot, w: Wait, sid: Id)
    ensures var s2 := Publish(CommitSnapshot(Learn(s, ApprovalOf(w, w.decisionVersion)), AddWait(m, w), sid), w.id, w.state);
            w.id in s2.mem.records && NoNewTick(s, s2)
  {
    hide Project;
  }

  lemma OthersStartNoTick(s: State, step: Step)
    requires !step.DoTickNext? && !step.DoRefreshReply? && !step.DoReopenReply? && !step.DoRecover? && !step.DoTickStart? && !step.DoRestart?
    ensures NoNewTick(s, Next(s, step))
  {
    hide Project, IsCurrent, HasActiveWait, Evidence, NextWaitId, CompletedWait, OpaqueToken, RegisterStatusAccepted, RegistrationAllowed,
         ParseResult, AppliedWait, LostWait, ClosedDuring, Retire, Completable;
  }

  lemma StepTicksAfterRetirements(s: State, step: Step)
    requires Sound(s) && (s.tick.Running? ==> s.retirements == {})
    ensures Next(s, step).tick.Running? ==> Next(s, step).retirements == {}
  {
    hide Sound, TickNext, RefreshReply, ReopenReply, RecoverWait;
    match step
    case DoTickStart(now) => TickStarts(s, now);
    case DoRestart(_) =>
    case DoTickNext(save, loss) => TickNextStartsNoTick(s, save, loss);
    case DoRecover(id, save) => if id in s.mem.records { RecoverStartsNoTick(s, id, true, save); }
    case DoRefreshReply(call, status, save, reserve, loss) =>
      if Enabled(s, step) { RefreshStartsNoTick(s, call, status, save, reserve, loss); }
    case DoReopenReply(call, status, candidates, save, reserve, loss) =>
      if Enabled(s, step) { ReopenStartsNoTick(s, call, status, candidates, save, reserve, loss); }
    case _ => OthersStartNoTick(s, step);
  }

  /** In every run a tick is under way only while no retirement of a closed session is unsaved, so no wait is checked or handed over before. */
  lemma {:induction false} TicksAfterRetirements(sessions: map<Id, Session>, now: nat, steps: seq<Step>)
    ensures var s := Run(Initial(sessions, now), steps); s.tick.Running? ==> s.retirements == {}
    decreases |steps|
  {
    hide Next, Sound;
    if steps != [] {
      RunSound(sessions, now, steps[..|steps| - 1]);
      TicksAfterRetirements(sessions, now, steps[..|steps| - 1]);
      StepTicksAfterRetirements(Run(Initial(sessions, now), steps[..|steps| - 1]), steps[|steps| - 1]);
    }
  }

  // ---- waits that have left the list -----------------------------------------------------------------

  /** When a hand-over is answered for a wait that has left the list, its session blocks unless it is closed, and shows nothing. */
  lemma MissingWaitOutcome(s: State, call: nat, answer: DispatchResult, save: Save)
    requires call in s.calls && s.calls[call].DispatchCall? && s.calls[call].waitId !in s.mem.records && s.calls[call].sessionId in s.mem.sessions
    requires !(Generation(s.generation, s.calls[call].sessionId) > s.calls[call].generation && SaysNothingNew(answer, save.at))
    ensures var sid, s' := s.calls[call].sessionId, Next(s, DoDispatchReply(call, answer, save));
            if save.ok
            then && s'.mem == s'.disk && s'.mem.records == s.mem.records
                 && s'.mem.sessions == s.mem.sessions[sid := s.mem.sessions[sid].(waiting := None,
                      lifecycle := match s.mem.sessions[sid].lifecycle case Closed => Closed case _ => Blocked)]
            else s'.mem == s.mem && s'.disk == s.disk
  {
    hide OpaqueToken;
  }
}
