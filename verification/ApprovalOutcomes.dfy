/**
 What each answer from outside makes of a wait and of its session, state by state: the provider's
 answer to a refresh, the runner's answer to a hand-over, the result of a run; and that a refused or
 resumed wait stays so for good.
 */
module ApprovalOutcomes {
  import opened Options
  import opened ApprovalTypes
  import opened ApprovalProjection
  import opened ApprovalSteps
  import opened ApprovalSafety
  import opened ApprovalTheorems
  import opened ApprovalCoherence
  import opened ApprovalRuns

  // ---- the answer to a refresh -------------------------------------------------------------------

  /** How long a wait pauses after so many checks, before the jitter, which can only shorten it. */
  function Pause(checks: nat): nat {
    if checks == 0 then 2000 else if checks == 1 then 5000 else if checks == 2 then 15000 else if checks == 3 then 30000 else 60000
  }

  predicate DueAfterPause(w: Wait, save: Save) {
    var shortened := Pause(w.checkAttempt) + if save.jitter < 0 then save.jitter else 0;
    w.nextCheckAt == save.at + (if shortened < 0 then 0 else shortened)
  }

  /** What the provider says of the wait, if it can be trusted. */
  datatype Verdict = NoAnswer | Untrusted | StillUndecided | Granted | Refused(decision: Decision)

  function VerdictOn(w: Wait, status: Option<Status>): Verdict {
    if status.None? then NoAnswer
    else if !Trusted(w, status.value) then Untrusted
    else
      match status.value.decision
      case Undecided => StillUndecided
      case Approved => Granted
      case decision => Refused(decision)
  }

  /** An answer counts exactly when it is Overseer's readable word on the very approval the wait stands for. */
  lemma VerdictCounts(w: Wait, status: Option<Status>)
    ensures var verdict := VerdictOn(w, status);
            verdict != NoAnswer && verdict != Untrusted
            <==> && status.Some?
                 && status.value == Status(Overseer, w.approvalRef, w.authorityClass, status.value.decision, status.value.decisionVersion,
                                           w.projectId, w.workspaceId, w.resourceRef, status.value.subject)
                 && status.value.decision != Garbled && Sha256Text(status.value.decisionVersion)
                 && (forall field :: field in {w.approvalRef, w.projectId, w.workspaceId, w.resourceRef, status.value.subject} ==> ValidField(field))
  {
    hide ValidField, Sha256Text;
  }

  /** The wait is still the same wait, checked once more. */
  predicate Checked(w: Wait, w': Wait, save: Save) {
    && w' == w.(state := w'.state, subject := w'.subject, decisionVersion := w'.decisionVersion, continuationId := w'.continuationId,
                checkAttempt := w'.checkAttempt, nextCheckAt := w'.nextCheckAt, updatedAt := w'.updatedAt,
                decisionObservedAt := w'.decisionObservedAt, dispatchReservedAt := w'.dispatchReservedAt, runnerRunId := w'.runnerRunId)
    && w'.checkAttempt == w.checkAttempt + 1 && w'.updatedAt == save.at
  }

  /** What an answer that is no approval makes of the wait. */
  predicate AnsweredAs(w: Wait, w': Wait, status: Option<Status>, save: Save) {
    && Checked(w, w', save)
    && match VerdictOn(w, status)
       case NoAnswer => w'.state == VerificationDelayed && w'.decisionVersion == w.decisionVersion && w'.subject == w.subject && DueAfterPause(w', save)
       case Untrusted => w'.state == SecurityFailure && w'.decisionVersion == w.decisionVersion && w'.runnerRunId == None
       case StillUndecided =>
         w'.state == Pending && w'.decisionVersion == w.decisionVersion && w'.subject == status.value.subject && DueAfterPause(w', save)
       case Refused(decision) =>
         && w'.state == Declined(decision) && w'.decisionVersion == status.value.decisionVersion && w'.subject == status.value.subject
         && w'.decisionObservedAt == Some(save.at) && w'.runnerRunId == None
       case Granted => false
  }

  lemma RefreshedAs(w: Wait, status: Option<Status>, save: Save)
    requires VerdictOn(w, status) != Granted
    ensures AnsweredAs(w, RefreshedWait(w, status, save), status, save)
  {
    hide Trusted;
  }

  lemma ReplyIsRefreshed(s: State, call: nat, status: Option<Status>, save: Save, reserve: Save, loss: Save)
    requires call in s.calls && s.calls[call].RefreshCall?
    requires var c := s.calls[call]; IsRefreshCurrent(s, c.waitId, c.sessionId, c.generation)
    ensures var s0 := ReleaseTick(DropCall(s, call), true);
            && s0.mem == s.mem && s0.history == s.history
            && Next(s, DoRefreshReply(call, status, save, reserve, loss)) == Refreshed(s0, s.calls[call].waitId, status, save, reserve, loss)
  {
    hide Refreshed, Evidence;
    var c := s.calls[call];
    assert IsRefreshCurrent(ReleaseTick(DropCall(s, call), true), c.waitId, c.sessionId, c.generation);
  }

  lemma RefreshCommits(s: State, call: nat, status: Option<Status>, save: Save, reserve: Save, loss: Save)
    requires call in s.calls && s.calls[call].RefreshCall? && save.ok
    requires var c := s.calls[call]; IsRefreshCurrent(s, c.waitId, c.sessionId, c.generation)
    requires s.mem.records[s.calls[call].waitId].id == s.calls[call].waitId
    requires VerdictOn(s.mem.records[s.calls[call].waitId], status) != Granted
    ensures var id, s' := s.calls[call].waitId, Next(s, DoRefreshReply(call, status, save, reserve, loss));
            && s'.mem.records == s.mem.records[id := RefreshedWait(s.mem.records[id], status, save)]
            && s'.mem == s'.disk && s'.history.handOvers == s.history.handOvers && s'.mem.sessions.Keys == s.mem.sessions.Keys
  {
    hide Next, IsRefreshCurrent, VerdictOn, RefreshedWait, Refreshed, Commit;
    var id := s.calls[call].waitId;
    var s0 := ReleaseTick(DropCall(s, call), true);
    CurrentIsKnown(s, call);
    ReplyIsRefreshed(s, call, status, save, reserve, loss);
    RefreshedIsCommit(s0, id, status, save, reserve, loss);
    var w := RefreshedWait(s.mem.records[id], status, save);
    SameId(s.mem.records[id], status, save);
    Committed(s0, w, w.state != s.mem.records[id].state);
  }

  lemma Committed(s: State, w: Wait, announce: bool)
    ensures var s' := Commit(s, w, announce);
            && s'.mem.records == s.mem.records[w.id := w] && s'.mem == s'.disk
            && s'.history.handOvers == s.history.handOvers && s'.mem.sessions.Keys == s.mem.sessions.Keys
  {
    hide Project;
  }

  lemma RefreshedIsCommit(s: State, id: Id, status: Option<Status>, save: Save, reserve: Save, loss: Save)
    requires id in s.mem.records && save.ok && VerdictOn(s.mem.records[id], status) != Granted
    ensures var w := RefreshedWait(s.mem.records[id], status, save);
            Refreshed(s, id, status, save, reserve, loss) == Commit(s, w, w.state != s.mem.records[id].state)
  {
    hide Trusted, RefreshedWait, Commit, Dispatch;
  }

  lemma SameId(w: Wait, status: Option<Status>, save: Save)
    ensures RefreshedWait(w, status, save).id == w.id && RefreshedWait(w, status, save).sessionId == w.sessionId
  {
    hide Trusted;
  }

  /**
   A current refresh whose result is saved: no answer delays the next check, an untrusted one is a
   security failure, an undecided one leaves the wait pending, and a refusal is recorded as that
   refusal, in memory and on disk.
   */
  lemma {:induction false} RefreshOutcome(sessions: map<Id, Session>, now: nat, steps: seq<Step>, call: nat, status: Option<Status>,
                                          save: Save, reserve: Save, loss: Save)
    requires var s := Run(Initial(sessions, now), steps);
             && call in s.calls && s.calls[call].RefreshCall? && save.ok
             && IsRefreshCurrent(s, s.calls[call].waitId, s.calls[call].sessionId, s.calls[call].generation)
             && VerdictOn(s.mem.records[s.calls[call].waitId], status) != Granted
    ensures var s := Run(Initial(sessions, now), steps);
            var id, s' := s.calls[call].waitId, Next(s, DoRefreshReply(call, status, save, reserve, loss));
            && id in s'.mem.records && id in s'.disk.records && s'.disk.records[id] == s'.mem.records[id]
            && AnsweredAs(s.mem.records[id], s'.mem.records[id], status, save)
            && (forall other :: other in s.mem.records && other != id ==> other in s'.mem.records && s'.mem.records[other] == s.mem.records[other])
            && s'.history.handOvers == s.history.handOvers
  {
    hide Run, Sound, Next, AnsweredAs, IsRefreshCurrent, VerdictOn;
    RunSound(sessions, now, steps);
    var s := Run(Initial(sessions, now), steps);
    CurrentIsKnown(s, call);
    WaitKnown(s, s.calls[call].waitId);
    RefreshCommits(s, call, status, save, reserve, loss);
    RefreshedAs(s.mem.records[s.calls[call].waitId], status, save);
  }

  lemma CurrentIsKnown(s: State, call: nat)
    requires call in s.calls && s.calls[call].RefreshCall?
    requires IsRefreshCurrent(s, s.calls[call].waitId, s.calls[call].sessionId, s.calls[call].generation)
    ensures s.calls[call].waitId in s.mem.records && PreDispatch(s.mem.records[s.calls[call].waitId].state)
    ensures s.calls[call].sessionId == s.mem.records[s.calls[call].waitId].sessionId
    ensures OpenSession(s.mem, s.calls[call].sessionId)
  {
  }

  /** In a safe run the session of a refused wait has no active wait, is not paused and shows nothing. */
  lemma {:induction false} RefusalReleasesSession(sessions: map<Id, Session>, now: nat, steps: seq<Step>, call: nat, status: Option<Status>,
                                                  save: Save, reserve: Save, loss: Save)
    requires SafeRun(Initial(sessions, now), steps)
    requires var s := Run(Initial(sessions, now), steps);
             && call in s.calls && s.calls[call].RefreshCall? && save.ok
             && IsRefreshCurrent(s, s.calls[call].waitId, s.calls[call].sessionId, s.calls[call].generation)
             && VerdictOn(s.mem.records[s.calls[call].waitId], status).Refused?
    ensures var s := Run(Initial(sessions, now), steps);
            var sid, s' := s.calls[call].sessionId, Next(s, DoRefreshReply(call, status, save, reserve, loss));
            && !HasActiveWait(s'.mem, sid) && sid in s'.mem.sessions
            && s'.mem.sessions[sid].waiting == None && s'.mem.sessions[sid].lifecycle != Paused
  {
    hide Run, Sound, Coherent, Next, IsRefreshCurrent, VerdictOn, SafeRun, Unsafe, HasActiveWait;
    RunCoherent(sessions, now, steps);
    var s := Run(Initial(sessions, now), steps);
    var step := DoRefreshReply(call, status, save, reserve, loss);
    RefreshOutcome(sessions, now, steps, call, status, save, reserve, loss);
    CurrentIsKnown(s, call);
    NotUnsafe(s, step);
    StepCoherent(s, step);
    StepKeeps(s, step);
    WaitKnown(s, s.calls[call].waitId);
    RefreshCommits(s, call, status, save, reserve, loss);
    NoOtherBlocks(s, Next(s, step), s.calls[call].waitId);
    FreeSession(Next(s, step), s.calls[call].sessionId);
  }

  lemma NotUnsafe(s: State, step: Step)
    requires step.DoRefreshReply? || step.DoComplete? || step.DoFailUserRun?
    ensures !Unsafe(s, step)
  {
  }

  /** The only active wait of the session has stopped being active. */
  lemma NoOtherBlocks(s: State, s': State, id: Id)
    requires Coherent(s) && id in s.mem.records && Blocking(s.mem.records[id].state)
    requires id in s'.mem.records && !Blocking(s'.mem.records[id].state) && s'.mem.records.Keys == s.mem.records.Keys
    requires forall other :: other in s.mem.records && other != id ==> s'.mem.records[other] == s.mem.records[other]
    ensures !HasActiveWait(s'.mem, s.mem.records[id].sessionId)
  {
    CoherentParts(s);
  }

  lemma FreeSession(s: State, sid: Id)
    requires Sound(s) && Coherent(s) && sid in s.mem.sessions && !HasActiveWait(s.mem, sid)
    ensures s.mem.sessions[sid].waiting == None && s.mem.sessions[sid].lifecycle != Paused
  {
    hide Sound, HasActiveWait;
    SoundIsListed(s);
    CoherentParts(s);
    NothingNewest(s.mem, sid);
    assert s.mem.sessions[sid] == Project(s.mem.order, s.mem.records, sid, s.mem.sessions[sid]);
  }

  /**
   In a safe run an approval that is saved is recorded under its decision version and handed to the
   runner; when the reservation cannot be saved, the wait stays queued.
   */
  lemma {:induction false} ApprovalIsHandedOver(sessions: map<Id, Session>, now: nat, steps: seq<Step>, call: nat, status: Option<Status>,
                                                save: Save, reserve: Save, loss: Save)
    requires SafeRun(Initial(sessions, now), steps)
    requires var s := Run(Initial(sessions, now), steps);
             && call in s.calls && s.calls[call].RefreshCall? && save.ok
             && IsRefreshCurrent(s, s.calls[call].waitId, s.calls[call].sessionId, s.calls[call].generation)
             && VerdictOn(s.mem.records[s.calls[call].waitId], status) == Granted
    ensures var s := Run(Initial(sessions, now), steps);
            var id, s' := s.calls[call].waitId, Next(s, DoRefreshReply(call, status, save, reserve, loss));
            && id in s'.mem.records && s'.mem == s'.disk
            && s'.mem.records[id].decisionVersion == status.value.decisionVersion && s'.mem.records[id].subject == status.value.subject
            && s'.mem.records[id].state == (if reserve.ok then ResumeDispatching else ApprovedResumeQueued)
            && s'.history.handOvers == s.history.handOvers + (if reserve.ok then multiset{id} else multiset{})
  {
    hide Run, Sound, Coherent, Next, IsRefreshCurrent, SafeRun, Refreshed, Evidence;
    RunCoherent(sessions, now, steps);
    var s := Run(Initial(sessions, now), steps);
    CurrentIsKnown(s, call);
    var id := s.calls[call].waitId;
    WaitKnown(s, id);
    var s0 := ReleaseTick(DropCall(s, call), true);
    RefreshDropped(s, call);
    ReplyIsRefreshed(s, call, status, save, reserve, loss);
    GrantedRefresh(s0, id, status, save, reserve, loss);
  }

  lemma GrantedRefresh(s: State, id: Id, status: Option<Status>, save: Save, reserve: Save, loss: Save)
    requires Sound(s) && Coherent(s) && id in s.mem.records && PreDispatch(s.mem.records[id].state) && s.mem.records[id].id == id
    requires OpenSession(s.mem, s.mem.records[id].sessionId) && VerdictOn(s.mem.records[id], status) == Granted && save.ok
    ensures var s' := Refreshed(s, id, status, save, reserve, loss);
            && id in s'.mem.records && s'.mem == s'.disk
            && s'.mem.records[id].decisionVersion == status.value.decisionVersion && s'.mem.records[id].subject == status.value.subject
            && s'.mem.records[id].state == (if reserve.ok then ResumeDispatching else ApprovedResumeQueued)
            && s'.history.handOvers == s.history.handOvers + (if reserve.ok then multiset{id} else multiset{})
  {
    hide Sound, Coherent, Evidence, Trusted, Dispatch, Refreshed, Commit, RefreshedWait, Reserved;
    var w := s.mem.records[id];
    var w' := RefreshedWait(w, status, save);
    var s2 := Commit(Learn(s, ApprovalOf(w, status.value.decisionVersion)), w', w'.state != w.state);
    GrantedReady(s, id, status, save);
    GrantedGoesOn(s, id, status, save, reserve, loss);
    DispatchNeverFails(s2, id, true, reserve, loss);
    Committed(Learn(s, ApprovalOf(w, status.value.decisionVersion)), w', w'.state != w.state);
    Committed(s2, Reserved(w', reserve.at), true);
    ReservedAs(w', reserve.at);
  }

  lemma ReservedAs(w: Wait, now: nat)
    ensures Reserved(w, now).id == w.id && Reserved(w, now).state == ResumeDispatching
    ensures Reserved(w, now).decisionVersion == w.decisionVersion && Reserved(w, now).subject == w.subject
  {
  }

  /** Recording an approval keeps everything in order and its session open. */
  lemma GrantedReady(s: State, id: Id, status: Option<Status>, save: Save)
    requires Sound(s) && Coherent(s) && id in s.mem.records && PreDispatch(s.mem.records[id].state) && s.mem.records[id].id == id
    requires OpenSession(s.mem, s.mem.records[id].sessionId) && VerdictOn(s.mem.records[id], status) == Granted && save.ok
    ensures var w := s.mem.records[id];
            var w' := RefreshedWait(w, status, save);
            var s2 := Commit(Learn(s, ApprovalOf(w, status.value.decisionVersion)), w', w'.state != w.state);
            Sound(s2) && Coherent(s2) && OpenSession(s2.mem, w.sessionId)
  {
    hide Sound, Coherent, Evidence, Trusted;
    var w := s.mem.records[id];
    var w' := RefreshedWait(w, status, save);
    var s1 := Learn(s, ApprovalOf(w, status.value.decisionVersion));
    LearnCoherent(s, ApprovalOf(w, status.value.decisionVersion));
    SoundIsListed(s1);
    RefreshCommitCoherent(s1, id, status, save, w'.state != w.state);
    RefreshAdmissible(s1, id, status, save);
    CommitKeeps(s1, w', w'.state != w.state);
    StillOpen(s1, w', w'.state != w.state);
  }

  lemma GrantedGoesOn(s: State, id: Id, status: Option<Status>, save: Save, reserve: Save, loss: Save)
    requires id in s.mem.records && s.mem.records[id].id == id && VerdictOn(s.mem.records[id], status) == Granted && save.ok
    ensures var w := s.mem.records[id];
            var w' := RefreshedWait(w, status, save);
            var s2 := Commit(Learn(s, ApprovalOf(w, status.value.decisionVersion)), w', w'.state != w.state);
            && id in s2.mem.records && w'.id == id && w'.sessionId == w.sessionId && w'.state == ApprovedResumeQueued
            && s2.mem.records[id] == w' && s2.history.handOvers == s.history.handOvers
            && w'.decisionVersion == status.value.decisionVersion && w'.subject == status.value.subject
            && Refreshed(s, id, status, save, reserve, loss) == Dispatch(s2, id, true, reserve, loss)
  {
    hide Dispatch, Trusted;
  }

  // ---- the runner's answer to a hand-over ----------------------------------------------------------

  predicate ValidRun(run: Id) { OpaqueToken(run, 64) }

  predicate ValidRetry(retryAt: nat, now: nat) { now < retryAt <= now + 60000 }

  /** What the answer makes of a wait that is still the session's and still dispatching. */
  predicate HandOverAnsweredAs(w: Wait, w': Wait, answer: DispatchResult, now: nat) {
    && w' == w.(state := w'.state, updatedAt := now, nextCheckAt := w'.nextCheckAt, runnerRunId := w'.runnerRunId, dispatchReservedAt := w'.dispatchReservedAt)
    && match answer
       case Started(run) =>
         if ValidRun(run) then w'.state == ResumeDispatching && w'.runnerRunId == Some(run) && w'.dispatchReservedAt == Some(now)
         else w'.state == ResumeReconciliationRequired && w'.runnerRunId == None
       case Capacity(retryAt) =>
         if ValidRetry(retryAt, now)
         then w'.state == ApprovedResumeQueued && w'.nextCheckAt == retryAt && w'.runnerRunId == None && w'.dispatchReservedAt == None
         else w'.state == ResumeReconciliationRequired && w'.runnerRunId == None
       case Denied(reason) =>
         && w'.runnerRunId == None && w'.dispatchReservedAt == None
         && w'.state == (match reason case ReasonClosed => SessionClosed case ReasonThread => SecurityFailure case ReasonScope => SecurityFailure)
       case Ambiguous => w'.state == ResumeReconciliationRequired && w'.runnerRunId == None && w'.dispatchReservedAt == None
       case Malformed => w'.state == ResumeReconciliationRequired && w'.runnerRunId == None && w'.dispatchReservedAt == None
  }

  /** The answer only says what closing the session has already settled. */
  predicate SaysNothingNew(answer: DispatchResult, now: nat) {
    (answer.Capacity? && ValidRetry(answer.retryAt, now)) || answer == Denied(ReasonClosed)
  }

  lemma AppliedAs(w: Wait, answer: DispatchResult, now: nat)
    requires w.state == ResumeDispatching
    ensures HandOverAnsweredAs(w, AppliedWait(w, ParseResult(answer, now), now), answer, now)
  {
    hide OpaqueToken;
  }

  lemma LostAs(w: Wait, answer: DispatchResult, now: nat)
    ensures var w' := LostWait(w, ParseResult(answer, now), now);
            && w'.state == ResumeReconciliationRequired && w'.id == w.id && w'.sessionId == w.sessionId
            && w'.runnerRunId == (if answer.Started? && ValidRun(answer.runnerRunId) then Some(answer.runnerRunId) else None)
    ensures SettledByClose(ParseResult(answer, now)) <==> SaysNothingNew(answer, now)
  {
    hide OpaqueToken;
  }

  /** Taking the answered call off the list changes no binding. */
  lemma SameBinding(s: State, call: nat)
    requires call in s.calls && s.calls[call].DispatchCall?
    ensures var c := s.calls[call];
            var s0 := ReleaseTick(DropCall(s, call), c.fromTick);
            && s0.mem == s.mem && s0.disk == s.disk
            && IsCurrent(s0, c.waitId, c.sessionId, c.generation, {ResumeDispatching}, true)
               == IsCurrent(s, c.waitId, c.sessionId, c.generation, {ResumeDispatching}, true)
            && ClosedDuring(s0, c.sessionId, c.generation) == ClosedDuring(s, c.sessionId, c.generation)
  {
    hide Bound;
  }

  lemma ReplyApplies(s: State, call: nat, answer: DispatchResult, save: Save)
    requires call in s.calls && s.calls[call].DispatchCall? && s.calls[call].waitId in s.mem.records && save.ok
    requires s.mem.records[s.calls[call].waitId].id == s.calls[call].waitId
    ensures var c, s' := s.calls[call], Next(s, DoDispatchReply(call, answer, save));
            var w, result := s.mem.records[c.waitId], ParseResult(answer, save.at);
            if IsCurrent(s, c.waitId, c.sessionId, c.generation, {ResumeDispatching}, true)
            then s'.mem.records == s.mem.records[c.waitId := AppliedWait(w, result, save.at)] && s'.mem == s'.disk
            else if ClosedDuring(s, c.sessionId, c.generation) && SettledByClose(result) then s'.mem == s.mem && s'.disk == s.disk
            else s'.mem.records == s.mem.records[c.waitId := LostWait(w, result, save.at)] && s'.mem == s'.disk
  {
    hide ParseResult, Commit, AppliedWait, LostWait, IsCurrent, ClosedDuring, SettledByClose, ReleaseTick, DropCall;
    var c := s.calls[call];
    var s0 := ReleaseTick(DropCall(s, call), c.fromTick);
    var w, result := s.mem.records[c.waitId], ParseResult(answer, save.at);
    SameBinding(s, call);
    ResultIds(w, result, save.at);
    Committed(s0.(history := AppliedHistory(s0.history, c.waitId, result)), AppliedWait(w, result, save.at), true);
    Committed(s0, LostWait(w, result, save.at), true);
  }

  lemma ResultIds(w: Wait, result: DispatchResult, now: nat)
    ensures AppliedWait(w, result, now).id == w.id && LostWait(w, result, now).id == w.id
  {
  }

  /**
   The answer to a hand-over, saved: while the wait is still its session's and dispatching, a valid
   start is recorded, valid capacity queues it again until then, a denial closes or fails it, and
   anything else needs reconciliation.  When the binding has been lost meanwhile, it needs
   reconciliation, unless the session was closed and the answer says nothing new.
   */
  lemma {:induction false} HandOverOutcome(sessions: map<Id, Session>, now: nat, steps: seq<Step>, call: nat, answer: DispatchResult, save: Save)
    requires var s := Run(Initial(sessions, now), steps); call in s.calls && s.calls[call].DispatchCall? && save.ok
    ensures var s, s' := Run(Initial(sessions, now), steps), Next(Run(Initial(sessions, now), steps), DoDispatchReply(call, answer, save));
            var c := s.calls[call];
            && c.waitId in s.mem.records && c.waitId in s'.mem.records
            && var w, w' := s.mem.records[c.waitId], s'.mem.records[c.waitId];
            && (forall other :: other in s.mem.records && other != c.waitId ==> other in s'.mem.records && s'.mem.records[other] == s.mem.records[other])
            && (if IsCurrent(s, c.waitId, c.sessionId, c.generation, {ResumeDispatching}, true) then
                  HandOverAnsweredAs(w, w', answer, save.at) && s'.mem == s'.disk
                else if Generation(s.generation, c.sessionId) > c.generation && SaysNothingNew(answer, save.at) then
                  s'.mem == s.mem
                else
                  && w'.state == ResumeReconciliationRequired && s'.mem == s'.disk
                  && w'.runnerRunId == (if answer.Started? && ValidRun(answer.runnerRunId) then Some(answer.runnerRunId) else None))
  {
    hide Run, Sound, Next, HandOverAnsweredAs, AppliedWait, LostWait, ParseResult, Bound, SaysNothingNew, SettledByClose, ValidRun;
    RunSound(sessions, now, steps);
    var s := Run(Initial(sessions, now), steps);
    var c := s.calls[call];
    AnsweredCall(s, call);
    WaitKnown(s, c.waitId);
    ReplyApplies(s, call, answer, save);
    LostAs(s.mem.records[c.waitId], answer, save.at);
    if IsCurrent(s, c.waitId, c.sessionId, c.generation, {ResumeDispatching}, true) { AppliedAs(s.mem.records[c.waitId], answer, save.at); }
  }

  /**
   In a safe run the binding of a hand-over holds exactly while its session is open, has not been closed
   since, and the wait dispatches.
   */
  lemma {:induction false} BindingHolds(sessions: map<Id, Session>, now: nat, steps: seq<Step>, call: nat)
    requires SafeRun(Initial(sessions, now), steps)
    requires var s := Run(Initial(sessions, now), steps); call in s.calls && s.calls[call].DispatchCall?
    ensures var s := Run(Initial(sessions, now), steps);
            var c := s.calls[call];
            && c.waitId in s.mem.records
            && (IsCurrent(s, c.waitId, c.sessionId, c.generation, {ResumeDispatching}, true)
                <==> && OpenSession(s.mem, c.sessionId) && Generation(s.generation, c.sessionId) == c.generation
                     && s.mem.records[c.waitId].state == ResumeDispatching)
  {
    hide Run, Sound, Coherent, SafeRun, Evidence, Bound;
    RunCoherent(sessions, now, steps);
    var s := Run(Initial(sessions, now), steps);
    SoundIsListed(s);
    AnsweredCall(s, call);
    if OpenSession(s.mem, s.calls[call].sessionId) && s.mem.records[s.calls[call].waitId].state == ResumeDispatching {
      EvidenceHolds(s, s.calls[call].waitId);
    }
  }

  // ---- the result of a run -------------------------------------------------------------------------

  /** What the result makes of the wait: success counts only on the wait's own thread. */
  predicate CompletedAs(w: Wait, w': Wait, result: Completion, now: nat) {
    && w' == w.(state := w'.state, updatedAt := now, nextCheckAt := now, dispatchReservedAt := None, resumedAt := w'.resumedAt)
    && match result
       case Succeeded(thread) =>
         if thread == w.managedThreadId then w'.state == Resumed && w'.resumedAt == Some(now)
         else if ValidField(thread) then w'.state == SecurityFailure && w'.resumedAt == None
         else w'.state == ResumeReconciliationRequired && w'.resumedAt == None
       case Failed => w'.state == ResumeReconciliationRequired && w'.resumedAt == None
       case MalformedCompletion => w'.state == ResumeReconciliationRequired && w'.resumedAt == None
  }

  lemma CompletedWaitAs(m: Snapshot, w: Wait, result: Completion, now: nat)
    requires Evidence(m, w)
    ensures CompletedAs(w, CompletedWait(m, w, result, now), result, now)
  {
    hide Evidence, ValidField;
  }

  /** Of the open sessions' waits, at most one dispatches under a continuation. */
  lemma OneDispatching(s: State, a: Id, b: Id)
    requires Sound(s) && Coherent(s) && a in s.mem.records && b in s.mem.records
    requires Blocking(s.mem.records[a].state) && Blocking(s.mem.records[b].state)
    requires s.mem.records[a].continuationId == s.mem.records[b].continuationId
    ensures a == b
  {
    hide Sound, Evidence, FieldsCanonical, Succeeds;
    SoundIsListed(s);
    WaitIsCanonical(s, a);
    WaitIsCanonical(s, b);
    CoherentParts(s);
    SameSession(s.mem.records[a], s.mem.records[b]);
  }

  lemma SameSession(v: Wait, w: Wait)
    requires Named(v) && Named(w) && v.continuationId == w.continuationId
    ensures v.sessionId == w.sessionId
  {
  }

  /**
   In a safe run the result of a run settles the wait that dispatches under its continuation and run id
   in an open session, and is answered `true` exactly when it is saved.  One that is not is remembered for
   the recovery of the wait.
   */
  lemma {:induction false} CompletionOutcome(sessions: map<Id, Session>, now: nat, steps: seq<Step>, id: Id, result: Completion, save: Save)
    requires SafeRun(Initial(sessions, now), steps)
    requires var m := Run(Initial(sessions, now), steps).mem;
             && id in m.records && m.records[id].state == ResumeDispatching && OpenSession(m, m.records[id].sessionId)
             && m.records[id].runnerRunId.Some? && OpaqueToken(m.records[id].runnerRunId.value, 64)
    ensures var s := Run(Initial(sessions, now), steps);
            var w := s.mem.records[id];
            var (s', answer) := CompleteRunner(s, Some(w.continuationId), w.runnerRunId.value, result, save);
            && answer == save.ok
            && (if save.ok then
                  && id in s'.mem.records && CompletedAs(w, s'.mem.records[id], result, save.at) && s'.mem == s'.disk
                  && (forall other :: other in s.mem.records && other != id ==> other in s'.mem.records && s'.mem.records[other] == s.mem.records[other])
                  && s'.failures == s.failures - {(w.continuationId, w.runnerRunId.value)}
                else s'.mem == s.mem && s'.disk == s.disk && s'.failures == s.failures + {(w.continuationId, w.runnerRunId.value)})
  {
    hide Run, Sound, Coherent, SafeRun, Evidence, CompletedAs, CompletedWait, OpaqueToken;
    RunCoherent(sessions, now, steps);
    var s := Run(Initial(sessions, now), steps);
    var w := s.mem.records[id];
    SoundIsListed(s);
    EvidenceHolds(s, id);
    var target := CompletionTarget(s.mem.order, s.mem.records, w.continuationId, w.runnerRunId.value);
    ListedAt(s.mem, id);
    OneDispatching(s, target.value, id);
    CompletedWaitAs(s.mem, w, result, save.at);
    TargetSettles(s, id, w.continuationId, w.runnerRunId.value, result, save);
  }

  lemma ListedAt(m: Snapshot, id: Id)
    requires Listed(m) && id in m.records
    ensures exists i :: 0 <= i < |m.order| && m.order[i] == id
    ensures m.records[id].id == id
  {
  }

  lemma TargetSettles(s: State, id: Id, continuationId: ContinuationId, run: Id, result: Completion, save: Save)
    requires id in s.mem.records && s.mem.records[id].id == id
    ensures var (s', answer) := CompleteTarget(s, id, continuationId, run, result, save);
            && answer == save.ok
            && (if save.ok
                then && s'.mem.records == s.mem.records[id := CompletedWait(s.mem, s.mem.records[id], result, save.at)] && s'.mem == s'.disk
                     && s'.failures == s.failures - {(continuationId, run)}
                else s'.mem == s.mem && s'.disk == s.disk && s'.failures == s.failures + {(continuationId, run)})
  {
    hide Commit, CompletedWait;
    var s0 := if result.Succeeded? then Learn(s, SucceededFact(id, run, result.managedThreadId)) else s;
    CompletedIds(s.mem, s.mem.records[id], result, save.at);
    Committed(s0, CompletedWait(s.mem, s.mem.records[id], result, save.at), true);
  }

  lemma CompletedIds(m: Snapshot, w: Wait, result: Completion, now: nat)
    ensures CompletedWait(m, w, result, now).id == w.id
  {
    hide Evidence;
  }

  /** And without such a wait it is answered `false` and changes nothing. */
  lemma {:induction false} NothingToComplete(sessions: map<Id, Session>, now: nat, steps: seq<Step>, continuationId: ContinuationId, run: Id,
                                             result: Completion, save: Save)
    requires var m := Run(Initial(sessions, now), steps).mem;
             forall id :: id in m.records && Completable(m.records[id], continuationId, run) ==> !OpenSession(m, m.records[id].sessionId)
    ensures var s := Run(Initial(sessions, now), steps); CompleteRunner(s, Some(continuationId), run, result, save) == (s, false)
  {
    hide Run, CompleteTarget, OpaqueToken;
  }
}
