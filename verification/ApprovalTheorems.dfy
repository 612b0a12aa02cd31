/**
 What the invariants of ApprovalSafety say about runs, and what single transitions do.
 */
module ApprovalTheorems {
  import opened Options
  import opened ApprovalTypes
  import opened ApprovalProjection
  import opened ApprovalSteps
  import opened ApprovalSafety

  // ---- what this says about runs -----------------------------------------------------------

  /** A wait is handed to the runner at most once, plus once for every committed `capacity` answer. */
  lemma {:induction false} HandOversBounded(sessions: map<Id, Session>, now: nat, steps: seq<Step>, id: Id)
    ensures var h := Run(Initial(sessions, now), steps).history; h.handOvers[id] <= h.capacities[id] + 1
  {
    RunSound(sessions, now, steps);
    var s := Run(Initial(sessions, now), steps);
    if id in s.mem.records { assert Accounted(s.mem.records[id], s.history); }
  }

  /** A resumed wait was approved in its exact scope, was started under a recorded run, and that run succeeded on its thread. */
  lemma {:induction false} ResumedIsEarned(sessions: map<Id, Session>, now: nat, steps: seq<Step>, id: Id)
    requires var s := Run(Initial(sessions, now), steps); id in s.mem.records && s.mem.records[id].state == Resumed
    ensures var s := Run(Initial(sessions, now), steps);
            var w := s.mem.records[id];
            && w.id == id && w.runnerRunId.Some?
            && ApprovedFact(id, w.approvalRef, w.projectId, w.workspaceId, w.resourceRef, w.authorityClass, w.decisionVersion) in s.history.facts
            && StartedFact(id, w.runnerRunId.value) in s.history.facts
            && SucceededFact(id, w.runnerRunId.value, w.managedThreadId) in s.history.facts
  {
    RunSound(sessions, now, steps);
    var s := Run(Initial(sessions, now), steps);
    assert Accounted(s.mem.records[id], s.history);
  }

  ghost predicate RunsNotReused(h: History) {
    forall a, b, run :: StartedFact(a, run) in h.facts && StartedFact(b, run) in h.facts ==> a == b
  }

  /** completeRunner answers `true` at most once per wait, and so at most once per run the runner does not reuse. */
  lemma {:induction false} CompletedOnce(sessions: map<Id, Session>, now: nat, steps: seq<Step>, i: nat, j: nat)
    requires i < j < |Run(Initial(sessions, now), steps).history.completions|
    ensures var h := Run(Initial(sessions, now), steps).history;
            && h.completions[i].waitId != h.completions[j].waitId
            && (RunsNotReused(h) ==> h.completions[i].runnerRunId != h.completions[j].runnerRunId)
  {
    RunSound(sessions, now, steps);
  }

  /** Everything published or audited was durable when it was published. */
  lemma {:induction false} PublishedIsDurable(sessions: map<Id, Session>, now: nat, steps: seq<Step>)
    ensures NoticesDurable(Run(Initial(sessions, now), steps).history.notices)
  {
    RunSound(sessions, now, steps);
  }

  // ---- commit or restore -------------------------------------------------------------------

  /** Either nothing of memory, disk and generations changed, or memory is what the disk holds. */
  ghost predicate CommittedOrRestored(s: State, s': State) {
    || s'.mem == s'.disk
    || (s'.mem == s.mem && s'.disk == s.disk && forall sid :: Generation(s'.generation, sid) == Generation(s.generation, sid))
  }

  /** A transition that learns nothing about the outside world. */
  ghost predicate Unlearned(s: State, s': State) {
    && CommittedOrRestored(s, s') && s'.generation == s.generation
    && s'.history.facts == s.history.facts && s'.history.capacities == s.history.capacities
  }

  lemma TransitionUnlearned(s: State, w: Wait, ok: bool, announce: bool)
    ensures Unlearned(s, Transition(s, w, ok, announce))
  {
  }

  lemma BindingLossUnlearned(s: State, id: Id, generation: nat, save: Save)
    requires id in s.mem.records
    ensures Unlearned(s, BindingLoss(s, id, generation, save))
  {
  }

  lemma ReserveUnlearned(s: State, id: Id, save: Save, loss: Save)
    requires id in s.mem.records
    ensures Unlearned(s, Reserve(s, id, save, loss).0)
    ensures Reserve(s, id, save, loss).1 ==> id in Reserve(s, id, save, loss).0.mem.records
  {
    BindingLossUnlearned(s, id, Generation(s.generation, s.mem.records[id].sessionId), loss);
    TransitionUnlearned(s, Reserved(s.mem.records[id], save.at), save.ok, true);
  }

  lemma DispatchUnlearned(s: State, id: Id, fromTick: bool, save: Save, loss: Save)
    requires id in s.mem.records
    ensures Unlearned(s, Dispatch(s, id, fromTick, save, loss))
  {
    ReserveUnlearned(s, id, save, loss);
    var (s1, going) := Reserve(s, id, save, loss);
    if going { BindingLossUnlearned(s1, id, Generation(s.generation, s.mem.records[id].sessionId), loss); }
  }

  lemma RecoverUnlearned(s: State, id: Id, startup: bool, save: Save)
    requires id in s.mem.records
    ensures Unlearned(s, RecoverWait(s, id, startup, save))
  {
    BindingLossUnlearned(s, id, Generation(s.generation, s.mem.records[id].sessionId), save);
    TransitionUnlearned(s, Fail(s.mem.records[id], ResumeReconciliationRequired, save.at), save.ok, true);
  }

  lemma TickNextUnlearned(s: State, save: Save, loss: Save)
    ensures Unlearned(s, TickNext(s, save, loss))
  {
    if s.tick.Running? && s.tick.queue != [] && s.tick.queue[0] in s.mem.records {
      var s0 := s.(tick := Running(s.tick.queue[1..], false));
      DispatchUnlearned(s0, s.tick.queue[0], true, save, loss);
      RecoverUnlearned(s0, s.tick.queue[0], false, save);
    }
  }

  /**
   The session service fails to save a lifecycle change of its own and keeps it in memory: it closes
   an open session that has no active wait, or opens a closed one that shows no wait.
   */
  predicate ServiceLeftUnsaved(s: State, step: Step) {
    || (&& step.DoClose? && !step.save.ok && step.sid in s.mem.sessions && s.mem.sessions[step.sid].lifecycle != Closed
        && !HasActiveWait(s.mem, step.sid))
    || (&& step.DoReopen? && !step.save.ok && step.sid in s.mem.sessions && s.mem.sessions[step.sid].lifecycle == Closed
        && Newest(s.mem.order, s.mem.records, step.sid, true) == None)
  }

  lemma CloseCommitsOrRestores(s: State, sid: Id, save: Save)
    requires save.ok || HasActiveWait(s.mem, sid)
    ensures CommittedOrRestored(s, CloseSession(s, sid, save))
    ensures CloseSession(s, sid, save).history == s.history
  {
  }

  lemma RefreshedCommitsOrRestores(s: State, id: Id, status: Option<Status>, save: Save, reserve: Save, loss: Save)
    requires id in s.mem.records
    ensures CommittedOrRestored(s, Refreshed(s, id, status, save, reserve, loss))
    ensures Refreshed(s, id, status, save, reserve, loss).history.capacities == s.history.capacities
    ensures var w := s.mem.records[id];
            var approved := status.Some? && Trusted(w, status.value) && status.value.decision == Approved;
            Refreshed(s, id, status, save, reserve, loss).history.facts
              == s.history.facts + (if approved then {ApprovalOf(w, status.value.decisionVersion)} else {})
  {
    var w := s.mem.records[id];
    var refreshed := RefreshedWait(w, status, save);
    var approved := status.Some? && Trusted(w, status.value) && status.value.decision == Approved;
    var s1 := if approved then Learn(s, ApprovalOf(w, status.value.decisionVersion)) else s;
    TransitionUnlearned(s1, refreshed, save.ok, refreshed.state != w.state);
    var s2 := Transition(s1, refreshed, save.ok, refreshed.state != w.state);
    if approved && save.ok && id in s2.mem.records { DispatchUnlearned(s2, id, true, reserve, loss); }
  }

  /** The answer a provider gave, seen as an approval. */
  ghost predicate FromAnswer(fact: Fact, status: Status) {
    && fact.ApprovedFact? && status.decision == Approved
    && fact.approvalRef == status.approvalRef && fact.projectId == status.projectId && fact.workspaceId == status.workspaceId
    && fact.resourceRef == status.resourceRef && fact.authorityClass == status.authorityClass
    && fact.decisionVersion == status.decisionVersion
  }

  lemma {:induction false} SuccessorCommitsOrRestores(s: State, sid: Id, priorId: Id, status: Status, candidates: seq<Option<Id>>,
                                   save: Save, reserve: Save, loss: Save)
    requires priorId in s.mem.records
    ensures var s' := ReopenSuccessor(s, sid, priorId, status, candidates, save, reserve, loss);
            && CommittedOrRestored(s, s') && s'.history.capacities == s.history.capacities
            && forall fact :: fact in s'.history.facts && fact !in s.history.facts ==> FromAnswer(fact, status)
  {
    var newId := NextWaitId(candidates, 8, s.mem.records);
    if newId.Some? && SuccessorAllowed(s.mem, sid, s.mem.records[priorId]) {
      var w := SuccessorWait(newId.value, sid, s.mem.records[priorId], status, save);
      var s1 := if status.decision == Approved then Learn(s, ApprovalOf(w, w.decisionVersion)) else s;
      var prepared := s.mem.(sessions := s.mem.sessions[sid := s.mem.sessions[sid].(lifecycle := Ready, waiting := None)]);
      var s2 := Publish(CommitSnapshot(s1, AddWait(prepared, w), sid), w.id, w.state);
      if status.decision == Approved { DispatchUnlearned(s2, w.id, false, reserve, loss); }
    }
  }

  lemma {:induction false} ReopenReplyCommitsOrRestores(s: State, call: nat, status: Option<Status>, candidates: seq<Option<Id>>,
                                     save: Save, reserve: Save, loss: Save)
    requires call in s.calls && s.calls[call].ReopenCall?
    ensures var s' := ReopenReply(s, call, status, candidates, save, reserve, loss);
            && CommittedOrRestored(s, s') && s'.history.capacities == s.history.capacities
            && forall fact :: fact in s'.history.facts && fact !in s.history.facts
                 ==> status.Some? && status.value.provider == Overseer && FromAnswer(fact, status.value)
  {
    var c := s.calls[call];
    var s0 := DropCall(s, call);
    if status.Some? && c.priorId in s.mem.records && Trusted(s.mem.records[c.priorId], status.value) {
      if !NonApproved(status.value.decision) {
        SuccessorCommitsOrRestores(s0, c.sessionId, c.priorId, status.value, candidates, save, reserve, loss);
      }
    }
  }

  lemma RefreshReplyCommitsOrRestores(s: State, call: nat, status: Option<Status>, save: Save, reserve: Save, loss: Save)
    requires call in s.calls && s.calls[call].RefreshCall?
    ensures var s' := RefreshReply(s, call, status, save, reserve, loss);
            && CommittedOrRestored(s, s') && s'.history.capacities == s.history.capacities
            && forall fact :: fact in s'.history.facts && fact !in s.history.facts
                 ==> status.Some? && status.value.provider == Overseer && FromAnswer(fact, status.value)
  {
    var c := s.calls[call];
    var s0 := ReleaseTick(DropCall(s, call), true);
    if IsRefreshCurrent(s0, c.waitId, c.sessionId, c.generation) {
      RefreshedCommitsOrRestores(s0, c.waitId, status, save, reserve, loss);
    }
  }

  /** What an answer of the runner can change: at most one recorded run or one `capacity`. */
  lemma DispatchReplyEffects(s: State, call: nat, answer: DispatchResult, save: Save)
    requires call in s.calls && s.calls[call].DispatchCall?
    ensures var s', id, result := DispatchReply(s, call, answer, save), s.calls[call].waitId, ParseResult(answer, save.at);
            && CommittedOrRestored(s, s')
            && (forall fact :: fact in s'.history.facts && fact !in s.history.facts
                  ==> save.ok && answer.Started? && fact == StartedFact(id, answer.runnerRunId))
            && (s'.history.capacities == s.history.capacities
                || (save.ok && result.Capacity? && s'.history.capacities == s.history.capacities + multiset{id}))
  {
  }

  lemma CompleteEffects(s: State, continuationId: Option<ContinuationId>, run: Id, result: Completion, save: Save)
    ensures var s' := CompleteRunner(s, continuationId, run, result, save).0;
            && CommittedOrRestored(s, s') && s'.history.capacities == s.history.capacities
            && forall fact :: fact in s'.history.facts && fact !in s.history.facts
                 ==> fact.SucceededFact? && fact.waitId in s.mem.records && fact.runnerRunId == run
                     && Completable(s.mem.records[fact.waitId], s.mem.records[fact.waitId].continuationId, run)
                     && result == Succeeded(fact.managedThreadId)
  {
  }

  /** The outside event that established a fact. */
  ghost predicate Established(s: State, step: Step, fact: Fact) {
    if fact.ApprovedFact? then
      || (step.DoRefreshReply? && step.status.Some? && step.status.value.provider == Overseer && FromAnswer(fact, step.status.value))
      || (step.DoReopenReply? && step.status.Some? && step.status.value.provider == Overseer && FromAnswer(fact, step.status.value))
    else if fact.StartedFact? then
      && step.DoDispatchReply? && step.answer == Started(fact.runnerRunId) && step.save.ok
      && step.call in s.calls && s.calls[step.call].DispatchCall? && s.calls[step.call].waitId == fact.waitId
    else
      && step.DoComplete? && step.run == fact.runnerRunId && step.result == Succeeded(fact.managedThreadId)
      && fact.waitId in s.mem.records && s.mem.records[fact.waitId].state == ResumeDispatching
      && s.mem.records[fact.waitId].runnerRunId == Some(fact.runnerRunId)
  }

  /** The committed `capacity` answer that a counted capacity stands for. */
  ghost predicate CapacityCommitted(s: State, step: Step) {
    && step.DoDispatchReply? && step.save.ok && ParseResult(step.answer, step.save.at).Capacity?
    && step.call in s.calls && s.calls[step.call].DispatchCall?
    && Next(s, step).history.capacities == s.history.capacities + multiset{s.calls[step.call].waitId}
  }

  /** Every other transition commits, so that memory is the durable snapshot, or leaves all waits, sessions and generations as they were. */
  lemma CommitOrRestore(s: State, step: Step)
    requires !step.DoRestart? && !ServiceLeftUnsaved(s, step)
    ensures CommittedOrRestored(s, Next(s, step))
  {
    if Enabled(s, step) {
      match step
      case DoTickNext(save, loss) => TickNextUnlearned(s, save, loss);
      case DoRefreshReply(call, status, save, reserve, loss) => RefreshReplyCommitsOrRestores(s, call, status, save, reserve, loss);
      case DoDispatchReply(call, answer, save) => DispatchReplyEffects(s, call, answer, save);
      case DoRecover(id, save) => if id in s.mem.records { RecoverUnlearned(s, id, true, save); }
      case DoComplete(continuationId, run, result, save) => CompleteEffects(s, continuationId, run, result, save);
      case DoClose(sid, save) =>
        if save.ok || HasActiveWait(s.mem, sid) { CloseCommitsOrRestores(s, sid, save); } else { ClosedStays(s, sid, save); }
      case DoReopenReply(call, status, candidates, save, reserve, loss) =>
        ReopenReplyCommitsOrRestores(s, call, status, candidates, save, reserve, loss);
      case _ =>
    }
  }

  /** Closing a closed session again changes nothing that could be lost. */
  lemma ClosedStays(s: State, sid: Id, save: Save)
    requires sid in s.mem.sessions ==> s.mem.sessions[sid].lifecycle == Closed
    requires !save.ok && !HasActiveWait(s.mem, sid)
    ensures CommittedOrRestored(s, CloseSession(s, sid, save))
  {
    if sid in s.mem.sessions {
      assert s.mem.sessions[sid := s.mem.sessions[sid].(lifecycle := Closed)] == s.mem.sessions;
    }
  }

  /** Where memory is on disk, those changes of the session service are the only ones that part them. */
  lemma CommitsOrRestoresExactly(s: State, step: Step)
    requires s.mem == s.disk && !step.DoRestart?
    ensures CommittedOrRestored(s, Next(s, step)) <==> !ServiceLeftUnsaved(s, step)
  {
    hide HasActiveWait, Newest;
    if ServiceLeftUnsaved(s, step) {
      var sid := step.sid;
      assert Next(s, step).mem.sessions[sid].lifecycle != s.mem.sessions[sid].lifecycle;
    } else {
      CommitOrRestore(s, step);
    }
  }

  /** Facts and `capacity` counts are not invented: each enters the history with the outside event it speaks of. */
  lemma HistoryIsEstablished(s: State, step: Step)
    ensures forall fact :: fact in Next(s, step).history.facts && fact !in s.history.facts ==> Established(s, step, fact)
    ensures Next(s, step).history.capacities == s.history.capacities || CapacityCommitted(s, step)
  {
    if Enabled(s, step) {
      match step
      case DoTickNext(save, loss) => TickNextUnlearned(s, save, loss);
      case DoRefreshReply(call, status, save, reserve, loss) => RefreshReplyCommitsOrRestores(s, call, status, save, reserve, loss);
      case DoDispatchReply(call, answer, save) => DispatchReplyEffects(s, call, answer, save);
      case DoRecover(id, save) => if id in s.mem.records { RecoverUnlearned(s, id, true, save); }
      case DoComplete(continuationId, run, result, save) => CompleteEffects(s, continuationId, run, result, save);
      case DoReopenReply(call, status, candidates, save, reserve, loss) =>
        ReopenReplyCommitsOrRestores(s, call, status, candidates, save, reserve, loss);
      case _ =>
    }
  }

  /** The run recorded by a `started` answer is on the disk when the fact is learnt. */
  lemma StartedIsDurable(s: State, call: nat, answer: DispatchResult, save: Save)
    requires Sound(s) && call in s.calls && s.calls[call].DispatchCall? && answer.Started?
    requires var fact := StartedFact(s.calls[call].waitId, answer.runnerRunId);
             fact in DispatchReply(s, call, answer, save).history.facts && fact !in s.history.facts
    ensures var disk := DispatchReply(s, call, answer, save).disk.records;
            s.calls[call].waitId in disk && disk[s.calls[call].waitId].runnerRunId == Some(answer.runnerRunId)
            && disk[s.calls[call].waitId].state == ResumeDispatching
  {
    hide Project, AllAccounted, HistorySound, NoticesDurable, Bound;
    AnsweredCall(s, call);
  }
}
