/**
 A wait that was refused, or resumed, is over: nothing that happens later changes it or hands it to
 the runner.
 */
module ApprovalFinality {
  import opened Options
  import opened ApprovalTypes
  import opened ApprovalProjection
  import opened ApprovalSteps
  import opened ApprovalSafety
  import opened ApprovalTheorems
  import opened ApprovalCoherence
  import opened ApprovalRuns
  import opened ApprovalOutcomes

  predicate Final(state: WaitState) {
    state.Declined? || state == Resumed
  }

  /** Memory and disk hold this record, which is over. */
  predicate Settled(s: State, w: Wait) {
    && w.id in s.mem.records && s.mem.records[w.id] == w && w.id in s.disk.records && s.disk.records[w.id] == w
    && Final(w.state)
  }

  predicate Unmoved(s: State, s': State, w: Wait) {
    Settled(s', w) && s'.history.handOvers[w.id] == s.history.handOvers[w.id]
  }

  // ---- transitions of other waits ----------------------------------------------------------------

  lemma CommitUnmoved(s: State, other: Wait, ok: bool, announce: bool, w: Wait)
    requires Settled(s, w) && other.id != w.id
    ensures Unmoved(s, Transition(s, other, ok, announce), w)
  {
    hide Project;
  }

  lemma LossUnmoved(s: State, id: Id, generation: nat, save: Save, w: Wait)
    requires Settled(s, w) && id in s.mem.records && s.mem.records[id].id == id && id != w.id
    ensures Unmoved(s, BindingLoss(s, id, generation, save), w)
  {
    hide Transition;
    CommitUnmoved(s, Fail(s.mem.records[id], SessionClosed, save.at), save.ok, false, w);
    CommitUnmoved(s, Fail(s.mem.records[id], SecurityFailure, save.at), save.ok, true, w);
  }

  lemma ReserveUnmoved(s: State, id: Id, reserve: Save, loss: Save, w: Wait)
    requires Settled(s, w) && id in s.mem.records && s.mem.records[id].id == id && id != w.id
    ensures var s' := Reserve(s, id, reserve, loss).0;
            Unmoved(s, s', w) && (Reserve(s, id, reserve, loss).1 ==> id in s'.mem.records && s'.mem.records[id].id == id)
  {
    hide Evidence, IsCurrent, BindingLoss;
    LossUnmoved(s, id, Generation(s.generation, s.mem.records[id].sessionId), loss, w);
    CommitUnmoved(s, Reserved(s.mem.records[id], reserve.at), reserve.ok, true, w);
  }

  lemma DispatchUnmoved(s: State, id: Id, fromTick: bool, reserve: Save, loss: Save, w: Wait)
    requires Settled(s, w) && id in s.mem.records && s.mem.records[id].id == id && id != w.id
    ensures Unmoved(s, Dispatch(s, id, fromTick, reserve, loss), w)
  {
    hide Evidence, IsCurrent, BindingLoss, Reserve;
    ReserveUnmoved(s, id, reserve, loss, w);
    var (s1, going) := Reserve(s, id, reserve, loss);
    if going { LossUnmoved(s1, id, Generation(s.generation, s.mem.records[id].sessionId), loss, w); }
  }

  lemma RecoverUnmoved(s: State, id: Id, startup: bool, save: Save, w: Wait)
    requires Settled(s, w) && id in s.mem.records && s.mem.records[id].id == id
    ensures Unmoved(s, RecoverWait(s, id, startup, save), w)
  {
    hide Evidence, BindingLoss;
    if id != w.id {
      LossUnmoved(s, id, Generation(s.generation, s.mem.records[id].sessionId), save, w);
      CommitUnmoved(s, Fail(s.mem.records[id], ResumeReconciliationRequired, save.at), save.ok, true, w);
    }
  }

  lemma RefreshedUnmoved(s: State, id: Id, status: Option<Status>, save: Save, reserve: Save, loss: Save, w: Wait)
    requires Settled(s, w) && id in s.mem.records && s.mem.records[id].id == id && id != w.id
    ensures Unmoved(s, Refreshed(s, id, status, save, reserve, loss), w)
  {
    hide RefreshedWait, Trusted, Dispatch;
    var v := s.mem.records[id];
    var v' := RefreshedWait(v, status, save);
    SameId(v, status, save);
    var approved := status.Some? && Trusted(v, status.value) && status.value.decision == Approved;
    var s1 := if approved then Learn(s, ApprovalOf(v, status.value.decisionVersion)) else s;
    CommitUnmoved(s1, v', save.ok, v'.state != v.state, w);
    var s2 := Transition(s1, v', save.ok, v'.state != v.state);
    if approved && save.ok {
      CommitHolds(s1, v', v'.state != v.state);
      DispatchUnmoved(s2, id, true, reserve, loss, w);
    }
  }

  lemma CommitHolds(s: State, w: Wait, announce: bool)
    ensures var s' := Commit(s, w, announce); w.id in s'.mem.records && s'.mem.records[w.id] == w
  {
    hide Project;
  }

  lemma TickUnmoved(s: State, save: Save, loss: Save, w: Wait)
    requires Sound(s) && Settled(s, w)
    ensures Unmoved(s, TickNext(s, save, loss), w)
  {
    hide Sound, Dispatch, RecoverWait;
    if s.tick.Running? && s.tick.queue != [] && s.tick.queue[0] in s.mem.records {
      var id := s.tick.queue[0];
      WaitKnown(s, id);
      var s0 := s.(tick := Running(s.tick.queue[1..], false));
      if id != w.id { DispatchUnmoved(s0, id, true, save, loss, w); }
      RecoverUnmoved(s0, id, false, save, w);
    }
  }

  // ---- answers ---------------------------------------------------------------------------------

  lemma RefreshReplyUnmoved(s: State, call: nat, status: Option<Status>, save: Save, reserve: Save, loss: Save, w: Wait)
    requires Sound(s) && Settled(s, w) && call in s.calls && s.calls[call].RefreshCall?
    ensures Unmoved(s, RefreshReply(s, call, status, save, reserve, loss), w)
  {
    hide Sound, Refreshed, Evidence;
    var c := s.calls[call];
    var s0 := ReleaseTick(DropCall(s, call), true);
    if IsRefreshCurrent(s0, c.waitId, c.sessionId, c.generation) {
      WaitKnown(s, c.waitId);
      RefreshedUnmoved(s0, c.waitId, status, save, reserve, loss, w);
    }
  }

  lemma DispatchReplyUnmoved(s: State, call: nat, answer: DispatchResult, save: Save, w: Wait)
    requires Sound(s) && Settled(s, w) && call in s.calls && s.calls[call].DispatchCall?
    ensures Unmoved(s, DispatchReply(s, call, answer, save), w)
  {
    hide Sound, IsCurrent, Transition, Commit, ParseResult;
    var c := s.calls[call];
    AnsweredCall(s, call);
    WaitKnown(s, c.waitId);
    var s0 := ReleaseTick(DropCall(s, call), c.fromTick);
    var result := ParseResult(answer, save.at);
    var v := s.mem.records[c.waitId];
    CommitUnmoved(s0, LostWait(v, result, save.at), save.ok, true, w);
    AppliedUnmoved(s0, v, result, save, w);
  }

  lemma AppliedUnmoved(s: State, v: Wait, result: DispatchResult, save: Save, w: Wait)
    requires Settled(s, w) && v.id in s.mem.records && s.mem.records[v.id] == v && v.id != w.id
    ensures Unmoved(s, ApplyResult(s, v.id, result, save), w)
  {
    hide Commit;
    var s1 := s.(history := AppliedHistory(s.history, v.id, result));
    CommitUnmoved(s1, AppliedWait(v, result, save.at), true, true, w);
    CommitIsTransition(s1, AppliedWait(v, result, save.at));
  }

  lemma CommitIsTransition(s: State, w: Wait)
    ensures Transition(s, w, true, true) == Commit(s, w, true)
  {
  }

  lemma CompleteUnmoved(s: State, continuationId: Option<ContinuationId>, run: Id, result: Completion, save: Save, w: Wait)
    requires Sound(s) && Settled(s, w)
    ensures Unmoved(s, CompleteRunner(s, continuationId, run, result, save).0, w)
  {
    hide Sound, Commit, CompletedWait;
    if continuationId.Some? {
      var target := CompletionTarget(s.mem.order, s.mem.records, continuationId.value, run);
      if target.Some? {
        WaitKnown(s, target.value);
        var v := s.mem.records[target.value];
        var s0 := if result.Succeeded? then Learn(s, SucceededFact(target.value, run, result.managedThreadId)) else s;
        CompletedIds(s.mem, v, result, save.at);
        CommitUnmoved(s0, CompletedWait(s.mem, v, result, save.at), true, true, w);
        CommitIsTransition(s0, CompletedWait(s.mem, v, result, save.at));
      }
    }
  }

  lemma FailUnmoved(s: State, sid: Id, failure: UserRunFailure, save: Save, w: Wait)
    requires Sound(s) && Settled(s, w)
    ensures Unmoved(s, FailUserRun(s, sid, failure, save).0, w)
  {
    hide Sound, Transition;
    var target := FirstBlocking(s.mem.order, s.mem.records, sid);
    if target.Some? {
      WaitKnown(s, target.value);
      var state := if failure == FailSecurity then SecurityFailure else ResumeReconciliationRequired;
      CommitUnmoved(s, Fail(s.mem.records[target.value], state, save.at), save.ok, true, w);
    }
  }

  lemma {:induction false} AddedUnmoved(s: State, m: Snapshot, v: Wait, w: Wait)
    requires Settled(s, w) && m.records == s.mem.records && v.id !in s.mem.records
    ensures Unmoved(s, Publish(CommitSnapshot(s, AddWait(m, v), v.sessionId), v.id, v.state), w)
  {
    hide Project;
  }

  lemma {:induction false} RegisterReplyUnmoved(s: State, call: nat, status: Option<Status>, streamingAuthorized: bool,
                                                candidates: seq<Option<Id>>, save: Save, w: Wait)
    requires Settled(s, w) && call in s.calls && s.calls[call].RegisterCall?
    ensures Unmoved(s, RegisterReply(s, call, status, streamingAuthorized, candidates, save), w)
  {
    hide CommitSnapshot, Publish;
    var c := s.calls[call].capability;
    var s0 := DropCall(s, call);
    var newId := NextWaitId(candidates, 8, s.mem.records);
    if newId.Some? && status.Some? && c.sessionId in s.mem.sessions {
      AddedUnmoved(s0, s.mem, RegisteredWait(newId.value, s.mem.sessions[c.sessionId], c, status.value, save), w);
    }
  }

  lemma {:induction false} ReopenReplyUnmoved(s: State, call: nat, status: Option<Status>, candidates: seq<Option<Id>>,
                                              save: Save, reserve: Save, loss: Save, w: Wait)
    requires Settled(s, w) && call in s.calls && s.calls[call].ReopenCall?
    ensures Unmoved(s, ReopenReply(s, call, status, candidates, save, reserve, loss), w)
  {
    hide ReopenSuccessor, Trusted;
    var c := s.calls[call];
    var s0 := DropCall(s, call);
    if status.Some? && c.priorId in s.mem.records {
      SuccessorUnmoved(s0, c.sessionId, c.priorId, status.value, candidates, save, reserve, loss, w);
    }
  }

  lemma {:induction false} SuccessorUnmoved(s: State, sid: Id, priorId: Id, status: Status, candidates: seq<Option<Id>>,
                                            save: Save, reserve: Save, loss: Save, w: Wait)
    requires Settled(s, w) && priorId in s.mem.records
    ensures Unmoved(s, ReopenSuccessor(s, sid, priorId, status, candidates, save, reserve, loss), w)
  {
    hide Dispatch, HasActiveWait, Project;
    var newId := NextWaitId(candidates, 8, s.mem.records);
    if newId.Some? && sid in s.mem.sessions {
      var v := SuccessorWait(newId.value, sid, s.mem.records[priorId], status, save);
      var s1 := if status.decision == Approved then Learn(s, ApprovalOf(v, v.decisionVersion)) else s;
      var ready := s.mem.(sessions := s.mem.sessions[sid := s.mem.sessions[sid].(lifecycle := Ready, waiting := None)]);
      AddedUnmoved(s1, ready, v, w);
      var s2 := Publish(CommitSnapshot(s1, AddWait(ready, v), sid), v.id, v.state);
      DispatchUnmoved(s2, v.id, false, reserve, loss, w);
    }
  }

  lemma CloseUnmoved(s: State, sid: Id, save: Save, w: Wait)
    requires Settled(s, w)
    ensures Unmoved(s, CloseSession(s, sid, save), w)
  {
    hide Project;
  }

  lemma RestartUnmoved(s: State, now: nat, w: Wait)
    requires Settled(s, w)
    ensures Unmoved(s, Restart(s, now), w)
  {
  }

  lemma StepUnmoved(s: State, step: Step, w: Wait)
    requires Sound(s) && Settled(s, w)
    ensures Unmoved(s, Next(s, step), w)
  {
    hide Sound, RegisterReply, PersistRetirements, TickNext, RefreshReply, DispatchReply, RecoverWait, CompleteRunner, FailUserRun, CloseSession, ReopenReply, Restart;
    if Enabled(s, step) {
      match step
      case DoRegisterReply(call, status, streamingAuthorized, candidates, save) =>
        RegisterReplyUnmoved(s, call, status, streamingAuthorized, candidates, save, w);
      case DoPersistRetirements(sid, save) => RetirementsUnmoved(s, sid, save, w);
      case DoTickNext(save, loss) => TickUnmoved(s, save, loss, w);
      case DoRefreshReply(call, status, save, reserve, loss) => RefreshReplyUnmoved(s, call, status, save, reserve, loss, w);
      case DoDispatchReply(call, answer, save) => DispatchReplyUnmoved(s, call, answer, save, w);
      case DoRecover(id, save) => if id in s.mem.records { WaitKnown(s, id); RecoverUnmoved(s, id, true, save, w); }
      case DoComplete(continuationId, run, result, save) => CompleteUnmoved(s, continuationId, run, result, save, w);
      case DoFailUserRun(sid, failure, save) => FailUnmoved(s, sid, failure, save, w);
      case DoClose(sid, save) => CloseUnmoved(s, sid, save, w);
      case DoReopenReply(call, status, candidates, save, reserve, loss) =>
        ReopenReplyUnmoved(s, call, status, candidates, save, reserve, loss, w);
      case DoRestart(now) => RestartUnmoved(s, now, w);
      case _ =>
    }
  }

  lemma RetirementsUnmoved(s: State, sid: Id, save: Save, w: Wait)
    requires Settled(s, w)
    ensures Unmoved(s, PersistRetirements(s, sid, save), w)
  {
    hide RetiredNotices;
  }

  lemma {:induction false} SettledForever(s: State, more: seq<Step>, w: Wait)
    requires Sound(s) && Settled(s, w)
    ensures Sound(Run(s, more)) && Unmoved(s, Run(s, more), w)
    decreases |more|
  {
    hide Sound, Next;
    if more != [] {
      SettledForever(s, more[..|more| - 1], w);
      StepKeeps(Run(s, more[..|more| - 1]), more[|more| - 1]);
      StepUnmoved(Run(s, more[..|more| - 1]), more[|more| - 1], w);
    }
  }

  /** Once a refusal has been recorded, the wait stays refused in every continuation, and is never handed over again. */
  lemma {:induction false} RefusalIsFinal(sessions: map<Id, Session>, now: nat, steps: seq<Step>, call: nat, status: Option<Status>,
                                          save: Save, reserve: Save, loss: Save, more: seq<Step>)
    requires var s := Run(Initial(sessions, now), steps);
             && call in s.calls && s.calls[call].RefreshCall? && save.ok
             && IsRefreshCurrent(s, s.calls[call].waitId, s.calls[call].sessionId, s.calls[call].generation)
             && VerdictOn(s.mem.records[s.calls[call].waitId], status).Refused?
    ensures var s := Run(Initial(sessions, now), steps);
            var id, decision := s.calls[call].waitId, status.value.decision;
            var after := Run(Next(s, DoRefreshReply(call, status, save, reserve, loss)), more);
            && id in after.mem.records && after.mem.records[id].state == Declined(decision)
            && id in after.disk.records && after.disk.records[id].state == Declined(decision)
            && after.history.handOvers[id] == s.history.handOvers[id]
  {
    hide Run, Sound, Next, IsRefreshCurrent, VerdictOn;
    RunSound(sessions, now, steps);
    var s := Run(Initial(sessions, now), steps);
    var step := DoRefreshReply(call, status, save, reserve, loss);
    RefreshOutcome(sessions, now, steps, call, status, save, reserve, loss);
    CurrentIsKnown(s, call);
    WaitKnown(s, s.calls[call].waitId);
    Verdict(s.mem.records[s.calls[call].waitId], status);
    StepKeeps(s, step);
    SettledForever(Next(s, step), more, Next(s, step).mem.records[s.calls[call].waitId]);
  }

  lemma Verdict(w: Wait, status: Option<Status>)
    requires VerdictOn(w, status).Refused?
    ensures status.Some? && VerdictOn(w, status).decision == status.value.decision
  {
    hide Trusted;
  }
}
