/**
 The coordinator as the object it is: waits, sessions, generations and the durable snapshot are
 fields that every lock body changes step by step, saves, and puts back when saving fails.

 Every public method is proved to take exactly the step of the same name in ApprovalSteps, so what
 the runs of that system keep, this object keeps.
 */
module ApprovalService {
  import opened Options
  import opened ApprovalTypes
  import opened ApprovalProjection
  import opened ApprovalSteps
  import opened ApprovalSafety
  import opened ApprovalCoherence

  /** What a rollback puts back into a session. */
  datatype SessionSnapshot = SessionSnapshot(lifecycle: Lifecycle, waiting: Option<Summary>)

  // ---- the active waits of a session -------------------------------------------------------

  function ActiveWaits(order: seq<Id>, records: map<Id, Wait>, sid: Id): (active: seq<Id>)
    ensures forall id :: id in active <==> id in order && id in records && BlocksSession(records[id], sid)
  {
    if order == [] then []
    else
      (if order[0] in records && BlocksSession(records[order[0]], sid) then [order[0]] else [])
      + ActiveWaits(order[1..], records, sid)
  }

  function SnapshotWaits(active: seq<Id>, records: map<Id, Wait>): (snapshots: seq<Wait>)
    requires forall id :: id in active ==> id in records
    ensures |snapshots| == |active| && forall i :: 0 <= i < |active| ==> snapshots[i] == records[active[i]]
  {
    if active == [] then [] else [records[active[0]]] + SnapshotWaits(active[1..], records)
  }

  class ApprovalCoordinator {
    var order: seq<Id>
    var records: map<Id, Wait>
    var sessions: map<Id, Session>
    var generation: map<Id, nat>
    var retirements: set<Id>
    var failures: set<(ContinuationId, Id)>
    var ticking: Tick
    var calls: map<nat, Call>
    var nextCall: nat
    var disk: Snapshot
    ghost var history: History

    ghost function Memory(): Snapshot
      reads this
    {
      Snapshot(order, records, sessions)
    }

    ghost function Current(): State
      reads this
    {
      State(Memory(), disk, generation, retirements, failures, ticking, calls, nextCall, history)
    }

    /** A new process: it loads what the stopped one had saved, retires the waits of closed sessions and projects. */
    constructor (stopped: State, now: nat)
      requires Sound(stopped)
      ensures Current() == Next(stopped, DoRestart(now))
      ensures Sound(Current())
    {
      hide Sound, Retire, Project, RetiredAtStart, ClosedSessions;
      var loaded := stopped.disk.(sessions := map sid | sid in stopped.disk.sessions :: Loaded(stopped.disk.sessions[sid]));
      var retired := Retire(loaded.records, ClosedSessions(loaded.sessions), now);
      order := loaded.order;
      records := retired;
      sessions := map sid | sid in loaded.sessions :: Project(loaded.order, retired, sid, loaded.sessions[sid]);
      generation := map[];
      retirements := RetiredAtStart(loaded);
      failures := {};
      ticking := Idle;
      calls := map[];
      nextCall := stopped.nextCall;
      disk := stopped.disk;
      history := stopped.history;
      new;
      StepKeeps(stopped, DoRestart(now));
    }

    // ---- snapshots, projection, persistence ------------------------------------------------

    function SnapshotSession(sid: Id): SessionSnapshot
      reads this
      requires sid in sessions
    {
      SessionSnapshot(sessions[sid].lifecycle, sessions[sid].waiting)
    }

    method RestoreSession(sid: Id, before: SessionSnapshot)
      modifies this`sessions
      requires sid in sessions
      ensures sessions == old(sessions)[sid := old(sessions)[sid].(lifecycle := before.lifecycle, waiting := before.waiting)]
    {
      var session := sessions[sid];
      session := session.(lifecycle := before.lifecycle);
      session := session.(waiting := before.waiting);
      sessions := sessions[sid := session];
    }

    method ProjectSession(sid: Id)
      modifies this`sessions
      ensures Memory() == Reproject(old(Memory()), sid)
      ensures sessions.Keys == old(sessions).Keys
      ensures sid in sessions ==>
                sessions == old(sessions)[sid := old(sessions)[sid].(lifecycle := sessions[sid].lifecycle, waiting := sessions[sid].waiting)]
    {
      if sid in sessions {
        var session := sessions[sid];
        if session.lifecycle == Closed {
          session := session.(waiting := None);
        } else {
          var active := Newest(order, records, sid, false);
          if active.None? {
            session := session.(waiting := None);
            if session.lifecycle == Paused { session := session.(lifecycle := Ready); }
          } else {
            session := session.(lifecycle := Paused);
            session := session.(waiting := Some(ToPublic(active.value)));
          }
        }
        sessions := sessions[sid := session];
      }
    }

    /** The persistence callback: everything or, when it fails, nothing. */
    method Persist(ok: bool) returns (persisted: bool)
      modifies this`disk
      ensures persisted == ok
      ensures disk == if ok then Memory() else old(disk)
    {
      if ok { disk := Snapshot(order, records, sessions); }
      persisted := ok;
    }

    method Announce(id: Id, state: WaitState)
      modifies this`history
      ensures Current() == Publish(old(Current()), id, state)
    {
      history := history.(notices := history.notices + [Notice(id, state, id in disk.records && disk.records[id].state == state)]);
    }

    /** `#persistWaitTransition` for a wait that has been changed in memory. */
    method PersistWaitTransition(id: Id, waitBefore: Wait, ok: bool, announce: bool) returns (persisted: bool)
      modifies this
      requires id in records && records[id].id == id && records[id].sessionId == waitBefore.sessionId
      ensures persisted == ok
      ensures var before := old(Current());
              Current() == Transition(before.(mem := before.mem.(records := before.mem.records[id := waitBefore])),
                                      before.mem.records[id], ok, announce)
    {
      var sid := waitBefore.sessionId;
      ghost var before := Current();
      var known := sid in sessions;
      var sessionBefore := if known then SnapshotSession(sid) else SessionSnapshot(Ready, None);
      ProjectSession(sid);
      persisted := Persist(ok);
      if persisted {
        assert before.mem.records[id := waitBefore][id := before.mem.records[id]] == before.mem.records;
        if announce { Announce(id, records[id].state); }
      } else {
        if known {
          RestoreSession(sid, sessionBefore);
          assert sessions == before.mem.sessions;
        }
        records := records[id := waitBefore];
      }
    }

    // ---- register --------------------------------------------------------------------------

    method NextId(candidates: seq<Option<Id>>) returns (r: Option<Id>)
      ensures r == NextWaitId(candidates, 8, records)
    {
      var attempts: nat := 8;
      var i := 0;
      r := None;
      while attempts > 0 && i < |candidates|
        invariant 0 <= i <= |candidates| && attempts <= 8
        invariant NextWaitId(candidates, 8, records) == NextWaitId(candidates[i..], attempts, records)
      {
        if candidates[i].None? { return None; }
        if OpaqueToken(candidates[i].value, MAX_WAIT_ID_LENGTH) && candidates[i].value !in records { return candidates[i]; }
        assert candidates[i..][1..] == candidates[i + 1..];
        i := i + 1;
        attempts := attempts - 1;
      }
    }

    method RegisterAnswered(call: nat, status: Option<Status>, streamingAuthorized: bool, candidates: seq<Option<Id>>, save: Save)
      modifies this
      requires Sound(Current()) && call in calls && calls[call].RegisterCall?
      ensures Current() == Next(old(Current()), DoRegisterReply(call, status, streamingAuthorized, candidates, save))
      ensures Sound(Current())
    {
      hide Sound;
      ghost var before := Current();
      StepKeeps(before, DoRegisterReply(call, status, streamingAuthorized, candidates, save));
      var c, approvalRef := calls[call].capability, calls[call].approvalRef;
      calls := calls - {call};
      if status.None? || !RegisterStatusAccepted(c, approvalRef, status.value) { return; }
      var waitId := NextId(candidates);
      var sid := c.sessionId;
      if waitId.None? || sid !in sessions || !RegistrationAllowed(sessions[sid], c, streamingAuthorized) { return; }
      if HasActiveWait(Snapshot(order, records, sessions), sid) { return; }
      var record := RegisteredWait(waitId.value, sessions[sid], c, status.value, save);
      var persisted := Insert(sid, SnapshotSession(sid), record, save.ok);
    }

    /** Pushes a new wait, projects and saves; when saving fails the session is restored and the wait is spliced out. */
    method Insert(sid: Id, sessionBefore: SessionSnapshot, record: Wait, ok: bool) returns (persisted: bool)
      modifies this
      requires record.id !in records && sid in sessions && record.sessionId == sid
      ensures persisted == ok
      ensures ok ==> record.id in records && records[record.id] == record
      ensures var before := old(Current());
              Current() == if ok then Publish(CommitSnapshot(before, AddWait(before.mem, record), sid), record.id, record.state)
                           else before.(mem := before.mem.(sessions := before.mem.sessions[sid :=
                                before.mem.sessions[sid].(lifecycle := sessionBefore.lifecycle, waiting := sessionBefore.waiting)]))
    {
      hide Project, Reproject;
      ghost var before := Current();
      order := order + [record.id];
      records := records[record.id := record];
      ProjectSession(sid);
      persisted := Persist(ok);
      if persisted {
        Announce(record.id, record.state);
      } else {
        InsertUndone(before.mem.order, before.mem.records, record);
        Withdraw(sid, sessionBefore, record.id);
      }
    }

    /** Takes the last wait of the list back out. */
    method Withdraw(sid: Id, sessionBefore: SessionSnapshot, id: Id)
      modifies this`order, this`records, this`sessions
      requires sid in sessions && order != []
      ensures order == old(order)[..|old(order)| - 1] && records == old(records) - {id}
      ensures sessions == old(sessions)[sid := old(sessions)[sid].(lifecycle := sessionBefore.lifecycle, waiting := sessionBefore.waiting)]
    {
      RestoreSession(sid, sessionBefore);
      order := order[..|order| - 1];
      records := records - {id};
    }

    // ---- dispatch --------------------------------------------------------------------------

    /** `#handleDispatchBindingLossBeforeQueue` */
    method HandleBindingLoss(id: Id, sessionGeneration: nat, save: Save)
      modifies this
      requires id in records && records[id].id == id
      ensures Current() == BindingLoss(old(Current()), id, sessionGeneration, save)
    {
      var waitBefore := records[id];
      var sid := waitBefore.sessionId;
      var closed := sid in generation && generation[sid] > sessionGeneration;
      if closed && waitBefore.state == SessionClosed { return; }
      var wait := waitBefore.(state := if closed then SessionClosed else SecurityFailure);
      wait := wait.(updatedAt := save.at, nextCheckAt := save.at);
      wait := wait.(dispatchReservedAt := None, runnerRunId := None);
      ghost var before := Current();
      records := records[id := wait];
      assert records[id := waitBefore] == before.mem.records;
      var _ := PersistWaitTransition(id, waitBefore, save.ok, !closed);
    }

    /** The first lock body of `#dispatchApprovedWait` */
    method ReserveDispatch(id: Id, reserve: Save, loss: Save) returns (shouldDispatch: bool)
      modifies this
      requires id in records && records[id].id == id
      ensures (Current(), shouldDispatch) == Reserve(old(Current()), id, reserve, loss)
    {
      hide Evidence, IsCurrent, BindingLoss, Transition;
      ghost var before := Current();
      var sid := records[id].sessionId;
      var sessionGeneration := Generation(generation, sid);
      var current := CheckCurrent(id, sid, sessionGeneration, {ApprovedResumeQueued, ResumeDispatching}, false);
      var canonical := CheckEvidence(id);
      if !current || !canonical {
        HandleBindingLoss(id, sessionGeneration, loss);
        return false;
      }
      if records[id].state == ApprovedResumeQueued {
        var waitBefore := records[id];
        var wait := waitBefore.(state := ResumeDispatching);
        wait := wait.(dispatchReservedAt := Some(reserve.at));
        wait := wait.(updatedAt := reserve.at, nextCheckAt := reserve.at);
        wait := wait.(runnerRunId := None);
        records := records[id := wait];
        assert records[id := waitBefore] == before.mem.records;
        var reserved := PersistWaitTransition(id, waitBefore, reserve.ok, true);
        return reserved;
      }
      return true;
    }

    method CheckEvidence(id: Id) returns (canonical: bool)
      requires id in records
      ensures canonical == Evidence(Memory(), records[id])
    {
      canonical := Evidence(Snapshot(order, records, sessions), records[id]);
    }

    method CheckCurrent(id: Id, sid: Id, sessionGeneration: nat, states: set<WaitState>, dispatchBinding: bool) returns (current: bool)
      ensures current == IsCurrent(Current(), id, sid, sessionGeneration, states, dispatchBinding)
    {
      if id !in records || sid !in sessions || Generation(generation, sid) != sessionGeneration { return false; }
      var wait, session := records[id], sessions[sid];
      if wait.sessionId != sid || !Bound(wait, session) { return false; }
      if dispatchBinding {
        if session.lifecycle != Paused || session.waiting.None? { return false; }
        if session.waiting.value.waitId != id || session.waiting.value.state != wait.state { return false; }
      }
      current := wait.state in states;
    }

    /** `#dispatchApprovedWait` up to the call of `queueContinuation` */
    method DispatchApprovedWait(id: Id, fromTick: bool, reserve: Save, loss: Save)
      modifies this
      requires id in records && records[id].id == id
      ensures Current() == Dispatch(old(Current()), id, fromTick, reserve, loss)
    {
      hide Evidence, IsCurrent, BindingLoss;
      ghost var before := Current();
      var sid := records[id].sessionId;
      var sessionGeneration := Generation(generation, sid);
      var shouldDispatch := ReserveDispatch(id, reserve, loss);
      ReserveListed(before, id, reserve, loss);
      if !shouldDispatch { return; }
      var current := CheckCurrent(id, sid, sessionGeneration, {ResumeDispatching}, true);
      var canonical := CheckEvidence(id);
      if !current || !canonical {
        HandleBindingLoss(id, sessionGeneration, loss);
        return;
      }
      calls := calls[nextCall := DispatchCall(id, sid, sessionGeneration, fromTick)];
      nextCall := nextCall + 1;
      if fromTick && ticking.Running? { ticking := ticking.(awaiting := true); }
      history := history.(handOvers := history.handOvers + multiset{id});
    }

    /** `#applyDispatchResult` */
    method ApplyDispatchResult(id: Id, result: DispatchResult, save: Save)
      modifies this
      requires id in records && records[id].id == id
      ensures Current() == ApplyResult(old(Current()), id, result, save)
    {
      hide Reproject;
      ghost var before := Current();
      var waitBefore := records[id];
      var wait := waitBefore.(updatedAt := save.at);
      match result {
        case Started(run) =>
          wait := wait.(runnerRunId := Some(run));
          wait := wait.(dispatchReservedAt := Some(save.at));
        case Capacity(retryAt) =>
          wait := wait.(state := ApprovedResumeQueued, nextCheckAt := retryAt);
          wait := wait.(runnerRunId := None, dispatchReservedAt := None);
        case Ambiguous =>
          wait := wait.(state := ResumeReconciliationRequired);
          wait := wait.(runnerRunId := None, dispatchReservedAt := None);
        case Malformed =>
          wait := wait.(state := ResumeReconciliationRequired);
          wait := wait.(runnerRunId := None, dispatchReservedAt := None);
          wait := wait.(nextCheckAt := save.at);
        case Denied(reason) =>
          wait := wait.(state := if reason == ReasonClosed then SessionClosed else SecurityFailure);
          wait := wait.(runnerRunId := None, dispatchReservedAt := None);
      }
      records := records[id := wait];
      assert records[id := waitBefore] == before.mem.records;
      if save.ok { history := AppliedHistory(history, id, result); }
      var _ := PersistWaitTransition(id, waitBefore, save.ok, true);
    }

    /** `#applyDispatchResultWithBindingLoss` */
    method ApplyDispatchResultWithBindingLoss(id: Id, sid: Id, sessionGeneration: nat, result: DispatchResult, save: Save)
      modifies this
      requires id in records ==> records[id].id == id
      ensures Current() == ApplyWithLoss(old(Current()), id, sid, sessionGeneration, result, save)
    {
      hide Reproject;
      ghost var before := Current();
      var closed := sid in generation && generation[sid] > sessionGeneration;
      if closed && result.Capacity? { return; }
      if closed && result == Denied(ReasonClosed) { return; }
      if id !in records {
        PersistMissingLiveWait(id, sid, ResumeReconciliationRequired, save);
        return;
      }
      var waitBefore := records[id];
      var wait := waitBefore.(state := ResumeReconciliationRequired);
      wait := wait.(updatedAt := save.at);
      if result.Started? {
        wait := wait.(runnerRunId := Some(result.runnerRunId));
        wait := wait.(dispatchReservedAt := Some(save.at));
      } else {
        wait := wait.(runnerRunId := None);
        wait := wait.(dispatchReservedAt := None);
      }
      records := records[id := wait];
      assert records[id := waitBefore] == before.mem.records;
      var _ := PersistWaitTransition(id, waitBefore, save.ok, true);
    }

    /** `#persistMissingLiveWaitOutcome` */
    method PersistMissingLiveWait(id: Id, sid: Id, state: WaitState, save: Save)
      modifies this
      ensures Current() == MissingWait(old(Current()), id, sid, state, save)
    {
      ghost var before := Current();
      if sid !in sessions { return; }
      var sessionBefore := SnapshotSession(sid);
      var session := sessions[sid];
      if session.lifecycle != Closed { session := session.(lifecycle := Blocked); }
      session := session.(waiting := None);
      sessions := sessions[sid := session];
      var persisted := Persist(save.ok);
      if !persisted {
        RestoreSession(sid, sessionBefore);
        assert sessions == before.mem.sessions;
        return;
      }
      Announce(id, state);
    }

    /** The runner answers `queueContinuation`. */
    method DispatchAnswered(call: nat, answer: DispatchResult, save: Save)
      modifies this
      requires Sound(Current()) && call in calls && calls[call].DispatchCall?
      ensures Current() == Next(old(Current()), DoDispatchReply(call, answer, save))
      ensures Sound(Current())
    {
      hide Sound, IsCurrent, ApplyResult, ApplyWithLoss;
      ghost var before := Current();
      StepKeeps(before, DoDispatchReply(call, answer, save));
      SoundIsListed(before);
      var c := calls[call];
      calls := calls - {call};
      if c.fromTick && ticking.Running? { ticking := ticking.(awaiting := false); }
      var current := CheckCurrent(c.waitId, c.sessionId, c.generation, {ResumeDispatching}, true);
      var parsed := ParseResult(answer, save.at);
      if !current {
        ApplyDispatchResultWithBindingLoss(c.waitId, c.sessionId, c.generation, parsed, save);
      } else {
        CurrentIsListed(Current(), c.waitId, c.sessionId, c.generation);
        ApplyDispatchResult(c.waitId, parsed, save);
      }
    }

    // ---- refresh ---------------------------------------------------------------------------

    /** The provider answers a refresh: the rest of `#refreshWait`. */
    method RefreshAnswered(call: nat, status: Option<Status>, save: Save, reserve: Save, loss: Save)
      modifies this
      requires Sound(Current()) && call in calls && calls[call].RefreshCall?
      ensures Current() == Next(old(Current()), DoRefreshReply(call, status, save, reserve, loss))
      ensures Sound(Current())
    {
      hide Sound, IsRefreshCurrent, Refreshed;
      ghost var before := Current();
      StepKeeps(before, DoRefreshReply(call, status, save, reserve, loss));
      SoundIsListed(before);
      var c := calls[call];
      calls := calls - {call};
      if ticking.Running? { ticking := ticking.(awaiting := false); }
      var current := CheckRefreshCurrent(c.waitId, c.sessionId, c.generation);
      if current {
        RefreshCurrentIsListed(Current(), c.waitId, c.sessionId, c.generation);
        ApplyStatus(c.waitId, status, save, reserve, loss);
      }
    }

    /** `#isRefreshWaitCurrentAndCanonical` */
    method CheckRefreshCurrent(id: Id, sid: Id, sessionGeneration: nat) returns (current: bool)
      ensures current == IsRefreshCurrent(Current(), id, sid, sessionGeneration)
    {
      current := CheckCurrent(id, sid, sessionGeneration, {Pending, VerificationDelayed}, false);
      if current {
        current := sessions[sid].lifecycle == Paused && sessions[sid].waiting == Some(ToPublic(records[id]));
      }
    }

    /** What an answer does to the record of a wait; `true` asks for the dispatch. */
    method RecordStatus(id: Id, status: Option<Status>, save: Save) returns (shouldDispatch: bool)
      modifies this`records
      requires id in records
      ensures records == old(records)[id := RefreshedWait(old(records)[id], status, save)]
      ensures shouldDispatch <==> status.Some? && Trusted(old(records)[id], status.value) && status.value.decision == Approved
    {
      hide Trusted, NextCheckAt;
      var now := save.at;
      var waitBefore := records[id];
      var wait := waitBefore.(checkAttempt := waitBefore.checkAttempt + 1);
      wait := wait.(updatedAt := now);
      shouldDispatch := false;
      if status.None? {
        wait := wait.(state := VerificationDelayed);
        wait := wait.(nextCheckAt := NextCheckAt(now, wait.checkAttempt + 1, save.jitter));
      } else if !Trusted(waitBefore, status.value) {
        wait := wait.(state := SecurityFailure, nextCheckAt := now);
        wait := wait.(dispatchReservedAt := None, runnerRunId := None);
      } else {
        var answer := status.value;
        TrustedIsDecided(waitBefore, answer);
        if answer.decision == Approved || NonApproved(answer.decision) {
          wait := wait.(decisionVersion := answer.decisionVersion);
          wait := wait.(continuationId := if wait.successorOf.Some?
                                          then Successor(wait.id, wait.sessionId, wait.approvalRef, answer.decisionVersion)
                                          else Plain(wait.sessionId, wait.approvalRef, answer.decisionVersion));
        }
        wait := wait.(subject := answer.subject);
        if answer.decision == Undecided {
          wait := wait.(state := Pending);
          wait := wait.(nextCheckAt := NextCheckAt(now, wait.checkAttempt + 1, save.jitter));
        } else if answer.decision == Approved {
          wait := wait.(state := ApprovedResumeQueued);
          wait := wait.(decisionObservedAt := Some(now), nextCheckAt := now);
          shouldDispatch := true;
        } else {
          wait := wait.(state := Declined(answer.decision));
          wait := wait.(decisionObservedAt := Some(now), nextCheckAt := now);
          wait := wait.(dispatchReservedAt := None, runnerRunId := None);
        }
      }
      records := records[id := wait];
    }

    /** The lock body of `#refreshWait`, and the dispatch that follows a recorded approval. */
    method ApplyStatus(id: Id, status: Option<Status>, save: Save, reserve: Save, loss: Save)
      modifies this
      requires id in records && records[id].id == id
      ensures Current() == Refreshed(old(Current()), id, status, save, reserve, loss)
    {
      hide Trusted, Dispatch, Transition;
      ghost var before := Current();
      var waitBefore := records[id];
      var shouldDispatch := RecordStatus(id, status, save);
      if shouldDispatch {
        history := history.(facts := history.facts + {ApprovalOf(waitBefore, status.value.decisionVersion)});
      }
      RefreshedNames(waitBefore, status, save);
      assert records[id := waitBefore] == before.mem.records;
      var persisted := PersistWaitTransition(id, waitBefore, save.ok, records[id].state != waitBefore.state);
      if shouldDispatch && persisted {
        FollowUp(before, id, status, save, RefreshedWait(waitBefore, status, save).state != waitBefore.state);
        DispatchApprovedWait(id, true, reserve, loss);
      }
    }

    // ---- recovery, completion, failure -----------------------------------------------------

    /** The record of a wait is settled in `state`; its run and reservation are forgotten. */
    method Settle(id: Id, state: WaitState, save: Save, announce: bool) returns (persisted: bool)
      modifies this
      requires id in records && records[id].id == id
      ensures persisted == save.ok
      ensures Current() == Transition(old(Current()), Fail(old(records)[id], state, save.at), save.ok, announce)
    {
      hide Transition;
      ghost var before := Current();
      var waitBefore := records[id];
      var wait := waitBefore.(state := state);
      wait := wait.(updatedAt := save.at, nextCheckAt := save.at);
      wait := wait.(dispatchReservedAt := None);
      wait := wait.(runnerRunId := None);
      records := records[id := wait];
      assert records[id := waitBefore] == before.mem.records;
      persisted := PersistWaitTransition(id, waitBefore, save.ok, announce);
    }

    /** `#recoverDispatchingWait` */
    method RecoverDispatchingWait(id: Id, startup: bool, save: Save)
      modifies this
      requires id in records && records[id].id == id
      ensures Current() == RecoverWait(old(Current()), id, startup, save)
    {
      hide Evidence, BindingLoss, Reproject;
      var wait := records[id];
      var failed := wait.runnerRunId.Some? && (wait.continuationId, wait.runnerRunId.value) in failures;
      if wait.state != ResumeDispatching || (!startup && wait.runnerRunId.Some? && !failed) { return; }
      var canonical := CheckEvidence(id);
      if !canonical {
        HandleBindingLoss(id, Generation(generation, wait.sessionId), save);
        return;
      }
      var persisted := Settle(id, ResumeReconciliationRequired, save, true);
      if persisted && wait.runnerRunId.Some? {
        failures := failures - {(wait.continuationId, wait.runnerRunId.value)};
      }
    }

    /** One wait of the loop in `recover` */
    method RecoverOne(id: Id, save: Save)
      modifies this
      requires Sound(Current())
      ensures Current() == Next(old(Current()), DoRecover(id, save))
      ensures Sound(Current())
    {
      hide Sound, RecoverWait;
      StepKeeps(Current(), DoRecover(id, save));
      SoundIsListed(Current());
      if id !in records || retirements != {} { return; }
      var sid := records[id].sessionId;
      if sid !in sessions || sessions[sid].lifecycle == Closed { return; }
      RecoverDispatchingWait(id, true, save);
    }

    /** `completeRunner` */
    method CompleteRun(continuationId: Option<ContinuationId>, run: Id, result: Completion, save: Save) returns (completed: bool)
      modifies this
      requires Sound(Current())
      ensures Current() == Next(old(Current()), DoComplete(continuationId, run, result, save))
      ensures completed == CompleteRunner(old(Current()), continuationId, run, result, save).1
      ensures completed ==> |history.completions| == |old(history.completions)| + 1
      ensures !completed ==> history.completions == old(history.completions)
      ensures Sound(Current())
    {
      hide Sound, Evidence, Reproject, CompleteTarget;
      ghost var before := Current();
      StepKeeps(before, DoComplete(continuationId, run, result, save));
      SoundIsListed(before);
      if continuationId.None? || !OpaqueToken(run, MAX_RUNNER_RUN_ID_LENGTH) { return false; }
      var candidate := CompletionTarget(order, records, continuationId.value, run);
      if candidate.None? { return false; }
      var sid := records[candidate.value].sessionId;
      if sid !in sessions || sessions[sid].lifecycle == Closed { return false; }
      completed := CompleteCandidate(candidate.value, continuationId.value, run, result, save);
      CompletionsGrow(before, candidate.value, continuationId.value, run, result, save);
    }

    /** What a completion does to the record of its wait. */
    method RecordCompletion(id: Id, result: Completion, save: Save)
      modifies this`records
      requires id in records
      ensures records == old(records)[id := CompletedWait(old(Memory()), old(records)[id], result, save.at)]
    {
      hide Evidence;
      var canonical := CheckEvidence(id);
      var wait := records[id];
      if canonical && result == Succeeded(wait.managedThreadId) {
        wait := wait.(state := Resumed);
        wait := wait.(resumedAt := Some(save.at));
      } else if !canonical || (result.Succeeded? && ValidField(result.managedThreadId)) {
        wait := wait.(state := SecurityFailure);
        wait := wait.(resumedAt := None);
      } else {
        wait := wait.(state := ResumeReconciliationRequired);
        wait := wait.(resumedAt := None);
      }
      wait := wait.(updatedAt := save.at);
      wait := wait.(nextCheckAt := save.at);
      wait := wait.(dispatchReservedAt := None);
      records := records[id := wait];
    }

    /** The lock body of `completeRunner` */
    method CompleteCandidate(id: Id, continuationId: ContinuationId, run: Id, result: Completion, save: Save) returns (completed: bool)
      modifies this
      requires id in records && records[id].id == id
      ensures (Current(), completed) == CompleteTarget(old(Current()), id, continuationId, run, result, save)
    {
      hide CompletedWait, Reproject;
      ghost var before := Current();
      var waitBefore := records[id];
      CompletedNames(before.mem, waitBefore, result, save.at);
      if result.Succeeded? { history := history.(facts := history.facts + {SucceededFact(id, run, result.managedThreadId)}); }
      ghost var learned := Current();
      RecordCompletion(id, result, save);
      assert records[id := waitBefore] == before.mem.records;
      completed := PersistWaitTransition(id, waitBefore, save.ok, true);
      assert Current() == Transition(learned, CompletedWait(before.mem, waitBefore, result, save.at), save.ok, true);
      if completed {
        failures := failures - {(continuationId, run)};
        history := history.(completions := history.completions + [CompletionRecord(id, continuationId, run)]);
      } else {
        failures := failures + {(continuationId, run)};
      }
    }

    /** `failUserRun` */
    method FailRun(sid: Id, failure: UserRunFailure, save: Save) returns (failed: bool)
      modifies this
      requires Sound(Current())
      ensures Current() == Next(old(Current()), DoFailUserRun(sid, failure, save))
      ensures failed == FailUserRun(old(Current()), sid, failure, save).1
      ensures Sound(Current())
    {
      hide Sound, Transition;
      StepKeeps(Current(), DoFailUserRun(sid, failure, save));
      SoundIsListed(Current());
      var wait := FirstBlocking(order, records, sid);
      if sid !in sessions || wait.None? || sessions[sid].lifecycle == Closed { return false; }
      failed := Settle(wait.value, if failure == FailSecurity then SecurityFailure else ResumeReconciliationRequired, save, true);
    }

    // ---- close, retirement, reopen ---------------------------------------------------------

    /** Closes every wait of `active` in memory, in the order of the list. */
    method CloseAll(active: seq<Id>, sid: Id, now: nat)
      modifies this`records
      requires forall id :: id in active <==> id in records && BlocksSession(records[id], sid)
      ensures records == Retire(old(records), {sid}, now)
    {
      for i := 0 to |active|
        invariant records.Keys == old(records).Keys
        invariant forall id :: id in records ==>
                    records[id] == if id in active[..i] then Fail(old(records)[id], SessionClosed, now) else old(records)[id]
      {
        var wait := records[active[i]];
        wait := wait.(state := SessionClosed);
        wait := wait.(updatedAt := now, nextCheckAt := now);
        wait := wait.(dispatchReservedAt := None);
        wait := wait.(runnerRunId := None);
        records := records[active[i] := wait];
      }
      assert active[..|active|] == active;
    }

    /** Puts the waits of `active` back as they were. */
    method RestoreAll(active: seq<Id>, snapshots: seq<Wait>, ghost before: map<Id, Wait>)
      modifies this`records
      requires |snapshots| == |active| && records.Keys == before.Keys
      requires forall i :: 0 <= i < |active| ==> active[i] in before && snapshots[i] == before[active[i]]
      requires forall id :: id in records && id !in active ==> records[id] == before[id]
      ensures records == before
    {
      hide DifferOnly;
      AllMayDiffer(records, before, active);
      for i := 0 to |active|
        invariant DifferOnly(records, before, active[i..])
      {
        OneRestored(records, before, active[i..]);
        assert active[i..][1..] == active[i + 1..];
        records := records[active[i] := snapshots[i]];
      }
      assert active[|active|..] == [];
      NoneDiffer(records, before);
    }

    /** Puts a close back that could not be saved. */
    method UndoClose(sid: Id, sessionBefore: SessionSnapshot, active: seq<Id>, snapshots: seq<Wait>, priorGeneration: nat, ghost before: Snapshot)
      modifies this`records, this`sessions, this`generation
      requires order == before.order && records.Keys == before.records.Keys
      requires |snapshots| == |active|
      requires forall i :: 0 <= i < |active| ==> active[i] in before.records && snapshots[i] == before.records[active[i]]
      requires forall id :: id in records && id !in active ==> records[id] == before.records[id]
      requires sid in before.sessions && sessionBefore == SessionSnapshot(before.sessions[sid].lifecycle, before.sessions[sid].waiting)
      requires sid in sessions
      requires sessions == before.sessions[sid := before.sessions[sid].(lifecycle := sessions[sid].lifecycle, waiting := sessions[sid].waiting)]
      ensures Memory() == before && generation == old(generation)[sid := priorGeneration]
    {
      generation := generation[sid := priorGeneration];
      RestoreSession(sid, sessionBefore);
      assert sessions == before.sessions;
      RestoreAll(active, snapshots, before.records);
    }

    /** `closeSessionWait` */
    method CloseWaits(sid: Id, save: Save) returns (threw: bool)
      modifies this
      requires Listed(Memory())
      ensures (Current(), threw) == CloseSessionWait(old(Current()), sid, save)
    {
      hide HasActiveWait, Retire, Listed, Reproject;
      if sid !in sessions { return false; }
      ActiveExactly(Memory(), sid);
      var active := ActiveWaits(order, records, sid);
      if active == [] { return false; }
      threw := CloseActive(sid, active, save);
    }

    /** The lock body of `closeSessionWait` once it has found waits to close. */
    method CloseActive(sid: Id, active: seq<Id>, save: Save) returns (threw: bool)
      modifies this`records, this`sessions, this`generation, this`disk
      requires sid in sessions
      requires forall id :: id in active <==> id in records && BlocksSession(records[id], sid)
      ensures threw == !save.ok
      ensures !threw ==>
                && Memory() == Reproject(old(Memory()).(records := Retire(old(records), {sid}, save.at)), sid) && disk == Memory()
                && generation == old(generation)[sid := Generation(old(generation), sid) + 1]
      ensures threw ==>
                && Memory() == old(Memory()) && disk == old(disk)
                && generation == old(generation)[sid := Generation(old(generation), sid)]
    {
      hide Project, Reproject, Retire, BlocksSession, Newest;
      ghost var before := Current();
      var priorGeneration := Generation(generation, sid);
      generation := generation[sid := priorGeneration + 1];
      var sessionBefore := SnapshotSession(sid);
      var waitSnapshots := SnapshotWaits(active, records);
      CloseAll(active, sid, save.at);
      ProjectSession(sid);
      var persisted := Persist(save.ok);
      if persisted { return false; }
      RetiredElsewhere(before.mem, active, sid, save.at);
      UndoClose(sid, sessionBefore, active, waitSnapshots, priorGeneration, before.mem);
      assert generation == before.generation[sid := priorGeneration];
      return true;
    }

    /** The session service archives a session. */
    method Close(sid: Id, save: Save)
      modifies this
      requires Sound(Current())
      ensures Current() == Next(old(Current()), DoClose(sid, save))
      ensures Sound(Current())
    {
      hide Sound, CloseSessionWait, HasActiveWait;
      ghost var before := Current();
      StepKeeps(before, DoClose(sid, save));
      SoundIsListed(before);
      if sid !in sessions { return; }
      var sessionBefore := sessions[sid];
      sessions := sessions[sid := sessionBefore.(lifecycle := Closed)];
      var active := HasActiveWait(Snapshot(order, records, sessions), sid);
      SessionsDoNotBlock(before.mem, sessions, sid);
      if !active {
        var _ := Persist(save.ok);
        return;
      }
      var threw := CloseWaits(sid, save);
      ThrewUnchanged(before.(mem := WithLifecycle(before.mem, sid, Closed)), sid, save);
      if threw {
        sessions := sessions[sid := sessionBefore];
        assert sessions == before.mem.sessions;
      }
    }

    /** One lock body of `#persistClosedSessionRetirements` */
    method PersistClosedRetirements(sid: Id, save: Save) returns (persisted: bool)
      modifies this
      requires Sound(Current())
      ensures Current() == Next(old(Current()), DoPersistRetirements(sid, save))
      ensures Sound(Current())
    {
      hide Sound;
      ghost var before := Current();
      StepKeeps(before, DoPersistRetirements(sid, save));
      var retired := set id | id in retirements && id in records && records[id].sessionId == sid;
      if retired == {} { return true; }
      persisted := Persist(save.ok);
      if !persisted { return; }
      ghost var was := retirements;
      retirements := retirements - retired;
      AnnounceRetired(retired, sid, was);
    }

    /** Publishes every retired wait, in the order of the list. */
    method AnnounceRetired(retired: set<Id>, sid: Id, ghost was: set<Id>)
      modifies this`history
      requires disk == Memory()
      requires retired == set id | id in was && id in records && records[id].sessionId == sid
      ensures history == old(history).(notices := old(history.notices) + RetiredNotices(order, Memory(), was, sid))
    {
      for i := 0 to |order|
        invariant history == old(history).(notices := history.notices)
        invariant old(history.notices) + RetiredNotices(order, Memory(), was, sid)
               == history.notices + RetiredNotices(order[i..], Memory(), was, sid)
      {
        assert order[i..][0] == order[i] && order[i..][1..] == order[i + 1..];
        if order[i] in retired {
          Announce(order[i], SessionClosed);
        }
      }
    }

    /** `reopenSessionWait` up to the provider, as the session service calls it. */
    method AskToReopen(sid: Id, save: Save)
      modifies this
      requires Sound(Current())
      ensures Current() == Next(old(Current()), DoReopen(sid, save))
      ensures Sound(Current())
    {
      hide Sound, Newest;
      StepKeeps(Current(), DoReopen(sid, save));
      if sid !in sessions || sessions[sid].lifecycle != Closed { return; }
      var prior := Newest(order, records, sid, true);
      if prior.None? {
        sessions := sessions[sid := sessions[sid].(lifecycle := Ready)];
        var _ := Persist(save.ok);
        return;
      }
      calls := calls[nextCall := ReopenCall(sid, prior.value.id)];
      nextCall := nextCall + 1;
    }

    /** The provider answers a reopen. */
    method ReopenAnswered(call: nat, status: Option<Status>, candidates: seq<Option<Id>>, save: Save, reserve: Save, loss: Save)
      modifies this
      requires Sound(Current()) && call in calls && calls[call].ReopenCall?
      ensures Current() == Next(old(Current()), DoReopenReply(call, status, candidates, save, reserve, loss))
      ensures Sound(Current())
    {
      hide Sound, Trusted, ReopenSuccessor, ReopenReady;
      StepKeeps(Current(), DoReopenReply(call, status, candidates, save, reserve, loss));
      SoundIsListed(Current());
      var c := calls[call];
      calls := calls - {call};
      if status.None? || c.priorId !in records || !Trusted(records[c.priorId], status.value) { return; }
      if NonApproved(status.value.decision) {
        OpenReady(c.sessionId, save);
      } else {
        OpenSuccessor(c.sessionId, c.priorId, status.value, candidates, save, reserve, loss);
      }
    }

    method OpenReady(sid: Id, save: Save)
      modifies this
      ensures Current() == ReopenReady(old(Current()), sid, save)
    {
      ghost var before := Current();
      if sid !in sessions || sessions[sid].lifecycle != Closed { return; }
      var sessionBefore := SnapshotSession(sid);
      var session := sessions[sid];
      session := session.(lifecycle := Ready);
      session := session.(waiting := None);
      sessions := sessions[sid := session];
      var persisted := Persist(save.ok);
      if !persisted {
        RestoreSession(sid, sessionBefore);
        assert sessions == before.mem.sessions;
      }
    }

    method OpenSuccessor(sid: Id, priorId: Id, status: Status, candidates: seq<Option<Id>>, save: Save, reserve: Save, loss: Save)
      modifies this
      requires Listed(Memory()) && priorId in records
      ensures Current() == ReopenSuccessor(old(Current()), sid, priorId, status, candidates, save, reserve, loss)
    {
      hide SuccessorAllowed, Dispatch, Reproject, Listed;
      ghost var before := Current();
      var prior := records[priorId];
      var waitId := NextId(candidates);
      var allowed := SuccessorAllowed(Snapshot(order, records, sessions), sid, prior);
      if waitId.None? || !allowed { return; }
      AllowedIsKnown(before.mem, sid, prior);
      var record := SuccessorWait(waitId.value, sid, prior, status, save);
      if status.decision == Approved {
        history := history.(facts := history.facts + {ApprovalOf(record, record.decisionVersion)});
      }
      var sessionBefore := SnapshotSession(sid);
      var session := sessions[sid];
      session := session.(lifecycle := Ready);
      session := session.(waiting := None);
      sessions := sessions[sid := session];
      var persisted := Insert(sid, sessionBefore, record, save.ok);
      if !persisted {
        assert sessions == before.mem.sessions;
        return;
      }
      if record.state == ApprovedResumeQueued {
        DispatchApprovedWait(record.id, false, reserve, loss);
      }
    }

    // ---- tick, start -----------------------------------------------------------------------

    /** `tick` takes its list of due waits. */
    method StartTick(now: nat)
      modifies this
      requires Sound(Current())
      ensures Current() == Next(old(Current()), DoTickStart(now))
      ensures Sound(Current())
    {
      hide Sound;
      StepKeeps(Current(), DoTickStart(now));
      if ticking.Running? || retirements != {} { return; }
      ticking := Running(DueWaits(order, records, now), false);
    }

    /** The next round of the loop in `tick` */
    method ContinueTick(save: Save, loss: Save)
      modifies this
      requires Sound(Current())
      ensures Current() == Next(old(Current()), DoTickNext(save, loss))
      ensures Sound(Current())
    {
      hide Sound, Dispatch, RecoverWait;
      StepKeeps(Current(), DoTickNext(save, loss));
      SoundIsListed(Current());
      if ticking.Idle? || ticking.awaiting { return; }
      if ticking.queue == [] {
        ticking := Idle;
        return;
      }
      var id := ticking.queue[0];
      ticking := Running(ticking.queue[1..], false);
      if id !in records { return; }
      var sid := records[id].sessionId;
      if sid !in sessions || sessions[sid].lifecycle == Closed { return; }
      var state := records[id].state;
      if state == Pending || state == VerificationDelayed {
        calls := calls[nextCall := RefreshCall(id, sid, Generation(generation, sid))];
        nextCall := nextCall + 1;
        ticking := ticking.(awaiting := true);
      } else if state == ApprovedResumeQueued {
        DispatchApprovedWait(id, true, save, loss);
      } else if state == ResumeDispatching {
        RecoverDispatchingWait(id, false, save);
      }
    }

    /** `register` up to the provider. */
    method AskToRegister(c: Capability, approvalRef: Id)
      modifies this
      requires Sound(Current())
      ensures Current() == Next(old(Current()), DoRegister(c, approvalRef))
      ensures Sound(Current())
    {
      hide Sound;
      StepKeeps(Current(), DoRegister(c, approvalRef));
      if !RegisterInputValid(c, approvalRef) { return; }
      calls := calls[nextCall := RegisterCall(c, approvalRef)];
      nextCall := nextCall + 1;
    }
  }

  lemma ActiveExactly(m: Snapshot, sid: Id)
    requires Listed(m)
    ensures ActiveWaits(m.order, m.records, sid) == [] <==> !HasActiveWait(m, sid)
    ensures forall id :: id in ActiveWaits(m.order, m.records, sid) <==> id in m.records && BlocksSession(m.records[id], sid)
  {
    var active := ActiveWaits(m.order, m.records, sid);
    if active != [] { assert active[0] in active; }
    if HasActiveWait(m, sid) {
      var id :| id in m.records && BlocksSession(m.records[id], sid);
      assert id in active;
    }
  }

  lemma SessionsDoNotBlock(m: Snapshot, sessions: map<Id, Session>, sid: Id)
    ensures HasActiveWait(m.(sessions := sessions), sid) == HasActiveWait(m, sid)
  {
  }

  /** Two maps with the same keys that may differ at `left` only. */
  ghost predicate DifferOnly(records: map<Id, Wait>, before: map<Id, Wait>, left: seq<Id>) {
    records.Keys == before.Keys && forall id :: id in records ==> records[id] == before[id] || id in left
  }

  lemma {:induction false} AllMayDiffer(records: map<Id, Wait>, before: map<Id, Wait>, left: seq<Id>)
    requires records.Keys == before.Keys && forall id :: id in records && id !in left ==> records[id] == before[id]
    ensures DifferOnly(records, before, left[0..])
  {
    assert left[0..] == left;
  }

  lemma {:induction false} OneRestored(records: map<Id, Wait>, before: map<Id, Wait>, left: seq<Id>)
    requires left != [] && left[0] in before && DifferOnly(records, before, left)
    ensures DifferOnly(records[left[0] := before[left[0]]], before, left[1..])
  {
    assert left == [left[0]] + left[1..];
  }

  lemma NoneDiffer(records: map<Id, Wait>, before: map<Id, Wait>)
    ensures DifferOnly(records, before, []) ==> records == before
  {
  }

  lemma AllowedIsKnown(m: Snapshot, sid: Id, prior: Wait)
    requires SuccessorAllowed(m, sid, prior)
    ensures sid in m.sessions
  {
  }

  lemma {:induction false} RetiredElsewhere(m: Snapshot, active: seq<Id>, sid: Id, now: nat)
    requires forall id :: id in active <==> id in m.records && BlocksSession(m.records[id], sid)
    ensures Retire(m.records, {sid}, now).Keys == m.records.Keys
    ensures forall id :: id in m.records && id !in active ==> Retire(m.records, {sid}, now)[id] == m.records[id]
  {
  }

  lemma ThrewUnchanged(s: State, sid: Id, save: Save)
    ensures CloseSessionWait(s, sid, save).1 ==> CloseSessionWait(s, sid, save).0.mem == s.mem
  {
  }

  lemma CompletedNames(m: Snapshot, w: Wait, result: Completion, now: nat)
    ensures var w' := CompletedWait(m, w, result, now); w'.id == w.id && w'.sessionId == w.sessionId
  {
  }

  lemma CompletionsGrow(s: State, id: Id, continuationId: ContinuationId, run: Id, result: Completion, save: Save)
    requires id in s.mem.records
    ensures var (s', completed) := CompleteTarget(s, id, continuationId, run, result, save);
            |s'.history.completions| == |s.history.completions| + (if completed then 1 else 0)
            && (!completed ==> s'.history.completions == s.history.completions)
  {
    hide Reproject, Evidence;
  }

  lemma TrustedIsDecided(w: Wait, status: Status)
    requires Trusted(w, status)
    ensures status.decision == Undecided || status.decision == Approved || NonApproved(status.decision)
  {
  }

  lemma RefreshedNames(w: Wait, status: Option<Status>, save: Save)
    ensures var w' := RefreshedWait(w, status, save); w'.id == w.id && w'.sessionId == w.sessionId
  {
  }

  lemma FollowUp(s: State, id: Id, status: Option<Status>, save: Save, announce: bool)
    requires id in s.mem.records && s.mem.records[id].id == id
    ensures var s1 := Learn(s, ApprovalOf(s.mem.records[id], if status.Some? then status.value.decisionVersion else ""));
            var s2 := Transition(s1, RefreshedWait(s.mem.records[id], status, save), true, announce);
            id in s2.mem.records && s2.mem.records[id].id == id
  {
  }

  lemma RefreshCurrentIsListed(s: State, id: Id, sid: Id, generation: nat)
    requires IsRefreshCurrent(s, id, sid, generation)
    ensures id in s.mem.records
  {
  }

  lemma {:induction false} InsertUndone(order: seq<Id>, records: map<Id, Wait>, w: Wait)
    requires w.id !in records
    ensures (order + [w.id])[..|order + [w.id]| - 1] == order && records[w.id := w] - {w.id} == records
  {
  }

  lemma CurrentIsListed(s: State, id: Id, sid: Id, generation: nat)
    requires IsCurrent(s, id, sid, generation, {ResumeDispatching}, true)
    ensures id in s.mem.records
  {
  }

  lemma ReserveListed(s: State, id: Id, reserve: Save, loss: Save)
    requires id in s.mem.records && s.mem.records[id].id == id
    ensures var r := Reserve(s, id, reserve, loss);
            && r.0.mem.records.Keys == s.mem.records.Keys && r.0.mem.records[id].id == id
            && r.0.mem.records[id].sessionId == s.mem.records[id].sessionId
            && r.0.tick == s.tick && r.0.generation == s.generation
  {
  }
}
