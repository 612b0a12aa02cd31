/**
 Patient runs: no session is reopened while the runner still owes an answer for it, and none is
 opened without a wait while one of its waits blocks.  Patient runs are safe, so everything that
 ApprovalRuns proves of safe runs holds of them.
 */
module ApprovalPatience {
  import opened Options
  import opened ApprovalTypes
  import opened ApprovalProjection
  import opened ApprovalSteps
  import opened ApprovalSafety
  import opened ApprovalCoherence
  import opened ApprovalRuns

  // ---- the invariant -----------------------------------------------------------------------

  /** An unanswered hand-over whose wait was closed: its session is closed too, and has no active wait. */
  predicate CallCalm(c: Call, m: Snapshot) {
    c.DispatchCall? && c.waitId in m.records && m.records[c.waitId].state == SessionClosed ==>
      && c.sessionId in m.sessions && m.sessions[c.sessionId].lifecycle == Closed
      && !HasActiveWait(m, c.sessionId)
  }

  ghost predicate AllCalm(calls: map<nat, Call>, m: Snapshot) {
    forall c :: c in calls ==> CallCalm(calls[c], m)
  }

  /** A session has at most one unanswered hand-over. */
  ghost predicate OneCallEach(calls: map<nat, Call>) {
    forall c, d :: c in calls && d in calls && c != d && calls[c].DispatchCall? && calls[d].DispatchCall?
      ==> calls[c].sessionId != calls[d].sessionId
  }

  ghost predicate Calm(s: State) {
    Sound(s) && Coherent(s) && AllCalm(s.calls, s.mem) && OneCallEach(s.calls)
  }

  predicate Owes(calls: map<nat, Call>, sid: Id) {
    exists c :: c in calls && calls[c].DispatchCall? && calls[c].sessionId == sid
  }

  /** A reopening that does not wait for the runner's answer. */
  predicate Hasty(s: State, step: Step) {
    || (step.DoReopen? && Owes(s.calls, step.sid))
    || (step.DoReopenReply? && Enabled(s, step) && Owes(s.calls, s.calls[step.call].sessionId))
  }

  predicate Impatient(s: State, step: Step) {
    Hasty(s, step) || OpensBesideActive(s, step)
  }

  // ---- a calm state has nothing to revive ----------------------------------------------------

  lemma CalmIsSafe(s: State, step: Step)
    requires Calm(s) && !Impatient(s, step)
    ensures !Unsafe(s, step)
  {
    hide Sound, Coherent, OneCallEach;
    forall c | c in s.calls ensures CallCalm(s.calls[c], s.mem) {}
  }

  // ---- how a step touches the waits ------------------------------------------------------------

  /** Only wait `id` changes, not into a closed one, and only its session changes. */
  ghost predicate Moves(m: Snapshot, m': Snapshot, id: Id) {
    && id in m.records && m'.records.Keys == m.records.Keys
    && (forall other :: other in m.records && other != id ==> m'.records[other] == m.records[other])
    && m'.records[id].id == m.records[id].id
    && m'.records[id].sessionId == m.records[id].sessionId
    && (m'.records[id] == m.records[id] || m'.records[id].state != SessionClosed)
    && (forall sid :: sid in m.sessions && sid != m.records[id].sessionId ==> sid in m'.sessions && m'.sessions[sid] == m.sessions[sid])
  }

  lemma MovesChain(a: Snapshot, b: Snapshot, c: Snapshot, id: Id)
    requires Moves(a, b, id) && Moves(b, c, id)
    ensures Moves(a, c, id)
  {
  }

  lemma Stays(m: Snapshot, id: Id)
    requires id in m.records
    ensures Moves(m, m, id)
  {
  }

  lemma TransitionMoves(s: State, w: Wait, ok: bool, announce: bool)
    requires w.id in s.mem.records && s.mem.records[w.id].id == w.id && w.sessionId == s.mem.records[w.id].sessionId && w.state != SessionClosed
    ensures var s' := Transition(s, w, ok, announce);
            && Moves(s.mem, s'.mem, w.id) && s'.calls == s.calls && s'.nextCall == s.nextCall && s'.generation == s.generation
  {
    hide Project;
  }

  lemma BindingLossMoves(s: State, id: Id, save: Save)
    requires id in s.mem.records && s.mem.records[id].id == id
    ensures var generation := Generation(s.generation, s.mem.records[id].sessionId);
            var s' := BindingLoss(s, id, generation, save);
            && Moves(s.mem, s'.mem, id) && s'.calls == s.calls && s'.nextCall == s.nextCall && s'.generation == s.generation
  {
    hide Transition;
    TransitionMoves(s, Fail(s.mem.records[id], SecurityFailure, save.at), save.ok, true);
  }

  lemma ReserveMoves(s: State, id: Id, reserve: Save, loss: Save)
    requires id in s.mem.records && s.mem.records[id].id == id
    ensures var s' := Reserve(s, id, reserve, loss).0;
            && Moves(s.mem, s'.mem, id) && s'.calls == s.calls && s'.nextCall == s.nextCall && s'.generation == s.generation
  {
    hide Transition, BindingLoss, Evidence, IsCurrent;
    Stays(s.mem, id);
    BindingLossMoves(s, id, loss);
    TransitionMoves(s, Reserved(s.mem.records[id], reserve.at), reserve.ok, true);
  }

  /** A call that is new hands over a reserved wait of an open session. */
  predicate GoodCall(c: Call, m: Snapshot) {
    c.DispatchCall? ==>
      && c.waitId in m.records && m.records[c.waitId].state == ResumeDispatching && m.records[c.waitId].sessionId == c.sessionId
      && c.sessionId in m.sessions && m.sessions[c.sessionId].lifecycle != Closed
  }

  /** Old calls stay as they are or are answered; new ones are good. */
  ghost predicate CallsGrow(s: State, s': State) {
    forall c :: c in s'.calls ==> (c in s.calls && s'.calls[c] == s.calls[c]) || GoodCall(s'.calls[c], s'.mem)
  }

  lemma DispatchMoves(s: State, id: Id, fromTick: bool, reserve: Save, loss: Save)
    requires id in s.mem.records && s.mem.records[id].id == id
    ensures var s' := Dispatch(s, id, fromTick, reserve, loss);
            Moves(s.mem, s'.mem, id) && CallsGrow(s, s')
  {
    hide Reserve, BindingLoss, Evidence, Moves;
    var (s1, going) := Reserve(s, id, reserve, loss);
    ReserveMoves(s, id, reserve, loss);
    MovedWait(s.mem, s1.mem, id);
    if going {
      Stays(s1.mem, id);
      BindingLossMoves(s1, id, loss);
      if IsCurrent(s1, id, s.mem.records[id].sessionId, Generation(s.generation, s.mem.records[id].sessionId), {ResumeDispatching}, true)
         && Evidence(s1.mem, s1.mem.records[id])
      {
        MovesChain(s.mem, s1.mem, s1.mem, id);
      } else {
        MovesChain(s.mem, s1.mem, BindingLoss(s1, id, Generation(s1.generation, s1.mem.records[id].sessionId), loss).mem, id);
      }
    }
  }

  lemma MovedWait(m: Snapshot, m': Snapshot, id: Id)
    requires Moves(m, m', id) && m.records[id].id == id
    ensures id in m'.records && m'.records[id].id == id && m'.records[id].sessionId == m.records[id].sessionId
  {
  }

  // ---- what stays calm -------------------------------------------------------------------------

  /** Nothing outside session `x` changes. */
  ghost predicate OnlyTouches(m: Snapshot, m': Snapshot, x: Id) {
    && (forall id :: id in m.records && m.records[id].sessionId != x ==> id in m'.records && m'.records[id] == m.records[id])
    && (forall id :: id in m'.records && m'.records[id].sessionId != x ==> id in m.records && m'.records[id] == m.records[id])
    && (forall sid :: sid in m.sessions && sid != x ==> sid in m'.sessions && m'.sessions[sid] == m.sessions[sid])
  }

  predicate CallHome(c: Call, m: Snapshot) {
    c.DispatchCall? ==> c.waitId in m.records && m.records[c.waitId].sessionId == c.sessionId
  }

  lemma FarCalm(c: Call, m: Snapshot, m': Snapshot, x: Id)
    requires CallCalm(c, m) && CallHome(c, m) && OnlyTouches(m, m', x) && (c.DispatchCall? ==> c.sessionId != x)
    ensures CallCalm(c, m')
  {
  }

  lemma CallsAreHome(s: State)
    requires Sound(s)
    ensures forall c :: c in s.calls ==> CallHome(s.calls[c], s.mem)
  {
  }

  /** Each old call that is kept is calm, and so is the whole state. */
  lemma StaysCalm(s: State, s': State)
    requires Calm(s) && Sound(s') && Coherent(s') && CallsGrow(s, s')
    requires forall c :: c in s'.calls && c in s.calls && s'.calls[c] == s.calls[c] ==> CallCalm(s.calls[c], s'.mem)
    ensures Calm(s')
  {
    hide Sound, Coherent, HasActiveWait;
    forall c | c in s'.calls ensures CallCalm(s'.calls[c], s'.mem) {}
    forall c, d | c in s'.calls && d in s'.calls && c != d && s'.calls[c].DispatchCall? && s'.calls[d].DispatchCall?
      ensures s'.calls[c].sessionId != s'.calls[d].sessionId
    {
      if !(c in s.calls && s'.calls[c] == s.calls[c]) {
        GoodIsAlone(s', c, d);
      } else if !(d in s.calls && s'.calls[d] == s.calls[d]) {
        GoodIsAlone(s', d, c);
      }
    }
  }

  /** A good call is the only one of its session. */
  lemma GoodIsAlone(s: State, c: nat, d: nat)
    requires Sound(s) && Coherent(s) && c in s.calls && d in s.calls && c != d && s.calls[c].DispatchCall? && s.calls[d].DispatchCall?
    requires GoodCall(s.calls[c], s.mem) && CallCalm(s.calls[d], s.mem)
    ensures s.calls[c].sessionId != s.calls[d].sessionId
  {
    hide Canonical, Shown, CallsCoherent, AllAccounted, HistorySound, NoticesDurable, HasActiveWait;
    assert Unanswered(s.mem.records[s.calls[d].waitId]);
  }

  lemma MovesTouches(m: Snapshot, m': Snapshot, id: Id)
    requires Moves(m, m', id)
    ensures OnlyTouches(m, m', m.records[id].sessionId)
  {
  }

  /** A move in an open session. */
  lemma MoveCalm(s: State, s': State, id: Id)
    requires Calm(s) && Sound(s') && Coherent(s') && CallsGrow(s, s')
    requires Moves(s.mem, s'.mem, id) && OpenSession(s.mem, s.mem.records[id].sessionId)
    ensures Calm(s')
  {
    hide Sound, Coherent, HasActiveWait, OneCallEach, GoodCall;
    var x := s.mem.records[id].sessionId;
    MovesTouches(s.mem, s'.mem, id);
    CallsAreHome(s);
    forall c | c in s'.calls && c in s.calls && s'.calls[c] == s.calls[c] ensures CallCalm(s.calls[c], s'.mem) {
      assert CallCalm(s.calls[c], s.mem);
      if s.calls[c].DispatchCall? && s.calls[c].sessionId == x {
        InOpenSession(s.calls[c], s.mem, s'.mem, id);
      } else {
        FarCalm(s.calls[c], s.mem, s'.mem, x);
      }
    }
    StaysCalm(s, s');
  }

  lemma InOpenSession(c: Call, m: Snapshot, m': Snapshot, id: Id)
    requires c.DispatchCall? && CallCalm(c, m) && CallHome(c, m) && Moves(m, m', id) && OpenSession(m, c.sessionId)
    ensures CallCalm(c, m')
  {
    hide HasActiveWait;
  }

  /** Only session `x` is touched, and it owes nothing that is kept. */
  lemma ElsewhereCalm(s: State, s': State, x: Id)
    requires Calm(s) && Sound(s') && Coherent(s') && CallsGrow(s, s') && OnlyTouches(s.mem, s'.mem, x)
    requires forall c :: c in s'.calls && c in s.calls && s'.calls[c] == s.calls[c] && s.calls[c].DispatchCall? ==> s.calls[c].sessionId != x
    ensures Calm(s')
  {
    hide Sound, Coherent, HasActiveWait, OneCallEach, GoodCall, OnlyTouches;
    CallsAreHome(s);
    forall c | c in s'.calls && c in s.calls && s'.calls[c] == s.calls[c] ensures CallCalm(s.calls[c], s'.mem) {
      assert CallCalm(s.calls[c], s.mem);
      FarCalm(s.calls[c], s.mem, s'.mem, x);
    }
    StaysCalm(s, s');
  }

  lemma TouchesNothing(m: Snapshot, x: Id)
    ensures OnlyTouches(m, m, x)
  {
  }

  /** The waits and sessions do not change. */
  lemma SameCalm(s: State, s': State)
    requires Calm(s) && Sound(s') && Coherent(s') && CallsGrow(s, s') && s'.mem == s.mem
    ensures Calm(s')
  {
    hide Sound, Coherent, HasActiveWait, OneCallEach, GoodCall;
    forall c | c in s'.calls && c in s.calls && s'.calls[c] == s.calls[c] ensures CallCalm(s.calls[c], s'.mem) {
      assert CallCalm(s.calls[c], s.mem);
    }
    StaysCalm(s, s');
  }

  // ---- steps -----------------------------------------------------------------------------------

  lemma ListedWait(s: State, id: Id)
    requires Sound(s) && id in s.mem.records
    ensures s.mem.records[id].id == id
  {
  }

  lemma RecoverMoves(s: State, id: Id, startup: bool, save: Save)
    requires id in s.mem.records && s.mem.records[id].id == id
    ensures var s' := RecoverWait(s, id, startup, save);
            Moves(s.mem, s'.mem, id) && CallsGrow(s, s')
  {
    hide Transition, BindingLoss, Evidence;
    Stays(s.mem, id);
    BindingLossMoves(s, id, save);
    TransitionMoves(s, Fail(s.mem.records[id], ResumeReconciliationRequired, save.at), save.ok, true);
  }

  lemma RefreshedMoves(s: State, id: Id, status: Option<Status>, save: Save, reserve: Save, loss: Save)
    requires id in s.mem.records && s.mem.records[id].id == id
    ensures var s' := Refreshed(s, id, status, save, reserve, loss);
            Moves(s.mem, s'.mem, id) && CallsGrow(s, s')
  {
    hide Transition, Dispatch, Trusted, Moves, RefreshedWait, GoodCall;
    var w := s.mem.records[id];
    var refreshed := RefreshedWait(w, status, save);
    RefreshedNotClosed(w, status, save);
    var approved := status.Some? && Trusted(w, status.value) && status.value.decision == Approved;
    var s1 := if approved then Learn(s, ApprovalOf(w, status.value.decisionVersion)) else s;
    var s2 := Transition(s1, refreshed, save.ok, refreshed.state != w.state);
    TransitionMoves(s1, refreshed, save.ok, refreshed.state != w.state);
    MovedWait(s.mem, s2.mem, id);
    if approved && save.ok {
      DispatchMoves(s2, id, true, reserve, loss);
      MovesChain(s.mem, s2.mem, Dispatch(s2, id, true, reserve, loss).mem, id);
    }
  }

  lemma RefreshedNotClosed(w: Wait, status: Option<Status>, save: Save)
    ensures var w' := RefreshedWait(w, status, save);
            w'.state != SessionClosed && w'.id == w.id && w'.sessionId == w.sessionId
  {
  }

  lemma CompletedMoves(s: State, id: Id, continuationId: ContinuationId, run: Id, result: Completion, save: Save)
    requires id in s.mem.records && s.mem.records[id].id == id
    ensures var s' := CompleteTarget(s, id, continuationId, run, result, save).0;
            Moves(s.mem, s'.mem, id) && CallsGrow(s, s')
  {
    hide Evidence, Transition;
    var w := CompletedWait(s.mem, s.mem.records[id], result, save.at);
    var s0 := if result.Succeeded? then Learn(s, SucceededFact(id, run, result.managedThreadId)) else s;
    Stays(s.mem, id);
    if save.ok {
      TransitionMoves(s0, w, true, true);
      TransitionTouches(s0, w, true);
    }
  }

  lemma RefreshReplyCalm(s: State, call: nat, status: Option<Status>, save: Save, reserve: Save, loss: Save)
    requires Calm(s) && call in s.calls && s.calls[call].RefreshCall?
    requires Sound(RefreshReply(s, call, status, save, reserve, loss)) && Coherent(RefreshReply(s, call, status, save, reserve, loss))
    ensures Calm(RefreshReply(s, call, status, save, reserve, loss))
  {
    hide Sound, Coherent, IsRefreshCurrent, Refreshed, AllCalm, OneCallEach, GoodCall, Moves;
    var c := s.calls[call];
    var s0 := ReleaseTick(DropCall(s, call), true);
    if IsRefreshCurrent(s0, c.waitId, c.sessionId, c.generation) {
      RefreshCurrentIsOpen(s0, c.waitId, c.sessionId, c.generation);
      ListedWait(s, c.waitId);
      RefreshedMoves(s0, c.waitId, status, save, reserve, loss);
      MoveCalm(s, Refreshed(s0, c.waitId, status, save, reserve, loss), c.waitId);
    } else {
      SameCalm(s, s0);
    }
  }

  lemma RefreshCurrentIsOpen(s: State, id: Id, sid: Id, generation: nat)
    requires IsRefreshCurrent(s, id, sid, generation)
    ensures id in s.mem.records && s.mem.records[id].sessionId == sid && OpenSession(s.mem, sid)
  {
  }

  /** The wait of an answered hand-over changes, and its session owes no other. */
  lemma DispatchReplyCalm(s: State, call: nat, answer: DispatchResult, save: Save)
    requires Calm(s) && call in s.calls && s.calls[call].DispatchCall?
    requires Sound(DispatchReply(s, call, answer, save)) && Coherent(DispatchReply(s, call, answer, save))
    ensures Calm(DispatchReply(s, call, answer, save))
  {
    hide Sound, Coherent, AllCalm, OneCallEach, GoodCall, OnlyTouches;
    ReplyTouches(s, call, answer, save);
    var s' := DispatchReply(s, call, answer, save);
    OthersElsewhere(s, call);
    ElsewhereCalm(s, s', s.calls[call].sessionId);
  }

  lemma OthersElsewhere(s: State, call: nat)
    requires OneCallEach(s.calls) && call in s.calls && s.calls[call].DispatchCall?
    ensures forall c :: c in s.calls && c != call && s.calls[c].DispatchCall? ==> s.calls[c].sessionId != s.calls[call].sessionId
  {
  }

  lemma ReplyTouches(s: State, call: nat, answer: DispatchResult, save: Save)
    requires Sound(s) && call in s.calls && s.calls[call].DispatchCall?
    ensures var s' := DispatchReply(s, call, answer, save);
            OnlyTouches(s.mem, s'.mem, s.calls[call].sessionId) && s'.calls == s.calls - {call}
  {
    hide Sound, IsCurrent, OnlyTouches, Transition;
    var c := s.calls[call];
    var s0 := ReleaseTick(DropCall(s, call), c.fromTick);
    AnsweredCall(s, call);
    ListedWait(s, c.waitId);
    var result := ParseResult(answer, save.at);
    TouchesNothing(s.mem, c.sessionId);
    var h := s0.(history := AppliedHistory(s0.history, c.waitId, result));
    TransitionTouches(h, AppliedWait(s.mem.records[c.waitId], result, save.at), save.ok);
    TransitionTouches(s0, LostWait(s.mem.records[c.waitId], result, save.at), save.ok);
  }

  lemma TransitionTouches(s: State, w: Wait, ok: bool)
    requires w.id in s.mem.records && s.mem.records[w.id].sessionId == w.sessionId
    ensures var s' := Transition(s, w, ok, true);
            OnlyTouches(s.mem, s'.mem, w.sessionId) && s'.calls == s.calls && (ok ==> s' == Commit(s, w, true))
  {
    hide Project;
  }

  lemma CloseCalm(s: State, sid: Id, save: Save)
    requires Calm(s) && Sound(CloseSession(s, sid, save)) && Coherent(CloseSession(s, sid, save))
    ensures Calm(CloseSession(s, sid, save))
  {
    hide Sound, Coherent, OneCallEach, GoodCall, OnlyTouches, HasActiveWait, CloseSession;
    var s' := CloseSession(s, sid, save);
    CloseTouches(s, sid, save);
    CallsAreHome(s);
    forall c | c in s'.calls && c in s.calls && s'.calls[c] == s.calls[c] ensures CallCalm(s.calls[c], s'.mem) {
      assert CallCalm(s.calls[c], s.mem);
      if s.calls[c].DispatchCall? && s.calls[c].sessionId == sid {
        assert CallCalm(s.calls[c], s'.mem);
      } else {
        FarCalm(s.calls[c], s.mem, s'.mem, sid);
      }
    }
    StaysCalm(s, s');
  }

  lemma CloseTouches(s: State, sid: Id, save: Save)
    ensures var s' := CloseSession(s, sid, save);
            && s'.calls == s.calls && OnlyTouches(s.mem, s'.mem, sid)
            && (s'.mem == s.mem || (sid in s'.mem.sessions && s'.mem.sessions[sid].lifecycle == Closed && !HasActiveWait(s'.mem, sid)))
  {
    hide OnlyTouches, HasActiveWait, Retire, Project;
    TouchesNothing(s.mem, sid);
    if sid in s.mem.sessions {
      var m := WithLifecycle(s.mem, sid, Closed);
      LifecycleTouches(s.mem, sid);
      var retired := m.(records := Retire(m.records, {sid}, save.at));
      ClosedStays(retired, sid);
      NothingActive(m, Reproject(retired, sid), sid, save.at);
      RetireTouches(s.mem, Reproject(retired, sid), sid, save.at);
    }
  }

  /** Closing without an active wait. */
  lemma LifecycleTouches(m: Snapshot, sid: Id)
    requires sid in m.sessions
    ensures OnlyTouches(m, WithLifecycle(m, sid, Closed), sid)
    ensures HasActiveWait(WithLifecycle(m, sid, Closed), sid) == HasActiveWait(m, sid)
  {
  }

  lemma RetireTouches(m: Snapshot, m': Snapshot, sid: Id, now: nat)
    requires m'.records == Retire(m.records, {sid}, now)
    requires forall x :: x in m.sessions && x != sid ==> x in m'.sessions && m'.sessions[x] == m.sessions[x]
    ensures OnlyTouches(m, m', sid)
  {
  }

  lemma ClosedStays(m: Snapshot, sid: Id)
    requires sid in m.sessions && m.sessions[sid].lifecycle == Closed
    ensures Reproject(m, sid).sessions[sid].lifecycle == Closed && Reproject(m, sid).records == m.records
  {
  }

  lemma NothingActive(m: Snapshot, m': Snapshot, sid: Id, now: nat)
    requires m'.records == Retire(m.records, {sid}, now)
    ensures !HasActiveWait(m', sid)
  {
  }

  lemma {:induction false} RegisterReplyCalm(s: State, call: nat, status: Option<Status>, streamingAuthorized: bool, candidates: seq<Option<Id>>, save: Save)
    requires Calm(s) && call in s.calls && s.calls[call].RegisterCall?
    requires Sound(RegisterReply(s, call, status, streamingAuthorized, candidates, save))
    requires Coherent(RegisterReply(s, call, status, streamingAuthorized, candidates, save))
    ensures Calm(RegisterReply(s, call, status, streamingAuthorized, candidates, save))
  {
    hide Sound, Coherent, OneCallEach, GoodCall, OnlyTouches, HasActiveWait, RegisterReply;
    var s' := RegisterReply(s, call, status, streamingAuthorized, candidates, save);
    var sid := s.calls[call].capability.sessionId;
    RegisterTouches(s, call, status, streamingAuthorized, candidates, save);
    CallsAreHome(s);
    forall c | c in s'.calls && c in s.calls && s'.calls[c] == s.calls[c] ensures CallCalm(s.calls[c], s'.mem) {
      assert CallCalm(s.calls[c], s.mem);
      if s.calls[c].DispatchCall? && s.calls[c].sessionId == sid {
      } else {
        FarCalm(s.calls[c], s.mem, s'.mem, sid);
      }
    }
    StaysCalm(s, s');
  }

  lemma {:induction false} RegisterTouches(s: State, call: nat, status: Option<Status>, streamingAuthorized: bool, candidates: seq<Option<Id>>, save: Save)
    requires call in s.calls && s.calls[call].RegisterCall?
    ensures var sid := s.calls[call].capability.sessionId;
            var s' := RegisterReply(s, call, status, streamingAuthorized, candidates, save);
            && s'.calls == s.calls - {call} && OnlyTouches(s.mem, s'.mem, sid)
            && (s'.mem == s.mem
                || (sid in s.mem.sessions && s.mem.sessions[sid].lifecycle != Closed
                    && forall id :: id in s.mem.records ==> id in s'.mem.records && s'.mem.records[id] == s.mem.records[id]))
  {
    hide Project, RegisterStatusAccepted, HasActiveWait;
  }

  lemma {:induction false} ReopenTouches(s: State, call: nat, status: Option<Status>, candidates: seq<Option<Id>>, save: Save, reserve: Save, loss: Save)
    requires Sound(s) && Coherent(s) && call in s.calls && s.calls[call].ReopenCall?
    ensures var s' := ReopenReply(s, call, status, candidates, save, reserve, loss);
            OnlyTouches(s.mem, s'.mem, s.calls[call].sessionId) && CallsGrow(s, s')
  {
    hide Sound, Coherent, Trusted, ReopenReady, ReopenSuccessor, OnlyTouches, GoodCall;
    var c := s.calls[call];
    var s0 := DropCall(s, call);
    TouchesNothing(s.mem, c.sessionId);
    if status.Some? && c.priorId in s.mem.records {
      ReadyTouches(s0, c.sessionId, save);
      SuccessorTouches(s0, c.sessionId, c.priorId, status.value, candidates, save, reserve, loss);
    }
  }

  lemma ReadyTouches(s: State, sid: Id, save: Save)
    ensures OnlyTouches(s.mem, ReopenReady(s, sid, save).mem, sid) && ReopenReady(s, sid, save).calls == s.calls
  {
  }

  lemma {:induction false} SuccessorTouches(s: State, sid: Id, priorId: Id, status: Status, candidates: seq<Option<Id>>, save: Save, reserve: Save, loss: Save)
    requires priorId in s.mem.records
    ensures var s' := ReopenSuccessor(s, sid, priorId, status, candidates, save, reserve, loss);
            OnlyTouches(s.mem, s'.mem, sid) && CallsGrow(s, s')
  {
    hide Dispatch, Project, OnlyTouches, GoodCall, SuccessorAllowed, Moves;
    TouchesNothing(s.mem, sid);
    var prior := s.mem.records[priorId];
    var newId := NextWaitId(candidates, 8, s.mem.records);
    if newId.Some? && SuccessorAllowed(s.mem, sid, prior) && save.ok {
      AllowedHasSession(s.mem, sid, prior);
      var w := SuccessorWait(newId.value, sid, prior, status, save);
      var s1 := if status.decision == Approved then Learn(s, ApprovalOf(w, w.decisionVersion)) else s;
      var afterOpen := s.mem.(sessions := s.mem.sessions[sid := s.mem.sessions[sid].(lifecycle := Ready, waiting := None)]);
      var s2 := Publish(CommitSnapshot(s1, AddWait(afterOpen, w), sid), w.id, w.state);
      AddedTouches(s.mem, s2.mem, w);
      if status.decision == Approved {
        DispatchMoves(s2, w.id, false, reserve, loss);
        MovesTouches(s2.mem, Dispatch(s2, w.id, false, reserve, loss).mem, w.id);
        TouchesChain(s.mem, s2.mem, Dispatch(s2, w.id, false, reserve, loss).mem, sid);
      }
    }
  }

  lemma AllowedHasSession(m: Snapshot, sid: Id, prior: Wait)
    requires SuccessorAllowed(m, sid, prior)
    ensures sid in m.sessions
  {
  }

  lemma AddedTouches(m: Snapshot, m': Snapshot, w: Wait)
    requires w.id !in m.records && m'.records == m.records[w.id := w] && w.sessionId in m.sessions
    requires m'.sessions.Keys == m.sessions.Keys && forall sid :: sid in m.sessions && sid != w.sessionId ==> m'.sessions[sid] == m.sessions[sid]
    ensures OnlyTouches(m, m', w.sessionId)
  {
  }

  lemma TouchesChain(a: Snapshot, b: Snapshot, c: Snapshot, x: Id)
    requires OnlyTouches(a, b, x) && OnlyTouches(b, c, x)
    ensures OnlyTouches(a, c, x)
  {
  }

  // ---- every step, every run -------------------------------------------------------------------

  /** A step that neither is impatient nor touches a wait outside an open session. */
  lemma QuietStepCalm(s: State, step: Step)
    requires Calm(s) && !Impatient(s, step) && Sound(Next(s, step)) && Coherent(Next(s, step))
    requires step.DoRegister? || step.DoPersistRetirements? || step.DoTickStart? || step.DoRestart?
    ensures Calm(Next(s, step))
  {
    hide Sound, Coherent, AllCalm, OneCallEach, Constructed, RetiredAtStart, Loaded;
    var s' := Next(s, step);
    if step.DoRestart? {
      NoCallsCalm(s');
    } else {
      assert s'.mem == s.mem;
      assert CallsGrow(s, s');
      SameCalm(s, s');
    }
  }

  lemma NoCallsCalm(s: State)
    requires Sound(s) && Coherent(s) && s.calls == map[]
    ensures Calm(s)
  {
  }

  lemma TickNextCalm(s: State, save: Save, loss: Save)
    requires Calm(s) && Sound(TickNext(s, save, loss)) && Coherent(TickNext(s, save, loss))
    ensures Calm(TickNext(s, save, loss))
  {
    hide Sound, Coherent, AllCalm, OneCallEach, Dispatch, RecoverWait, Moves;
    var s' := TickNext(s, save, loss);
    if s'.mem == s.mem && CallsGrow(s, s') {
      SameCalm(s, s');
    } else {
      var id := s.tick.queue[0];
      var s0 := s.(tick := Running(s.tick.queue[1..], false));
      ListedWait(s, id);
      if s.mem.records[id].state == ApprovedResumeQueued {
        DispatchMoves(s0, id, true, save, loss);
      } else {
        RecoverMoves(s0, id, false, save);
      }
      MoveCalm(s, s', id);
    }
  }

  lemma RecoverCalm(s: State, id: Id, save: Save)
    requires Calm(s) && Sound(RecoverAtStartup(s, id, save)) && Coherent(RecoverAtStartup(s, id, save))
    ensures Calm(RecoverAtStartup(s, id, save))
  {
    hide Sound, Coherent, AllCalm, OneCallEach, RecoverWait, Moves;
    if RecoverAtStartup(s, id, save) != s {
      ListedWait(s, id);
      RecoverMoves(s, id, true, save);
      MoveCalm(s, RecoverWait(s, id, true, save), id);
    }
  }

  lemma CompleteCalm(s: State, continuationId: Option<ContinuationId>, run: Id, result: Completion, save: Save)
    requires Calm(s) && Sound(CompleteRunner(s, continuationId, run, result, save).0) && Coherent(CompleteRunner(s, continuationId, run, result, save).0)
    ensures Calm(CompleteRunner(s, continuationId, run, result, save).0)
  {
    hide Sound, Coherent, AllCalm, OneCallEach, CompleteTarget, Moves;
    if CompleteRunner(s, continuationId, run, result, save).0 != s {
      var id := CompletionTarget(s.mem.order, s.mem.records, continuationId.value, run).value;
      ListedWait(s, id);
      CompletedMoves(s, id, continuationId.value, run, result, save);
      MoveCalm(s, CompleteTarget(s, id, continuationId.value, run, result, save).0, id);
    }
  }

  lemma FailRunCalm(s: State, sid: Id, failure: UserRunFailure, save: Save)
    requires Calm(s) && Sound(FailUserRun(s, sid, failure, save).0) && Coherent(FailUserRun(s, sid, failure, save).0)
    ensures Calm(FailUserRun(s, sid, failure, save).0)
  {
    hide Sound, Coherent, AllCalm, OneCallEach, Transition, Moves;
    if FailUserRun(s, sid, failure, save).0 != s {
      var id := FirstBlocking(s.mem.order, s.mem.records, sid).value;
      ListedWait(s, id);
      var w := Fail(s.mem.records[id], if failure == FailSecurity then SecurityFailure else ResumeReconciliationRequired, save.at);
      TransitionMoves(s, w, save.ok, true);
      MoveCalm(s, Transition(s, w, save.ok, true), id);
    }
  }

  lemma ReopenCalm(s: State, sid: Id, save: Save)
    requires Calm(s) && !Owes(s.calls, sid) && Sound(Reopen(s, sid, save)) && Coherent(Reopen(s, sid, save))
    ensures Calm(Reopen(s, sid, save))
  {
    hide Sound, Coherent, AllCalm, OneCallEach, Newest;
    var s' := Reopen(s, sid, save);
    ElsewhereCalm(s, s', sid);
  }

  lemma {:induction false} ReopenReplyCalm(s: State, call: nat, status: Option<Status>, candidates: seq<Option<Id>>, save: Save, reserve: Save, loss: Save)
    requires Calm(s) && call in s.calls && s.calls[call].ReopenCall? && !Owes(s.calls, s.calls[call].sessionId)
    requires Sound(ReopenReply(s, call, status, candidates, save, reserve, loss)) && Coherent(ReopenReply(s, call, status, candidates, save, reserve, loss))
    ensures Calm(ReopenReply(s, call, status, candidates, save, reserve, loss))
  {
    hide Sound, Coherent, AllCalm, OneCallEach, ReopenReply, OnlyTouches, GoodCall;
    ReopenTouches(s, call, status, candidates, save, reserve, loss);
    ElsewhereCalm(s, ReopenReply(s, call, status, candidates, save, reserve, loss), s.calls[call].sessionId);
  }

  lemma StepCalm(s: State, step: Step)
    requires Calm(s) && !Impatient(s, step)
    ensures Calm(Next(s, step)) && !Unsafe(s, step)
  {
    hide Sound, Coherent, AllCalm, OneCallEach, OpensBesideActive, RevivesBesideActive;
    CalmIsSafe(s, step);
    StepKeeps(s, step);
    StepCoherent(s, step);
    if Enabled(s, step) {
      match step {
        case DoRegisterReply(call, status, streamingAuthorized, candidates, save) =>
          RegisterReplyCalm(s, call, status, streamingAuthorized, candidates, save);
        case DoTickNext(save, loss) => TickNextCalm(s, save, loss);
        case DoRefreshReply(call, status, save, reserve, loss) => RefreshReplyCalm(s, call, status, save, reserve, loss);
        case DoDispatchReply(call, answer, save) => DispatchReplyCalm(s, call, answer, save);
        case DoRecover(id, save) => RecoverCalm(s, id, save);
        case DoComplete(continuationId, run, result, save) => CompleteCalm(s, continuationId, run, result, save);
        case DoFailUserRun(sid, failure, save) => FailRunCalm(s, sid, failure, save);
        case DoClose(sid, save) => CloseCalm(s, sid, save);
        case DoReopen(sid, save) => ReopenCalm(s, sid, save);
        case DoReopenReply(call, status, candidates, save, reserve, loss) => ReopenReplyCalm(s, call, status, candidates, save, reserve, loss);
        case _ => QuietStepCalm(s, step);
      }
    }
  }

  /** No step of the run is impatient in the state it is taken in. */
  ghost predicate PatientRun(s: State, steps: seq<Step>) {
    steps == [] || (PatientRun(s, steps[..|steps| - 1]) && !Impatient(Run(s, steps[..|steps| - 1]), steps[|steps| - 1]))
  }

  /** Patient runs are safe. */
  lemma {:induction false} PatientIsSafe(sessions: map<Id, Session>, now: nat, steps: seq<Step>)
    requires PatientRun(Initial(sessions, now), steps)
    ensures SafeRun(Initial(sessions, now), steps) && Calm(Run(Initial(sessions, now), steps))
    decreases |steps|
  {
    hide Calm, Impatient, Unsafe, Next, Initial;
    if steps == [] {
      InitialCalm(sessions, now);
    } else {
      PatientIsSafe(sessions, now, steps[..|steps| - 1]);
      StepCalm(Run(Initial(sessions, now), steps[..|steps| - 1]), steps[|steps| - 1]);
    }
  }

  lemma InitialCalm(sessions: map<Id, Session>, now: nat)
    ensures Calm(Initial(sessions, now))
  {
    hide Sound, Coherent, Constructed, RetiredAtStart;
    InitialSound(sessions, now);
    InitialCoherent(sessions, now);
    NoCallsCalm(Initial(sessions, now));
  }

  /** In a patient run no late answer ever revives a wait beside another one. */
  lemma {:induction false} PatientRunsReviveNothing(sessions: map<Id, Session>, now: nat, steps: seq<Step>, next: Step)
    requires PatientRun(Initial(sessions, now), steps)
    ensures !RevivesBesideActive(Run(Initial(sessions, now), steps), next)
  {
    hide Sound, Coherent, OneCallEach, Initial, Run;
    PatientIsSafe(sessions, now, steps);
    var s := Run(Initial(sessions, now), steps);
    forall c | c in s.calls ensures CallCalm(s.calls[c], s.mem) {}
  }
}
