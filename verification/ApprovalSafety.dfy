/**
 What every run of the coordinator keeps, whatever the provider and the runner answer, whichever
 persistence calls fail and however often the process restarts: how often a wait is handed to
 the runner, what has to have happened before a wait is resumed, and that results are durable
 before they are published.
 */
module ApprovalSafety {
  import opened Options
  import opened ApprovalTypes
  import opened ApprovalProjection
  import opened ApprovalSteps

  // ---- the invariant -----------------------------------------------------------------------

  ghost predicate Listed(m: Snapshot) {
    && (forall id :: id in m.records ==> id in m.order && m.records[id].id == id)
    && (forall id :: id in m.order ==> id in m.records)
  }

  ghost predicate NeverCompleted(h: History, id: Id) {
    forall i :: 0 <= i < |h.completions| ==> h.completions[i].waitId != id
  }

  /** Hand-overs are paid for by committed `capacity` results; later states carry their evidence. */
  ghost predicate Accounted(w: Wait, h: History) {
    && h.handOvers[w.id] <= h.capacities[w.id] + (if PreDispatch(w.state) then 0 else 1)
    && (w.state == ApprovedResumeQueued || w.state == ResumeDispatching || w.state == Resumed
        ==> ApprovalOf(w, w.decisionVersion) in h.facts)
    && (w.runnerRunId.Some? && (w.state == ResumeDispatching || w.state == Resumed)
        ==> StartedFact(w.id, w.runnerRunId.value) in h.facts)
    && (w.state == Resumed ==> w.runnerRunId.Some? && SucceededFact(w.id, w.runnerRunId.value, w.managedThreadId) in h.facts)
    && (PreDispatch(w.state) || w.state == ResumeDispatching ==> NeverCompleted(h, w.id))
  }

  /** The states a wait can be in while the runner has not answered its hand-over. */
  predicate Unanswered(w: Wait) {
    && w.runnerRunId == None
    && (w.state == ResumeDispatching || w.state == ResumeReconciliationRequired || w.state == SecurityFailure || w.state == SessionClosed)
  }

  ghost predicate CallsSound(calls: map<nat, Call>, records: map<Id, Wait>, retirements: set<Id>) {
    && (forall c :: c in calls && calls[c].DispatchCall? ==>
          && calls[c].waitId in records
          && records[calls[c].waitId].sessionId == calls[c].sessionId
          && Unanswered(records[calls[c].waitId])
          && calls[c].waitId !in retirements)
    && (forall c, d :: c in calls && d in calls && c != d && calls[c].DispatchCall? && calls[d].DispatchCall?
          ==> calls[c].waitId != calls[d].waitId)
  }

  ghost predicate AllAccounted(records: map<Id, Wait>, h: History) {
    forall id :: id in records ==> Accounted(records[id], h)
  }

  ghost predicate HistorySound(known: set<Id>, h: History) {
    && (forall id :: id !in known ==> h.handOvers[id] == 0 && NeverCompleted(h, id))
    && (forall i, j :: 0 <= i < j < |h.completions| ==> h.completions[i].waitId != h.completions[j].waitId)
    && (forall i :: 0 <= i < |h.completions| ==> StartedFact(h.completions[i].waitId, h.completions[i].runnerRunId) in h.facts)
  }

  ghost predicate NoticesDurable(notices: seq<Notice>) {
    forall i :: 0 <= i < |notices| ==> notices[i].durable
  }

  ghost predicate Retired(records: map<Id, Wait>, retirements: set<Id>) {
    forall id :: id in retirements ==> id in records && records[id].state == SessionClosed
  }

  ghost predicate FreshCalls(s: State) {
    forall c :: c in s.calls ==> c < s.nextCall
  }

  ghost predicate Sound(s: State) {
    && Listed(s.mem) && Listed(s.disk) && s.mem.records.Keys == s.disk.records.Keys
    && AllAccounted(s.mem.records, s.history) && AllAccounted(s.disk.records, s.history)
    && Retired(s.mem.records, s.retirements)
    && CallsSound(s.calls, s.mem.records, s.retirements) && FreshCalls(s)
    && HistorySound(s.mem.records.Keys, s.history)
    && NoticesDurable(s.history.notices)
  }

  // ---- transitions -------------------------------------------------------------------------

  /** What a new version of a wait must satisfy for its commit to keep the invariant. */
  ghost predicate Admissible(s: State, w: Wait) {
    && w.id in s.mem.records
    && w.sessionId == s.mem.records[w.id].sessionId
    && w.id !in s.retirements
    && Accounted(w, s.history)
    && (forall c :: c in s.calls && s.calls[c].DispatchCall? && s.calls[c].waitId == w.id ==> Unanswered(w))
  }

  lemma ReplaceKeeps(m: Snapshot, w: Wait, h: History, calls: map<nat, Call>, retirements: set<Id>)
    requires Listed(m) && AllAccounted(m.records, h) && CallsSound(calls, m.records, retirements) && Retired(m.records, retirements)
    requires w.id in m.records && w.sessionId == m.records[w.id].sessionId && w.id !in retirements && Accounted(w, h)
    requires forall c :: c in calls && calls[c].DispatchCall? && calls[c].waitId == w.id ==> Unanswered(w)
    ensures var records := m.records[w.id := w];
            && Listed(m.(records := records)) && AllAccounted(records, h) && CallsSound(calls, records, retirements)
            && Retired(records, retirements) && records.Keys == m.records.Keys
  {
  }

  lemma ReprojectKeeps(m: Snapshot, sid: Id)
    ensures Reproject(m, sid).order == m.order && Reproject(m, sid).records == m.records
    ensures Reproject(m, sid).sessions.Keys == m.sessions.Keys
  {
  }

  lemma NoticeIrrelevant(records: map<Id, Wait>, h: History, h': History)
    requires h' == h.(notices := h'.notices)
    requires AllAccounted(records, h)
    ensures AllAccounted(records, h')
  {
    forall id | id in records ensures Accounted(records[id], h') { assert Accounted(records[id], h); }
  }

  lemma CommitKeeps(s: State, w: Wait, announce: bool)
    requires Sound(s) && Admissible(s, w)
    ensures Sound(Commit(s, w, announce))
    ensures Commit(s, w, announce).mem.records == s.mem.records[w.id := w]
    ensures Commit(s, w, announce).mem == Commit(s, w, announce).disk
  {
    ReplaceKeeps(s.mem, w, s.history, s.calls, s.retirements);
    var m := s.mem.(records := s.mem.records[w.id := w]);
    ReprojectKeeps(m, w.sessionId);
    var s' := Commit(s, w, announce);
    NoticeIrrelevant(m.records, s.history, s'.history);
  }

  lemma TransitionKeeps(s: State, w: Wait, ok: bool, announce: bool)
    requires Sound(s) && Admissible(s, w)
    ensures Sound(Transition(s, w, ok, announce))
  {
    if ok { CommitKeeps(s, w, announce); }
  }

  lemma LearnKeeps(s: State, fact: Fact)
    requires Sound(s)
    ensures Sound(Learn(s, fact))
  {
  }

  /** Giving a wait up is always admissible: it drops the run and leaves the dispatch states. */
  lemma FailAdmissible(s: State, id: Id, state: WaitState, now: nat)
    requires Sound(s) && id in s.mem.records && id !in s.retirements
    requires state == SessionClosed || state == SecurityFailure || state == ResumeReconciliationRequired
    ensures Admissible(s, Fail(s.mem.records[id], state, now))
  {
    assert Accounted(s.mem.records[id], s.history);
  }

  lemma BindingLossKeeps(s: State, id: Id, generation: nat, save: Save)
    requires Sound(s) && id in s.mem.records && id !in s.retirements
    ensures Sound(BindingLoss(s, id, generation, save))
  {
    var w := s.mem.records[id];
    if !ClosedDuring(s, w.sessionId, generation) {
      FailAdmissible(s, id, SecurityFailure, save.at);
      TransitionKeeps(s, Fail(w, SecurityFailure, save.at), save.ok, true);
    } else if w.state != SessionClosed {
      FailAdmissible(s, id, SessionClosed, save.at);
      TransitionKeeps(s, Fail(w, SessionClosed, save.at), save.ok, false);
    }
  }

  lemma HandOverKeeps(s: State, id: Id, sid: Id, generation: nat, fromTick: bool)
    requires Sound(s) && s.mem == s.disk && id in s.mem.records && id !in s.retirements
    requires s.mem.records[id].sessionId == sid && s.mem.records[id].state == ResumeDispatching && s.mem.records[id].runnerRunId == None
    requires s.history.handOvers[id] <= s.history.capacities[id]
    requires forall c :: c in s.calls && s.calls[c].DispatchCall? ==> s.calls[c].waitId != id
    ensures Sound(HandOver(s, id, sid, generation, fromTick))
  {
    var s' := HandOver(s, id, sid, generation, fromTick);
    HandOverAccounted(s.mem.records, s.history, id);
  }

  lemma HandOverAccounted(records: map<Id, Wait>, h: History, id: Id)
    requires AllAccounted(records, h) && id in records && h.handOvers[id] <= h.capacities[id]
    requires records[id].state == ResumeDispatching && forall other :: other in records ==> records[other].id == other
    ensures AllAccounted(records, h.(handOvers := h.handOvers + multiset{id}))
  {
    var h' := h.(handOvers := h.handOvers + multiset{id});
    forall other | other in records ensures Accounted(records[other], h') { assert Accounted(records[other], h); }
  }

  lemma ReserveAdmissible(s: State, id: Id, now: nat)
    requires Sound(s) && id in s.mem.records && s.mem.records[id].state == ApprovedResumeQueued
    ensures Admissible(s, Reserved(s.mem.records[id], now))
    ensures s.history.handOvers[id] <= s.history.capacities[id]
    ensures forall c :: c in s.calls && s.calls[c].DispatchCall? ==> s.calls[c].waitId != id
  {
    assert Accounted(s.mem.records[id], s.history);
  }

  /** A queued wait is reserved durably before it is handed over, so the hand-over is its first since queueing. */
  lemma DispatchKeeps(s: State, id: Id, fromTick: bool, save: Save, loss: Save)
    requires Sound(s) && id in s.mem.records && s.mem.records[id].state == ApprovedResumeQueued
    ensures Sound(Dispatch(s, id, fromTick, save, loss))
  {
    var w := s.mem.records[id];
    var generation := Generation(s.generation, w.sessionId);
    var (s1, going) := Reserve(s, id, save, loss);
    if !going {
      ReserveDenied(s, id, save, loss);
    } else {
      ReserveAdmissible(s, id, save.at);
      ReserveGranted(s, id, save, loss);
      DispatchReserved(s1, id, fromTick, generation, loss);
    }
  }

  lemma ReserveDenied(s: State, id: Id, save: Save, loss: Save)
    requires Sound(s) && id in s.mem.records && s.mem.records[id].state == ApprovedResumeQueued
    requires !Reserve(s, id, save, loss).1
    ensures Sound(Reserve(s, id, save, loss).0)
  {
    BindingLossKeeps(s, id, Generation(s.generation, s.mem.records[id].sessionId), loss);
  }

  lemma ReserveGranted(s: State, id: Id, save: Save, loss: Save)
    requires Sound(s) && id in s.mem.records && s.mem.records[id].state == ApprovedResumeQueued
    requires Admissible(s, Reserved(s.mem.records[id], save.at))
    requires Reserve(s, id, save, loss).1
    ensures var s1 := Reserve(s, id, save, loss).0;
            && s1 == Commit(s, Reserved(s.mem.records[id], save.at), true)
            && Sound(s1) && s1.mem == s1.disk && s1.mem.records == s.mem.records[id := Reserved(s.mem.records[id], save.at)]
            && s1.calls == s.calls && s1.retirements == s.retirements
            && s1.history.handOvers == s.history.handOvers && s1.history.capacities == s.history.capacities
  {
    CommitKeeps(s, Reserved(s.mem.records[id], save.at), true);
  }

  lemma DispatchReserved(s1: State, id: Id, fromTick: bool, generation: nat, loss: Save)
    requires Sound(s1) && s1.mem == s1.disk && id in s1.mem.records && id !in s1.retirements
    requires s1.mem.records[id].state == ResumeDispatching && s1.mem.records[id].runnerRunId == None
    requires s1.history.handOvers[id] <= s1.history.capacities[id]
    requires forall c :: c in s1.calls && s1.calls[c].DispatchCall? ==> s1.calls[c].waitId != id
    ensures Sound(BindingLoss(s1, id, generation, loss))
    ensures Sound(HandOver(s1, id, s1.mem.records[id].sessionId, generation, fromTick))
  {
    BindingLossKeeps(s1, id, generation, loss);
    HandOverKeeps(s1, id, s1.mem.records[id].sessionId, generation, fromTick);
  }

  // ---- every step --------------------------------------------------------------------------

  lemma DropCallKeeps(s: State, call: nat, fromTick: bool)
    requires Sound(s)
    ensures Sound(DropCall(s, call)) && Sound(ReleaseTick(DropCall(s, call), fromTick))
  {
  }

  lemma OpenCallKeeps(s: State, call: Call)
    requires Sound(s) && !call.DispatchCall?
    ensures Sound(OpenCall(s, call))
  {
  }

  lemma AddWaitKeeps(s: State, m: Snapshot, w: Wait)
    requires Sound(s) && m.order == s.mem.order && m.records == s.mem.records
    requires w.id !in s.mem.records && PreDispatch(w.state) && w.runnerRunId == None
    requires w.state == ApprovedResumeQueued ==> ApprovalOf(w, w.decisionVersion) in s.history.facts
    ensures Sound(Publish(CommitSnapshot(s, AddWait(m, w), w.sessionId), w.id, w.state))
  {
    var m' := AddWait(m, w);
    ReprojectKeeps(m', w.sessionId);
    assert Listed(m') by {
      forall id | id in m'.order ensures id in m'.records { assert id in m.order || id == w.id; }
      assert forall id :: id in m.order ==> id in m'.order;
      assert w.id == m'.order[|m.order|];
    }
    assert Accounted(w, s.history);
    var s' := Publish(CommitSnapshot(s, m', w.sessionId), w.id, w.state);
    assert AllAccounted(m'.records, s.history);
    NoticeIrrelevant(m'.records, s.history, s'.history);
    AddWaitCalls(s.calls, m.records, w, s.retirements);
  }

  lemma AddWaitCalls(calls: map<nat, Call>, records: map<Id, Wait>, w: Wait, retirements: set<Id>)
    requires CallsSound(calls, records, retirements) && Retired(records, retirements) && w.id !in records
    ensures CallsSound(calls, records[w.id := w], retirements) && Retired(records[w.id := w], retirements)
  {
  }

  lemma {:induction false} RegisterReplyKeeps(s: State, call: nat, status: Option<Status>, streamingAuthorized: bool, candidates: seq<Option<Id>>, save: Save)
    requires Sound(s) && call in s.calls && s.calls[call].RegisterCall?
    ensures Sound(RegisterReply(s, call, status, streamingAuthorized, candidates, save))
  {
    var c := s.calls[call].capability;
    var s0 := DropCall(s, call);
    DropCallKeeps(s, call, false);
    var newId := NextWaitId(candidates, 8, s.mem.records);
    if newId.Some? && status.Some? && c.sessionId in s.mem.sessions {
      AddWaitKeeps(s0, s.mem, RegisteredWait(newId.value, s.mem.sessions[c.sessionId], c, status.value, save));
    }
  }

  lemma RefreshAdmissible(s: State, id: Id, status: Option<Status>, save: Save)
    requires Sound(s) && id in s.mem.records && PreDispatch(s.mem.records[id].state)
    requires var w := s.mem.records[id];
             status.Some? && Trusted(w, status.value) && status.value.decision == Approved
             ==> ApprovalOf(w, status.value.decisionVersion) in s.history.facts
    ensures Admissible(s, RefreshedWait(s.mem.records[id], status, save))
  {
    var w := s.mem.records[id];
    assert Accounted(w, s.history);
    RefreshedAccounted(w, status, save, s.history);
  }

  lemma RefreshedAccounted(w: Wait, status: Option<Status>, save: Save, h: History)
    requires Accounted(w, h) && PreDispatch(w.state)
    requires status.Some? && Trusted(w, status.value) && status.value.decision == Approved
             ==> ApprovalOf(w, status.value.decisionVersion) in h.facts
    ensures Accounted(RefreshedWait(w, status, save), h)
    ensures RefreshedWait(w, status, save).id == w.id && RefreshedWait(w, status, save).sessionId == w.sessionId
  {
  }

  lemma RefreshReplyKeeps(s: State, call: nat, status: Option<Status>, save: Save, reserve: Save, loss: Save)
    requires Sound(s) && call in s.calls && s.calls[call].RefreshCall?
    ensures Sound(RefreshReply(s, call, status, save, reserve, loss))
  {
    var c := s.calls[call];
    DropCallKeeps(s, call, true);
    var s0 := ReleaseTick(DropCall(s, call), true);
    if IsRefreshCurrent(s0, c.waitId, c.sessionId, c.generation) {
      RefreshCurrentKeeps(s0, c.waitId, status, save, reserve, loss);
    }
  }

  lemma RefreshCurrentKeeps(s: State, id: Id, status: Option<Status>, save: Save, reserve: Save, loss: Save)
    requires Sound(s) && id in s.mem.records && PreDispatch(s.mem.records[id].state)
    ensures Sound(Refreshed(s, id, status, save, reserve, loss))
  {
    var w := s.mem.records[id];
    if status.Some? && Trusted(w, status.value) && status.value.decision == Approved {
      var fact := ApprovalOf(w, status.value.decisionVersion);
      LearnKeeps(s, fact);
      RefreshAdmissible(Learn(s, fact), id, status, save);
      ApprovalKeeps(Learn(s, fact), RefreshedWait(w, status, save), save, reserve, loss);
    } else {
      RefreshAdmissible(s, id, status, save);
      TransitionKeeps(s, RefreshedWait(w, status, save), save.ok, RefreshedWait(w, status, save).state != w.state);
    }
  }

  lemma ApprovalKeeps(s: State, w: Wait, save: Save, reserve: Save, loss: Save)
    requires Sound(s) && Admissible(s, w) && w.state == ApprovedResumeQueued
    ensures forall announce :: Sound(Transition(s, w, save.ok, announce))
    ensures save.ok ==> forall announce :: Sound(Dispatch(Transition(s, w, true, announce), w.id, true, reserve, loss))
  {
    forall announce ensures Sound(Transition(s, w, save.ok, announce)) {
      TransitionKeeps(s, w, save.ok, announce);
    }
    if save.ok {
      forall announce ensures Sound(Dispatch(Transition(s, w, true, announce), w.id, true, reserve, loss)) {
        CommitKeeps(s, w, announce);
        DispatchKeeps(Commit(s, w, announce), w.id, true, reserve, loss);
      }
    }
  }

  // ---- dispatch answers --------------------------------------------------------------------

  /** The outstanding call is gone once its answer is handled, and it was the only one about its wait. */
  lemma AnsweredCall(s: State, call: nat)
    requires Sound(s) && call in s.calls && s.calls[call].DispatchCall?
    ensures var c, s0 := s.calls[call], ReleaseTick(DropCall(s, call), s.calls[call].fromTick);
            && Sound(s0) && s0.mem == s.mem && s0.history == s.history && s0.generation == s.generation
            && c.waitId in s.mem.records && Unanswered(s.mem.records[c.waitId]) && c.waitId !in s0.retirements
            && s.mem.records[c.waitId].sessionId == c.sessionId
            && (forall d :: d in s0.calls && s0.calls[d].DispatchCall? ==> s0.calls[d].waitId != c.waitId)
  {
    DropCallKeeps(s, call, s.calls[call].fromTick);
  }

  lemma AppliedAccounted(w: Wait, result: DispatchResult, now: nat, h: History)
    requires Accounted(w, h) && w.state == ResumeDispatching
    ensures Accounted(AppliedWait(w, result, now), AppliedHistory(h, w.id, result))
  {
  }

  lemma GrownHistory(records: map<Id, Wait>, h: History, h': History)
    requires AllAccounted(records, h)
    requires h'.handOvers == h.handOvers && h'.completions == h.completions && h.facts <= h'.facts
    requires forall id :: h.capacities[id] <= h'.capacities[id]
    ensures AllAccounted(records, h')
  {
    forall id | id in records ensures Accounted(records[id], h') { assert Accounted(records[id], h); }
  }

  lemma ApplyResultKeeps(s: State, id: Id, result: DispatchResult, save: Save)
    requires Sound(s) && id in s.mem.records && id !in s.retirements && s.mem.records[id].state == ResumeDispatching
    requires forall d :: d in s.calls && s.calls[d].DispatchCall? ==> s.calls[d].waitId != id
    ensures Sound(ApplyResult(s, id, result, save))
  {
    if save.ok {
      var w := s.mem.records[id];
      var s1 := s.(history := AppliedHistory(s.history, id, result));
      AppliedAccounted(w, result, save.at, s.history);
      GrownHistory(s.mem.records, s.history, s1.history);
      GrownHistory(s.disk.records, s.history, s1.history);
      CommitKeeps(s1, AppliedWait(w, result, save.at), true);
    }
  }

  lemma IsAccounted(records: map<Id, Wait>, h: History, id: Id)
    requires AllAccounted(records, h) && id in records
    ensures Accounted(records[id], h)
  {
  }

  lemma ApplyWithLossKeeps(s: State, id: Id, sid: Id, generation: nat, result: DispatchResult, save: Save)
    requires Sound(s) && id in s.mem.records && id !in s.retirements && Unanswered(s.mem.records[id])
    requires forall d :: d in s.calls && s.calls[d].DispatchCall? ==> s.calls[d].waitId != id
    ensures Sound(ApplyWithLoss(s, id, sid, generation, result, save))
  {
    hide Transition, AllAccounted, HistorySound, NoticesDurable;
    var w := s.mem.records[id];
    IsAccounted(s.mem.records, s.history, id);
    TransitionKeeps(s, LostWait(w, result, save.at), save.ok, true);
  }

  lemma DispatchReplyKeeps(s: State, call: nat, answer: DispatchResult, save: Save)
    requires Sound(s) && call in s.calls && s.calls[call].DispatchCall?
    ensures Sound(DispatchReply(s, call, answer, save))
  {
    var c := s.calls[call];
    AnsweredCall(s, call);
    var s0 := ReleaseTick(DropCall(s, call), c.fromTick);
    var result := ParseResult(answer, save.at);
    if IsCurrent(s0, c.waitId, c.sessionId, c.generation, {ResumeDispatching}, true) {
      ApplyResultKeeps(s0, c.waitId, result, save);
    } else {
      ApplyWithLossKeeps(s0, c.waitId, c.sessionId, c.generation, result, save);
    }
  }

  // ---- recovery, completion, failure -------------------------------------------------------

  lemma FailuresIrrelevant(s: State, failures: set<(ContinuationId, Id)>)
    requires Sound(s)
    ensures Sound(s.(failures := failures))
  {
  }

  lemma RecoverKeeps(s: State, id: Id, startup: bool, save: Save)
    requires Sound(s) && id in s.mem.records
    ensures Sound(RecoverWait(s, id, startup, save))
  {
    var w := s.mem.records[id];
    if w.state == ResumeDispatching {
      if !Evidence(s.mem, w) {
        BindingLossKeeps(s, id, Generation(s.generation, w.sessionId), save);
      } else {
        FailAdmissible(s, id, ResumeReconciliationRequired, save.at);
        var s1 := Transition(s, Fail(w, ResumeReconciliationRequired, save.at), save.ok, true);
        TransitionKeeps(s, Fail(w, ResumeReconciliationRequired, save.at), save.ok, true);
        if w.runnerRunId.Some? { FailuresIrrelevant(s1, s.failures - {(w.continuationId, w.runnerRunId.value)}); }
      }
    }
  }

  lemma FailUserRunKeeps(s: State, sid: Id, failure: UserRunFailure, save: Save)
    requires Sound(s)
    ensures Sound(FailUserRun(s, sid, failure, save).0)
  {
    var target := FirstBlocking(s.mem.order, s.mem.records, sid);
    if target.Some? {
      var state := if failure == FailSecurity then SecurityFailure else ResumeReconciliationRequired;
      FailAdmissible(s, target.value, state, save.at);
      TransitionKeeps(s, Fail(s.mem.records[target.value], state, save.at), save.ok, true);
    }
  }

  lemma CompletedAccounted(m: Snapshot, w: Wait, run: Id, result: Completion, now: nat, h: History)
    requires Accounted(w, h) && w.state == ResumeDispatching && w.runnerRunId == Some(run)
    requires result.Succeeded? ==> SucceededFact(w.id, run, result.managedThreadId) in h.facts
    ensures Accounted(CompletedWait(m, w, result, now), h)
  {
  }

  lemma RecordCompletionKeeps(s: State, record: CompletionRecord)
    requires Sound(s) && s.mem == s.disk && record.waitId in s.mem.records && NeverCompleted(s.history, record.waitId)
    requires !PreDispatch(s.mem.records[record.waitId].state) && s.mem.records[record.waitId].state != ResumeDispatching
    requires StartedFact(record.waitId, record.runnerRunId) in s.history.facts
    ensures Sound(s.(history := s.history.(completions := s.history.completions + [record])))
  {
    var h' := s.history.(completions := s.history.completions + [record]);
    forall id | id in s.mem.records ensures Accounted(s.mem.records[id], h') {
      assert Accounted(s.mem.records[id], s.history);
    }
  }

  lemma CompleteKeeps(s: State, continuationId: Option<ContinuationId>, run: Id, result: Completion, save: Save)
    requires Sound(s)
    ensures Sound(CompleteRunner(s, continuationId, run, result, save).0)
  {
    if continuationId.Some? {
      var target := CompletionTarget(s.mem.order, s.mem.records, continuationId.value, run);
      if target.Some? {
        CompleteTargetKeeps(s, target.value, continuationId.value, run, result, save);
      }
    }
  }

  lemma CompleteTargetKeeps(s: State, id: Id, continuationId: ContinuationId, run: Id, result: Completion, save: Save)
    requires Sound(s) && id in s.mem.records && Completable(s.mem.records[id], continuationId, run)
    ensures Sound(CompleteTarget(s, id, continuationId, run, result, save).0)
  {
    var s0 := if result.Succeeded? then Learn(s, SucceededFact(id, run, result.managedThreadId)) else s;
    if result.Succeeded? { LearnKeeps(s, SucceededFact(id, run, result.managedThreadId)); }
    var key := (continuationId, run);
    if save.ok {
      CompletedKeeps(s0, id, continuationId, run, result, save);
    } else {
      FailuresIrrelevant(s0, s.failures + {key});
    }
  }

  lemma CompletedKeeps(s: State, id: Id, continuationId: ContinuationId, run: Id, result: Completion, save: Save)
    requires Sound(s) && id in s.mem.records && Completable(s.mem.records[id], continuationId, run)
    requires result.Succeeded? ==> SucceededFact(id, run, result.managedThreadId) in s.history.facts
    ensures var s1 := Commit(s, CompletedWait(s.mem, s.mem.records[id], result, save.at), true);
            var record := CompletionRecord(id, continuationId, run);
            Sound(s1.(failures := s.failures - {(continuationId, run)}, history := s1.history.(completions := s1.history.completions + [record])))
  {
    hide Evidence;
    var w := s.mem.records[id];
    assert Accounted(w, s.history);
    var completed := CompletedWait(s.mem, w, result, save.at);
    CompletedAccounted(s.mem, w, run, result, save.at, s.history);
    assert completed.id == id && completed.state != ResumeDispatching && !PreDispatch(completed.state);
    CommitKeeps(s, completed, true);
    var s1 := Commit(s, completed, true);
    var s2 := s1.(failures := s.failures - {(continuationId, run)});
    FailuresIrrelevant(s1, s2.failures);
    RecordCompletionKeeps(s2, CompletionRecord(id, continuationId, run));
  }

  // ---- close, reopen, tick, restart --------------------------------------------------------

  lemma RetireAccounted(records: map<Id, Wait>, sids: set<Id>, now: nat, h: History)
    requires AllAccounted(records, h)
    ensures AllAccounted(Retire(records, sids, now), h)
  {
    var retired := Retire(records, sids, now);
    forall id | id in retired ensures Accounted(retired[id], h) { assert Accounted(records[id], h); }
  }

  lemma RetireKeeps(m: Snapshot, sids: set<Id>, now: nat, calls: map<nat, Call>, retirements: set<Id>)
    requires Listed(m) && CallsSound(calls, m.records, retirements) && Retired(m.records, retirements)
    ensures var records := Retire(m.records, sids, now);
            && Listed(m.(records := records)) && CallsSound(calls, records, retirements) && Retired(records, retirements)
            && records.Keys == m.records.Keys
  {
  }

  lemma CloseSessionWaitKeeps(s: State, sid: Id, save: Save)
    requires Sound(s)
    ensures Sound(CloseSessionWait(s, sid, save).0)
  {
    RetireAccounted(s.mem.records, {sid}, save.at, s.history);
    RetireKeeps(s.mem, {sid}, save.at, s.calls, s.retirements);
    ReprojectKeeps(s.mem.(records := Retire(s.mem.records, {sid}, save.at)), sid);
  }

  /** Only the sessions of memory or disk change. */
  lemma SessionsIrrelevant(s: State, mem: Snapshot, disk: Snapshot)
    requires Sound(s)
    requires mem.order == s.mem.order && mem.records == s.mem.records
    requires (disk.order == s.disk.order && disk.records == s.disk.records) || disk == mem
    ensures Sound(s.(mem := mem, disk := disk))
  {
  }

  lemma CloseSessionKeeps(s: State, sid: Id, save: Save)
    requires Sound(s)
    ensures Sound(CloseSession(s, sid, save))
  {
    if sid in s.mem.sessions {
      var closing := s.(mem := WithLifecycle(s.mem, sid, Closed));
      SessionsIrrelevant(s, closing.mem, s.disk);
      SessionsIrrelevant(s, closing.mem, closing.mem);
      if HasActiveWait(s.mem, sid) {
        CloseSessionWaitKeeps(closing, sid, save);
        var (s1, threw) := CloseSessionWait(closing, sid, save);
        if threw { SessionsIrrelevant(s1, s.mem, s1.disk); }
      }
    }
  }

  lemma {:induction false} RetiredNoticesDurable(order: seq<Id>, m: Snapshot, retirements: set<Id>, sid: Id)
    requires Retired(m.records, retirements)
    ensures NoticesDurable(RetiredNotices(order, m, retirements, sid))
  {
    if order != [] { RetiredNoticesDurable(order[1..], m, retirements, sid); }
  }

  lemma PersistRetirementsKeeps(s: State, sid: Id, save: Save)
    requires Sound(s)
    ensures Sound(PersistRetirements(s, sid, save))
  {
    var notices := RetiredNotices(s.mem.order, s.mem, s.retirements, sid);
    RetiredNoticesDurable(s.mem.order, s.mem, s.retirements, sid);
    var s' := PersistRetirements(s, sid, save);
    NoticeIrrelevant(s.mem.records, s.history, s.history.(notices := s.history.notices + notices));
    NoticeIrrelevant(s.disk.records, s.history, s.history.(notices := s.history.notices + notices));
  }

  lemma ReopenKeeps(s: State, sid: Id, save: Save)
    requires Sound(s)
    ensures Sound(Reopen(s, sid, save))
  {
    if sid in s.mem.sessions {
      var ready := WithLifecycle(s.mem, sid, Ready);
      SessionsIrrelevant(s, ready, s.disk);
      SessionsIrrelevant(s, ready, ready);
      var prior := Newest(s.mem.order, s.mem.records, sid, true);
      if prior.Some? { OpenCallKeeps(s, ReopenCall(sid, prior.value.id)); }
    }
  }

  lemma ReopenReadyKeeps(s: State, sid: Id, save: Save)
    requires Sound(s)
    ensures Sound(ReopenReady(s, sid, save))
  {
    if sid in s.mem.sessions {
      var m := s.mem.(sessions := s.mem.sessions[sid := s.mem.sessions[sid].(lifecycle := Ready, waiting := None)]);
      SessionsIrrelevant(s, m, m);
    }
  }

  lemma {:induction false} ReopenSuccessorKeeps(s: State, sid: Id, priorId: Id, status: Status, candidates: seq<Option<Id>>,
                             save: Save, reserve: Save, loss: Save)
    requires Sound(s) && priorId in s.mem.records
    ensures Sound(ReopenSuccessor(s, sid, priorId, status, candidates, save, reserve, loss))
  {
    var newId := NextWaitId(candidates, 8, s.mem.records);
    if newId.Some? && sid in s.mem.sessions {
      var w := SuccessorWait(newId.value, sid, s.mem.records[priorId], status, save);
      var s1 := if status.decision == Approved then Learn(s, ApprovalOf(w, w.decisionVersion)) else s;
      LearnKeeps(s, ApprovalOf(w, w.decisionVersion));
      var prepared := s.mem.(sessions := s.mem.sessions[sid := s.mem.sessions[sid].(lifecycle := Ready, waiting := None)]);
      AddWaitKeeps(s1, prepared, w);
      if status.decision == Approved {
        ReprojectKeeps(AddWait(prepared, w), sid);
        DispatchKeeps(Publish(CommitSnapshot(s1, AddWait(prepared, w), sid), w.id, w.state), w.id, false, reserve, loss);
      }
    }
  }

  lemma {:induction false} ReopenReplyKeeps(s: State, call: nat, status: Option<Status>, candidates: seq<Option<Id>>, save: Save, reserve: Save, loss: Save)
    requires Sound(s) && call in s.calls && s.calls[call].ReopenCall?
    ensures Sound(ReopenReply(s, call, status, candidates, save, reserve, loss))
  {
    var c := s.calls[call];
    var s0 := DropCall(s, call);
    DropCallKeeps(s, call, false);
    if status.Some? && c.priorId in s.mem.records {
      ReopenReadyKeeps(s0, c.sessionId, save);
      ReopenSuccessorKeeps(s0, c.sessionId, c.priorId, status.value, candidates, save, reserve, loss);
    }
  }

  lemma TickIrrelevant(s: State, tick: Tick)
    requires Sound(s)
    ensures Sound(s.(tick := tick))
  {
  }

  lemma TickNextKeeps(s: State, save: Save, loss: Save)
    requires Sound(s)
    ensures Sound(TickNext(s, save, loss))
  {
    TickIrrelevant(s, Idle);
    if s.tick.Running? && s.tick.queue != [] {
      var id := s.tick.queue[0];
      var s0 := s.(tick := Running(s.tick.queue[1..], false));
      TickIrrelevant(s, s0.tick);
      if id in s.mem.records {
        var w := s.mem.records[id];
        match w.state
        case ApprovedResumeQueued => DispatchKeeps(s0, id, true, save, loss);
        case ResumeDispatching => RecoverKeeps(s0, id, false, save);
        case _ =>
          var call := RefreshCall(id, w.sessionId, Generation(s0.generation, w.sessionId));
          OpenCallKeeps(s0, call);
          TickIrrelevant(OpenCall(s0, call), s0.tick.(awaiting := true));
      }
    }
  }

  lemma RestartKeeps(s: State, now: nat)
    requires Sound(s)
    ensures Sound(Restart(s, now))
  {
    var sids := ClosedSessions(map sid | sid in s.disk.sessions :: Loaded(s.disk.sessions[sid]));
    RetireAccounted(s.disk.records, sids, now, s.history);
  }

  lemma StepKeeps(s: State, step: Step)
    requires Sound(s)
    ensures Sound(Next(s, step))
  {
    hide Sound;
    if Enabled(s, step) {
      match step
      case DoRegister(c, approvalRef) => OpenCallKeeps(s, RegisterCall(c, approvalRef));
      case DoRegisterReply(call, status, streamingAuthorized, candidates, save) =>
        RegisterReplyKeeps(s, call, status, streamingAuthorized, candidates, save);
      case DoPersistRetirements(sid, save) => PersistRetirementsKeeps(s, sid, save);
      case DoTickStart(now) => TickIrrelevant(s, Running(DueWaits(s.mem.order, s.mem.records, now), false));
      case DoTickNext(save, loss) => TickNextKeeps(s, save, loss);
      case DoRefreshReply(call, status, save, reserve, loss) => RefreshReplyKeeps(s, call, status, save, reserve, loss);
      case DoDispatchReply(call, answer, save) => DispatchReplyKeeps(s, call, answer, save);
      case DoRecover(id, save) => if id in s.mem.records { RecoverKeeps(s, id, true, save); }
      case DoComplete(continuationId, run, result, save) => CompleteKeeps(s, continuationId, run, result, save);
      case DoFailUserRun(sid, failure, save) => FailUserRunKeeps(s, sid, failure, save);
      case DoClose(sid, save) => CloseSessionKeeps(s, sid, save);
      case DoReopen(sid, save) => ReopenKeeps(s, sid, save);
      case DoReopenReply(call, status, candidates, save, reserve, loss) =>
        ReopenReplyKeeps(s, call, status, candidates, save, reserve, loss);
      case DoRestart(now) => RestartKeeps(s, now);
    }
  }

  lemma InitialSound(sessions: map<Id, Session>, now: nat)
    ensures Sound(Initial(sessions, now))
  {
  }

  /** Every state of every run, from any sessions, is sound. */
  lemma {:induction false} RunSound(sessions: map<Id, Session>, now: nat, steps: seq<Step>)
    ensures Sound(Run(Initial(sessions, now), steps))
    decreases |steps|
  {
    if steps == [] {
      InitialSound(sessions, now);
    } else {
      RunSound(sessions, now, steps[..|steps| - 1]);
      StepKeeps(Run(Initial(sessions, now), steps[..|steps| - 1]), steps[|steps| - 1]);
    }
  }
}
