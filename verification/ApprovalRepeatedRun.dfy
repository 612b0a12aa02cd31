/**
 A concrete run in which `completeRunner` answers `true` twice for one continuation and one run: an
 approval is registered again under the version it had, and the runner gives the same run id again.
 */
module ApprovalRepeatedRun {
  import opened Options
  import opened ApprovalTypes
  import opened ApprovalProjection
  import opened ApprovalSteps
  import opened ApprovalSafety
  import opened ApprovalCoherence
  import opened ApprovalRuns
  import opened ApprovalCounterexamples

  function Continuation(): ContinuationId { Plain("s", "a", Version()) }

  /** One round: a wait is registered, approved, dispatched, started and completed. */
  function Registered(s: State, id: Id): State {
    Next(Next(s, DoRegister(SCOPE, "a")), DoRegisterReply(s.nextCall, Answer(Undecided), false, [Some(id)], OK))
  }
  function Asked(s: State, id: Id): State { Next(Next(Registered(s, id), DoTickStart(2000)), DoTickNext(OK, OK)) }
  function Handed(s: State, id: Id): State { Next(Asked(s, id), DoRefreshReply(s.nextCall + 1, Answer(Approved), OK, OK, OK)) }
  function Begun(s: State, id: Id): State { Next(Handed(s, id), DoDispatchReply(s.nextCall + 2, Started("run"), OK)) }
  function Ended(s: State, id: Id): State { Next(Begun(s, id), DoComplete(Some(Continuation()), "run", Succeeded("t"), OK)) }
  function Round(s: State, id: Id): State { Next(Ended(s, id), DoTickNext(OK, OK)) }

  predicate OurSession(m: Snapshot) {
    && "s" in m.sessions && m.sessions["s"].userId == "u" && m.sessions["s"].workspaceId == "w"
    && m.sessions["s"].managedThreadId == Some("t") && m.sessions["s"].codexThreadId == Some("t")
  }

  predicate Over(w: Wait) { !Due(w.state) && !Blocking(w.state) }

  predicate AllOver(records: map<Id, Wait>) {
    forall id :: id in records ==> Over(records[id])
  }

  /** Every wait but `id` is over. */
  predicate OthersOver(records: map<Id, Wait>, id: Id) {
    forall other :: other in records && other != id ==> Over(records[other])
  }

  predicate Calmed(s: State) {
    s.retirements == {} && s.generation == map[]
  }

  ghost predicate Idling(s: State) {
    && Good(s) && s.tick == Idle && Calmed(s) && s.calls == map[] && OurSession(s.mem) && s.mem.sessions["s"].lifecycle == Ready
    && AllOver(s.mem.records)
  }

  lemma Registers(s: State, id: Id)
    requires Idling(s) && OpaqueToken(id, MAX_WAIT_ID_LENGTH) && id !in s.mem.records
    ensures var s' := Registered(s, id);
            && Good(s') && s'.tick == Idle && Calmed(s') && s'.calls == map[] && s'.nextCall == s.nextCall + 1
            && s'.mem.order == s.mem.order + [id] && id in s'.mem.records && s'.mem.records == s.mem.records[id := s'.mem.records[id]]
            && s'.mem.records[id] == RegisteredWait(id, s.mem.sessions["s"], SCOPE, Answer(Undecided).value, OK)
            && OpenSession(s'.mem, "s") && s'.history.completions == s.history.completions
  {
    hide Sound, Coherent, Project, RegisterStatusAccepted, RegisterInputValid, RegistrationAllowed, ValidField;
    GoodStep(s, DoRegister(SCOPE, "a"));
    var s1 := Next(s, DoRegister(SCOPE, "a"));
    AcceptsRegistration(s.mem.sessions["s"]);
    assert s1 == OpenCall(s, RegisterCall(SCOPE, "a"));
    GoodStep(s1, DoRegisterReply(s.nextCall, Answer(Undecided), false, [Some(id)], OK));
    assert NextWaitId([Some(id)], 8, s1.mem.records) == Some(id);
    NoActive(s1.mem);
    var w := RegisteredWait(id, s.mem.sessions["s"], SCOPE, Answer(Undecided).value, OK);
    ProjectStaysOpen(AddWait(s1.mem, w), "s");
  }

  lemma AcceptsRegistration(session: Session)
    requires session.userId == "u" && session.workspaceId == "w" && session.managedThreadId == Some("t") && session.codexThreadId == Some("t")
    requires session.lifecycle == Ready
    ensures RegisterInputValid(SCOPE, "a") && RegisterStatusAccepted(SCOPE, "a", Answer(Undecided).value)
    ensures RegistrationAllowed(session, SCOPE, false)
  {
    FieldsAreValid();
    VersionIsDigest();
  }

  lemma NoActive(m: Snapshot)
    requires AllOver(m.records)
    ensures !HasActiveWait(m, "s")
  {
  }

  lemma ProjectStaysOpen(m: Snapshot, sid: Id)
    requires OpenSession(m, sid)
    ensures OpenSession(Reproject(m, sid), sid)
  {
  }

  // ---- ticks -------------------------------------------------------------------------------------

  lemma {:induction false} NoneDue(order: seq<Id>, records: map<Id, Wait>, id: Id, now: nat)
    requires OthersOver(records, id) && id !in order
    ensures DueWaits(order, records, now) == []
  {
    if order != [] { NoneDue(order[1..], records, id, now); }
  }

  lemma {:induction false} LastIsDue(order: seq<Id>, records: map<Id, Wait>, id: Id, now: nat)
    requires OthersOver(records, id) && id !in order && id in records && Due(records[id].state) && records[id].nextCheckAt <= now
    ensures DueWaits(order + [id], records, now) == [id]
  {
    if order == [] {
      assert [] + [id] == [id] && [id][1..] == [];
    } else {
      assert (order + [id])[1..] == order[1..] + [id];
      LastIsDue(order[1..], records, id, now);
    }
  }

  /** What the first answer leaves of a round. */
  ghost predicate Waiting(s: State, id: Id) {
    && Good(s) && Calmed(s) && id in s.mem.records && OthersOver(s.mem.records, id) && OurWait(s.mem.records[id]) && OpenSession(s.mem, "s")
  }

  predicate OurWait(w: Wait) {
    && w.sessionId == "s" && w.userId == "u" && w.approvalRef == "a" && w.projectId == "p" && w.workspaceId == "w" && w.resourceRef == "r"
    && w.authorityClass == ProjectWorkflow && w.managedThreadId == "t" && w.successorOf == None
  }

  lemma Asks(s: State, id: Id)
    requires Idling(s) && OpaqueToken(id, MAX_WAIT_ID_LENGTH) && id !in s.mem.records
    ensures var s' := Asked(s, id);
            && Waiting(s', id) && s'.mem.records[id].state == Pending && s'.tick == Running([], true)
            && s'.calls == map[s.nextCall + 1 := RefreshCall(id, "s", 0)] && s'.nextCall == s.nextCall + 2
            && s'.history.completions == s.history.completions
            && s'.mem.records.Keys == s.mem.records.Keys + {id}
  {
    hide Sound, Coherent, Next, Registered, OpenSession;
    Registers(s, id);
    var s1 := Registered(s, id);
    NotListed(s, id);
    RegisteredIsOurs(s1.mem.records, s.mem.records, id, s.mem.sessions["s"]);
    LastIsDue(s.mem.order, s1.mem.records, id, 2000);
    StartsTick(s1, 2000, id);
    GoodStep(s1, DoTickStart(2000));
    var s2 := s1.(tick := Running([id], false));
    GoodStep(s2, DoTickNext(OK, OK));
    TickRefreshes(s2, id);
    TickKeepsHistory(s2, id);
  }

  lemma NotListed(s: State, id: Id)
    requires Good(s) && id !in s.mem.records
    ensures id !in s.mem.order
  {
  }

  lemma RegisteredIsOurs(records: map<Id, Wait>, before: map<Id, Wait>, id: Id, session: Session)
    requires AllOver(before) && id in records && records == before[id := records[id]] && session.userId == "u"
    requires records[id] == RegisteredWait(id, session, SCOPE, Answer(Undecided).value, OK)
    ensures OurWait(records[id]) && records[id].state == Pending && records[id].nextCheckAt <= 2000 && OthersOver(records, id)
  {
  }

  lemma TickKeepsHistory(s: State, id: Id)
    requires s.tick == Running([id], false) && id in s.mem.records && s.mem.records[id].state == Pending
    requires OpenSession(s.mem, s.mem.records[id].sessionId)
    ensures Next(s, DoTickNext(OK, OK)).history == s.history
  {
    hide Dispatch, RecoverWait;
  }

  // ---- approval and start ------------------------------------------------------------------------

  lemma Hands(s: State, id: Id)
    requires Idling(s) && OpaqueToken(id, MAX_WAIT_ID_LENGTH) && id !in s.mem.records
    ensures var s' := Handed(s, id);
            && Waiting(s', id) && s'.mem.records[id].state == ResumeDispatching && s'.mem.records[id].decisionVersion == Version()
            && s'.tick.Running? && s'.tick.queue == []
            && s'.calls == map[s.nextCall + 2 := DispatchCall(id, "s", 0, true)]
            && s'.history.completions == s.history.completions
            && s'.mem.records.Keys == s.mem.records.Keys + {id}
  {
    hide Sound, Coherent, Evidence, Next, Asked, Refreshed, Trusted, OpenSession, IsRefreshCurrent, Version;
    Asks(s, id);
    var s1 := Asked(s, id);
    GoodStep(s1, DoRefreshReply(s.nextCall + 1, Answer(Approved), OK, OK, OK));
    TrustsAnswer(s1.mem.records[id]);
    RefreshDropped(s1, s.nextCall + 1);
    var s0 := ReleaseTick(DropCall(s1, s.nextCall + 1), true);
    assert s0.calls == map[];
    CurrentAsIs(s0, id);
    RefreshAnswered(s1, s.nextCall + 1, Answer(Approved));
    ApprovedRefresh(s0, id, Answer(Approved));
    ReservedIsOurs(s1.mem.records[id], Answer(Approved));
  }

  lemma CurrentAsIs(s: State, id: Id)
    requires Good(s) && id in s.mem.records && s.mem.records[id].state == Pending && s.mem.records[id].sessionId == "s"
    requires OpenSession(s.mem, "s") && s.generation == map[]
    ensures IsRefreshCurrent(s, id, "s", 0)
  {
    hide Sound, Coherent;
    ShowsBlocking(s, id);
  }

  lemma ReservedIsOurs(w: Wait, status: Option<Status>)
    requires OurWait(w) && status == Answer(Approved) && Trusted(w, status.value)
    ensures var w' := Reserved(RefreshedWait(w, status, OK), 0);
            OurWait(w') && w'.state == ResumeDispatching && w'.decisionVersion == Version()
  {
    hide Trusted, Version;
  }

  lemma Begins(s: State, id: Id)
    requires Idling(s) && OpaqueToken(id, MAX_WAIT_ID_LENGTH) && id !in s.mem.records
    ensures var s' := Begun(s, id);
            && Waiting(s', id) && s'.mem.records[id].state == ResumeDispatching && s'.mem.records[id].decisionVersion == Version()
            && s'.mem.records[id].runnerRunId == Some("run") && s'.tick == Running([], false) && s'.calls == map[]
            && s'.history.completions == s.history.completions
            && s'.mem.records.Keys == s.mem.records.Keys + {id}
  {
    hide Sound, Coherent, Evidence, Next, Handed, OpenSession, Version;
    Hands(s, id);
    var s1, call := Handed(s, id), s.nextCall + 2;
    NoRevival(s1, call, id);
    GoodStep(s1, DoDispatchReply(call, Started("run"), OK));
    StartsRun(s1, call, id);
  }

  lemma NoRevival(s: State, call: nat, id: Id)
    requires id in s.mem.records && s.mem.records[id].state == ResumeDispatching && call in s.calls && s.calls[call] == DispatchCall(id, "s", 0, true)
    ensures !Unsafe(s, DoDispatchReply(call, Started("run"), OK))
  {
  }

  lemma StartsRun(s: State, call: nat, id: Id)
    requires Waiting(s, id) && s.mem.records[id].state == ResumeDispatching && s.tick.Running?
    requires s.calls == map[call := DispatchCall(id, "s", 0, true)]
    ensures var s' := Next(s, DoDispatchReply(call, Started("run"), OK));
            && s'.mem.records == s.mem.records[id := s.mem.records[id].(runnerRunId := Some("run"), dispatchReservedAt := Some(0), updatedAt := 0)]
            && s'.mem.order == s.mem.order && OpenSession(s'.mem, "s") && s'.calls == map[] && s'.tick == s.tick.(awaiting := false)
            && Calmed(s') && s'.history.completions == s.history.completions
  {
    hide Sound, Coherent, Project, ExpectedContinuation, FieldsCanonical;
    FieldsAreValid();
    ShowsBlocking(s, id);
    ListedId(s, id);
    var s0 := ReleaseTick(DropCall(s, call), true);
    assert IsCurrent(s0, id, "s", 0, {ResumeDispatching}, true);
    assert Next(s, DoDispatchReply(call, Started("run"), OK)) == ApplyResult(s0, id, Started("run"), OK);
    ProjectStaysOpen(s0.mem.(records := s0.mem.records[id := AppliedWait(s0.mem.records[id], Started("run"), 0)]), "s");
  }

  lemma ListedId(s: State, id: Id)
    requires Good(s) && id in s.mem.records
    ensures s.mem.records[id].id == id && id in s.mem.order
  {
  }

  // ---- completion --------------------------------------------------------------------------------

  /** The only dispatching wait is found, and completed. */
  lemma Completes(s: State, id: Id)
    requires Waiting(s, id) && s.mem.records[id].state == ResumeDispatching && s.mem.records[id].decisionVersion == Version()
    requires s.mem.records[id].runnerRunId == Some("run")
    ensures var (s', completed) := CompleteRunner(s, Some(Continuation()), "run", Succeeded("t"), OK);
            && completed && s'.history.completions == s.history.completions + [CompletionRecord(id, Continuation(), "run")]
            && s'.mem.records.Keys == s.mem.records.Keys && AllOver(s'.mem.records) && s'.calls == s.calls && s'.tick == s.tick && Calmed(s')
            && OurSession(s'.mem) && s'.mem.sessions["s"].lifecycle == Ready
  {
    hide Sound, Coherent, ExpectedContinuation, FieldsCanonical, ValidField, Version;
    FieldsAreValid();
    ShowsBlocking(s, id);
    ListedId(s, id);
    NamedWait(s, id);
    assert Completable(s.mem.records[id], Continuation(), "run");
    var target := CompletionTarget(s.mem.order, s.mem.records, Continuation(), "run");
    FoundWait(s, id);
    Resumes(s, id);
  }

  lemma NamedWait(s: State, id: Id)
    requires Good(s) && id in s.mem.records && OurWait(s.mem.records[id])
    ensures s.mem.records[id].continuationId == Plain("s", "a", s.mem.records[id].decisionVersion)
    ensures OurSession(s.mem)
  {
    hide Sound;
    assert CanonicalWait(s.mem.records[id], s.mem.sessions);
  }

  lemma FoundWait(s: State, id: Id)
    requires Good(s) && OthersOver(s.mem.records, id) && id in s.mem.records && Completable(s.mem.records[id], Continuation(), "run")
    ensures CompletionTarget(s.mem.order, s.mem.records, Continuation(), "run") == Some(id)
  {
    hide Sound, Coherent;
    ListedId(s, id);
    var k :| 0 <= k < |s.mem.order| && s.mem.order[k] == id;
  }

  lemma Resumes(s: State, id: Id)
    requires Waiting(s, id) && s.mem.records[id].state == ResumeDispatching && s.mem.records[id].id == id
    requires Evidence(s.mem, s.mem.records[id])
    ensures var (s', completed) := CompleteTarget(s, id, Continuation(), "run", Succeeded("t"), OK);
            && completed && s'.history.completions == s.history.completions + [CompletionRecord(id, Continuation(), "run")]
            && s'.mem.records.Keys == s.mem.records.Keys && AllOver(s'.mem.records) && s'.calls == s.calls && s'.tick == s.tick && Calmed(s')
            && "s" in s'.mem.sessions && s'.mem.sessions["s"] == s.mem.sessions["s"].(waiting := None, lifecycle := Ready)
  {
    hide Sound, Coherent, Evidence, Version;
    PausedByEvidence(s.mem, s.mem.records[id]);
    var w := CompletedWait(s.mem, s.mem.records[id], Succeeded("t"), 0);
    var m := s.mem.(records := s.mem.records[id := w]);
    NoActive(m);
    NothingNewest(m, "s");
  }

  lemma PausedByEvidence(m: Snapshot, w: Wait)
    requires Evidence(m, w)
    ensures w.sessionId in m.sessions && m.sessions[w.sessionId].lifecycle == Paused
  {
  }

  lemma Rounds(s: State, id: Id)
    requires Idling(s) && OpaqueToken(id, MAX_WAIT_ID_LENGTH) && id !in s.mem.records
    ensures var s' := Round(s, id);
            && Idling(s') && s'.mem.records.Keys == s.mem.records.Keys + {id}
            && s'.history.completions == s.history.completions + [CompletionRecord(id, Continuation(), "run")]
    ensures CompleteRunner(Begun(s, id), Some(Continuation()), "run", Succeeded("t"), OK).1
  {
    hide Sound, Coherent, Begun, CompleteRunner, Waiting;
    Begins(s, id);
    var s1 := Begun(s, id);
    WaitingIsGood(s1, id);
    Completes(s1, id);
    GoodStep(s1, DoComplete(Some(Continuation()), "run", Succeeded("t"), OK));
    var s2 := Ended(s, id);
    assert s2 == CompleteRunner(s1, Some(Continuation()), "run", Succeeded("t"), OK).0;
    GoodStep(s2, DoTickNext(OK, OK));
  }

  lemma WaitingIsGood(s: State, id: Id)
    requires Waiting(s, id)
    ensures Good(s)
  {
  }

  /** The same continuation and the same run are completed twice, as two waits. */
  lemma RepeatedRunCompletesTwice()
    ensures var s0 := Initial(SESSIONS, 0);
            var s2 := Round(Round(s0, "w1"), "w2");
            s2.history.completions == [CompletionRecord("w1", Continuation(), "run"), CompletionRecord("w2", Continuation(), "run")]
  {
    hide Round, Idling, Sound, Coherent, Initial, Continuation, Begun, CompleteRunner;
    var s0 := Initial(SESSIONS, 0);
    FieldsAreValid();
    IdlingAtFirst();
    Rounds(s0, "w1");
    Rounds(Round(s0, "w1"), "w2");
  }

  lemma IdlingAtFirst()
    ensures var s := Initial(SESSIONS, 0);
            Idling(s) && s.mem.records == map[] && s.history.completions == []
  {
    hide Sound, Coherent;
    InitialSound(SESSIONS, 0);
    InitialCoherent(SESSIONS, 0);
  }

  /**
   Once a continuation and a run have been completed, `completeRunner` answers `true` for them again if
   and only if another wait of an open session is dispatching under both, and saving succeeds.
   */
  lemma CompletesAgainExactly(s: State, k: nat, result: Completion, save: Save)
    requires Sound(s) && k < |s.history.completions|
    ensures var c := s.history.completions[k];
            var target := CompletionTarget(s.mem.order, s.mem.records, c.continuationId, c.runnerRunId);
            CompleteRunner(s, Some(c.continuationId), c.runnerRunId, result, save).1
            <==> && save.ok && OpaqueToken(c.runnerRunId, MAX_RUNNER_RUN_ID_LENGTH)
                 && target.Some? && target.value != c.waitId && OpenSession(s.mem, s.mem.records[target.value].sessionId)
  {
    hide Reproject, Evidence, ValidField, OpaqueToken;
    var c := s.history.completions[k];
    var target := CompletionTarget(s.mem.order, s.mem.records, c.continuationId, c.runnerRunId);
    if target.Some? {
      assert Accounted(s.mem.records[target.value], s.history);
    }
  }
}
