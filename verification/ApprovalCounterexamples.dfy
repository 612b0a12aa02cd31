/**
 Concrete runs that end in what ApprovalRuns excludes: two blocking waits in one session.
 */
module ApprovalCounterexamples {
  import opened Options
  import opened ApprovalTypes
  import opened ApprovalProjection
  import opened ApprovalSteps
  import opened ApprovalSafety
  import opened ApprovalCoherence
  import opened ApprovalRuns

  function Version(): Id { "sha256:" + seq(64, _ => '0') }

  const SCOPE := Capability("s", "u", "p", "w", "r", "t", None)
  const SESSIONS: map<Id, Session> := map["s" := Session("u", "w", Some("t"), Some("t"), Ready, None)]
  const OK := Save(0, 0, true)

  function Answer(decision: Decision): Option<Status> {
    Some(Status(Overseer, "a", ProjectWorkflow, decision, Version(), "p", "w", "r", "subject"))
  }

  lemma VersionIsDigest()
    ensures Sha256Text(Version())
  {
  }

  lemma FieldsAreValid()
    ensures ValidField("s") && ValidField("u") && ValidField("p") && ValidField("w") && ValidField("r") && ValidField("t")
    ensures ValidField("a") && ValidField("subject")
    ensures OpaqueToken("w1", MAX_WAIT_ID_LENGTH) && OpaqueToken("w2", MAX_WAIT_ID_LENGTH) && OpaqueToken("run", MAX_RUNNER_RUN_ID_LENGTH)
  {
  }

  function Step1(): State { Next(Initial(SESSIONS, 0), DoRegister(SCOPE, "a")) }
  function Step2(): State { Next(Step1(), DoRegisterReply(0, Answer(Undecided), false, [Some("w1")], OK)) }

  lemma AfterStep1()
    ensures var s := Step1();
            && s.mem == s.disk == Snapshot([], map[], SESSIONS) && s.calls == map[0 := RegisterCall(SCOPE, "a")] && s.nextCall == 1
            && s.generation == map[] && s.retirements == {} && s.tick == Idle
  {
    FieldsAreValid();
  }

  lemma AfterStep2()
    ensures var s := Step2();
            && s.mem == s.disk && s.mem.order == ["w1"] && s.mem.records.Keys == {"w1"} && s.mem.sessions.Keys == {"s"}
            && s.mem.records["w1"] == RegisteredWait("w1", SESSIONS["s"], SCOPE, Answer(Undecided).value, OK)
            && s.calls == map[] && s.nextCall == 1 && s.generation == map[] && s.retirements == {} && s.tick == Idle
  {
    AfterStep1();
    FieldsAreValid();
    VersionIsDigest();
    assert NextWaitId([Some("w1")], 8, map[]) == Some("w1");
  }

  function Step4(): State { Next(Next(Step2(), DoTickStart(2000)), DoTickNext(OK, OK)) }
  function Step5(): State { Next(Step4(), DoRefreshReply(1, Answer(Approved), OK, OK, OK)) }
  function Step6(): State { Next(Step5(), DoClose("s", OK)) }
  function Step7(): State { Next(Step6(), DoReopen("s", OK)) }
  function Step8(): State { Next(Step7(), DoReopenReply(3, Answer(Undecided), [Some("w2")], OK, OK, OK)) }

  ghost predicate Good(s: State) { Sound(s) && Coherent(s) }

  lemma GoodStep(s: State, step: Step)
    requires Good(s) && !Unsafe(s, step)
    ensures Good(Next(s, step))
  {
    hide Sound, Coherent;
    StepKeeps(s, step);
    StepCoherent(s, step);
  }

  lemma GoodAt2()
    ensures Good(Step2())
  {
    hide Sound, Coherent, Next, Initial, Answer;
    InitialSound(SESSIONS, 0);
    InitialCoherent(SESSIONS, 0);
    GoodStep(Initial(SESSIONS, 0), DoRegister(SCOPE, "a"));
    GoodStep(Step1(), DoRegisterReply(0, Answer(Undecided), false, [Some("w1")], OK));
  }

  lemma GoodAt4()
    ensures Good(Step4())
  {
    hide Sound, Coherent, Next, Step2;
    GoodAt2();
    GoodStep(Step2(), DoTickStart(2000));
    GoodStep(Next(Step2(), DoTickStart(2000)), DoTickNext(OK, OK));
  }

  lemma ShowsBlocking(s: State, id: Id)
    requires Good(s) && id in s.mem.records && Blocking(s.mem.records[id].state) && OpenSession(s.mem, s.mem.records[id].sessionId)
    ensures Evidence(s.mem, s.mem.records[id])
  {
    hide Sound, Coherent;
    SoundIsListed(s);
    EvidenceHolds(s, id);
  }

  lemma AfterStep4()
    ensures var s := Step4();
            && s.mem == Step2().mem && s.calls == map[1 := RefreshCall("w1", "s", 0)] && s.nextCall == 2
            && s.generation == map[] && s.retirements == {} && s.tick == Running([], true)
  {
    hide Next, Step2;
    AfterStep2();
    var s := Step2();
    OpenAt2();
    PendingIsDue(s.mem.records);
    StartsTick(s, 2000, "w1");
    TickRefreshes(s.(tick := Running(["w1"], false)), "w1");
  }

  lemma PendingIsDue(records: map<Id, Wait>)
    requires "w1" in records && records["w1"] == RegisteredWait("w1", SESSIONS["s"], SCOPE, Answer(Undecided).value, OK)
    ensures DueWaits(["w1"], records, 2000) == ["w1"]
    ensures records["w1"].state == Pending && records["w1"].sessionId == "s"
  {
  }

  lemma StartsTick(s: State, now: nat, id: Id)
    requires s.tick == Idle && s.retirements == {} && DueWaits(s.mem.order, s.mem.records, now) == [id]
    ensures Next(s, DoTickStart(now)) == s.(tick := Running([id], false))
  {
  }

  lemma TickRefreshes(s: State, id: Id)
    requires s.tick == Running([id], false) && id in s.mem.records && s.mem.records[id].state == Pending
    requires OpenSession(s.mem, s.mem.records[id].sessionId)
    ensures var sid, s' := s.mem.records[id].sessionId, Next(s, DoTickNext(OK, OK));
            && s'.mem == s.mem && s'.tick == Running([], true) && s'.nextCall == s.nextCall + 1
            && s'.calls == s.calls[s.nextCall := RefreshCall(id, sid, Generation(s.generation, sid))]
            && s'.generation == s.generation && s'.retirements == s.retirements
  {
    hide Dispatch, RecoverWait;
  }

  lemma OpenAt2()
    ensures "s" in Step2().mem.sessions && Step2().mem.sessions["s"].lifecycle != Closed
    ensures Step2().mem.sessions["s"].userId == "u" && Step2().mem.sessions["s"].workspaceId == "w"
    ensures Step2().mem.sessions["s"].managedThreadId == Some("t") && Step2().mem.sessions["s"].codexThreadId == Some("t")
  {
    AfterStep1();
    AfterStep2();
  }

  lemma AfterStep5()
    ensures var s := Step5();
            && Good(s) && s.mem.records.Keys == {"w1"} && s.mem.records["w1"].state == ResumeDispatching
            && s.mem.records["w1"].sessionId == "s" && OpenSession(s.mem, "s")
            && s.calls == map[2 := DispatchCall("w1", "s", 0, true)] && s.nextCall == 3
            && s.generation == map[] && s.retirements == {}
            && Trusted(s.mem.records["w1"], Answer(Undecided).value)
  {
    hide Sound, Coherent, Evidence, Next, Trusted, Step2, Step4;
    AfterStep2();
    OpenAt2();
    GoodAt4();
    AfterStep4();
    FieldsAreValid();
    VersionIsDigest();
    TrustsAnswer(Step4().mem.records["w1"]);
    RefreshApproves(Step4(), 1);
  }

  lemma TrustsAnswer(w: Wait)
    requires w.approvalRef == "a" && w.projectId == "p" && w.workspaceId == "w" && w.resourceRef == "r" && w.authorityClass == ProjectWorkflow
    ensures forall d :: d != Garbled ==> Trusted(w, Answer(d).value)
  {
    FieldsAreValid();
    VersionIsDigest();
  }

  /** The answer of a pending wait's refresh, when it is an approval. */
  lemma RefreshApproves(s: State, call: nat)
    requires Good(s) && s.mem.records.Keys == {"w1"} && s.mem.records["w1"].state == Pending && OpenSession(s.mem, "s")
    requires s.mem.records["w1"].sessionId == "s" && s.tick.Running? && s.generation == map[]
    requires s.calls == map[call := RefreshCall("w1", "s", 0)] && (forall d :: d != Garbled ==> Trusted(s.mem.records["w1"], Answer(d).value))
    ensures var s' := Next(s, DoRefreshReply(call, Answer(Approved), OK, OK, OK));
            && Good(s') && s'.mem.records.Keys == {"w1"} && s'.mem.records["w1"].state == ResumeDispatching
            && s'.mem.records["w1"].sessionId == "s" && OpenSession(s'.mem, "s")
            && s'.calls == map[s.nextCall := DispatchCall("w1", "s", 0, true)] && s'.nextCall == s.nextCall + 1
            && s'.generation == map[] && s'.retirements == s.retirements
            && Trusted(s'.mem.records["w1"], Answer(Undecided).value)
  {
    hide Sound, Coherent, Evidence, Version, Next, Refreshed, Trusted;
    GoodStep(s, DoRefreshReply(call, Answer(Approved), OK, OK, OK));
    var s0 := ReleaseTick(DropCall(s, call), true);
    assert s0.mem == s.mem && s0.nextCall == s.nextCall && s0.generation == s.generation && s0.retirements == s.retirements;
    assert s0.calls == map[];
    RefreshDropped(s, call);
    RefreshesCurrent(s0);
    RefreshAnswered(s, call, Answer(Approved));
    ApprovedRefresh(s0, "w1", Answer(Approved));
    KeepsTrust(s.mem.records["w1"], Answer(Approved));
  }

  lemma RefreshAnswered(s: State, call: nat, status: Option<Status>)
    requires call in s.calls && s.calls[call].RefreshCall?
    requires var c := s.calls[call]; IsRefreshCurrent(ReleaseTick(DropCall(s, call), true), c.waitId, c.sessionId, c.generation)
    ensures Next(s, DoRefreshReply(call, status, OK, OK, OK))
         == Refreshed(ReleaseTick(DropCall(s, call), true), s.calls[call].waitId, status, OK, OK, OK)
  {
    hide Refreshed, IsRefreshCurrent;
  }

  lemma KeepsTrust(w: Wait, status: Option<Status>)
    requires status.Some? && Trusted(w, status.value) && status.value.decision == Approved
    ensures var w' := Reserved(RefreshedWait(w, status, OK), 0);
            && w'.state == ResumeDispatching && w'.sessionId == w.sessionId
            && forall st :: Trusted(w, st) ==> Trusted(w', st)
  {
  }

  /** A trusted approval of a pending wait ends in its hand-over. */
  lemma ApprovedRefresh(s: State, id: Id, status: Option<Status>)
    requires Good(s) && id in s.mem.records && s.mem.records[id].state == Pending && OpenSession(s.mem, s.mem.records[id].sessionId)
    requires s.tick.Running?
    requires status.Some? && Trusted(s.mem.records[id], status.value) && status.value.decision == Approved
    ensures var w, s' := s.mem.records[id], Refreshed(s, id, status, OK, OK, OK);
            && s'.mem.records == s.mem.records[id := Reserved(RefreshedWait(w, status, OK), 0)]
            && s'.mem.order == s.mem.order && s'.tick.Running? && s'.tick.queue == s.tick.queue
            && s'.history.completions == s.history.completions
            && s'.calls == s.calls[s.nextCall := DispatchCall(id, w.sessionId, Generation(s.generation, w.sessionId), true)]
            && s'.nextCall == s.nextCall + 1 && s'.generation == s.generation && s'.retirements == s.retirements
            && OpenSession(s'.mem, w.sessionId)
  {
    hide Sound, Coherent, Evidence, Trusted, Refreshed, Dispatch;
    var w := s.mem.records[id];
    var s1 := Learn(s, ApprovalOf(w, status.value.decisionVersion));
    WaitKnown(s, id);
    RefreshGoesOn(s, id, status);
    LearnCoherent(s, ApprovalOf(w, status.value.decisionVersion));
    var w' := RefreshedWait(w, status, OK);
    SoundIsListed(s1);
    RefreshCommitCoherent(s1, id, status, OK, true);
    RefreshAdmissible(s1, id, status, OK);
    CommitKeeps(s1, w', true);
    StillOpen(s1, w', true);
    DispatchNeverFails(Commit(s1, w', true), id, true, OK, OK);
    StillOpen(Commit(s1, w', true), Reserved(w', 0), true);
  }

  /** The approval is learnt and committed, and the dispatch goes on behind it. */
  lemma RefreshGoesOn(s: State, id: Id, status: Option<Status>)
    requires id in s.mem.records && s.mem.records[id].id == id
    requires status.Some? && Trusted(s.mem.records[id], status.value) && status.value.decision == Approved
    ensures var w := s.mem.records[id];
            var s2 := Commit(Learn(s, ApprovalOf(w, status.value.decisionVersion)), RefreshedWait(w, status, OK),
                             RefreshedWait(w, status, OK).state != w.state);
            && id in s2.mem.records && RefreshedWait(w, status, OK).state == ApprovedResumeQueued && RefreshedWait(w, status, OK).id == id
            && RefreshedWait(w, status, OK).sessionId == w.sessionId
            && Refreshed(s, id, status, OK, OK, OK) == Dispatch(s2, id, true, OK, OK)
  {
    hide Dispatch, Trusted;
  }

  lemma RefreshesCurrent(s: State)
    requires Good(s) && "w1" in s.mem.records && s.mem.records["w1"].state == Pending && s.mem.records["w1"].sessionId == "s"
    requires OpenSession(s.mem, "s") && s.generation == map[]
    ensures IsRefreshCurrent(s, "w1", "s", 0)
  {
    hide Sound, Coherent;
    ShowsBlocking(s, "w1");
  }

  lemma GoodAt6()
    ensures Good(Step6())
  {
    hide Sound, Coherent;
    AfterStep5();
    GoodStep(Step5(), DoClose("s", OK));
  }

  /** Closing a session with a single wait. */
  lemma Closes(s: State, sid: Id, id: Id)
    requires sid in s.mem.sessions && s.mem.records.Keys == {id} && BlocksSession(s.mem.records[id], sid)
    ensures var s' := Next(s, DoClose(sid, OK));
            && s'.mem.records == map[id := Fail(s.mem.records[id], SessionClosed, 0)]
            && s'.calls == s.calls && s'.nextCall == s.nextCall
            && sid in s'.mem.sessions && s'.mem.sessions[sid].lifecycle == Closed
  {
    var closing := WithLifecycle(s.mem, sid, Closed);
    assert BlocksSession(closing.records[id], sid);
    assert Next(s, DoClose(sid, OK)) == CloseSession(s, sid, OK);
  }

  lemma AfterStep6()
    ensures var s := Step6();
            && s.mem.records.Keys == {"w1"} && s.mem.records["w1"].state == SessionClosed && s.mem.records["w1"].sessionId == "s"
            && s.calls == map[2 := DispatchCall("w1", "s", 0, true)] && s.nextCall == 3
            && "s" in s.mem.sessions && s.mem.sessions["s"].lifecycle == Closed
            && Trusted(s.mem.records["w1"], Answer(Undecided).value)
  {
    hide Sound, Coherent, Next, Step5;
    AfterStep5();
    Closes(Step5(), "s", "w1");
  }

  /** Asking to reopen a session whose only wait is closed. */
  lemma AsksToReopen(s: State, sid: Id, id: Id)
    requires Good(s) && sid in s.mem.sessions && s.mem.sessions[sid].lifecycle == Closed
    requires s.mem.records.Keys == {id} && ClosedIn(s.mem.records[id], sid)
    ensures var s' := Next(s, DoReopen(sid, OK));
            && Good(s') && s'.mem == s.mem && s'.calls == s.calls[s.nextCall := ReopenCall(sid, id)]
  {
    hide Sound, Coherent;
    SoundIsListed(s);
    NewestIsNewest(s.mem.order, s.mem.records, sid, true);
    GoodStep(s, DoReopen(sid, OK));
  }

  lemma AfterStep7()
    ensures var s := Step7();
            && Good(s) && s.mem == Step6().mem
            && s.calls == map[2 := DispatchCall("w1", "s", 0, true), 3 := ReopenCall("s", "w1")]
  {
    hide Sound, Coherent, Next, Step6;
    GoodAt6();
    AfterStep6();
    AsksToReopen(Step6(), "s", "w1");
  }

  /** A pending answer puts a successor in the place of a closed wait. */
  lemma Succeeded(s: State, call: nat, sid: Id, id: Id, newId: Id)
    requires Good(s) && sid in s.mem.sessions && s.mem.sessions[sid].lifecycle == Closed
    requires s.mem.records.Keys == {id} && ClosedIn(s.mem.records[id], sid)
    requires OpaqueToken(newId, MAX_WAIT_ID_LENGTH) && newId != id
    requires call in s.calls && s.calls[call] == ReopenCall(sid, id) && Trusted(s.mem.records[id], Answer(Undecided).value)
    ensures var s' := Next(s, DoReopenReply(call, Answer(Undecided), [Some(newId)], OK, OK, OK));
            && Good(s') && s'.calls == s.calls - {call}
            && id in s'.mem.records && s'.mem.records[id] == s.mem.records[id]
            && newId in s'.mem.records && BlocksSession(s'.mem.records[newId], sid)
  {
    hide Sound, Coherent, Trusted;
    GoodStep(s, DoReopenReply(call, Answer(Undecided), [Some(newId)], OK, OK, OK));
    assert NextWaitId([Some(newId)], 8, s.mem.records) == Some(newId);
    ClosedMayBeSucceeded(s, id);
  }

  lemma AfterStep8()
    ensures var s := Step8();
            && Good(s) && "w1" in s.mem.records && s.mem.records["w1"].state == SessionClosed
            && 2 in s.calls && s.calls[2] == DispatchCall("w1", "s", 0, true)
            && "w2" in s.mem.records && BlocksSession(s.mem.records["w2"], "s")
  {
    hide Sound, Coherent, Next, Step6, Step7, Trusted;
    AfterStep6();
    AfterStep7();
    FieldsAreValid();
    Succeeded(Step7(), 3, "s", "w1", "w2");
  }

  /** A closed wait's own session still carries the bindings a successor needs. */
  lemma ClosedMayBeSucceeded(s: State, id: Id)
    requires Coherent(s) && s.mem.records.Keys == {id} && s.mem.records[id].state == SessionClosed
    requires var sid := s.mem.records[id].sessionId; sid in s.mem.sessions && s.mem.sessions[sid].lifecycle == Closed
    ensures SuccessorAllowed(s.mem, s.mem.records[id].sessionId, s.mem.records[id])
  {
    assert CanonicalWait(s.mem.records[id], s.mem.sessions);
  }

  /**
   A session closes while its dispatch is on its way and is reopened behind it; the late answer then
   brings the closed wait back, and the session has two blocking waits.
   */
  lemma LateAnswerBreaksOneBlocking()
    ensures Good(Step8())
    ensures !OneBlocking(Next(Step8(), DoDispatchReply(2, Started("run"), OK)).mem.records)
  {
    hide Sound, Coherent, Next, Step8;
    AfterStep8();
    assert RevivesBesideActive(Step8(), DoDispatchReply(2, Started("run"), OK));
    RevivalBreaks(Step8(), DoDispatchReply(2, Started("run"), OK));
  }

  // ---- without a second wait -------------------------------------------------------------------

  /** The late answer arrives before anything is reopened. */
  function Revived(): State { Next(Step6(), DoDispatchReply(2, Started("run"), OK)) }

  lemma LateAnswerRevives(s: State, call: nat)
    requires call in s.calls && s.calls[call] == DispatchCall("w1", "s", 0, true) && "w1" in s.mem.records
    requires s.mem.records["w1"].id == "w1" && s.mem.records["w1"].state == SessionClosed && s.mem.records["w1"].sessionId == "s"
    requires "s" in s.mem.sessions && s.mem.sessions["s"].lifecycle == Closed
    requires OpaqueToken("run", MAX_RUNNER_RUN_ID_LENGTH)
    ensures var s' := Next(s, DoDispatchReply(call, Started("run"), OK));
            && s'.calls == s.calls - {call} && s'.mem.records.Keys == s.mem.records.Keys
            && BlocksSession(s'.mem.records["w1"], "s")
            && "s" in s'.mem.sessions && s'.mem.sessions["s"].lifecycle == Closed
  {
    hide Next, DispatchReply, Reproject;
    var s0 := ReleaseTick(DropCall(s, call), true);
    var w := LostWait(s.mem.records["w1"], Started("run"), 0);
    LateAnswerIsLost(s, call);
    CommittedSnapshot(s0, w, true);
    ClosedStaysClosed(s0.mem.(records := s0.mem.records["w1" := w]), "s");
    assert s.mem.records.Keys + {"w1"} == s.mem.records.Keys;
  }

  lemma LateAnswerIsLost(s: State, call: nat)
    requires call in s.calls && s.calls[call] == DispatchCall("w1", "s", 0, true) && "w1" in s.mem.records
    requires s.mem.records["w1"].state == SessionClosed && OpaqueToken("run", MAX_RUNNER_RUN_ID_LENGTH)
    ensures Next(s, DoDispatchReply(call, Started("run"), OK))
         == Commit(ReleaseTick(DropCall(s, call), true), LostWait(s.mem.records["w1"], Started("run"), 0), true)
  {
    hide Commit;
  }

  lemma ClosedStaysClosed(m: Snapshot, sid: Id)
    requires sid in m.sessions && m.sessions[sid].lifecycle == Closed
    ensures var m' := Reproject(m, sid); sid in m'.sessions && m'.sessions[sid].lifecycle == Closed
  {
  }

  lemma NoClosedWait(order: seq<Id>, records: map<Id, Wait>)
    requires records.Keys == {"w1"} && BlocksSession(records["w1"], "s")
    ensures Newest(order, records, "s", true) == None
  {
    NewestIsNewest(order, records, "s", true);
  }

  /**
   The answer has revived the wait while its session is closed, and nothing is outstanding any more.
   Reopening the session then makes it ready although it has a blocking wait.
   */
  lemma RevivedWaitIsNotShown()
    ensures var s := Revived();
            && Good(s) && s.calls == map[] && OpensBesideActive(s, DoReopen("s", OK))
            && !Shown(Next(s, DoReopen("s", OK)).mem)
  {
    hide Sound, Coherent, Next, Step6, Trusted, Shown;
    GoodAt6();
    AfterStep6();
    FieldsAreValid();
    OnlyClosedWait(Step6());
    GoodStep(Step6(), DoDispatchReply(2, Started("run"), OK));
    WaitKnown(Step6(), "w1");
    LateAnswerRevives(Step6(), 2);
    var s := Revived();
    NoClosedWait(s.mem.order, s.mem.records);
    assert HasActiveWait(s.mem, "s") by { assert BlocksSession(s.mem.records["w1"], "s"); }
    OpeningBreaks(s, DoReopen("s", OK));
  }

  lemma OnlyClosedWait(s: State)
    requires s.mem.records.Keys == {"w1"} && s.mem.records["w1"].state == SessionClosed
    ensures !HasActiveWait(s.mem, "s")
  {
  }
}
