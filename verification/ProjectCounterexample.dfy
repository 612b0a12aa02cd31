/**
 Concrete runs that start with one confirmed proposal: an overtaken run calls the finalizer, an
 overtaken run starts, and two advances of one holder move an operation back.
 */
module ProjectCounterexample {
  import opened Options
  import opened ProjectTypes
  import opened ProjectSteps
  import opened ProjectTheorems
  import opened ProjectWorker
  import opened ProjectOvertaking

  const DRAFT := Proposal("", "u", "s", "Name", "team", "request", None, None, Pending, 0)
  const CONSUMED := Proposal("p", "u", "s", "Name", "team", "request", Some("key"), None, Consumed, 600000)

  function Row(phase: Phase, lease: Option<Lease>): Operation {
    Operation("o", "p", phase, None, lease, None, None)
  }

  function Table(row: Operation): Db {
    Db(map["p" := CONSUMED], map["o" := row], map[])
  }

  // ---- a confirmed proposal ------------------------------------------------------------------

  function Requested0(): State {
    Next(Next(Empty, DoCreate(DRAFT)), DoCreateEnd(0, true, "p"))
  }

  function Challenged(): State {
    Next(Next(Requested0(), DoChallenge("u", "p")), DoChallengeEnd(1, true, 7))
  }

  function Confirmed(): State {
    Next(Next(Challenged(), DoConfirm("u", "p", 7, "key")), DoConfirmEnd(2, true, "o"))
  }

  lemma Requests()
    ensures Requested0() == State(Db(map["p" := DRAFT.(id := "p", expiresAt := 600000)], map[], map[]), 0, map[], map[], 1)
  {
    assert Next(Empty, DoCreate(DRAFT)) == State(Db(map[], map[], map[]), 0, map[], map[0 := CreateCall(DRAFT)], 1);
  }

  lemma Challenges()
    ensures Challenged() == State(Db(map["p" := DRAFT.(id := "p", expiresAt := 600000, challenge := Some(Challenge(7, 120000)))], map[], map[]),
                                  0, map[], map[], 2)
  {
    Requests();
    hide Requested0;
    assert Next(Requested0(), DoChallenge("u", "p")) == Requested0().(calls := map[1 := ChallengeCall("p")], nextCall := 2);
  }

  lemma Confirms()
    ensures Confirmed() == State(Table(Row(Reserved, None)), 0, map[], map[], 3)
  {
    Challenges();
    hide Challenged;
    var s := Challenged();
    assert Next(s, DoConfirm("u", "p", 7, "key")) == s.(calls := map[2 := ConfirmCall(s.db.proposals["p"], "key")], nextCall := 3);
  }

  // ---- runs over a table with one operation ----------------------------------------------------

  /** The operation is claimed under its first token, and the run starts. */
  function Claimed(): System {
    Confirms();
    var confirmed := Confirmed();
    PlayOn(System(confirmed, map[]), Claiming(confirmed, "o", 100))
  }

  lemma IsClaimed()
    ensures var w := Claimed();
            && w.broker == State(Table(Row(Reserved, Some(Lease(100, 2 * LEASE_LIFETIME)))), LEASE_LIFETIME,
                                 map[100 := Issue("o", 2 * LEASE_LIFETIME)], map[], 5)
            && w.workers == map[100 := Newcomer("o", "u", Reserved)]
  {
    Confirms();
    hide Confirmed, PlayOn, Claiming;
    Claims(System(Confirmed(), map[]), "o", 100);
  }

  /** The adapter reports the next phase, and the checkpoint is committed. */
  lemma Reports(w: System, phase: Phase, token: nat, next: Phase, expiresAt: nat)
    requires w.broker.db == Table(Row(phase, Some(Lease(token, expiresAt)))) && w.broker.calls == map[] && w.broker.clock < expiresAt
    requires token in w.workers && w.workers[token] == Newcomer("o", "u", phase) && NextPhase(phase) == Some(next) && ReportedPhase(next)
    ensures var w' := Moved(Moved(w, RunEvent(token, PhaseEvent(next))), RunAdvanced(token, true));
            && w'.broker == w.broker.(db := Table(Row(next, Some(Lease(token, expiresAt)))), nextCall := w.broker.nextCall + 1)
            && w'.workers == w.workers[token := Newcomer("o", "u", next)]
  {
    var s, n := w.broker, w.broker.nextCall;
    var a := Advance("o", token, next, None, None);
    var s1 := s.(calls := map[n := AdvanceCall(s.db.operations["o"], CONSUMED, a)], nextCall := n + 1);
    assert AdvanceBegin(s, "u", a) == s1;
    assert Commits(s1.db, s.db.operations["o"], "Name", a, s1.clock);
    assert AdvanceEnd(s1, n, true) == s.(db := Table(Row(next, Some(Lease(token, expiresAt)))), nextCall := n + 1);
  }

  // ---- an overtaken run finalizes --------------------------------------------------------------

  /** The first run brings the operation to `pushed`. */
  function FirstPushed(): System {
    var w1 := Claimed();
    var w2 := Moved(Moved(w1, RunEvent(100, PhaseEvent(LocalPrepared))), RunAdvanced(100, true));
    var w3 := Moved(Moved(w2, RunEvent(100, PhaseEvent(RemoteCreated))), RunAdvanced(100, true));
    Moved(Moved(w3, RunEvent(100, PhaseEvent(Pushed))), RunAdvanced(100, true))
  }

  lemma FirstIsPushed()
    ensures var w := FirstPushed();
            && w.broker == State(Table(Row(Pushed, Some(Lease(100, 2 * LEASE_LIFETIME)))), LEASE_LIFETIME,
                                 map[100 := Issue("o", 2 * LEASE_LIFETIME)], map[], 8)
            && w.workers == map[100 := Newcomer("o", "u", Pushed)]
  {
    IsClaimed();
    hide Claimed, Moved;
    var w1 := Claimed();
    Reports(w1, Reserved, 100, LocalPrepared, 2 * LEASE_LIFETIME);
    var w2 := Moved(Moved(w1, RunEvent(100, PhaseEvent(LocalPrepared))), RunAdvanced(100, true));
    Reports(w2, LocalPrepared, 100, RemoteCreated, 2 * LEASE_LIFETIME);
    var w3 := Moved(Moved(w2, RunEvent(100, PhaseEvent(RemoteCreated))), RunAdvanced(100, true));
    Reports(w3, RemoteCreated, 100, Pushed, 2 * LEASE_LIFETIME);
  }

  /** The lease expires; a second run takes over and gives up. */
  function GivenUp(): System {
    FirstIsPushed();
    PlayOn(FirstPushed(), Overtaking(FirstPushed().broker, "o", 101))
  }

  /** Then the first run's adapter reports that it is done, and the finalizer is called. */
  lemma StaleRunFinalizes()
    ensures var w := GivenUp();
            && 100 in w.workers && Possible(w, RunEvent(100, DoneEvent)) && Finalizes(w.workers[100], DoneEvent)
            && 100 in Moved(w, RunEvent(100, DoneEvent)).workers
            && Moved(w, RunEvent(100, DoneEvent)).workers[100].stage == Finalizing
            && "o" in w.broker.db.operations && w.broker.db.operations["o"].phase == ReconcileRequired
  {
    FirstIsPushed();
    hide FirstPushed, Moved, Possible, Finalizes, PlayOn, Overtaking;
    IsOvertaken(FirstPushed(), "o", 101);
    DoneFinalizes(GivenUp(), 100);
  }

  lemma DoneFinalizes(w: System, token: nat)
    requires token in w.workers && w.workers[token] == Newcomer("o", "u", Pushed)
    ensures Possible(w, RunEvent(token, DoneEvent)) && Finalizes(w.workers[token], DoneEvent)
    ensures token in Moved(w, RunEvent(token, DoneEvent)).workers && Moved(w, RunEvent(token, DoneEvent)).workers[token].stage == Finalizing
  {
  }

  // ---- an overtaken run starts -----------------------------------------------------------------

  /** A lease is given out, and its caller still waits for the second look at the evidence. */
  function LeaseOnItsWay(): System {
    var w := Moved(System(Confirmed(), map[]), Broker(DoClaim("u", "p")));
    Moved(w, Broker(DoClaimLease(3, true, "o", 100)))
  }

  lemma IsOnItsWay()
    ensures var s := LeaseOnItsWay().broker;
            && s.db == Table(Row(Reserved, Some(Lease(100, LEASE_LIFETIME)))) && s.calls == map[4 := LeasedCall("o", 100, Reserved)]
            && s.nextCall == 5 && s.clock == 0 && s.issued == map[100 := Issue("o", LEASE_LIFETIME)] && LeaseOnItsWay().workers == map[]
  {
    Confirms();
    hide Confirmed, Moved;
    var w := System(Confirmed(), map[]);
    AsksToClaim(w, "u", "p");
    var w1 := w.(broker := OpenCall(w.broker, ClaimCall(CONSUMED)));
    assert Claimable(w1.broker.db, "o", "p", w1.broker.clock);
    IsLeased(w1, 3, "o", 100);
  }

  /** Meanwhile the lease expires, and a second run takes over and gives up. */
  function LateLease(): System {
    IsOnItsWay();
    PlayOn(LeaseOnItsWay(), Overtaking(LeaseOnItsWay().broker, "o", 101))
  }

  /** Then the lease arrives, and its adapter is started on the finished operation. */
  lemma LateRunStarts()
    ensures var w := LateLease();
            && Possible(w, RunStart(4)) && w.broker.calls[4] == LeasedCall("o", 100, Reserved)
            && "o" in w.broker.db.operations && w.broker.db.operations["o"].phase == ReconcileRequired
            && 100 in Moved(w, RunStart(4)).workers && Moved(w, RunStart(4)).workers[100].stage == Ready
  {
    IsOnItsWay();
    hide LeaseOnItsWay, Moved, PlayOn, Overtaking;
    IsOvertaken(LeaseOnItsWay(), "o", 101);
    assert 4 in LeaseOnItsWay().broker.calls;
    Starts(LateLease(), 4, "o", 100, Reserved);
  }

  // ---- an operation moves back -----------------------------------------------------------------

  const LEASE := Some(Lease(100, 2 * LEASE_LIFETIME))

  /** The holder of the lease asks for a phase. */
  function Asking(phase: Phase): Step {
    DoAdvance("u", Advance("o", 100, phase, None, None))
  }

  function Asked(read: Phase, phase: Phase): Call {
    AdvanceCall(Row(read, LEASE), CONSUMED, Advance("o", 100, phase, None, None))
  }

  lemma Asks(s: State, read: Phase, phase: Phase)
    requires s.db == Table(Row(read, LEASE))
    ensures Next(s, Asking(phase)) == OpenCall(s, Asked(read, phase))
  {
  }

  lemma Lands(s: State, call: nat, read: Phase, phase: Phase, current: Phase)
    requires s.db == Table(Row(current, LEASE)) && s.clock == LEASE_LIFETIME
    requires call in s.calls && s.calls[call] == Asked(read, phase) && NextPhase(read) == Some(phase) && ReportedPhase(phase)
    ensures Next(s, DoAdvanceEnd(call, true)) == DropCall(s, call).(db := Table(Row(phase, LEASE)))
  {
    assert Commits(s.db, Row(read, LEASE), "Name", s.calls[call].advance, s.clock);
    assert s.db.operations["o" := Row(phase, LEASE)] == map["o" := Row(phase, LEASE)];
  }

  /** Two advances to `local-prepared` begin; one of them and one to `remote-created` are committed. */
  function StaleAdvance(): State {
    var s := Next(Next(Next(Claimed().broker, Asking(LocalPrepared)), Asking(LocalPrepared)), DoAdvanceEnd(5, true));
    Next(Next(s, Asking(RemoteCreated)), DoAdvanceEnd(7, true))
  }

  /** Then the other is committed, and the operation moves back. */
  lemma StaleAdvanceMovesBack()
    ensures var s := StaleAdvance();
            && Enabled(s, DoAdvanceEnd(6, true))
            && s.db == Table(Row(RemoteCreated, LEASE)) && Next(s, DoAdvanceEnd(6, true)).db == Table(Row(LocalPrepared, LEASE))
            && !NotBack(s.db.operations["o"], Next(s, DoAdvanceEnd(6, true)).db.operations["o"])
  {
    IsClaimed();
    hide Claimed, Next, Asking, Asked;
    var s0 := Claimed().broker;
    Asks(s0, Reserved, LocalPrepared);
    var s1 := Next(s0, Asking(LocalPrepared));
    Asks(s1, Reserved, LocalPrepared);
    var s2 := Next(s1, Asking(LocalPrepared));
    Lands(s2, 5, Reserved, LocalPrepared, Reserved);
    var s3 := Next(s2, DoAdvanceEnd(5, true));
    Asks(s3, LocalPrepared, RemoteCreated);
    var s4 := Next(s3, Asking(RemoteCreated));
    Lands(s4, 7, LocalPrepared, RemoteCreated, LocalPrepared);
    var s5 := Next(s4, DoAdvanceEnd(7, true));
    Lands(s5, 6, Reserved, LocalPrepared, RemoteCreated);
    IsAdvance(s5, 6, Reserved, LocalPrepared);
  }

  lemma IsAdvance(s: State, call: nat, read: Phase, phase: Phase)
    requires call in s.calls && s.calls[call] == Asked(read, phase)
    ensures Enabled(s, DoAdvanceEnd(call, true))
  {
  }
}
