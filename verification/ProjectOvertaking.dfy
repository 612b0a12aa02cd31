/**
 How a run is overtaken: its lease expires, another run claims the operation and sends it to
 reconciliation.
 */
module ProjectOvertaking {
  import opened Options
  import opened ProjectTypes
  import opened ProjectSteps
  import opened ProjectWorker

  /** The operation is there to be claimed once every lease has expired. */
  ghost predicate Overtakable(s: State, o: Id, token: nat) {
    && token !in s.issued
    && o in s.db.operations && s.db.operations[o].id == o && Working(EffectivePhase(s.db.operations[o]))
    && EffectivePhase(s.db.operations[o]) != ThreadStarted
    && s.db.operations[o].proposalId in s.db.proposals
    && s.db.proposals[s.db.operations[o].proposalId].id == s.db.operations[o].proposalId
    && s.db.proposals[s.db.operations[o].proposalId].status == Consumed
    && (forall p :: p in s.db.operations ==> LeaseEnds(s.db.operations[p], s.clock + LEASE_LIFETIME))
    && (forall c :: c in s.calls ==> c < s.nextCall)
  }

  predicate LeaseEnds(o: Operation, now: nat) {
    o.lease.Some? ==> o.lease.value.expiresAt <= now
  }

  function OwnerOf(s: State, o: Id): Proposal
    requires o in s.db.operations && s.db.operations[o].proposalId in s.db.proposals
  {
    s.db.proposals[s.db.operations[o].proposalId]
  }

  function Waited(s: State): State {
    s.(clock := s.clock + LEASE_LIFETIME)
  }

  /** The moves that claim the operation after its lease has expired, and start a run on it. */
  function Claiming(s: State, o: Id, token: nat): seq<Move>
    requires o in s.db.operations && s.db.operations[o].proposalId in s.db.proposals
  {
    [Broker(DoWait(s.clock + LEASE_LIFETIME)), Broker(DoClaim(OwnerOf(s, o).userId, OwnerOf(s, o).id)),
     Broker(DoClaimLease(s.nextCall, true, o, token)), RunStart(s.nextCall + 1)]
  }

  /** The run reports a failure that needs reconciliation. */
  function GivingUp(token: nat): seq<Move> {
    [RunEvent(token, FailedEvent("x", true)), RunAdvanced(token, true)]
  }

  function PlayOn(w: System, moves: seq<Move>): System
    decreases |moves|
  {
    if moves == [] then w else PlayOn(Moved(w, moves[0]), moves[1..])
  }

  lemma {:induction false} PlaysOn(moves: seq<Move>, more: seq<Move>)
    ensures Play(moves + more) == PlayOn(Play(moves), more)
    decreases |more|
  {
    hide Moved;
    if more == [] {
      assert moves + more == moves;
    } else {
      assert (moves + [more[0]])[..|moves|] == moves;
      assert moves + more == (moves + [more[0]]) + more[1..];
      PlaysOn(moves + [more[0]], more[1..]);
    }
  }

  lemma {:induction false} PlaysOnOn(w: System, moves: seq<Move>, more: seq<Move>)
    ensures PlayOn(w, moves + more) == PlayOn(PlayOn(w, moves), more)
    decreases |moves|
  {
    hide Moved;
    if moves == [] {
      assert moves + more == more;
    } else {
      assert (moves + more)[1..] == moves[1..] + more;
      PlaysOnOn(Moved(w, moves[0]), moves[1..], more);
    }
  }

  lemma PlayTwo(w: System, a: Move, b: Move)
    ensures PlayOn(w, [a, b]) == Moved(Moved(w, a), b)
  {
    hide Moved;
    assert [a, b][1..] == [b];
    assert [b][1..] == [];
    assert PlayOn(Moved(w, a), [b]) == Moved(Moved(w, a), b);
  }

  lemma PlayFour(w: System, a: Move, b: Move, c: Move, d: Move)
    ensures PlayOn(w, [a, b, c, d]) == Moved(Moved(Moved(Moved(w, a), b), c), d)
  {
    hide Moved;
    PlaysOnOn(w, [a, b], [c, d]);
    assert [a, b] + [c, d] == [a, b, c, d];
    PlayTwo(w, a, b);
    PlayTwo(Moved(Moved(w, a), b), c, d);
  }

  // ---- the claim -----------------------------------------------------------------------------

  lemma Waits(w: System, now: nat)
    requires w.broker.clock <= now
    ensures Moved(w, Broker(DoWait(now))) == w.(broker := w.broker.(clock := now))
  {
  }

  lemma NobodyIsBusy(s: State, o: Id, token: nat)
    requires Overtakable(s, o, token)
    ensures !WorkerBusy(s.db.operations, s.clock + LEASE_LIFETIME)
  {
    hide Working;
    forall p | p in s.db.operations ensures !Leased(s.db.operations[p], s.clock + LEASE_LIFETIME) {
      assert LeaseEnds(s.db.operations[p], s.clock + LEASE_LIFETIME);
    }
  }

  lemma AsksToClaim(w: System, user: Id, p: Id)
    requires p in w.broker.db.proposals && w.broker.db.proposals[p].userId == user && w.broker.db.proposals[p].status == Consumed
    ensures Moved(w, Broker(DoClaim(user, p))) == w.(broker := OpenCall(w.broker, ClaimCall(w.broker.db.proposals[p])))
  {
  }

  lemma IsLeased(w: System, n: nat, o: Id, token: nat)
    requires n in w.broker.calls && w.broker.calls[n].ClaimCall? && token !in w.broker.issued
    requires Claimable(w.broker.db, o, w.broker.calls[n].proposal.id, w.broker.clock)
    ensures Moved(w, Broker(DoClaimLease(n, true, o, token))) == w.(broker := ClaimLease(w.broker, n, true, o, token))
  {
  }

  function Newcomer(o: Id, user: Id, phase: Phase): Worker {
    Worker(o, user, phase, false, Ready, phase, false, false, false)
  }

  lemma Starts(w: System, n: nat, o: Id, token: nat, phase: Phase)
    requires n in w.broker.calls && w.broker.calls[n] == LeasedCall(o, token, phase) && phase != ThreadStarted
    ensures var w' := Moved(w, RunStart(n));
            w'.broker == DropCall(w.broker, n) && w'.workers == w.workers[token := Newcomer(o, Owner(w.broker.db, o), phase)]
  {
  }

  function ClaimedState(s: State, o: Id, token: nat): State
    requires o in s.db.operations
  {
    var now := s.clock + LEASE_LIFETIME;
    var row := s.db.operations[o].(phase := EffectivePhase(s.db.operations[o]), resumePhase := None,
                                   lease := Some(Lease(token, now + LEASE_LIFETIME)), failureClass := None);
    State(s.db.(operations := s.db.operations[o := row]), now, s.issued[token := Issue(o, now + LEASE_LIFETIME)], s.calls, s.nextCall + 2)
  }

  /** The lease that goes out, before and after its caller has got it. */
  lemma LeaseGoesOut(s: State, o: Id, token: nat)
    requires Overtakable(s, o, token)
    ensures var n, s2 := s.nextCall, OpenCall(Waited(s), ClaimCall(OwnerOf(s, o)));
            && Claimable(s2.db, o, OwnerOf(s, o).id, s2.clock)
            && var s3 := ClaimLease(s2, n, true, o, token);
            && n + 1 in s3.calls && s3.calls[n + 1] == LeasedCall(o, token, EffectivePhase(s.db.operations[o]))
            && s3.db.proposals == s.db.proposals && o in s3.db.operations && s3.db.operations[o].proposalId == s.db.operations[o].proposalId
            && DropCall(s3, n + 1) == ClaimedState(s, o, token)
  {
    hide WorkerBusy, Working;
    var n, s2 := s.nextCall, OpenCall(Waited(s), ClaimCall(OwnerOf(s, o)));
    NobodyIsBusy(s, o, token);
    Resumable(s, o, token);
    var s3 := ClaimLease(s2, n, true, o, token);
    assert n !in s.calls && n + 1 !in s.calls;
    assert (s.calls[n := ClaimCall(OwnerOf(s, o))] - {n})[n + 1 := s3.calls[n + 1]] - {n + 1} == s.calls;
  }

  /** After the claim the operation is the new run's, and nothing outstanding has changed. */
  lemma Claims(w: System, o: Id, token: nat)
    requires Overtakable(w.broker, o, token)
    ensures PlayOn(w, Claiming(w.broker, o, token))
         == System(ClaimedState(w.broker, o, token),
                   w.workers[token := Newcomer(o, OwnerOf(w.broker, o).userId, EffectivePhase(w.broker.db.operations[o]))])
  {
    hide PlayOn, Moved, Claimable, ClaimLease, ClaimedState;
    var s := w.broker;
    var p, n, now := OwnerOf(s, o), s.nextCall, s.clock + LEASE_LIFETIME;
    PlayFour(w, Broker(DoWait(now)), Broker(DoClaim(p.userId, p.id)), Broker(DoClaimLease(n, true, o, token)), RunStart(n + 1));
    Waits(w, now);
    var w1 := w.(broker := Waited(s));
    AsksToClaim(w1, p.userId, p.id);
    var w2 := w1.(broker := OpenCall(Waited(s), ClaimCall(p)));
    LeaseGoesOut(s, o, token);
    IsLeased(w2, n, o, token);
    Starts(w2.(broker := ClaimLease(w2.broker, n, true, o, token)), n + 1, o, token, EffectivePhase(s.db.operations[o]));
  }

  lemma Resumable(s: State, o: Id, token: nat)
    requires Overtakable(s, o, token)
    ensures StartPhase(s.db.operations[o]) == Some(EffectivePhase(s.db.operations[o]))
  {
  }

  // ---- giving up -----------------------------------------------------------------------------

  /** The lease of the operation is the run's, and has not expired. */
  predicate Leads(w: System, o: Id, token: nat) {
    var s := w.broker;
    && o in s.db.operations && s.db.operations[o].id == o && s.db.operations[o].proposalId in s.db.proposals
    && s.db.operations[o].lease.Some? && s.db.operations[o].lease.value.token == token
    && s.clock < s.db.operations[o].lease.value.expiresAt && s.nextCall !in s.calls
    && token in w.workers && w.workers[token] == Newcomer(o, OwnerOf(s, o).userId, w.workers[token].attempted)
  }

  function GiveUpCall(s: State, o: Id, token: nat): Call
    requires o in s.db.operations && s.db.operations[o].proposalId in s.db.proposals
  {
    AdvanceCall(s.db.operations[o], OwnerOf(s, o), Advance(o, token, ReconcileRequired, Some("x"), None))
  }

  lemma AsksToGiveUp(w: System, o: Id, token: nat)
    requires Leads(w, o, token)
    ensures var s := w.broker;
            Moved(w, RunEvent(token, FailedEvent("x", true)))
            == System(OpenCall(s, GiveUpCall(s, o, token)),
                      w.workers[token := w.workers[token].(stage := Advancing(Some(s.nextCall), ReportFailure))])
  {
    hide OpenCall;
    assert OpenCall(w.broker, GiveUpCall(w.broker, o, token)).nextCall == w.broker.nextCall + 1 by { Opened(w.broker, GiveUpCall(w.broker, o, token)); }
  }

  lemma Opened(s: State, call: Call)
    ensures OpenCall(s, call).nextCall == s.nextCall + 1
  {
  }

  lemma HasGivenUp(w: System, s: State, o: Id, token: nat, r: Worker)
    requires o in s.db.operations && s.db.operations[o].id == o && s.db.operations[o].proposalId in s.db.proposals
    requires s.db.operations[o].lease.Some? && s.db.operations[o].lease.value.token == token
    requires s.clock < s.db.operations[o].lease.value.expiresAt && s.nextCall !in s.calls
    requires w == System(OpenCall(s, GiveUpCall(s, o, token)), w.workers)
    requires token in w.workers && w.workers[token] == r.(stage := Advancing(Some(s.nextCall), ReportFailure))
    ensures var w' := Moved(w, RunAdvanced(token, true));
            && o in w'.broker.db.operations && w'.broker.db.operations[o].phase == ReconcileRequired
            && w'.broker.calls == s.calls && w'.workers - {token} == w.workers - {token}
  {
    var c := GiveUpCall(s, o, token);
    assert Commits(s.db, c.row, c.proposal.projectName, c.advance, s.clock);
    assert w.broker.calls - {s.nextCall} == s.calls;
  }

  /** The run of a current lease gives up: the operation is finished, and every other run is as it was. */
  lemma GivesUp(w: System, o: Id, token: nat)
    requires Leads(w, o, token)
    ensures var w' := PlayOn(w, GivingUp(token));
            && o in w'.broker.db.operations && w'.broker.db.operations[o].phase == ReconcileRequired
            && w'.broker.calls == w.broker.calls
            && w'.workers - {token} == w.workers - {token}
  {
    hide PlayOn, Moved, OpenCall;
    PlayTwo(w, RunEvent(token, FailedEvent("x", true)), RunAdvanced(token, true));
    AsksToGiveUp(w, o, token);
    HasGivenUp(Moved(w, RunEvent(token, FailedEvent("x", true))), w.broker, o, token, w.workers[token]);
  }

  /** Whatever the other runs could do they can still do. */
  ghost predicate StillGoing(w: System, w': System) {
    && (forall t :: t in w.workers ==> t in w'.workers && w'.workers[t] == w.workers[t])
    && (forall c :: c in w.broker.calls ==> c in w'.broker.calls && w'.broker.calls[c] == w.broker.calls[c])
  }

  function Overtaking(s: State, o: Id, token: nat): seq<Move>
    requires o in s.db.operations && s.db.operations[o].proposalId in s.db.proposals
  {
    Claiming(s, o, token) + GivingUp(token)
  }

  lemma IsOvertaken(w: System, o: Id, token: nat)
    requires Overtakable(w.broker, o, token) && token !in w.workers
    ensures var w' := PlayOn(w, Overtaking(w.broker, o, token));
            && o in w'.broker.db.operations && w'.broker.db.operations[o].phase == ReconcileRequired
            && StillGoing(w, w')
  {
    hide PlayOn;
    var s := w.broker;
    Claims(w, o, token);
    var w1 := PlayOn(w, Claiming(s, o, token));
    GivesUp(w1, o, token);
    PlaysOnOn(w, Claiming(s, o, token), GivingUp(token));
    var w' := PlayOn(w1, GivingUp(token));
    forall t | t in w.workers ensures t in w'.workers && w'.workers[t] == w.workers[t] {
      assert t in w1.workers - {token};
      assert (w'.workers - {token})[t] == (w1.workers - {token})[t];
    }
  }
}
