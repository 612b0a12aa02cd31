/**
 When runs start and finalize, how often, and what they can still do once they are overtaken, over
 every interleaving of worker runs.
 */
module ProjectWorkerTheorems {
  import opened Options
  import opened ProjectTypes
  import opened ProjectSteps
  import opened ProjectSafety
  import opened ProjectTheorems
  import opened ProjectWorker
  import opened ProjectWorkerSafety
  import opened ProjectWorkerHistory
  import opened ProjectOvertaking

  // ---- how far an operation is -----------------------------------------------------------------

  /** No run of the operation knows a phase beyond this one to be committed. */
  ghost predicate NoneBeyond(w: System, o: Id, phase: Phase) {
    forall u :: u in w.workers && w.workers[u].operationId == o ==> Rank(w.workers[u].reached) <= Rank(phase)
  }

  /** An operation is exactly as far as the furthest checkpoint its runs know to be committed. */
  lemma {:induction false} FurthestCheckpoint(moves: seq<Move>, o: Id, phase: Phase)
    requires o in Play(moves).broker.db.operations
    ensures var w := Play(moves);
            Rank(EffectivePhase(w.broker.db.operations[o])) <= Rank(phase) <==> NoneBeyond(w, o, phase)
  {
    hide Orderly, CallsOwned, SettledOnce, RunsCurrent, LeasesCurrent, Dated, Holds, StageOk, CallMatches, EffectivePhase;
    PlayHistoric(moves);
    var w := Play(moves);
    var effective := EffectivePhase(w.broker.db.operations[o]);
    assert Attained(w.workers, o, effective);
    if effective != Reserved {
      var u :| u in w.workers && KnowsPhase(w.workers[u], o, effective);
    }
    forall u | u in w.workers && w.workers[u].operationId == o ensures Rank(w.workers[u].reached) <= Rank(effective) {
      assert RunOk(w.workers[u], u, w.broker);
    }
  }

  /** A working operation is at its effective phase, or a run has failed there and it is to be retried. */
  lemma AtPhase(s: State, o: Id, phase: Phase)
    requires Sound(s) && o in s.db.operations && Working(phase)
    ensures var row := s.db.operations[o];
            && (Rank(EffectivePhase(row)) == Rank(phase) <==> row.phase == phase || (row.phase == FailedRetryable && row.resumePhase == Some(phase)))
            && (Finished(row) <==> Rank(EffectivePhase(row)) > Rank(ThreadStarted))
  {
    hide Sound;
    if s.db.operations[o].phase == FailedRetryable { FailedResumes(s, o); }
  }

  lemma FailedResumes(s: State, o: Id)
    requires Sound(s) && o in s.db.operations && s.db.operations[o].phase == FailedRetryable
    ensures s.db.operations[o].resumePhase.Some? && Working(s.db.operations[o].resumePhase.value)
  {
    hide UniqueProposals, GrantedOnce, ConsumedOnce, CallsOk, LeasesIssued, SingleLease, ValidEvidence, EffectivePhase;
  }

  // ---- when a run finalizes ----------------------------------------------------------------------

  /**
   A run calls the finalizer only for an operation that has got as far as `pushed`, and never twice.
   The operation is no further exactly when no run of it knows a later checkpoint to be committed, and
   it is at `pushed` itself as long as the run's lease is still its own, in particular while the
   lease has not expired.
   */
  lemma {:induction false} FinalizesAtPushed(moves: seq<Move>, token: nat, event: Event)
    requires var w := Play(moves); Possible(w, RunEvent(token, event)) && Finalizes(w.workers[token], event)
    ensures var w := Play(moves);
            var r, operations := w.workers[token], w.broker.db.operations;
            && !r.finalized
            && r.operationId in operations
            && Rank(Pushed) <= Rank(EffectivePhase(operations[r.operationId]))
            && (EffectivePhase(operations[r.operationId]) == Pushed <==> NoneBeyond(w, r.operationId, Pushed))
            && (Holds(operations, r.operationId, token) ==> operations[r.operationId].phase == Pushed)
            && (Unexpired(w.broker, token) ==> Holds(operations, r.operationId, token))
  {
    hide Orderly, CallsOwned, SettledOnce, Explained, LeasesCurrent, Dated, NoneBeyond;
    PlayHistoric(moves);
    var w := Play(moves);
    var r := w.workers[token];
    assert RunOk(r, token, w.broker);
    FurthestCheckpoint(moves, r.operationId, Pushed);
  }

  /**
   While the operation is at `pushed` or before, time alone decides: once the lease has run out it can
   be claimed again, and every run that has started, or whose lease is on its way, is where it was
   while the operation goes to reconciliation.
   */
  lemma {:induction false} AnyLeaseCanBeOvertaken(moves: seq<Move>, o: Id, token: nat)
    requires var s := Play(moves).broker;
             o in s.db.operations && Working(EffectivePhase(s.db.operations[o])) && EffectivePhase(s.db.operations[o]) != ThreadStarted
    requires token !in Play(moves).broker.issued
    ensures var w := Play(moves);
            && w.broker.db.operations[o].proposalId in w.broker.db.proposals
            && var w' := Play(moves + Overtaking(w.broker, o, token));
            && o in w'.broker.db.operations && w'.broker.db.operations[o].phase == ReconcileRequired
            && StillGoing(w, w')
  {
    hide Historic, Regular, PlayOn, Overtaking, Overtakable;
    var w := Play(moves);
    PlayHistoric(moves);
    ReadyToOvertake(w, o, token);
    OwnerIsThere(w.broker, o, token);
    PlaysOn(moves, Overtaking(w.broker, o, token));
    IsOvertaken(w, o, token);
  }

  lemma OwnerIsThere(s: State, o: Id, token: nat)
    requires Overtakable(s, o, token)
    ensures o in s.db.operations && s.db.operations[o].proposalId in s.db.proposals
  {
  }

  lemma ReadyToOvertake(w: System, o: Id, token: nat)
    requires Regular(w) && Historic(w) && token !in w.broker.issued
    requires var s := w.broker;
             o in s.db.operations && Working(EffectivePhase(s.db.operations[o])) && EffectivePhase(s.db.operations[o]) != ThreadStarted
    ensures Overtakable(w.broker, o, token) && token !in w.workers
  {
    hide Explained, RunsCurrent, LeasesCurrent, CallsOwned, SettledOnce, OneAdvanceEach, AllFresh, CallsOk, StageOk, CallMatches, RowsOk, GrantedOnce, UniqueProposals;
    var s := w.broker;
    forall p | p in s.db.operations ensures LeaseEnds(s.db.operations[p], s.clock + LEASE_LIFETIME) {
      assert LeaseIssued(s.db.operations[p], s.issued);
    }
    assert HasOperation(s.db.operations, s.db.operations[o].proposalId);
    forall t | t in w.workers ensures t in s.issued { assert RunOk(w.workers[t], t, s); }
  }

  // ---- how often -----------------------------------------------------------------------------

  ghost function Finalizers(w: System, o: Id): set<nat> {
    set t | t in w.workers && w.workers[t].operationId == o && w.workers[t].finalized
  }

  /** The runs that have finalized without getting a checkpoint through. */
  ghost function Uncommitted(w: System, o: Id): set<nat> {
    set t | t in w.workers && w.workers[t].operationId == o && w.workers[t].finalized && !w.workers[t].settled
  }

  /**
   An operation is finalized at most once, not counting runs that got no checkpoint through; and such
   a run, once it has ended, has had its own reconcile checkpoint refused.
   */
  lemma {:induction false} FinalizedOncePlusRefused(moves: seq<Move>, o: Id)
    ensures var w := Play(moves);
            && |Finalizers(w, o)| <= 1 + |Uncommitted(w, o)|
            && forall t :: t in Uncommitted(w, o) && w.workers[t].stage == Ended ==> w.workers[t].refused
  {
    hide Orderly, CallsOwned;
    PlayRegular(moves);
    var w := Play(moves);
    var rest := Finalizers(w, o) - Uncommitted(w, o);
    forall t, u | t in rest && u in rest ensures t == u {
      assert SettledTogether(w.workers[t], w.workers[u]);
    }
    AtMostOne(rest);
    assert Finalizers(w, o) == rest + Uncommitted(w, o);
    forall t | t in Uncommitted(w, o) && w.workers[t].stage == Ended ensures w.workers[t].refused {
      assert RunOk(w.workers[t], t, w.broker);
    }
  }

  lemma AtMostOne(s: set<nat>)
    requires forall t, u :: t in s && u in s ==> t == u
    ensures |s| <= 1
  {
    if s != {} {
      var t :| t in s;
      assert s == {t};
    }
  }

  // ---- where a run starts ---------------------------------------------------------------------

  /** A run that starts with a lease the operation still carries finds it unfinished, where the lease says. */
  lemma {:induction false} StartsUnfinished(moves: seq<Move>, call: nat)
    requires var w := Play(moves); Possible(w, RunStart(call))
    requires var w := Play(moves); Holds(w.broker.db.operations, w.broker.calls[call].operationId, w.broker.calls[call].token)
    ensures var s := Play(moves).broker;
            var c := s.calls[call];
            !Finished(s.db.operations[c.operationId]) && s.db.operations[c.operationId].phase == c.startPhase
  {
    hide RunsOk, SettledOnce, AllFresh, OneAdvanceEach;
    PlayRegular(moves);
    var w := Play(moves);
    assert Owned(call, w.broker, w.workers);
    LeasedIsWorking(w.broker, w.broker.calls[call].operationId);
  }

  /** Some run of the operation has completed it or sent it to reconciliation. */
  ghost predicate FinishedByRun(w: System, o: Id) {
    exists u :: u in w.workers && w.workers[u].operationId == o && (w.workers[u].reached == Completed || w.workers[u].reached == ReconcileRequired)
  }

  /**
   In general a run finds its operation where its lease says, or to be retried there, exactly when no
   other run has committed a checkpoint past that phase; it finds it finished exactly when another run
   has finished it.  An unexpired lease rules that out, and one that is no longer the operation's has
   a superseded token.
   */
  lemma {:induction false} StartsExactly(moves: seq<Move>, call: nat)
    requires Possible(Play(moves), RunStart(call))
    ensures var w := Play(moves);
            var c, operations := w.broker.calls[call], w.broker.db.operations;
            && c.operationId in operations
            && var row := operations[c.operationId];
            && (row.phase == c.startPhase || (row.phase == FailedRetryable && row.resumePhase == Some(c.startPhase))
                <==> NoneBeyond(w, c.operationId, c.startPhase))
            && (Finished(row) <==> FinishedByRun(w, c.operationId))
            && (Unexpired(w.broker, c.token) ==> Holds(operations, c.operationId, c.token))
            && (!Holds(operations, c.operationId, c.token) ==> Superseded(w.broker, c.token))
  {
    hide Orderly, RunsOk, SettledOnce, Explained, RunsCurrent, Dated, NoneBeyond, FinishedByRun, Superseded, Holds, EffectivePhase, Finished;
    PlayHistoric(moves);
    var w := Play(moves);
    var c := w.broker.calls[call];
    OrderlyIsSound(w.broker);
    assert Owned(call, w.broker, w.workers);
    AtPhase(w.broker, c.operationId, c.startPhase);
    FurthestCheckpoint(moves, c.operationId, c.startPhase);
    FinishedExactly(moves, c.operationId);
    if !Holds(w.broker.db.operations, c.operationId, c.token) { LostIsSuperseded(w.broker, c.operationId, c.token); }
  }

  lemma BeyondThreadStarted(w: System, o: Id)
    ensures NoneBeyond(w, o, ThreadStarted) <==> !FinishedByRun(w, o)
  {
    forall u | u in w.workers ensures Rank(w.workers[u].reached) > Rank(ThreadStarted)
                                      <==> w.workers[u].reached == Completed || w.workers[u].reached == ReconcileRequired {}
  }

  /** An operation is finished exactly when one of its runs has finished it. */
  lemma {:induction false} FinishedExactly(moves: seq<Move>, o: Id)
    requires o in Play(moves).broker.db.operations
    ensures var w := Play(moves);
            Finished(w.broker.db.operations[o]) <==> FinishedByRun(w, o)
  {
    hide Play, Orderly, RunsOk, CallsOwned, SettledOnce, EffectivePhase, Finished, NoneBeyond, FinishedByRun;
    PlayRegular(moves);
    var w := Play(moves);
    OrderlyIsSound(w.broker);
    AtPhase(w.broker, o, ThreadStarted);
    FurthestCheckpoint(moves, o, ThreadStarted);
    BeyondThreadStarted(w, o);
  }

  /** A token that was issued for an operation and that it does not carry is carried by none. */
  lemma LostIsSuperseded(s: State, o: Id, token: nat)
    requires Sound(s) && token in s.issued && s.issued[token].operationId == o && !Holds(s.db.operations, o, token)
    ensures Superseded(s, token)
  {
    hide CallsOk, SingleLease, RowsOk, ConsumedOnce, GrantedOnce, UniqueProposals;
    forall p | p in s.db.operations ensures !Holds(s.db.operations, p, token) {
      assert LeaseIssued(s.db.operations[p], s.issued);
    }
  }

  // ---- overtaken runs --------------------------------------------------------------------------

  /** A run, or a lease on its way, that the operation no longer carries. */
  ghost predicate Lost(w: System, token: nat) {
    || (token in w.workers && !Holds(w.broker.db.operations, w.workers[token].operationId, token))
    || (exists c :: c in w.broker.calls && LostLease(w.broker, c, token))
  }

  predicate LostLease(s: State, c: nat, token: nat)
    requires c in s.calls
  {
    s.calls[c].LeasedCall? && s.calls[c].token == token && !Holds(s.db.operations, s.calls[c].operationId, token)
  }

  lemma LostRunIsSuperseded(w: System, token: nat)
    requires Regular(w) && Lost(w, token)
    ensures Superseded(w.broker, token)
  {
    hide Orderly, SettledOnce, StageOk, CallMatches, Superseded, Holds;
    OrderlyIsSound(w.broker);
    if token in w.workers && !Holds(w.broker.db.operations, w.workers[token].operationId, token) {
      assert RunOk(w.workers[token], token, w.broker);
      LostIsSuperseded(w.broker, w.workers[token].operationId, token);
    } else {
      var c :| c in w.broker.calls && LostLease(w.broker, c, token);
      assert Owned(c, w.broker, w.workers);
      LostIsSuperseded(w.broker, w.broker.calls[c].operationId, token);
    }
  }

  /** The step of the broker in a move that can change its tables. */
  function TableStep(w: System, move: Move): Option<Step> {
    if !Possible(w, move) then None
    else
      match move
      case Broker(step) => Some(step)
      case RunAdvanced(token, valid) =>
        if w.workers[token].stage.call.Some? then Some(DoAdvanceEnd(w.workers[token].stage.call.value, valid)) else None
      case _ => None
  }

  lemma MovedTables(w: System, move: Move)
    ensures var s, step := w.broker, TableStep(w, move);
            var s' := if step.Some? then Next(s, step.value) else s;
            Moved(w, move).broker.db == s'.db && Moved(w, move).broker.issued == s'.issued
  {
    hide Next, Continues, Start, OnEvent, OnFinalized, OnAdvanced;
    if Possible(w, move) {
      match move
      case Broker(step) =>
      case RunStart(call) => StartsTables(w, call);
      case RunEvent(t, event) =>
        EventContinues(w, t, event);
        SameTables(w, OnEvent(w, t, event), t, w.workers[t]);
      case RunFinalized(t, evidence) =>
        FinalizedContinues(w, t, evidence);
        SameTables(w, OnFinalized(w, t, evidence), t, w.workers[t]);
      case RunAdvanced(t, valid) => AnsweredTables(w, t, valid);
    }
  }

  lemma SupersededMoves(w: System, move: Move, token: nat)
    requires Regular(w) && Superseded(w.broker, token)
    ensures Superseded(Moved(w, move).broker, token)
  {
    hide Orderly, RunsOk, CallsOwned, SettledOnce, Next, Moved, TableStep;
    OrderlyIsSound(w.broker);
    MovedTables(w, move);
    if TableStep(w, move).Some? { SupersededStays(w.broker, TableStep(w, move).value, token); }
  }

  lemma StartsTables(w: System, call: nat)
    requires call in w.broker.calls && w.broker.calls[call].LeasedCall?
    ensures Start(w, call).broker.db == w.broker.db && Start(w, call).broker.issued == w.broker.issued
  {
  }

  lemma SameTables(w: System, w': System, token: nat, r: Worker)
    requires Continues(w, w', token, r)
    ensures w'.broker.db == w.broker.db && w'.broker.issued == w.broker.issued
  {
  }

  /** What the answer of an advance does to the tables, whatever the run makes of it. */
  lemma AnsweredTables(w: System, token: nat, valid: bool)
    requires token in w.workers && w.workers[token].stage.Advancing?
    ensures var s, call := w.broker, w.workers[token].stage.call;
            var s' := if call.Some? then Next(s, DoAdvanceEnd(call.value, valid)) else s;
            OnAdvanced(w, token, valid).broker.db == s'.db && OnAdvanced(w, token, valid).broker.issued == s'.issued
  {
    hide Continues, Resume, Commits;
    var s, r := w.broker, w.workers[token];
    var granted := AdvanceGranted(s, r.stage.call, valid);
    var w0 := w.(broker := Answered(s, r.stage.call, valid));
    var r0 := if granted then Checkpointed(r, s.calls[r.stage.call.value].advance.next) else r;
    ResumeContinues(w0, token, r0, granted);
    SameTables(w0, OnAdvanced(w, token, valid), token, r0);
  }

  lemma FinishedMoves(w: System, move: Move, o: Id)
    requires Regular(w) && o in w.broker.db.operations && Finished(w.broker.db.operations[o])
    ensures var operations := Moved(w, move).broker.db.operations; o in operations && operations[o] == w.broker.db.operations[o]
  {
    hide Orderly, RunsOk, CallsOwned, SettledOnce, Next, Moved, TableStep;
    OrderlyIsSound(w.broker);
    MovedTables(w, move);
    if TableStep(w, move).Some? { FinishedStays(w.broker, TableStep(w, move).value, o); }
  }

  lemma {:induction false} FinishedPlay(moves: seq<Move>, more: seq<Move>, o: Id)
    requires var operations := Play(moves).broker.db.operations; o in operations && Finished(operations[o])
    ensures var before, after := Play(moves).broker.db.operations, Play(moves + more).broker.db.operations;
            o in after && after[o] == before[o]
    decreases |more|
  {
    hide Moved, Regular;
    if more == [] {
      assert moves + more == moves;
    } else {
      var init := more[..|more| - 1];
      FinishedPlay(moves, init, o);
      PlayRegular(moves + init);
      assert (moves + more)[..|moves + more| - 1] == moves + init;
      FinishedMoves(Play(moves + init), more[|more| - 1], o);
    }
  }

  /** Once an operation is completed or needs reconciliation, no lease is ever given out for it again. */
  lemma {:induction false} FinishedIsNotClaimed(moves: seq<Move>, more: seq<Move>, call: nat, valid: bool, o: Id, token: nat)
    requires var operations := Play(moves).broker.db.operations; o in operations && Finished(operations[o])
    requires Enabled(Play(moves + more).broker, DoClaimLease(call, valid, o, token))
    ensures var s := Play(moves + more).broker;
            Next(s, DoClaimLease(call, valid, o, token)) == DropCall(s, call)
  {
    hide WorkerBusy, Play;
    FinishedPlay(moves, more, o);
  }

  lemma {:induction false} SupersededPlay(moves: seq<Move>, more: seq<Move>, token: nat)
    requires Superseded(Play(moves).broker, token)
    ensures Superseded(Play(moves + more).broker, token)
    decreases |more|
  {
    hide Moved, Superseded, Regular;
    if more == [] {
      assert moves + more == moves;
    } else {
      var init := more[..|more| - 1];
      SupersededPlay(moves, init, token);
      PlayRegular(moves + init);
      assert (moves + more)[..|moves + more| - 1] == moves + init;
      SupersededMoves(Play(moves + init), more[|more| - 1], token);
    }
  }

  /** Once the operation no longer carries its lease, no answer to the run ever changes a table. */
  lemma {:induction false} LostRunIsFenced(moves: seq<Move>, more: seq<Move>, token: nat, valid: bool)
    requires Lost(Play(moves), token) && Possible(Play(moves + more), RunAdvanced(token, valid))
    ensures var w := Play(moves + more);
            Moved(w, RunAdvanced(token, valid)).broker.db == w.broker.db
  {
    hide Orderly, CallsOwned, SettledOnce, Lost, Superseded, Next, Informed, StageOk, OnAdvanced;
    PlayRegular(moves);
    LostRunIsSuperseded(Play(moves), token);
    SupersededPlay(moves, more, token);
    PlayRegular(moves + more);
    var w := Play(moves + more);
    AnsweredTables(w, token, valid);
    assert RunOk(w.workers[token], token, w.broker);
    if w.workers[token].stage.call.Some? {
      var call := w.workers[token].stage.call.value;
      if Enabled(w.broker, DoAdvanceEnd(call, valid)) { SupersededChangesNothing(w.broker, call, valid); } else { NoStep(w.broker, DoAdvanceEnd(call, valid)); }
    }
  }

  lemma NoStep(s: State, step: Step)
    requires !Enabled(s, step)
    ensures Next(s, step) == s
  {
  }
}
