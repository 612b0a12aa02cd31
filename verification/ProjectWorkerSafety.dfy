/**
 What any number of worker runs keep: when the finalizer runs, and how often.
 */
module ProjectWorkerSafety {
  import opened Options
  import opened ProjectTypes
  import opened ProjectSteps
  import opened ProjectSafety
  import opened ProjectTheorems
  import opened ProjectWorker

  // ---- the invariant -----------------------------------------------------------------------

  /** What a run knows about its operation. */
  predicate Informed(r: Worker, token: nat, operations: map<Id, Operation>, issued: map<nat, Issue>) {
    && token in issued && issued[token].operationId == r.operationId
    && r.operationId in operations
    && Rank(r.reached) <= Rank(EffectivePhase(operations[r.operationId]))
    && (r.stage != Ended && Holds(operations, r.operationId, token) ==> operations[r.operationId].phase == r.reached)
  }

  /** Where a run that has finalized is until a checkpoint of its is committed. */
  predicate Unsettled(r: Worker) {
    && r.attempted == ThreadStarted && !r.terminal
    && (r.stage != Ended ==> r.reached == Pushed)
  }

  predicate StageOk(r: Worker) {
    && (r.settled ==> r.finalized && Rank(r.reached) >= Rank(ThreadStarted))
    && (r.finalized && !r.settled ==> Unsettled(r) && (r.stage == Ended ==> r.refused))
    && match r.stage
       case Ready => (r.finalized ==> r.terminal) && (!r.terminal ==> r.attempted == r.reached)
       case Finalizing => r.finalized && !r.settled
       case Advancing(_, purpose) =>
         && (r.finalized ==> purpose == RegisterThread || purpose == Complete || purpose == Recover)
         && !r.terminal
         && (r.finalized ==> r.attempted == ThreadStarted)
         && (purpose == RegisterThread ==> r.finalized && !r.settled)
         && (purpose == Complete ==> r.settled)
       case Ended => true
  }

  /** The advance a run waits for is its own. */
  predicate CallMatches(r: Worker, token: nat, s: State) {
    r.stage.Advancing? && r.stage.call.Some? ==>
      && r.stage.call.value < s.nextCall
      && (r.stage.call.value in s.calls ==>
            && s.calls[r.stage.call.value].AdvanceCall?
            && Requested(r, token, s.calls[r.stage.call.value].advance))
  }

  predicate Requested(r: Worker, token: nat, a: Advance)
    requires r.stage.Advancing?
  {
    && a.token == token && a.operationId == r.operationId
    && match r.stage.purpose
       case Direct => a.next == Completed
       case Complete => a.next == Completed
       case RegisterThread => a.next == ThreadStarted
       case ReportPhase => a.next == r.attempted && ReportedPhase(a.next)
       case ReportFailure => a.next == FailedRetryable || a.next == ReconcileRequired
       case Recover => if r.finalized then a.next == ReconcileRequired else a.next == FailedRetryable || a.next == ReconcileRequired
  }

  predicate RunOk(r: Worker, token: nat, s: State) {
    Informed(r, token, s.db.operations, s.issued) && StageOk(r) && CallMatches(r, token, s)
  }

  ghost predicate RunsOk(workers: map<nat, Worker>, s: State) {
    forall t :: t in workers ==> RunOk(workers[t], t, s)
  }

  /** Every outstanding advance is some run's, and every lease on its way is nobody's yet. */
  predicate Owned(c: nat, s: State, workers: map<nat, Worker>)
    requires c in s.calls
  {
    match s.calls[c]
    case AdvanceCall(_, _, a) =>
      a.token in workers && workers[a.token].stage.Advancing? && workers[a.token].stage.call == Some(c)
    case LeasedCall(o, token, startPhase) =>
      && token !in workers && token in s.issued && s.issued[token].operationId == o && o in s.db.operations
      && Rank(startPhase) <= Rank(EffectivePhase(s.db.operations[o]))
      && (Holds(s.db.operations, o, token) ==> s.db.operations[o].phase == startPhase)
    case _ => true
  }

  ghost predicate CallsOwned(s: State, workers: map<nat, Worker>) {
    && (forall c :: c in s.calls ==> Owned(c, s, workers))
    && (forall c, d :: c in s.calls && d in s.calls && c != d && s.calls[c].LeasedCall? && s.calls[d].LeasedCall?
          ==> s.calls[c].token != s.calls[d].token)
  }

  predicate SettledTogether(r: Worker, q: Worker) {
    r.operationId == q.operationId && r.settled && q.settled
  }

  /** Of the runs of one operation at most one got a checkpoint through after finalizing. */
  ghost predicate SettledOnce(workers: map<nat, Worker>) {
    forall t, u :: t in workers && u in workers && SettledTogether(workers[t], workers[u]) ==> t == u
  }

  ghost predicate Regular(w: System) {
    && Orderly(w.broker) && RunsOk(w.workers, w.broker) && CallsOwned(w.broker, w.workers) && SettledOnce(w.workers)
  }

  // ---- broker steps seen from a run ----------------------------------------------------------

  predicate OwnAnswer(s: State, step: Step, token: nat) {
    step.DoAdvanceEnd? && step.call in s.calls && SameToken(s.calls[step.call], token)
  }

  /** Only its own advance changes the phase of a row that carries a token, and no token comes back. */
  lemma HoldFrame(s: State, step: Step, token: nat, o: Id)
    requires Sound(s) && Enabled(s, step) && token in s.issued && !OwnAnswer(s, step, token)
    requires o in s.db.operations && Holds(Next(s, step).db.operations, o, token)
    ensures Holds(s.db.operations, o, token) && Next(s, step).db.operations[o].phase == s.db.operations[o].phase
  {
    hide DbOk, LeasesIssued, SingleLease, ThreadGranted, Claimable, HasOperation, Insertable, Answers, CallsOk;
    if step.DoAdvanceEnd? {
      var c := s.calls[step.call];
      CallIsOk(s, step.call);
      if Commits(s.db, c.row, c.proposal.projectName, c.advance, s.clock) {
        AcceptedToken(c.row, c.proposal.projectName, c.advance, s.clock);
      }
    }
  }

  /** Tokens, operations and outstanding calls only grow at their ends. */
  lemma GrowFrame(s: State, step: Step)
    requires Sound(s) && Enabled(s, step)
    ensures var s' := Next(s, step);
            && s.nextCall <= s'.nextCall
            && (forall t :: t in s.issued ==> t in s'.issued && s'.issued[t] == s.issued[t])
            && (forall c :: c in s'.calls ==> if c < s.nextCall then c in s.calls && s'.calls[c] == s.calls[c] else c == s.nextCall)
  {
    hide DbOk, LeasesIssued, SingleLease, Accepts, ThreadGranted, Claimable, Insertable, Answers, CallOk;
  }

  lemma RunFrame(r: Worker, token: nat, s: State, step: Step)
    requires Orderly(s) && Enabled(s, step) && (step.DoAdvance? ==> !TokenInUse(s, step.advance.token))
    requires RunOk(r, token, s) && !OwnAnswer(s, step, token)
    ensures RunOk(r, token, Next(s, step))
  {
    hide Sound, Next, OneAdvanceEach, AllFresh, StageOk, Enabled, Holds, OwnAnswer;
    StepOrderly(s, step);
    GrowFrame(s, step);
    if Holds(Next(s, step).db.operations, r.operationId, token) {
      HoldFrame(s, step, token, r.operationId);
    }
  }

  lemma RunsFrame(workers: map<nat, Worker>, s: State, step: Step)
    requires Orderly(s) && Enabled(s, step) && (step.DoAdvance? ==> !TokenInUse(s, step.advance.token))
    requires RunsOk(workers, s) && forall t :: t in workers ==> !OwnAnswer(s, step, t)
    ensures RunsOk(workers, Next(s, step))
  {
    hide Orderly, RunOk, Next, Enabled, TokenInUse;
    forall t | t in workers ensures RunOk(workers[t], t, Next(s, step)) { RunFrame(workers[t], t, s, step); }
  }

  lemma OwnedFrame(c: nat, s: State, step: Step, workers: map<nat, Worker>)
    requires Orderly(s) && Enabled(s, step) && (step.DoAdvance? ==> !TokenInUse(s, step.advance.token))
    requires c in s.calls && Owned(c, s, workers) && c in Next(s, step).calls && Next(s, step).calls[c] == s.calls[c]
    requires s.calls[c].LeasedCall? ==> !OwnAnswer(s, step, s.calls[c].token)
    ensures Owned(c, Next(s, step), workers)
  {
    hide Sound, Next, OneAdvanceEach, AllFresh, Enabled, Holds, OwnAnswer;
    StepOrderly(s, step);
    GrowFrame(s, step);
    if s.calls[c].LeasedCall? && Holds(Next(s, step).db.operations, s.calls[c].operationId, s.calls[c].token) {
      HoldFrame(s, step, s.calls[c].token, s.calls[c].operationId);
    }
  }

  // ---- the other callers -------------------------------------------------------------------

  lemma BrokerMoveKeeps(w: System, step: Step)
    requires Regular(w) && Possible(w, Broker(step)) && Enabled(w.broker, step)
    ensures Regular(Moved(w, Broker(step)))
  {
    hide Orderly, RunsOk, SettledOnce, TokenInUse, Next, Owned;
    var s, s' := w.broker, Next(w.broker, step);
    StepOrderly(s, step);
    RunsFrame(w.workers, s, step);
    OrderlyIsSound(s);
    GrowFrame(s, step);
    forall c | c in s'.calls ensures Owned(c, s', w.workers) {
      if c < s.nextCall {
        OwnedFrame(c, s, step, w.workers);
      } else {
        NewCallOwned(w, step, c);
      }
    }
    forall c, d | c in s'.calls && d in s'.calls && c != d && s'.calls[c].LeasedCall? && s'.calls[d].LeasedCall?
      ensures s'.calls[c].token != s'.calls[d].token
    {
      if c == s.nextCall { LeaseIsNew(w, step, d); }
      if d == s.nextCall { LeaseIsNew(w, step, c); }
    }
  }

  lemma OrderlyIsSound(s: State)
    requires Orderly(s)
    ensures Sound(s)
  {
  }

  lemma NewCallOwned(w: System, step: Step, c: nat)
    requires Regular(w) && Possible(w, Broker(step)) && Enabled(w.broker, step)
    requires c in Next(w.broker, step).calls && c == w.broker.nextCall
    ensures Owned(c, Next(w.broker, step), w.workers)
  {
    hide AllFresh, OneAdvanceEach, SettledOnce, StageOk, CallMatches, CallOk;
    var s := w.broker;
    assert c !in s.calls;
    if step.DoClaimLease? {
      ClaimOpens(s, step.call, step.evidence, step.id, step.token);
      forall t | t in w.workers ensures t in s.issued { assert RunOk(w.workers[t], t, s); }
    }
  }

  lemma ClaimOpens(s: State, call: nat, evidence: bool, o: Id, token: nat)
    requires Sound(s) && Enabled(s, DoClaimLease(call, evidence, o, token))
    ensures var s' := Next(s, DoClaimLease(call, evidence, o, token));
            s.nextCall in s'.calls ==>
              && o in s'.db.operations && s'.calls[s.nextCall] == LeasedCall(o, token, s'.db.operations[o].phase)
              && token in s'.issued && s'.issued[token].operationId == o
              && EffectivePhase(s'.db.operations[o]) == s'.db.operations[o].phase
  {
    hide CallOk, ValidEvidence, UniqueProposals, GrantedOnce;
    if evidence && Claimable(s.db, o, s.calls[call].proposal.id, s.clock) { RetryIsWorking(s, o); }
  }

  /** The token of a new lease is not the token of one on its way. */
  /** Only a claim opens a call that carries a lease. */
  lemma LeasedByClaim(s: State, step: Step)
    requires Enabled(s, step) && s.nextCall !in s.calls
    requires s.nextCall in Next(s, step).calls && Next(s, step).calls[s.nextCall].LeasedCall?
    ensures step.DoClaimLease?
  {
    hide Insertable, Answers, Accepts, ThreadGranted, Claimable, Holds, Confirmable, ClaimLease;
  }

  lemma LeaseIsNew(w: System, step: Step, d: nat)
    requires Regular(w) && Possible(w, Broker(step)) && Enabled(w.broker, step)
    requires var s' := Next(w.broker, step);
             && w.broker.nextCall in s'.calls && s'.calls[w.broker.nextCall].LeasedCall?
             && d in w.broker.calls && w.broker.calls[d].LeasedCall?
    ensures Next(w.broker, step).calls[w.broker.nextCall].token != w.broker.calls[d].token
  {
    hide AllFresh, OneAdvanceEach, SettledOnce, RunsOk, CallOk, Next;
    assert Owned(d, w.broker, w.workers);
    LeasedByClaim(w.broker, step);
    ClaimOpens(w.broker, step.call, step.evidence, step.id, step.token);
  }

  // ---- one run, set apart from the others ----------------------------------------------------

  /** The system without a run, whose token nothing outstanding carries. */
  ghost predicate Apart(w: System, token: nat) {
    && token !in w.workers && Regular(w)
    && forall c :: c in w.broker.calls && w.broker.calls[c].LeasedCall? ==> w.broker.calls[c].token != token
  }

  function Without(w: System, token: nat): System {
    w.(workers := w.workers - {token})
  }

  lemma TakeAway(w: System, token: nat)
    requires Regular(w) && token in w.workers && !w.workers[token].stage.Advancing?
    ensures Apart(Without(w, token), token)
  {
    hide Orderly, RunOk;
    var s := w.broker;
    forall c | c in s.calls ensures Owned(c, s, w.workers - {token}) { assert Owned(c, s, w.workers); }
  }

  lemma PutBack(w: System, token: nat, r: Worker)
    requires Apart(w, token) && RunOk(r, token, w.broker) && !r.stage.Advancing?
    requires r.settled ==> forall u :: u in w.workers ==> !SettledTogether(w.workers[u], r)
    ensures Regular(Update(w, token, r))
  {
    hide Orderly, RunOk;
    var s, workers := w.broker, w.workers[token := r];
    forall c | c in s.calls ensures Owned(c, s, workers) { assert Owned(c, s, w.workers); }
  }

  /** A run asks for an advance. */
  lemma AskKeeps(w: System, token: nat, r: Worker, next: Phase, failureClass: Option<string>, evidence: Option<Evidence>, purpose: Purpose)
    requires Apart(w, token) && Informed(r, token, w.broker.db.operations, w.broker.issued) && r.stage != Ended
    requires var r' := r.(stage := Advancing(None, purpose));
             StageOk(r') && Requested(r', token, Advance(r.operationId, token, next, failureClass, evidence))
    requires r.settled ==> forall u :: u in w.workers ==> !SettledTogether(w.workers[u], r)
    ensures Regular(Ask(w, token, r, next, failureClass, evidence, purpose))
  {
    hide Sound, AllFresh, OneAdvanceEach, Forward, Holds, StageOk, RunOk, Requested;
    var s := w.broker;
    var advance := Advance(r.operationId, token, next, failureClass, evidence);
    var step := DoAdvance(r.user, advance);
    NoneOutstanding(w, token);
    StepOrderly(s, step);
    var s' := Next(s, step);
    RunsFrame(w.workers, s, step);
    var w' := Ask(w, token, r, next, failureClass, evidence, purpose);
    var r' := w'.workers[token];
    CallsNumbered(s);
    AskedRunOk(s, r, token, advance, purpose);
    forall t | t in w'.workers ensures RunOk(w'.workers[t], t, s') { if t != token { assert RunOk(w.workers[t], t, s'); } }
    forall c | c in s'.calls ensures Owned(c, s', w'.workers) { AskedOwned(w, token, r, advance, purpose, c); }
  }

  lemma CallsNumbered(s: State)
    requires Sound(s)
    ensures forall c :: c in s.calls ==> c < s.nextCall
  {
  }

  lemma NoneOutstanding(w: System, token: nat)
    requires Apart(w, token)
    ensures !TokenInUse(w.broker, token)
  {
    hide Orderly, RunsOk;
    forall c | c in w.broker.calls ensures !SameToken(w.broker.calls[c], token) { assert Owned(c, w.broker, w.workers); }
  }

  lemma AskedRunOk(s: State, r: Worker, token: nat, advance: Advance, purpose: Purpose)
    requires Informed(r, token, s.db.operations, s.issued) && StageOk(r.(stage := Advancing(None, purpose))) && r.stage != Ended
    requires Requested(r.(stage := Advancing(None, purpose)), token, advance) && (forall c :: c in s.calls ==> c < s.nextCall)
    ensures var s' := AdvanceBegin(s, r.user, advance);
            RunOk(r.(stage := Advancing(if s'.nextCall == s.nextCall then None else Some(s.nextCall), purpose)), token, s')
  {
  }

  lemma AskedOwned(w: System, token: nat, r: Worker, advance: Advance, purpose: Purpose, c: nat)
    requires Apart(w, token) && advance.token == token && c in AdvanceBegin(w.broker, r.user, advance).calls
    ensures var s' := AdvanceBegin(w.broker, r.user, advance);
            Owned(c, s', w.workers[token := r.(stage := Advancing(if s'.nextCall == w.broker.nextCall then None else Some(w.broker.nextCall), purpose))])
  {
    hide AllFresh, OneAdvanceEach, RunsOk, SettledOnce, CallOk, DbOk, LeasesIssued, SingleLease;
    if c in w.broker.calls { assert Owned(c, w.broker, w.workers); }
  }

  lemma CatchKeeps(w: System, token: nat, r: Worker)
    requires Apart(w, token) && Informed(r, token, w.broker.db.operations, w.broker.issued) && r.stage != Ended
    requires r.settled ==> r.finalized && Rank(r.reached) >= Rank(ThreadStarted)
    requires r.finalized && !r.settled ==> Unsettled(r)
    requires r.finalized && !r.terminal ==> r.attempted == ThreadStarted
    requires r.settled ==> forall u :: u in w.workers ==> !SettledTogether(w.workers[u], r)
    ensures Regular(Catch(w, token, r))
  {
    hide Apart, Regular, Holds;
    if r.terminal {
      PutBack(w, token, r.(stage := Ended));
    } else {
      var next := if r.attempted == RemoteCreated || r.attempted == ThreadStarted || r.attempted == Completed
                  then ReconcileRequired else FailedRetryable;
      AskKeeps(w, token, r, next, Some("worker_protocol_failed"), None, Recover);
    }
  }

  // ---- the moves of a run ----------------------------------------------------------------------

  lemma OnlySettled(w: System, token: nat)
    requires Regular(w) && token in w.workers && w.workers[token].settled
    ensures forall u :: u in Without(w, token).workers ==> !SettledTogether(w.workers[u], w.workers[token])
  {
    hide Orderly, RunsOk, CallsOwned;
  }

  lemma EventKeeps(w: System, token: nat, event: Event)
    requires Regular(w) && token in w.workers && w.workers[token].stage == Ready
    ensures Regular(OnEvent(w, token, event))
  {
    hide Apart, Orderly, CallsOwned, SettledOnce, Holds;
    var r := w.workers[token];
    assert RunOk(r, token, w.broker);
    TakeAway(w, token);
    var v := Without(w, token);
    if r.settled { OnlySettled(w, token); }
    SameUpdate(w, token);
    match event {
      case DoneEvent =>
        if r.attempted != Pushed || r.terminal { CatchKeeps(v, token, r); }
        else { PutBack(v, token, r.(attempted := ThreadStarted, stage := Finalizing, finalized := true)); }
      case PhaseEvent(phase) =>
        if r.terminal || !ReportedPhase(phase) { CatchKeeps(v, token, r); }
        else { AskKeeps(v, token, r.(attempted := phase), phase, None, None, ReportPhase); }
      case FailedEvent(classification, reconcileRequired) =>
        if r.terminal { CatchKeeps(v, token, r); }
        else {
          AskKeeps(v, token, r, if reconcileRequired then ReconcileRequired else FailedRetryable, Some(classification), None, ReportFailure);
        }
      case ExecutorThrows => CatchKeeps(v, token, r);
      case ExecutorReturns => PutBack(v, token, r.(stage := Ended));
    }
  }

  /** Updating a run is putting it back. */
  lemma SameUpdate(w: System, token: nat)
    ensures forall r: Worker {:trigger w.workers[token := r]} :: Without(w, token).workers[token := r] == w.workers[token := r]
  {
  }

  lemma FinalizedKeeps(w: System, token: nat, evidence: Option<Evidence>)
    requires Regular(w) && token in w.workers && w.workers[token].stage == Finalizing
    ensures Regular(OnFinalized(w, token, evidence))
  {
    hide Apart, Orderly, CallsOwned, SettledOnce, Holds;
    var r := w.workers[token];
    assert RunOk(r, token, w.broker);
    TakeAway(w, token);
    SameUpdate(w, token);
    if evidence.None? { CatchKeeps(Without(w, token), token, r); }
    else { AskKeeps(Without(w, token), token, r, ThreadStarted, None, evidence, RegisterThread); }
  }

  lemma StartKeeps(w: System, call: nat)
    requires Regular(w) && call in w.broker.calls && w.broker.calls[call].LeasedCall?
    ensures Regular(Start(w, call))
  {
    hide Orderly, RunsOk, SettledOnce, Holds;
    var c := w.broker.calls[call];
    assert Owned(call, w.broker, w.workers);
    var w0 := w.(broker := ClaimEnd(w.broker, call, true));
    LeaseTaken(w, call);
    var r := Worker(c.operationId, Owner(w.broker.db, c.operationId), c.startPhase, false, Ready, c.startPhase, false, false, false);
    assert Informed(r, c.token, w0.broker.db.operations, w0.broker.issued);
    if c.startPhase == ThreadStarted {
      AskKeeps(w0, c.token, r, Completed, None, None, Direct);
    } else {
      PutBack(w0, c.token, r);
    }
  }

  lemma LeaseTaken(w: System, call: nat)
    requires Regular(w) && call in w.broker.calls && w.broker.calls[call].LeasedCall?
    ensures Apart(w.(broker := ClaimEnd(w.broker, call, true)), w.broker.calls[call].token)
    ensures ClaimEnd(w.broker, call, true) == DropCall(w.broker, call)
  {
    hide Orderly, RunsOk, SettledOnce, Next, TokenInUse;
    var s := w.broker;
    var step := DoClaimEnd(call, true);
    OrderlyIsSound(s);
    assert Owned(call, s, w.workers);
    BrokerCallDropped(s, call);
    StepOrderly(s, step);
    RunsFrame(w.workers, s, step);
    forall c | c in s.calls && c != call ensures Owned(c, DropCall(s, call), w.workers) { assert Owned(c, s, w.workers); }
  }

  lemma BrokerCallDropped(s: State, call: nat)
    requires call in s.calls && s.calls[call].LeasedCall?
    ensures Next(s, DoClaimEnd(call, true)) == DropCall(s, call) && ClaimEnd(s, call, true) == DropCall(s, call)
  {
  }

  // ---- an advance is answered ------------------------------------------------------------------

  /** Without the run that is answered, nothing carries its token any more. */
  lemma AnsweredRest(w: System, token: nat, valid: bool)
    requires Regular(w) && token in w.workers && w.workers[token].stage.Advancing?
    ensures Apart(System(Answered(w.broker, w.workers[token].stage.call, valid), w.workers - {token}), token)
  {
    hide Orderly, SettledOnce, Next, TokenInUse, StageOk, Informed;
    var s, r := w.broker, w.workers[token];
    assert RunOk(r, token, s);
    if r.stage.call.Some? && r.stage.call.value in s.calls {
      AnsweredOthers(w, token, r.stage.call.value, valid);
    } else {
      forall c | c in s.calls ensures Owned(c, s, w.workers - {token}) { assert Owned(c, s, w.workers); }
      assert RunsOk(w.workers - {token}, s);
    }
    FewerSettled(w.workers, token);
  }

  lemma FewerSettled(workers: map<nat, Worker>, token: nat)
    requires SettledOnce(workers)
    ensures SettledOnce(workers - {token})
  {
  }

  lemma AnsweredOthers(w: System, token: nat, call: nat, valid: bool)
    requires Regular(w) && token in w.workers && w.workers[token].stage.Advancing? && w.workers[token].stage.call == Some(call)
    requires call in w.broker.calls && w.broker.calls[call].AdvanceCall? && w.broker.calls[call].advance.token == token
    ensures var s', others := AdvanceEnd(w.broker, call, valid), w.workers - {token};
            && Orderly(s') && RunsOk(others, s') && CallsOwned(s', others)
            && forall c :: c in s'.calls && s'.calls[c].LeasedCall? ==> s'.calls[c].token != token
  {
    hide Orderly, SettledOnce, TokenInUse, RunOk, Accepts, ThreadGranted;
    var s, others := w.broker, w.workers - {token};
    var step := DoAdvanceEnd(call, valid);
    StepOrderly(s, step);
    RunsFrame(others, s, step);
    var s' := AdvanceEnd(s, call, valid);
    forall c | c in s'.calls ensures Owned(c, s', others) {
      assert Owned(c, s, w.workers);
      assert Owned(c, s, others);
      OwnedFrame(c, s, step, others);
    }
  }

  /** What the run knows after the answer. */
  lemma AnsweredInformed(w: System, token: nat, valid: bool)
    requires Regular(w) && token in w.workers && w.workers[token].stage.Advancing?
    ensures var s, r := w.broker, w.workers[token];
            var s' := Answered(s, r.stage.call, valid);
            if AdvanceGranted(s, r.stage.call, valid)
            then Informed(Checkpointed(r, s.calls[r.stage.call.value].advance.next), token, s'.db.operations, s'.issued)
            else Informed(r, token, s'.db.operations, s'.issued)
  {
    hide SettledOnce, StageOk, Sound, OneAdvanceEach, CallsOwned, ThreadGranted, StoredEvidence, ValidEvidence, ValidFailureClass;
    var s, r := w.broker, w.workers[token];
    assert RunOk(r, token, s);
    if AdvanceGranted(s, r.stage.call, valid) {
      assert Fresh(s.calls[r.stage.call.value], s.db.operations);
      CallIsOk(s, r.stage.call.value);
      LeasedIsWorking(s, r.operationId);
    }
  }

  /** A run that gets its checkpoint through finds the operation at `pushed`, so no other run got one through. */
  lemma NewlySettled(w: System, token: nat, valid: bool)
    requires Regular(w) && token in w.workers && w.workers[token].stage.Advancing?
    requires AdvanceGranted(w.broker, w.workers[token].stage.call, valid) && w.workers[token].finalized && !w.workers[token].settled
    ensures forall u :: u in w.workers && u != token && w.workers[u].operationId == w.workers[token].operationId ==> !w.workers[u].settled
  {
    hide Orderly, CallsOwned, SettledOnce, Accepts, ThreadGranted;
    var s, r := w.broker, w.workers[token];
    assert RunOk(r, token, s);
    var c := s.calls[r.stage.call.value];
    OrderlyIsSound(s);
    CallIsOk(s, r.stage.call.value);
    assert s.db.operations[r.operationId].phase == Pushed;
    forall u | u in w.workers && u != token && w.workers[u].operationId == r.operationId ensures !w.workers[u].settled {
      assert RunOk(w.workers[u], u, s);
    }
  }

  /** The record of a run whose advance was granted. */
  lemma GrantedRecord(w: System, token: nat, valid: bool)
    requires Regular(w) && token in w.workers && w.workers[token].stage.Advancing?
    requires AdvanceGranted(w.broker, w.workers[token].stage.call, valid)
    ensures var r, a := w.workers[token], w.broker.calls[w.workers[token].stage.call.value].advance;
            Resumable(Checkpointed(r, a.next), true)
  {
    hide Orderly, CallsOwned, SettledOnce, Commits, Informed;
    assert RunOk(w.workers[token], token, w.broker);
  }

  /** What an answered run must satisfy to go on. */
  predicate Resumable(r: Worker, granted: bool) {
    && r.stage.Advancing? && !r.terminal
    && (r.settled ==> r.finalized && Rank(r.reached) >= Rank(ThreadStarted))
    && (r.finalized && !r.settled ==> Unsettled(r) && !granted)
    && (r.finalized ==> r.attempted == ThreadStarted)
    && (r.stage.purpose == RegisterThread ==> r.finalized)
    && (r.stage.purpose == Complete ==> r.finalized && r.settled)
    && (r.finalized ==> r.stage.purpose == RegisterThread || r.stage.purpose == Complete || r.stage.purpose == Recover)
    && (r.stage.purpose == ReportPhase && granted ==> r.attempted == r.reached)
  }

  lemma ResumeKeeps(v: System, token: nat, r: Worker, granted: bool)
    requires Apart(v, token) && Informed(r, token, v.broker.db.operations, v.broker.issued) && Resumable(r, granted)
    requires r.settled ==> forall u :: u in v.workers ==> !SettledTogether(v.workers[u], r)
    ensures Regular(Resume(v, token, r, granted))
  {
    hide Apart, Regular, Holds;
    match r.stage.purpose {
      case Direct => PutBack(v, token, r.(stage := Ended));
      case ReportPhase => if granted { PutBack(v, token, r.(stage := Ready)); } else { CatchKeeps(v, token, r); }
      case RegisterThread =>
        if granted { AskKeeps(v, token, r, Completed, None, None, Complete); } else { CatchKeeps(v, token, r); }
      case Complete => if granted { PutBack(v, token, r.(terminal := true, stage := Ready)); } else { CatchKeeps(v, token, r); }
      case ReportFailure => if granted { PutBack(v, token, r.(terminal := true, stage := Ready)); } else { CatchKeeps(v, token, r); }
      case Recover => PutBack(v, token, r.(stage := Ended, refused := r.finalized && !granted));
    }
  }

  lemma RefusedRecord(r: Worker, token: nat, s: State)
    requires RunOk(r, token, s) && r.stage.Advancing?
    ensures Resumable(r, false)
  {
    hide Informed;
  }

  lemma AdvancedKeeps(w: System, token: nat, valid: bool)
    requires Regular(w) && token in w.workers && w.workers[token].stage.Advancing?
    ensures Regular(OnAdvanced(w, token, valid))
  {
    hide Apart, Orderly, CallsOwned, SettledOnce, Holds, Informed, AdvanceGranted, Answered, Resumable, StageOk, CallMatches, Resume;
    var s, r := w.broker, w.workers[token];
    assert RunOk(r, token, s);
    AnsweredRest(w, token, valid);
    AnsweredInformed(w, token, valid);
    var v := System(Answered(s, r.stage.call, valid), w.workers - {token});
    if r.settled { OnlySettled(w, token); }
    if AdvanceGranted(s, r.stage.call, valid) {
      GrantedRecord(w, token, valid);
      if r.finalized && !r.settled { NewlySettled(w, token, valid); }
      GrantedIsCall(s, r.stage.call, valid);
      var r0 := Checkpointed(r, s.calls[r.stage.call.value].advance.next);
      ResumeKeeps(v, token, r0, true);
      SameResume(w.(broker := v.broker), token, r0, true);
    } else {
      RefusedRecord(r, token, s);
      ResumeKeeps(v, token, r, false);
      SameResume(w.(broker := v.broker), token, r, false);
    }
  }

  lemma GrantedIsCall(s: State, call: Option<nat>, valid: bool)
    requires AdvanceGranted(s, call, valid)
    ensures call.Some? && call.value in s.calls && s.calls[call.value].AdvanceCall?
  {
  }

  /** Going on with a run does not depend on its old record. */
  lemma SameResume(w: System, token: nat, r: Worker, granted: bool)
    requires r.stage.Advancing?
    ensures Resume(w, token, r, granted) == Resume(Without(w, token), token, r, granted)
  {
    hide AdvanceBegin;
    SameUpdate(w, token);
  }

  // ---- runs --------------------------------------------------------------------------------

  lemma MoveKeeps(w: System, move: Move)
    requires Regular(w)
    ensures Regular(Moved(w, move))
  {
    hide Regular;
    if Possible(w, move) {
      match move
      case Broker(step) => if Enabled(w.broker, step) { BrokerMoveKeeps(w, step); } else { Disabled(w, step); }
      case RunStart(call) => StartKeeps(w, call);
      case RunEvent(token, event) => EventKeeps(w, token, event);
      case RunFinalized(token, evidence) => FinalizedKeeps(w, token, evidence);
      case RunAdvanced(token, valid) => AdvancedKeeps(w, token, valid);
    }
  }

  lemma Disabled(w: System, step: Step)
    requires !Enabled(w.broker, step)
    ensures Moved(w, Broker(step)) == w
  {
  }

  lemma {:induction false} PlayRegular(moves: seq<Move>)
    ensures Regular(Play(moves))
    decreases |moves|
  {
    hide Regular, Moved;
    if moves == [] {
      StartRegular();
    } else {
      PlayRegular(moves[..|moves| - 1]);
      MoveKeeps(Play(moves[..|moves| - 1]), moves[|moves| - 1]);
    }
  }

  lemma StartRegular()
    ensures Regular(Fresh0)
  {
    EmptyOrderly();
  }
}
