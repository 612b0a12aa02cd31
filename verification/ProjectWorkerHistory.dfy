/**
 What the history of the worker runs says about the operations: an operation is exactly as far as the
 furthest checkpoint one of its runs knows to be committed, and a run whose lease has not expired
 still has it.
 */
module ProjectWorkerHistory {
  import opened Options
  import opened ProjectTypes
  import opened ProjectSteps
  import opened ProjectSafety
  import opened ProjectTheorems
  import opened ProjectWorker
  import opened ProjectWorkerSafety

  // ---- the invariant -----------------------------------------------------------------------

  /** Some run of the operation knows this phase to be committed, or nothing has been. */
  predicate Attained(workers: map<nat, Worker>, o: Id, phase: Phase) {
    phase == Reserved || exists u :: u in workers && KnowsPhase(workers[u], o, phase)
  }

  predicate KnowsPhase(r: Worker, o: Id, phase: Phase) {
    r.operationId == o && r.reached == phase
  }

  ghost predicate Explained(workers: map<nat, Worker>, operations: map<Id, Operation>) {
    forall o :: o in operations ==> Attained(workers, o, EffectivePhase(operations[o]))
  }

  /** The run may still ask for something. */
  predicate Live(r: Worker) {
    r.stage != Ended && !r.terminal
  }

  predicate Unexpired(s: State, token: nat) {
    token in s.issued && s.clock < s.issued[token].expiresAt
  }

  predicate StillHolds(s: State, o: Id, token: nat) {
    Unexpired(s, token) ==> Holds(s.db.operations, o, token)
  }

  ghost predicate RunsCurrent(workers: map<nat, Worker>, s: State) {
    forall t :: t in workers && Live(workers[t]) ==> StillHolds(s, workers[t].operationId, t)
  }

  ghost predicate LeasesCurrent(s: State) {
    forall c :: c in s.calls && s.calls[c].LeasedCall?
      ==> StillHolds(s, s.calls[c].operationId, s.calls[c].token) && Working(s.calls[c].startPhase)
  }

  ghost predicate Dated(s: State) {
    forall t :: t in s.issued ==> s.issued[t].expiresAt <= s.clock + LEASE_LIFETIME
  }

  ghost predicate Historic(w: System) {
    && Explained(w.workers, w.broker.db.operations)
    && RunsCurrent(w.workers, w.broker) && LeasesCurrent(w.broker) && Dated(w.broker)
  }

  // ---- a run goes on without an answer of its own ----------------------------------------------

  predicate GoesOn(r: Worker, r': Worker) {
    r'.operationId == r.operationId && r'.reached == r.reached && (Live(r') ==> Live(r))
  }

  /** Only the run and the outstanding advances change. */
  ghost predicate Continues(w: System, w': System, token: nat, r: Worker) {
    && w'.broker.db == w.broker.db && w'.broker.issued == w.broker.issued && w'.broker.clock == w.broker.clock
    && (forall c :: c in w'.broker.calls && w'.broker.calls[c].LeasedCall? ==> c in w.broker.calls && w.broker.calls[c] == w'.broker.calls[c])
    && token in w'.workers && GoesOn(r, w'.workers[token])
    && (forall u :: u in w.workers && u != token ==> u in w'.workers && w'.workers[u] == w.workers[u])
    && (forall u :: u in w'.workers && u != token ==> u in w.workers)
  }

  lemma AskContinues(w: System, token: nat, r: Worker, next: Phase, failureClass: Option<string>, evidence: Option<Evidence>, purpose: Purpose)
    requires r.stage != Ended
    ensures Continues(w, Ask(w, token, r, next, failureClass, evidence, purpose), token, r)
  {
  }

  lemma CatchContinues(w: System, token: nat, r: Worker)
    requires r.stage != Ended
    ensures Continues(w, Catch(w, token, r), token, r)
  {
    hide Ask, Continues;
    if r.terminal {
      UpdateContinues(w, token, r, r.(stage := Ended));
    } else {
      var next := if r.attempted == RemoteCreated || r.attempted == ThreadStarted || r.attempted == Completed
                  then ReconcileRequired else FailedRetryable;
      AskContinues(w, token, r, next, Some("worker_protocol_failed"), None, Recover);
    }
  }

  lemma UpdateContinues(w: System, token: nat, r: Worker, r': Worker)
    requires GoesOn(r, r')
    ensures Continues(w, Update(w, token, r'), token, r)
  {
  }

  lemma ResumeContinues(w: System, token: nat, r: Worker, granted: bool)
    requires r.stage.Advancing?
    ensures Continues(w, Resume(w, token, r, granted), token, r)
  {
    hide Ask, Catch, Continues, Update;
    match r.stage.purpose {
      case Direct => UpdateContinues(w, token, r, r.(stage := Ended));
      case ReportPhase =>
        if granted { UpdateContinues(w, token, r, r.(stage := Ready)); } else { CatchContinues(w, token, r); }
      case RegisterThread =>
        if granted { AskContinues(w, token, r, Completed, None, None, Complete); } else { CatchContinues(w, token, r); }
      case Complete =>
        if granted { UpdateContinues(w, token, r, r.(terminal := true, stage := Ready)); } else { CatchContinues(w, token, r); }
      case ReportFailure =>
        if granted { UpdateContinues(w, token, r, r.(terminal := true, stage := Ready)); } else { CatchContinues(w, token, r); }
      case Recover => UpdateContinues(w, token, r, r.(stage := Ended, refused := r.finalized && !granted));
    }
  }

  lemma EventContinues(w: System, token: nat, event: Event)
    requires token in w.workers && w.workers[token].stage == Ready
    ensures Continues(w, OnEvent(w, token, event), token, w.workers[token])
  {
    hide Ask, Catch, Continues, Update;
    var r := w.workers[token];
    match event {
      case DoneEvent =>
        if r.attempted != Pushed || r.terminal { CatchContinues(w, token, r); }
        else { UpdateContinues(w, token, r, r.(attempted := ThreadStarted, stage := Finalizing, finalized := true)); }
      case PhaseEvent(phase) =>
        if r.terminal || !ReportedPhase(phase) { CatchContinues(w, token, r); }
        else { RenamedAsk(w, token, r, r.(attempted := phase), phase, None, ReportPhase); }
      case FailedEvent(classification, reconcileRequired) =>
        if r.terminal { CatchContinues(w, token, r); }
        else { RenamedAsk(w, token, r, r, if reconcileRequired then ReconcileRequired else FailedRetryable, Some(classification), ReportFailure); }
      case ExecutorThrows => CatchContinues(w, token, r);
      case ExecutorReturns => UpdateContinues(w, token, r, r.(stage := Ended));
    }
  }

  lemma RenamedAsk(w: System, token: nat, r: Worker, r': Worker, next: Phase, failureClass: Option<string>, purpose: Purpose)
    requires r.stage == Ready && r' == r.(attempted := r'.attempted)
    ensures Continues(w, Ask(w, token, r', next, failureClass, None, purpose), token, r)
  {
    hide Ask;
    AskContinues(w, token, r', next, failureClass, None, purpose);
  }

  lemma FinalizedContinues(w: System, token: nat, evidence: Option<Evidence>)
    requires token in w.workers && w.workers[token].stage == Finalizing
    ensures Continues(w, OnFinalized(w, token, evidence), token, w.workers[token])
  {
    hide Ask, Catch, Continues;
    if evidence.None? { CatchContinues(w, token, w.workers[token]); }
    else { AskContinues(w, token, w.workers[token], ThreadStarted, None, evidence, RegisterThread); }
  }

  /** The lease is current for every run but one. */
  ghost predicate HistoricBut(w: System, token: nat) {
    && Explained(w.workers, w.broker.db.operations)
    && (forall t :: t in w.workers && t != token && Live(w.workers[t]) ==> StillHolds(w.broker, w.workers[t].operationId, t))
    && LeasesCurrent(w.broker) && Dated(w.broker)
  }

  lemma ContinuesKeeps(w: System, w': System, token: nat)
    requires token in w.workers && HistoricBut(w, token) && Continues(w, w', token, w.workers[token])
    requires Live(w'.workers[token]) ==> StillHolds(w.broker, w.workers[token].operationId, token)
    ensures Historic(w')
  {
    hide Live, Holds;
    forall o | o in w'.broker.db.operations ensures Attained(w'.workers, o, EffectivePhase(w'.broker.db.operations[o])) {
      var phase := EffectivePhase(w.broker.db.operations[o]);
      assert Attained(w.workers, o, phase);
      if phase != Reserved {
        var u :| u in w.workers && KnowsPhase(w.workers[u], o, phase);
        assert KnowsPhase(w'.workers[u], o, phase);
      }
    }
  }

  // ---- broker steps --------------------------------------------------------------------------

  /** Only an advance changes how far an operation is; a new one starts at `reserved`. */
  lemma EffectiveKept(s: State, step: Step)
    requires Sound(s) && Enabled(s, step) && !step.DoAdvanceEnd?
    ensures var operations := Next(s, step).db.operations;
            forall o :: o in operations ==>
              if o in s.db.operations then EffectivePhase(operations[o]) == EffectivePhase(s.db.operations[o])
              else EffectivePhase(operations[o]) == Reserved
  {
    hide Sound, Accepts, ThreadGranted, Insertable, Answers, HasOperation, WorkerBusy, ConfirmKeyTaken;
    if step.DoClaimLease? && step.id in s.db.operations && StartPhase(s.db.operations[step.id]).Some? {
      RetryIsWorking(s, step.id);
      assert EffectivePhase(ClaimedRow(s.db.operations[step.id], step.token, s.clock)) == EffectivePhase(s.db.operations[step.id]);
    }
  }

  /** The step hands back the lease with this token. */
  predicate Releases(s: State, step: Step, token: nat) {
    step.DoClaimEnd? && !step.evidence && step.call in s.calls && s.calls[step.call].LeasedCall? && s.calls[step.call].token == token
  }

  /** An unexpired lease is lost only to its own advance or by being handed back. */
  lemma HoldKept(s: State, step: Step, token: nat, o: Id)
    requires Sound(s) && Enabled(s, step) && !OwnAnswer(s, step, token) && !Releases(s, step, token)
    requires token in s.issued && StillHolds(s, o, token)
    ensures StillHolds(Next(s, step), o, token)
  {
    hide DbOk, CallsOk, SingleLease, ThreadGranted, HasOperation, Insertable, Answers, Accepts;
    if Unexpired(Next(s, step), token) {
      GrowFrame(s, step);
      assert Unexpired(s, token);
      assert LeaseIssued(s.db.operations[o], s.issued);
      assert Leased(s.db.operations[o], s.clock);
      if step.DoAdvanceEnd? { CommittedElsewhere(s, step.call, step.evidence, token, o); }
    }
  }

  lemma CommittedElsewhere(s: State, call: nat, evidence: bool, token: nat, o: Id)
    requires Sound(s) && Enabled(s, DoAdvanceEnd(call, evidence)) && s.calls[call].advance.token != token
    requires Holds(s.db.operations, o, token)
    ensures Holds(Next(s, DoAdvanceEnd(call, evidence)).db.operations, o, token)
  {
    hide DbOk, CallsOk, SingleLease, ThreadGranted, Accepts;
  }

  lemma IssuedLater(s: State, step: Step)
    requires Sound(s) && Enabled(s, step) && Dated(s)
    ensures Dated(Next(s, step))
  {
    hide Sound, Accepts, ThreadGranted, Insertable, Answers, HasOperation, WorkerBusy, ConfirmKeyTaken;
  }

  /** A lease is only on its way because it was, or because this step has given it out. */
  lemma LeasedBefore(s: State, step: Step, c: nat)
    requires Sound(s) && Enabled(s, step) && c in Next(s, step).calls && Next(s, step).calls[c].LeasedCall?
    ensures || (c in s.calls && s.calls[c] == Next(s, step).calls[c] && !(step.DoClaimEnd? && step.call == c))
            || NewLease(Next(s, step), c)
  {
    hide DbOk, CallsOk, SingleLease, LeasesIssued, ThreadGranted, HasOperation, Insertable, Answers, Accepts, WorkerBusy;
  }

  predicate NewLease(s: State, c: nat)
    requires c in s.calls && s.calls[c].LeasedCall?
  {
    && Holds(s.db.operations, s.calls[c].operationId, s.calls[c].token)
    && s.db.operations[s.calls[c].operationId].phase == s.calls[c].startPhase
  }

  lemma LeasesStayCurrent(s: State, step: Step)
    requires Sound(s) && Enabled(s, step) && LeasesCurrent(s)
    requires forall c :: c in s.calls && s.calls[c].LeasedCall? ==> !OwnAnswer(s, step, s.calls[c].token)
    requires forall c, d :: c in s.calls && d in s.calls && c != d && s.calls[c].LeasedCall? && s.calls[d].LeasedCall? ==> s.calls[c].token != s.calls[d].token
    ensures LeasesCurrent(Next(s, step))
  {
    hide DbOk, SingleLease, LeasesIssued, Next, Holds, OwnAnswer, Unexpired;
    StepKeeps(s, step);
    var s' := Next(s, step);
    forall c | c in s'.calls && s'.calls[c].LeasedCall?
      ensures StillHolds(s', s'.calls[c].operationId, s'.calls[c].token) && Working(s'.calls[c].startPhase)
    {
      LeasedBefore(s, step, c);
      if c in s.calls && s.calls[c] == s'.calls[c] && !(step.DoClaimEnd? && step.call == c) {
        assert CallOk(s.calls[c], s.db, s.issued);
        HoldKept(s, step, s.calls[c].token, s.calls[c].operationId);
      } else {
        HolderIsWorking(s', s'.calls[c].operationId, s'.calls[c].token);
      }
    }
  }

  lemma HolderIsWorking(s: State, o: Id, token: nat)
    requires Sound(s) && Holds(s.db.operations, o, token)
    ensures Working(s.db.operations[o].phase)
  {
    hide Sound;
    LeasedIsWorking(s, o);
  }

  /** A step that is no run's answer. */
  lemma StepHistoric(w: System, step: Step)
    requires Regular(w) && Historic(w) && Enabled(w.broker, step) && !step.DoAdvanceEnd?
    requires forall t :: t in w.workers ==> !Releases(w.broker, step, t)
    ensures Historic(w.(broker := Next(w.broker, step)))
  {
    hide Next, Sound, Orderly, SettledOnce, Holds, Owned, StageOk, CallMatches;
    var s, s' := w.broker, Next(w.broker, step);
    OrderlyIsSound(s);
    EffectiveKept(s, step);
    IssuedLater(s, step);
    LeasesStayCurrent(s, step);
    forall t | t in w.workers && Live(w.workers[t]) ensures StillHolds(s', w.workers[t].operationId, t) {
      assert RunOk(w.workers[t], t, s);
      HoldKept(s, step, t, w.workers[t].operationId);
    }
    forall o | o in s'.db.operations ensures Attained(w.workers, o, EffectivePhase(s'.db.operations[o])) {
      if o in s.db.operations { assert Attained(w.workers, o, EffectivePhase(s.db.operations[o])); }
    }
  }

  lemma BrokerHistoric(w: System, step: Step)
    requires Regular(w) && Historic(w) && Possible(w, Broker(step)) && Enabled(w.broker, step)
    ensures Historic(Moved(w, Broker(step)))
  {
    hide Orderly, RunsOk, SettledOnce, Historic, Next;
    if step.DoClaimEnd? { LeaseIsNobodys(w, step.call); }
    StepHistoric(w, step);
  }

  // ---- the moves of a run --------------------------------------------------------------------

  lemma StartHistoric(w: System, call: nat)
    requires Regular(w) && Historic(w) && call in w.broker.calls && w.broker.calls[call].LeasedCall?
    ensures Historic(Start(w, call))
  {
    hide Regular, Next, Ask, Continues, Attained, Explained;
    var c := w.broker.calls[call];
    BrokerCallDropped(w.broker, call);
    StepHistoric(w, DoClaimEnd(call, true));
    var w0 := w.(broker := ClaimEnd(w.broker, call, true));
    assert Historic(w0);
    var r := Worker(c.operationId, Owner(w.broker.db, c.operationId), c.startPhase, false, Ready, c.startPhase, false, false, false);
    var w1 := Update(w0, c.token, r);
    LeaseIsNobodys(w, call);
    RunAdded(w0.workers, w0.broker.db.operations, c.token, r);
    assert StillHolds(w.broker, c.operationId, c.token);
    assert StillHolds(w0.broker, c.operationId, c.token);
    if c.startPhase == ThreadStarted {
      AskContinues(w0, c.token, r, Completed, None, None, Direct);
      ContinuesUpdated(w0, Start(w, call), c.token, r);
      ContinuesKeeps(w1, Start(w, call), c.token);
    }
  }

  lemma ContinuesUpdated(w: System, w': System, token: nat, r: Worker)
    requires Continues(w, w', token, r)
    ensures Continues(Update(w, token, r), w', token, r)
  {
  }

  lemma LeaseIsNobodys(w: System, call: nat)
    requires Regular(w) && call in w.broker.calls && w.broker.calls[call].LeasedCall?
    ensures w.broker.calls[call].token !in w.workers
  {
    hide Orderly, RunsOk, SettledOnce;
    assert Owned(call, w.broker, w.workers);
  }

  lemma RunAdded(workers: map<nat, Worker>, operations: map<Id, Operation>, token: nat, r: Worker)
    requires Explained(workers, operations) && token !in workers
    ensures Explained(workers[token := r], operations)
  {
    forall o | o in operations ensures Attained(workers[token := r], o, EffectivePhase(operations[o])) {
      var phase := EffectivePhase(operations[o]);
      assert Attained(workers, o, phase);
      if phase != Reserved {
        var u :| u in workers && KnowsPhase(workers[u], o, phase);
        assert KnowsPhase(workers[token := r][u], o, phase);
      }
    }
  }

  /** What a granted advance does to the row of its run. */
  lemma GrantedRow(w: System, token: nat, valid: bool)
    requires Regular(w) && token in w.workers && w.workers[token].stage.Advancing?
    requires AdvanceGranted(w.broker, w.workers[token].stage.call, valid)
    ensures var s, r := w.broker, w.workers[token];
            var call := r.stage.call.value;
            var a := s.calls[call].advance;
            && Requested(r, token, a) && r.operationId in s.db.operations && s.calls[call].row == s.db.operations[r.operationId]
            && Holds(s.db.operations, r.operationId, token) && r.reached == s.db.operations[r.operationId].phase && Working(r.reached)
            && Answered(s, r.stage.call, valid).db.operations == s.db.operations[r.operationId := AdvancedRow(s.db.operations[r.operationId], a)]
            && Enabled(s, DoAdvanceEnd(call, valid)) && Answered(s, r.stage.call, valid) == Next(s, DoAdvanceEnd(call, valid))
  {
    hide CallsOwned, SettledOnce, Sound, OneAdvanceEach, ThreadGranted, ValidEvidence, StoredEvidence, ValidFailureClass, StageOk;
    var s, r := w.broker, w.workers[token];
    assert RunOk(r, token, s);
    OrderlyIsSound(s);
    var call := r.stage.call.value;
    CallIsOk(s, call);
    assert Fresh(s.calls[call], s.db.operations);
    HolderIsWorking(s, r.operationId, token);
  }

  /** A committed checkpoint is the operation's new phase, and the run's. */
  lemma GrantedExplained(workers: map<nat, Worker>, operations: map<Id, Operation>, token: nat, a: Advance)
    requires Explained(workers, operations) && token in workers
    requires var r := workers[token];
             r.operationId in operations && Working(operations[r.operationId].phase) && r.reached == operations[r.operationId].phase
    ensures var r := workers[token];
            Explained(workers[token := Checkpointed(r, a.next)], operations[r.operationId := AdvancedRow(operations[r.operationId], a)])
  {
    var r := workers[token];
    var workers', operations' := workers[token := Checkpointed(r, a.next)], operations[r.operationId := AdvancedRow(operations[r.operationId], a)];
    forall o | o in operations' ensures Attained(workers', o, EffectivePhase(operations'[o])) {
      var phase := EffectivePhase(operations'[o]);
      if o == r.operationId {
        assert KnowsPhase(workers'[token], o, phase);
      } else {
        assert Attained(workers, o, phase);
        if phase != Reserved {
          var u :| u in workers && KnowsPhase(workers[u], o, phase);
          assert KnowsPhase(workers'[u], o, phase);
        }
      }
    }
  }

  /** After the answer, but for what the run does with it. */
  lemma GrantedHistoric(w: System, token: nat, valid: bool)
    requires Regular(w) && Historic(w) && token in w.workers && w.workers[token].stage.Advancing?
    requires AdvanceGranted(w.broker, w.workers[token].stage.call, valid)
    ensures var s, r := w.broker, w.workers[token];
            HistoricBut(System(Answered(s, r.stage.call, valid), w.workers[token := Checkpointed(r, s.calls[r.stage.call.value].advance.next)]), token)
  {
    hide Orderly, SettledOnce, Next, Holds, StageOk, CallMatches, AdvanceGranted, Answered, Unexpired, Explained;
    var s, r := w.broker, w.workers[token];
    GrantedRow(w, token, valid);
    var step := DoAdvanceEnd(r.stage.call.value, valid);
    var s' := Next(s, step);
    OrderlyIsSound(s);
    IssuedLater(s, step);
    forall c | c in s.calls && s.calls[c].LeasedCall? ensures !OwnAnswer(s, step, s.calls[c].token) { LeaseIsNobodys(w, c); }
    LeasesStayCurrent(s, step);
    forall t | t in w.workers && t != token && Live(w.workers[t]) ensures StillHolds(s', w.workers[t].operationId, t) {
      assert RunOk(w.workers[t], t, s);
      HoldKept(s, step, t, w.workers[t].operationId);
    }
    GrantedExplained(w.workers, s.db.operations, token, s.calls[r.stage.call.value].advance);
  }

  /** A run that is still live after its answer has kept its lease. */
  lemma ResumedHolds(w: System, token: nat, valid: bool)
    requires Regular(w) && Historic(w) && token in w.workers && w.workers[token].stage.Advancing?
    requires AdvanceGranted(w.broker, w.workers[token].stage.call, valid)
    requires token in OnAdvanced(w, token, valid).workers && Live(OnAdvanced(w, token, valid).workers[token])
    ensures var r := w.workers[token];
            Holds(Answered(w.broker, r.stage.call, valid).db.operations, r.operationId, token)
  {
    hide Regular, Historic, AdvanceGranted, Answered, Next, AdvanceBegin;
    GrantedRow(w, token, valid);
  }

  lemma RefusedHistoric(w: System, token: nat, valid: bool)
    requires Historic(w) && token in w.workers && w.workers[token].stage.Advancing?
    requires !AdvanceGranted(w.broker, w.workers[token].stage.call, valid)
    ensures Historic(w.(broker := Answered(w.broker, w.workers[token].stage.call, valid)))
  {
    hide Commits, Explained;
  }

  lemma AdvancedHistoric(w: System, token: nat, valid: bool)
    requires Regular(w) && Historic(w) && token in w.workers && w.workers[token].stage.Advancing?
    ensures Historic(OnAdvanced(w, token, valid))
  {
    hide Regular, AdvanceGranted, Answered, Resume, Continues, Holds, Explained;
    var s, r := w.broker, w.workers[token];
    var w0 := w.(broker := Answered(s, r.stage.call, valid));
    var w' := OnAdvanced(w, token, valid);
    if AdvanceGranted(s, r.stage.call, valid) {
      GrantedIsCall(s, r.stage.call, valid);
      var r0 := Checkpointed(r, s.calls[r.stage.call.value].advance.next);
      GrantedHistoric(w, token, valid);
      ResumeContinues(w0, token, r0, true);
      ContinuesUpdated(w0, w', token, r0);
      RunStays(w0, w', token, r0);
      if Live(w'.workers[token]) { ResumedHolds(w, token, valid); }
      ContinuesKeeps(Update(w0, token, r0), w', token);
    } else {
      RefusedHistoric(w, token, valid);
      ResumeContinues(w0, token, r, false);
      RunStays(w0, w', token, r);
      ContinuesKeeps(w0, w', token);
    }
  }

  lemma RunStays(w: System, w': System, token: nat, r: Worker)
    requires Continues(w, w', token, r)
    ensures token in w'.workers && GoesOn(r, w'.workers[token])
  {
  }

  // ---- runs --------------------------------------------------------------------------------

  lemma MoveHistoric(w: System, move: Move)
    requires Regular(w) && Historic(w)
    ensures Historic(Moved(w, move))
  {
    hide Regular, Continues, Explained, Holds;
    if Possible(w, move) {
      match move
      case Broker(step) => if Enabled(w.broker, step) { BrokerHistoric(w, step); } else { Disabled(w, step); }
      case RunStart(call) => StartHistoric(w, call);
      case RunEvent(token, event) =>
        EventContinues(w, token, event);
        ContinuesKeeps(w, OnEvent(w, token, event), token);
      case RunFinalized(token, evidence) =>
        FinalizedContinues(w, token, evidence);
        ContinuesKeeps(w, OnFinalized(w, token, evidence), token);
      case RunAdvanced(token, valid) => AdvancedHistoric(w, token, valid);
    }
  }

  lemma {:induction false} PlayHistoric(moves: seq<Move>)
    ensures Regular(Play(moves)) && Historic(Play(moves))
    decreases |moves|
  {
    hide Regular, Historic, Moved;
    PlayRegular(moves);
    if moves == [] {
      StartHistoric0();
    } else {
      PlayHistoric(moves[..|moves| - 1]);
      MoveHistoric(Play(moves[..|moves| - 1]), moves[|moves| - 1]);
    }
  }

  lemma StartHistoric0()
    ensures Historic(Fresh0)
  {
  }
}
