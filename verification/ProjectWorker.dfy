/**
 The worker that drives the broker, run next to any number of other runs and of the broker's other
 callers.  A run is cut where it waits: for the next event of its adapter, for the finalizer, and
 for each advance.  Runs are named by the lease token they hold.
 */
module ProjectWorker {
  import opened Options
  import opened ProjectTypes
  import opened ProjectSteps

  datatype Event =
    | PhaseEvent(phase: Phase)           // local-prepared, remote-created or pushed
    | DoneEvent
    | FailedEvent(classification: string, reconcileRequired: bool)
    | ExecutorThrows
    | ExecutorReturns

  /** What an advance is for, hence what its answer means to the run. */
  datatype Purpose = Direct | ReportPhase | RegisterThread | Complete | ReportFailure | Recover

  datatype Stage =
    | Ready
    | Finalizing
    | Advancing(call: Option<nat>, purpose: Purpose) // no call: the broker has refused at once
    | Ended

  /**
   One run. `attempted` and `terminal` are its variables; `reached` (the last phase it knows to be
   committed), `finalized`, `settled` and `refused` record its history.
   */
  datatype Worker = Worker(
    operationId: Id,
    user: Id,
    attempted: Phase,
    terminal: bool,
    stage: Stage,
    reached: Phase,
    finalized: bool,
    settled: bool,   // after finalizing, a checkpoint was committed
    refused: bool)   // after finalizing, its reconcile checkpoint was refused

  datatype System = System(broker: State, workers: map<nat, Worker>)

  function Update(w: System, token: nat, r: Worker): System {
    w.(workers := w.workers[token := r])
  }

  /** The run calls `advanceExecution`. */
  function Ask(w: System, token: nat, r: Worker, next: Phase, failureClass: Option<string>, evidence: Option<Evidence>, purpose: Purpose): System {
    var broker := AdvanceBegin(w.broker, r.user, Advance(r.operationId, token, next, failureClass, evidence));
    var call := if broker.nextCall == w.broker.nextCall then None else Some(w.broker.nextCall);
    w.(broker := broker, workers := w.workers[token := r.(stage := Advancing(call, purpose))])
  }

  /** The `catch` of `run` */
  function Catch(w: System, token: nat, r: Worker): System {
    if r.terminal then Update(w, token, r.(stage := Ended))
    else
      var next := if r.attempted == RemoteCreated || r.attempted == ThreadStarted || r.attempted == Completed
                  then ReconcileRequired else FailedRetryable;
      Ask(w, token, r, next, Some("worker_protocol_failed"), None, Recover)
  }

  /** The lease arrives: `run` starts. */
  function Start(w: System, call: nat): System
    requires call in w.broker.calls && w.broker.calls[call].LeasedCall?
  {
    var c := w.broker.calls[call];
    var w0 := w.(broker := ClaimEnd(w.broker, call, true));
    var r := Worker(c.operationId, Owner(w.broker.db, c.operationId), c.startPhase, false, Ready, c.startPhase, false, false, false);
    if c.startPhase == ThreadStarted
    then Ask(w0, c.token, r, Completed, None, None, Direct)
    else Update(w0, c.token, r)
  }

  function Owner(db: Db, operationId: Id): Id {
    if operationId in db.operations && db.operations[operationId].proposalId in db.proposals
    then db.proposals[db.operations[operationId].proposalId].userId else ""
  }

  predicate ReportedPhase(phase: Phase) {
    phase == LocalPrepared || phase == RemoteCreated || phase == Pushed
  }

  /** The done event is taken. */
  predicate Finalizes(r: Worker, event: Event) {
    event.DoneEvent? && r.attempted == Pushed && !r.terminal
  }

  function OnEvent(w: System, token: nat, event: Event): System
    requires token in w.workers
  {
    var r := w.workers[token];
    match event
    case DoneEvent =>
      if r.attempted != Pushed || r.terminal then Catch(w, token, r)
      else Update(w, token, r.(attempted := ThreadStarted, stage := Finalizing, finalized := true))
    case PhaseEvent(phase) =>
      if r.terminal || !ReportedPhase(phase) then Catch(w, token, r)
      else Ask(w, token, r.(attempted := phase), phase, None, None, ReportPhase)
    case FailedEvent(classification, reconcileRequired) =>
      if r.terminal then Catch(w, token, r)
      else Ask(w, token, r, if reconcileRequired then ReconcileRequired else FailedRetryable, Some(classification), None, ReportFailure)
    case ExecutorThrows => Catch(w, token, r)
    case ExecutorReturns => Update(w, token, r.(stage := Ended))
  }

  /** The finalizer answers, or throws. */
  function OnFinalized(w: System, token: nat, evidence: Option<Evidence>): System
    requires token in w.workers
  {
    var r := w.workers[token];
    if evidence.None? then Catch(w, token, r) else Ask(w, token, r, ThreadStarted, None, evidence, RegisterThread)
  }

  predicate AdvanceGranted(s: State, call: Option<nat>, evidence: bool) {
    && call.Some? && call.value in s.calls && s.calls[call.value].AdvanceCall?
    && evidence
    && var c := s.calls[call.value];
    && Commits(s.db, c.row, c.proposal.projectName, c.advance, s.clock)
  }

  function Answered(s: State, call: Option<nat>, evidence: bool): State {
    if call.Some? && call.value in s.calls && s.calls[call.value].AdvanceCall? then AdvanceEnd(s, call.value, evidence) else s
  }

  /** `advanceExecution` answers. */
  function OnAdvanced(w: System, token: nat, evidence: bool): System
    requires token in w.workers && w.workers[token].stage.Advancing?
  {
    var r := w.workers[token];
    var granted := AdvanceGranted(w.broker, r.stage.call, evidence);
    var w0 := w.(broker := Answered(w.broker, r.stage.call, evidence));
    var next := if granted then w.broker.calls[r.stage.call.value].advance.next else FailedRetryable;
    var r0 := if granted then Checkpointed(r, next) else r;
    Resume(w0, token, r0, granted)
  }

  /** What `run` does with the answer of an advance. */
  function Resume(w: System, token: nat, r: Worker, granted: bool): System
    requires r.stage.Advancing?
  {
    match r.stage.purpose
    case Direct => Update(w, token, r.(stage := Ended))
    case ReportPhase => if granted then Update(w, token, r.(stage := Ready)) else Catch(w, token, r)
    case RegisterThread => if granted then Ask(w, token, r, Completed, None, None, Complete) else Catch(w, token, r)
    case Complete => if granted then Update(w, token, r.(terminal := true, stage := Ready)) else Catch(w, token, r)
    case ReportFailure => if granted then Update(w, token, r.(terminal := true, stage := Ready)) else Catch(w, token, r)
    case Recover => Update(w, token, r.(stage := Ended, refused := r.finalized && !granted))
  }

  /** What a committed checkpoint adds to the history of a run. */
  function Checkpointed(r: Worker, next: Phase): Worker {
    r.(reached := if next == FailedRetryable then r.reached else next,
       settled := r.settled || (r.finalized && (next == ThreadStarted || next == ReconcileRequired)))
  }

  datatype Move =
    | Broker(step: Step)
    | RunStart(call: nat)
    | RunEvent(token: nat, event: Event)
    | RunFinalized(token: nat, evidence: Option<Evidence>)
    | RunAdvanced(token: nat, valid: bool)

  /** Only runs advance operations, and only a run takes over a lease. */
  predicate Possible(w: System, move: Move) {
    match move
    case Broker(step) => !step.DoAdvance? && !step.DoAdvanceEnd? && !(step.DoClaimEnd? && step.evidence)
    case RunStart(call) => call in w.broker.calls && w.broker.calls[call].LeasedCall?
    case RunEvent(token, _) => token in w.workers && w.workers[token].stage == Ready
    case RunFinalized(token, _) => token in w.workers && w.workers[token].stage == Finalizing
    case RunAdvanced(token, _) => token in w.workers && w.workers[token].stage.Advancing?
  }

  function Moved(w: System, move: Move): System {
    if !Possible(w, move) then w
    else
      match move
      case Broker(step) => w.(broker := Next(w.broker, step))
      case RunStart(call) => Start(w, call)
      case RunEvent(token, event) => OnEvent(w, token, event)
      case RunFinalized(token, evidence) => OnFinalized(w, token, evidence)
      case RunAdvanced(token, valid) => OnAdvanced(w, token, valid)
  }

  const Fresh0: System := System(Empty, map[])

  function Play(moves: seq<Move>): System {
    if moves == [] then Fresh0 else Moved(Play(moves[..|moves| - 1]), moves[|moves| - 1])
  }
}
