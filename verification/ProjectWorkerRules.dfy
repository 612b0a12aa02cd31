/**
 What a worker run checkpoints: the phase it reports, the failure it reports, and, when something
 breaks, whether the operation is to be retried or reconciled.  The run's last event and its last
 attempted phase are read off the moves.
 */
module ProjectWorkerRules {
  import opened Options
  import opened ProjectTypes
  import opened ProjectSteps
  import opened ProjectSafety
  import opened ProjectTheorems
  import opened ProjectWorker
  import opened ProjectWorkerSafety
  import opened ProjectWorkerHistory
  import opened ProjectWorkerTheorems

  // ---- what has happened to a run ----------------------------------------------------------------

  function LastEvent(moves: seq<Move>, token: nat): Option<Event> {
    if moves == [] then None
    else
      var init, move := moves[..|moves| - 1], moves[|moves| - 1];
      if move.RunEvent? && move.token == token && Possible(Play(init), move) then Some(move.event)
      else LastEvent(init, token)
  }

  /** The phase of the lease, then the phases of the adapter's reports; done attempts the registration of the thread. */
  function LastAttempt(moves: seq<Move>, token: nat): Phase {
    if moves == [] then Reserved
    else
      var init, move := moves[..|moves| - 1], moves[|moves| - 1];
      var w := Play(init);
      if move.RunStart? && Possible(w, move) && w.broker.calls[move.call].token == token then w.broker.calls[move.call].startPhase
      else if move.RunEvent? && move.token == token && Possible(w, move) && !w.workers[token].terminal then
        Attempt(LastAttempt(init, token), move.event)
      else LastAttempt(init, token)
  }

  function Attempt(before: Phase, event: Event): Phase {
    match event
    case PhaseEvent(LocalPrepared) => LocalPrepared
    case PhaseEvent(RemoteCreated) => RemoteCreated
    case PhaseEvent(Pushed) => Pushed
    case DoneEvent => if before == Pushed then ThreadStarted else before
    case _ => before
  }

  /** What the run asks for, by what it asks it for. */
  predicate AsksFor(event: Option<Event>, attempt: Phase, purpose: Purpose, a: Advance) {
    match purpose
    case Direct => a.next == Completed && a.failureClass == None
    case Complete => a.next == Completed && a.failureClass == None
    case RegisterThread => a.next == ThreadStarted && a.failureClass == None
    case ReportPhase =>
      event == Some(PhaseEvent(a.next)) && (a.next == LocalPrepared || a.next == RemoteCreated || a.next == Pushed) && a.failureClass == None
    case ReportFailure =>
      && event.Some? && event.value.FailedEvent? && a.failureClass == Some(event.value.classification)
      && a.next == (if event.value.reconcileRequired then ReconcileRequired else FailedRetryable)
    case Recover =>
      && a.failureClass == Some("worker_protocol_failed")
      && a.next == (match attempt
                    case RemoteCreated => ReconcileRequired
                    case ThreadStarted => ReconcileRequired
                    case Completed => ReconcileRequired
                    case _ => FailedRetryable)
  }

  predicate Tells(event: Option<Event>, attempt: Phase, r: Worker, s: State) {
    && r.attempted == attempt
    && (r.stage.Advancing? && r.stage.call.Some? && r.stage.call.value in s.calls ==>
          && s.calls[r.stage.call.value].AdvanceCall?
          && AsksFor(event, attempt, r.stage.purpose, s.calls[r.stage.call.value].advance))
  }

  // ---- one move --------------------------------------------------------------------------------

  lemma AskTells(w: System, token: nat, r: Worker, next: Phase, failureClass: Option<string>, evidence: Option<Evidence>, purpose: Purpose,
                 event: Option<Event>)
    requires AsksFor(event, r.attempted, purpose, Advance(r.operationId, token, next, failureClass, evidence))
    ensures var w' := Ask(w, token, r, next, failureClass, evidence, purpose);
            && token in w'.workers && Tells(event, r.attempted, w'.workers[token], w'.broker)
            && w'.workers[token].stage.Advancing? && w'.workers[token].stage.purpose == purpose
  {
    hide AsksFor;
  }

  lemma CatchTells(w: System, token: nat, r: Worker, event: Option<Event>)
    ensures var w' := Catch(w, token, r);
            && token in w'.workers && Tells(event, r.attempted, w'.workers[token], w'.broker)
            && (!r.terminal ==> w'.workers[token].stage.Advancing? && w'.workers[token].stage.purpose == Recover)
  {
    hide Ask;
    if !r.terminal {
      var next := if r.attempted == RemoteCreated || r.attempted == ThreadStarted || r.attempted == Completed
                  then ReconcileRequired else FailedRetryable;
      AskTells(w, token, r, next, Some("worker_protocol_failed"), None, Recover, event);
    }
  }

  lemma ResumeTells(w: System, token: nat, r: Worker, granted: bool, event: Option<Event>)
    requires r.stage.Advancing?
    ensures var w' := Resume(w, token, r, granted); token in w'.workers && Tells(event, r.attempted, w'.workers[token], w'.broker)
  {
    hide Ask, Catch;
    CatchTells(w, token, r, event);
    AskTells(w, token, r, Completed, None, None, Complete, event);
  }

  lemma EventTells(w: System, token: nat, event: Event)
    requires token in w.workers && w.workers[token].stage == Ready
    ensures var r, w' := w.workers[token], OnEvent(w, token, event);
            token in w'.workers
            && Tells(Some(event), if r.terminal then r.attempted else Attempt(r.attempted, event), w'.workers[token], w'.broker)
  {
    hide Ask, Catch;
    var r := w.workers[token];
    CatchTells(w, token, r, Some(event));
    match event {
      case PhaseEvent(phase) =>
        if ReportedPhase(phase) { AskTells(w, token, r.(attempted := phase), phase, None, None, ReportPhase, Some(event)); }
      case FailedEvent(classification, reconcileRequired) =>
        AskTells(w, token, r, if reconcileRequired then ReconcileRequired else FailedRetryable, Some(classification), None, ReportFailure, Some(event));
      case _ =>
    }
  }

  lemma FinalizedTells(w: System, token: nat, evidence: Option<Evidence>, event: Option<Event>)
    requires token in w.workers && w.workers[token].stage == Finalizing
    ensures var w' := OnFinalized(w, token, evidence);
            token in w'.workers && Tells(event, w.workers[token].attempted, w'.workers[token], w'.broker)
  {
    hide Ask, Catch;
    CatchTells(w, token, w.workers[token], event);
    AskTells(w, token, w.workers[token], ThreadStarted, None, evidence, RegisterThread, event);
  }

  lemma StartTells(w: System, call: nat, event: Option<Event>)
    requires call in w.broker.calls && w.broker.calls[call].LeasedCall?
    ensures var w', c := Start(w, call), w.broker.calls[call];
            c.token in w'.workers && Tells(event, c.startPhase, w'.workers[c.token], w'.broker)
  {
    hide Ask;
    var c := w.broker.calls[call];
    var w0 := w.(broker := ClaimEnd(w.broker, call, true));
    var r := Worker(c.operationId, Owner(w.broker.db, c.operationId), c.startPhase, false, Ready, c.startPhase, false, false, false);
    AskTells(w0, c.token, r, Completed, None, None, Direct, event);
  }

  /** Calls under way are never rewritten. */
  ghost predicate CallsKept(s: State, s': State) {
    && s.nextCall <= s'.nextCall
    && forall c :: c < s.nextCall && c in s'.calls ==> c in s.calls && s'.calls[c] == s.calls[c]
  }

  lemma AskKeepsCalls(w: System, token: nat, r: Worker, next: Phase, failureClass: Option<string>, evidence: Option<Evidence>, purpose: Purpose)
    ensures CallsKept(w.broker, Ask(w, token, r, next, failureClass, evidence, purpose).broker)
  {
  }

  lemma CatchKeepsCalls(w: System, token: nat, r: Worker)
    ensures CallsKept(w.broker, Catch(w, token, r).broker)
  {
    hide Ask;
    var next := if r.attempted == RemoteCreated || r.attempted == ThreadStarted || r.attempted == Completed
                then ReconcileRequired else FailedRetryable;
    AskKeepsCalls(w, token, r, next, Some("worker_protocol_failed"), None, Recover);
  }

  lemma ResumeKeepsCalls(w: System, token: nat, r: Worker, granted: bool)
    requires r.stage.Advancing?
    ensures CallsKept(w.broker, Resume(w, token, r, granted).broker)
  {
    hide Ask, Catch;
    CatchKeepsCalls(w, token, r);
    AskKeepsCalls(w, token, r, Completed, None, None, Complete);
  }

  lemma EventKeepsCalls(w: System, token: nat, event: Event)
    requires token in w.workers
    ensures CallsKept(w.broker, OnEvent(w, token, event).broker)
  {
    hide Ask, Catch, CallsKept;
    var r := w.workers[token];
    CatchKeepsCalls(w, token, r);
    Unchanged(w.broker);
    match event {
      case PhaseEvent(phase) => AskKeepsCalls(w, token, r.(attempted := phase), phase, None, None, ReportPhase);
      case FailedEvent(classification, reconcileRequired) =>
        AskKeepsCalls(w, token, r, if reconcileRequired then ReconcileRequired else FailedRetryable, Some(classification), None, ReportFailure);
      case _ =>
    }
  }

  lemma Unchanged(s: State)
    ensures CallsKept(s, s)
  {
  }

  lemma StepKeepsCalls(s: State, step: Step)
    requires Sound(s)
    ensures CallsKept(s, Next(s, step))
  {
    hide Next, Sound;
    if Enabled(s, step) { GrowFrame(s, step); } else { NoStep(s, step); }
  }

  lemma StartKeepsCalls(w: System, call: nat)
    requires Sound(w.broker) && call in w.broker.calls && w.broker.calls[call].LeasedCall?
    ensures CallsKept(w.broker, Start(w, call).broker)
  {
    hide Ask, Sound;
    var c := w.broker.calls[call];
    var w0 := w.(broker := ClaimEnd(w.broker, call, true));
    var r := Worker(c.operationId, Owner(w.broker.db, c.operationId), c.startPhase, false, Ready, c.startPhase, false, false, false);
    AskKeepsCalls(w0, c.token, r, Completed, None, None, Direct);
  }

  lemma AnswerKeepsCalls(w: System, token: nat, valid: bool)
    requires Sound(w.broker) && token in w.workers && w.workers[token].stage.Advancing?
    ensures CallsKept(w.broker, OnAdvanced(w, token, valid).broker)
  {
    hide Sound, Resume, AdvanceEnd, Commits;
    var s, r := w.broker, w.workers[token];
    var granted := AdvanceGranted(s, r.stage.call, valid);
    var w0 := w.(broker := Answered(s, r.stage.call, valid));
    if r.stage.call.Some? && r.stage.call.value in s.calls && s.calls[r.stage.call.value].AdvanceCall? {
      StepKeepsCalls(s, DoAdvanceEnd(r.stage.call.value, valid));
    }
    var r0 := if granted then Checkpointed(r, s.calls[r.stage.call.value].advance.next) else r;
    ResumeKeepsCalls(w0, token, r0, granted);
  }

  lemma MovedCalls(w: System, move: Move)
    requires Sound(w.broker)
    ensures CallsKept(w.broker, Moved(w, move).broker)
  {
    hide Sound, Next, CallsKept, Start, OnEvent, Catch, Ask, OnAdvanced;
    Unchanged(w.broker);
    if Possible(w, move) {
      match move
      case Broker(step) => StepKeepsCalls(w.broker, step);
      case RunStart(call) => StartKeepsCalls(w, call);
      case RunEvent(t, event) => EventKeepsCalls(w, t, event);
      case RunFinalized(t, evidence) =>
        CatchKeepsCalls(w, t, w.workers[t]);
        AskKeepsCalls(w, t, w.workers[t], ThreadStarted, None, evidence, RegisterThread);
      case RunAdvanced(t, valid) => AnswerKeepsCalls(w, t, valid);
    }
  }

  /** The move is not this run's. */
  predicate Elsewhere(w: System, move: Move, token: nat) {
    match move
    case Broker(_) => true
    case RunStart(call) => !(call in w.broker.calls && w.broker.calls[call].LeasedCall? && w.broker.calls[call].token == token)
    case RunEvent(t, _) => t != token || !Possible(w, move)
    case RunFinalized(t, _) => t != token || !Possible(w, move)
    case RunAdvanced(t, _) => t != token || !Possible(w, move)
  }

  lemma ElsewhereStays(w: System, move: Move, token: nat)
    requires Elsewhere(w, move, token)
    ensures token in Moved(w, move).workers <==> token in w.workers
    ensures token in w.workers ==> Moved(w, move).workers[token] == w.workers[token]
  {
    hide Next, AdvanceBegin, Answered, AdvanceGranted;
  }

  // ---- every move ------------------------------------------------------------------------------

  ghost predicate AllTell(moves: seq<Move>) {
    forall t :: t in Play(moves).workers ==> Tells(LastEvent(moves, t), LastAttempt(moves, t), Play(moves).workers[t], Play(moves).broker)
  }

  lemma OtherRunTells(w: System, move: Move, token: nat, event: Option<Event>, attempt: Phase)
    requires Regular(w) && token in w.workers && Elsewhere(w, move, token) && Tells(event, attempt, w.workers[token], w.broker)
    ensures token in Moved(w, move).workers && Tells(event, attempt, Moved(w, move).workers[token], Moved(w, move).broker)
  {
    hide Orderly, CallsOwned, SettledOnce, Moved, Informed, StageOk, AsksFor, Elsewhere;
    OrderlyIsSound(w.broker);
    ElsewhereStays(w, move, token);
    MovedCalls(w, move);
    assert RunOk(w.workers[token], token, w.broker);
  }

  lemma OwnRunTells(w: System, move: Move, token: nat, event: Option<Event>, attempt: Phase)
    requires Regular(w) && Possible(w, move) && !Elsewhere(w, move, token)
    requires token in w.workers ==> Tells(event, attempt, w.workers[token], w.broker)
    ensures token in Moved(w, move).workers
    ensures var event' := if move.RunEvent? then Some(move.event) else event;
            var attempt' := if move.RunStart? then w.broker.calls[move.call].startPhase
                            else if move.RunEvent? && !w.workers[token].terminal then Attempt(attempt, move.event)
                            else attempt;
            Tells(event', attempt', Moved(w, move).workers[token], Moved(w, move).broker)
  {
    hide Regular, Start, OnEvent, OnFinalized, Resume, AdvanceGranted, Answered, Attempt;
    match move {
      case RunStart(call) => StartTells(w, call, event);
      case RunEvent(t, e) => EventTells(w, t, e);
      case RunFinalized(t, evidence) => FinalizedTells(w, t, evidence, event);
      case RunAdvanced(t, valid) => AnswerTells(w, t, valid, event);
    }
  }

  lemma AnswerTells(w: System, token: nat, valid: bool, event: Option<Event>)
    requires token in w.workers && w.workers[token].stage.Advancing?
    ensures var w' := OnAdvanced(w, token, valid);
            token in w'.workers && Tells(event, w.workers[token].attempted, w'.workers[token], w'.broker)
  {
    hide Resume, Answered, Commits, Tells;
    var s, r := w.broker, w.workers[token];
    var granted := AdvanceGranted(s, r.stage.call, valid);
    var r0 := if granted then Checkpointed(r, s.calls[r.stage.call.value].advance.next) else r;
    ResumeTells(w.(broker := Answered(s, r.stage.call, valid)), token, r0, granted, event);
  }

  lemma {:induction false} PlayTells(moves: seq<Move>)
    ensures AllTell(moves)
    decreases |moves|
  {
    hide Regular, Moved, Tells, Possible, Elsewhere;
    if moves != [] {
      var init, move := moves[..|moves| - 1], moves[|moves| - 1];
      PlayTells(init);
      PlayRegular(init);
      forall t | t in Play(moves).workers ensures Tells(LastEvent(moves, t), LastAttempt(moves, t), Play(moves).workers[t], Play(moves).broker) {
        RunTells(init, move, t);
        assert init + [move] == moves;
      }
    }
  }

  lemma {:induction false} RunTells(init: seq<Move>, move: Move, t: nat)
    requires Regular(Play(init)) && AllTell(init) && t in Play(init + [move]).workers
    ensures Tells(LastEvent(init + [move], t), LastAttempt(init + [move], t), Play(init + [move]).workers[t], Play(init + [move]).broker)
  {
    hide Regular, Moved, Tells, Attempt;
    var moves := init + [move];
    assert moves[..|moves| - 1] == init;
    var w := Play(init);
    if !Possible(w, move) { ImpossibleIsElsewhere(w, move, t); }
    if Elsewhere(w, move, t) {
      ElsewhereStays(w, move, t);
      OtherRunTells(w, move, t, LastEvent(init, t), LastAttempt(init, t));
    } else {
      OwnRunTells(w, move, t, LastEvent(init, t), LastAttempt(init, t));
    }
  }

  lemma ImpossibleIsElsewhere(w: System, move: Move, t: nat)
    requires !Possible(w, move)
    ensures Elsewhere(w, move, t)
  {
  }

  // ---- what is committed -----------------------------------------------------------------------

  predicate Committed(w: System, move: Move) {
    Moved(w, move).broker.db != w.broker.db
  }

  /** An answer that changes the tables changes the row of its run, to what the run has asked for. */
  lemma CommittedRow(w: System, token: nat, valid: bool, event: Option<Event>, attempt: Phase)
    requires Regular(w) && Possible(w, RunAdvanced(token, valid)) && Tells(event, attempt, w.workers[token], w.broker)
    requires Committed(w, RunAdvanced(token, valid))
    ensures var r, operations, operations' := w.workers[token], w.broker.db.operations, Moved(w, RunAdvanced(token, valid)).broker.db.operations;
            && AdvanceGranted(w.broker, r.stage.call, valid)
            && AsksFor(event, attempt, r.stage.purpose, w.broker.calls[r.stage.call.value].advance)
            && r.operationId in operations && Working(operations[r.operationId].phase)
            && operations' == operations[r.operationId := AdvancedRow(operations[r.operationId], w.broker.calls[r.stage.call.value].advance)]
  {
    hide Regular, AsksFor, OnAdvanced, Commits;
    AnsweredTables(w, token, valid);
    if AdvanceGranted(w.broker, w.workers[token].stage.call, valid) { GrantedRow(w, token, valid); }
  }

  /**
   What an answer commits: the phase the adapter has reported, `thread-started` and `completed` behind
   done, the failure it has reported; and behind anything that broke, reconciliation when the run's last
   attempt was the remote repository, the thread or the completion, and a retry at the old phase otherwise.
   */
  lemma {:induction false} CheckpointRule(moves: seq<Move>, token: nat, valid: bool)
    requires Possible(Play(moves), RunAdvanced(token, valid)) && Committed(Play(moves), RunAdvanced(token, valid))
    ensures var w, w' := Play(moves), Moved(Play(moves), RunAdvanced(token, valid));
            var r := w.workers[token];
            && r.operationId in w.broker.db.operations && r.operationId in w'.broker.db.operations
            && var row, row' := w.broker.db.operations[r.operationId], w'.broker.db.operations[r.operationId];
            && (r.stage.purpose == ReportPhase ==> LastEvent(moves, token) == Some(PhaseEvent(row'.phase)))
            && (r.stage.purpose == RegisterThread ==> row'.phase == ThreadStarted)
            && (r.stage.purpose == Complete || r.stage.purpose == Direct ==> row'.phase == Completed)
            && (r.stage.purpose == ReportFailure ==>
                  && LastEvent(moves, token).Some? && LastEvent(moves, token).value.FailedEvent?
                  && var e := LastEvent(moves, token).value;
                  && (if e.reconcileRequired then row'.phase == ReconcileRequired
                      else row'.phase == FailedRetryable && row'.resumePhase == Some(row.phase))
                  && (e.classification != "" ==> row'.failureClass == Some(e.classification)))
            && (r.stage.purpose == Recover ==>
                  && row'.failureClass == Some("worker_protocol_failed")
                  && match LastAttempt(moves, token)
                     case RemoteCreated => row'.phase == ReconcileRequired
                     case ThreadStarted => row'.phase == ReconcileRequired
                     case Completed => row'.phase == ReconcileRequired
                     case _ => row'.phase == FailedRetryable && row'.resumePhase == Some(row.phase))
  {
    hide Regular, Moved, Play, Possible, Committed;
    PlayRegular(moves);
    PlayTells(moves);
    IsRun(Play(moves), token, valid);
    CommittedRow(Play(moves), token, valid, LastEvent(moves, token), LastAttempt(moves, token));
  }

  lemma IsRun(w: System, token: nat, valid: bool)
    requires Possible(w, RunAdvanced(token, valid))
    ensures token in w.workers && w.workers[token].stage.Advancing?
  {
  }

  // ---- when something breaks ---------------------------------------------------------------------

  /** The executor throws, a checkpoint of a live run is refused, the finalizer throws, or done comes before `pushed`. */
  predicate Breaks(w: System, move: Move, token: nat) {
    && token in w.workers && Possible(w, move) && Live(w.workers[token])
    && match move
       case RunEvent(t, ExecutorThrows) => t == token
       case RunEvent(t, DoneEvent) => t == token && w.workers[token].attempted != Pushed
       case RunFinalized(t, None) => t == token
       case RunAdvanced(t, _) => t == token && !Committed(w, move) && w.workers[token].stage.purpose != Direct && w.workers[token].stage.purpose != Recover
       case _ => false
  }

  lemma GrantedCommits(w: System, token: nat, valid: bool)
    requires Regular(w) && token in w.workers && w.workers[token].stage.Advancing?
    requires AdvanceGranted(w.broker, w.workers[token].stage.call, valid)
    ensures Committed(w, RunAdvanced(token, valid))
  {
    hide Regular, OnAdvanced, ThreadGranted, StoredEvidence, ValidEvidence, ValidFailureClass;
    var r := w.workers[token];
    GrantedRow(w, token, valid);
    AnsweredTables(w, token, valid);
    var row := w.broker.db.operations[r.operationId];
    assert AdvancedRow(row, w.broker.calls[r.stage.call.value].advance).phase != row.phase;
  }

  /** Then the run asks for its recovery. */
  lemma BrokenRecovers(w: System, move: Move, token: nat)
    requires Regular(w) && Breaks(w, move, token)
    ensures token in Moved(w, move).workers
    ensures Moved(w, move).workers[token].stage.Advancing? && Moved(w, move).workers[token].stage.purpose == Recover
  {
    hide Regular, Catch, Committed, Answered, AdvanceGranted;
    match move {
      case RunEvent(_, _) => CatchTells(w, token, w.workers[token], None);
      case RunFinalized(_, _) => CatchTells(w, token, w.workers[token], None);
      case RunAdvanced(_, valid) =>
        if AdvanceGranted(w.broker, w.workers[token].stage.call, valid) { GrantedCommits(w, token, valid); }
        CatchTells(w.(broker := Answered(w.broker, w.workers[token].stage.call, valid)), token, w.workers[token], None);
    }
  }

  // ---- one run, move by move -----------------------------------------------------------------------

  /** The run waits for an advance of this purpose. */
  predicate WaitsFor(r: Worker, purpose: Purpose) {
    r.stage.Advancing? && r.stage.purpose == purpose
  }

  /** A lease for a started thread only completes it; any other starts the adapter. */
  lemma StartsAs(w: System, call: nat)
    requires call in w.broker.calls && w.broker.calls[call].LeasedCall?
    ensures var c, w' := w.broker.calls[call], Moved(w, RunStart(call));
            && w'.workers.Keys == w.workers.Keys + {c.token}
            && var r := w'.workers[c.token];
            && r.operationId == c.operationId && r.attempted == c.startPhase && !r.terminal && !r.finalized
            && match c.startPhase
               case ThreadStarted => WaitsFor(r, Direct)
               case _ => r.stage == Ready
  {
    hide ClaimEnd, AdvanceBegin, Owner;
  }

  /** Where the event takes a live run; a reported failure and a report are asked for, done is finalized, and the rest breaks it. */
  predicate TakenTo(r: Worker, event: Event, r': Worker) {
    match event
    case PhaseEvent(LocalPrepared) => WaitsFor(r', ReportPhase) && r'.attempted == LocalPrepared
    case PhaseEvent(RemoteCreated) => WaitsFor(r', ReportPhase) && r'.attempted == RemoteCreated
    case PhaseEvent(Pushed) => WaitsFor(r', ReportPhase) && r'.attempted == Pushed
    case PhaseEvent(_) => WaitsFor(r', Recover) && r'.attempted == r.attempted
    case DoneEvent =>
      if r.attempted == Pushed then r'.stage == Finalizing && r'.finalized && r'.attempted == ThreadStarted
      else WaitsFor(r', Recover) && r'.attempted == r.attempted
    case FailedEvent(_, _) => WaitsFor(r', ReportFailure) && r'.attempted == r.attempted
    case ExecutorThrows => WaitsFor(r', Recover) && r'.attempted == r.attempted
    case ExecutorReturns => r'.stage == Ended
  }

  lemma CatchAsks(w: System, token: nat, r: Worker)
    ensures var w' := Catch(w, token, r);
            && token in w'.workers && w'.workers[token].attempted == r.attempted && w'.workers[token].terminal == r.terminal
            && (if r.terminal then w'.workers[token].stage == Ended && w'.broker == w.broker else WaitsFor(w'.workers[token], Recover))
  {
    hide AdvanceBegin;
  }

  /** An event takes a live run there; after the end has been recorded any event ends the run, and asks for nothing. */
  lemma EventTakes(w: System, token: nat, event: Event)
    requires token in w.workers && w.workers[token].stage == Ready
    ensures var w' := Moved(w, RunEvent(token, event));
            && token in w'.workers
            && if w.workers[token].terminal then w'.workers[token].stage == Ended && w'.broker == w.broker
               else TakenTo(w.workers[token], event, w'.workers[token])
  {
    hide Catch, AdvanceBegin;
    CatchAsks(w, token, w.workers[token]);
  }

  /** The finalizer's evidence is to be registered; a finalizer that throws breaks the run. */
  lemma FinalizerTakes(w: System, token: nat, evidence: Option<Evidence>)
    requires Regular(w) && token in w.workers && w.workers[token].stage == Finalizing
    ensures var w' := Moved(w, RunFinalized(token, evidence));
            && token in w'.workers
            && if evidence.None? then WaitsFor(w'.workers[token], Recover)
               else WaitsFor(w'.workers[token], RegisterThread)
                    && (w'.workers[token].stage.call.Some? ==>
                          && w'.workers[token].stage.call.value in w'.broker.calls && w'.broker.calls[w'.workers[token].stage.call.value].AdvanceCall?
                          && w'.broker.calls[w'.workers[token].stage.call.value].advance
                             == Advance(w.workers[token].operationId, token, ThreadStarted, None, evidence))
  {
    hide Orderly, CallsOwned, SettledOnce, CallMatches, Informed, Catch;
    assert RunOk(w.workers[token], token, w.broker);
    CatchAsks(w, token, w.workers[token]);
  }

  /**
   What the answer to an advance makes of the run: a committed report lets it go on, a registered thread
   is completed next, a completion or a reported failure is its end; a refusal breaks it, and a
   recovery ends it either way.
   */
  lemma AnswerTakes(w: System, token: nat, valid: bool)
    requires Regular(w) && token in w.workers && w.workers[token].stage.Advancing?
    ensures var r, w', committed := w.workers[token], Moved(w, RunAdvanced(token, valid)), Committed(w, RunAdvanced(token, valid));
            && token in w'.workers
            && var r' := w'.workers[token];
            match r.stage.purpose
            case Direct => r'.stage == Ended
            case Recover => r'.stage == Ended
            case ReportPhase => if committed then r'.stage == Ready && !r'.terminal else WaitsFor(r', Recover)
            case RegisterThread => if committed then WaitsFor(r', Complete) else WaitsFor(r', Recover)
            case Complete => if committed then r'.stage == Ready && r'.terminal else WaitsFor(r', Recover)
            case ReportFailure => if committed then r'.stage == Ready && r'.terminal else WaitsFor(r', Recover)
  {
    hide Regular, Catch, AdvanceBegin, Committed, Answered, Commits, Checkpointed;
    var r := w.workers[token];
    var w0 := w.(broker := Answered(w.broker, r.stage.call, valid));
    LiveWhileAdvancing(w, token);
    CatchAsks(w0, token, r);
    if AdvanceGranted(w.broker, r.stage.call, valid) {
      GrantedCommits(w, token, valid);
      CheckpointKeeps(r, w.broker.calls[r.stage.call.value].advance.next);
    } else {
      RefusedCommitsNothing(w, token, valid);
    }
  }

  lemma CheckpointKeeps(r: Worker, next: Phase)
    ensures var r' := Checkpointed(r, next); r'.stage == r.stage && r'.terminal == r.terminal && r'.attempted == r.attempted
  {
  }

  lemma LiveWhileAdvancing(w: System, token: nat)
    requires Regular(w) && token in w.workers && w.workers[token].stage.Advancing?
    ensures !w.workers[token].terminal
  {
    hide Orderly, CallsOwned, SettledOnce, CallMatches, Informed;
    assert RunOk(w.workers[token], token, w.broker);
  }

  lemma RefusedCommitsNothing(w: System, token: nat, valid: bool)
    requires token in w.workers && w.workers[token].stage.Advancing?
    requires !AdvanceGranted(w.broker, w.workers[token].stage.call, valid)
    ensures !Committed(w, RunAdvanced(token, valid))
  {
    hide Commits, AdvancedDb;
  }

  /** Nothing in between answers the run. */
  predicate NoAnswer(more: seq<Move>, token: nat) {
    forall k :: 0 <= k < |more| ==> !(more[k].RunAdvanced? && more[k].token == token)
  }

  lemma {:induction false} StaysWaiting(moves: seq<Move>, more: seq<Move>, token: nat)
    requires token in Play(moves).workers && Play(moves).workers[token].stage.Advancing? && NoAnswer(more, token)
    ensures token in Play(moves + more).workers && Play(moves + more).workers[token] == Play(moves).workers[token]
    ensures LastAttempt(moves + more, token) == LastAttempt(moves, token)
    decreases |more|
  {
    hide Moved, LastAttempt, Play, Regular, Possible, Elsewhere;
    if more == [] {
      assert moves + more == moves;
    } else {
      var init, last := more[..|more| - 1], more[|more| - 1];
      StaysWaiting(moves, init, token);
      assert moves + more == (moves + init) + [last];
      PlayRegular(moves + init);
      WaitingElsewhere(Play(moves + init), last, token);
      ElsewhereStays(Play(moves + init), last, token);
      PlayNext(moves + init, last);
      NoAttempt(moves + init, last, token);
    }
  }

  lemma {:induction false} NoAttempt(moves: seq<Move>, move: Move, token: nat)
    requires !(move.RunStart? && Possible(Play(moves), move) && Play(moves).broker.calls[move.call].token == token)
    requires !(move.RunEvent? && Possible(Play(moves), move) && move.token == token)
    ensures LastAttempt(moves + [move], token) == LastAttempt(moves, token)
  {
    hide Play, Attempt;
    assert (moves + [move])[..|moves|] == moves;
  }

  lemma WaitingElsewhere(w: System, move: Move, token: nat)
    requires Regular(w) && token in w.workers && w.workers[token].stage.Advancing? && !(move.RunAdvanced? && move.token == token)
    ensures Elsewhere(w, move, token)
    ensures !(move.RunStart? && Possible(w, move) && w.broker.calls[move.call].token == token)
    ensures !(move.RunEvent? && Possible(w, move) && move.token == token)
  {
    hide Orderly, RunsOk, SettledOnce;
    if move.RunStart? && Possible(w, move) { LeaseIsNobodys(w, move.call); }
  }

  /** No move that breaks a run is an attempt of its own. */
  lemma {:induction false} BreakAttemptsNothing(moves: seq<Move>, move: Move, token: nat)
    requires Breaks(Play(moves), move, token) && AllTell(moves)
    ensures LastAttempt(moves + [move], token) == LastAttempt(moves, token)
  {
    hide Play;
    assert (moves + [move])[..|moves|] == moves;
  }

  /**
   When something breaks and the next checkpoint of the run is committed, whatever happens in between,
   the operation needs reconciliation if the last phase the run has attempted is `remote-created`,
   `thread-started` or `completed`, and is to be retried at the phase it had otherwise.
   */
  lemma {:induction false} BrokenRunRule(moves: seq<Move>, move: Move, more: seq<Move>, token: nat, valid: bool)
    requires Breaks(Play(moves), move, token) && NoAnswer(more, token)
    requires Possible(Play(moves + [move] + more), RunAdvanced(token, valid)) && Committed(Play(moves + [move] + more), RunAdvanced(token, valid))
    ensures var w, w' := Play(moves + [move] + more), Moved(Play(moves + [move] + more), RunAdvanced(token, valid));
            && token in w.workers && w.workers[token].operationId in w.broker.db.operations && w.workers[token].operationId in w'.broker.db.operations
            && var row, row' := w.broker.db.operations[w.workers[token].operationId], w'.broker.db.operations[w.workers[token].operationId];
            match LastAttempt(moves, token)
            case RemoteCreated => row'.phase == ReconcileRequired
            case ThreadStarted => row'.phase == ReconcileRequired
            case Completed => row'.phase == ReconcileRequired
            case _ => row'.phase == FailedRetryable && row'.resumePhase == Some(row.phase)
  {
    hide Regular, Moved, Committed, LastAttempt, LastEvent, Breaks, Play;
    PlayRegular(moves);
    PlayTells(moves);
    BrokenRecovers(Play(moves), move, token);
    PlayNext(moves, move);
    BreakAttemptsNothing(moves, move, token);
    StaysWaiting(moves + [move], more, token);
    CheckpointRule(moves + [move] + more, token, valid);
  }

  lemma {:induction false} PlayNext(moves: seq<Move>, move: Move)
    ensures Play(moves + [move]) == Moved(Play(moves), move)
  {
    hide Moved;
    assert (moves + [move])[..|moves|] == moves;
  }

  // ---- retries -----------------------------------------------------------------------------------

  /**
   An operation is marked for a retry only by the answer to one of its runs: one whose adapter has
   reported a failure that needs no reconciliation, or one whose last attempt was not the remote
   repository, the thread or the completion.
   */
  lemma {:induction false} BecomesRetryable(moves: seq<Move>, move: Move, o: Id)
    requires var operations := Play(moves).broker.db.operations; o in operations && operations[o].phase != FailedRetryable
    requires var operations := Moved(Play(moves), move).broker.db.operations; o in operations && operations[o].phase == FailedRetryable
    ensures var w := Play(moves);
            && move.RunAdvanced? && move.token in w.workers && w.workers[move.token].operationId == o
            && var event, attempt := LastEvent(moves, move.token), LastAttempt(moves, move.token);
            || (event.Some? && event.value.FailedEvent? && !event.value.reconcileRequired)
            || (attempt != RemoteCreated && attempt != ThreadStarted && attempt != Completed)
  {
    hide Regular, Moved, LastAttempt, LastEvent, Play;
    var w := Play(moves);
    PlayRegular(moves);
    PlayTells(moves);
    OnlyAnswersFail(w, move, o);
    CommittedRow(w, move.token, move.valid, LastEvent(moves, move.token), LastAttempt(moves, move.token));
  }

  lemma OnlyAnswersFail(w: System, move: Move, o: Id)
    requires Regular(w) && o in w.broker.db.operations && w.broker.db.operations[o].phase != FailedRetryable
    requires var operations := Moved(w, move).broker.db.operations; o in operations && operations[o].phase == FailedRetryable
    ensures move.RunAdvanced? && Possible(w, move) && Committed(w, move)
  {
    hide Orderly, RunsOk, CallsOwned, SettledOnce, Moved, Next;
    OrderlyIsSound(w.broker);
    MovedTables(w, move);
    if TableStep(w, move).Some? && !TableStep(w, move).value.DoAdvanceEnd? { NeverMarked(w.broker, TableStep(w, move).value, o); }
  }

  lemma NeverMarked(s: State, step: Step, o: Id)
    requires Sound(s) && o in s.db.operations && s.db.operations[o].phase != FailedRetryable && !step.DoAdvanceEnd?
    ensures o in Next(s, step).db.operations ==> Next(s, step).db.operations[o].phase != FailedRetryable
  {
    hide Sound, Insertable, Answers, HasOperation, ConfirmKeyTaken, WorkerBusy;
    if step.DoClaimLease? && StartPhase(s.db.operations[o]).Some? { RetryIsWorking(s, o); }
  }
}
