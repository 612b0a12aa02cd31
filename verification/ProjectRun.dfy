/**
 One run of the worker as the object it is: two variables that the event callback updates around
 its calls of the broker.  Each part of the callback takes exactly the run's step in ProjectWorker.
 */
module ProjectRun {
  import opened Options
  import opened ProjectTypes
  import opened ProjectSteps
  import opened ProjectSafety
  import opened ProjectWorker
  import opened ProjectWorkerSafety
  import opened ProjectBroker

  class WorkerRun {
    const broker: ProjectCreationBroker
    const token: nat
    const operationId: Id
    const user: Id
    var attemptedPhase: Phase
    var terminal: bool
    var stage: Stage
    ghost var reached: Phase
    ghost var finalized: bool
    ghost var settled: bool
    ghost var refused: bool

    ghost function Record(): Worker
      reads this
    {
      Worker(operationId, user, attemptedPhase, terminal, stage, reached, finalized, settled, refused)
    }

    /** The system as this run sees it: the broker and itself. */
    ghost function View(): System
      reads this, broker
    {
      System(broker.Current(), map[token := Record()])
    }

    /** The broker and this run are as in `w`. */
    ghost predicate Matches(w: System)
      reads this, broker
    {
      broker.Current() == w.broker && token in w.workers && w.workers[token] == Record()
    }

    constructor (broker: ProjectCreationBroker, token: nat, operationId: Id, user: Id, startPhase: Phase)
      ensures this.broker == broker && this.token == token && stage == Ready
      ensures Record() == Worker(operationId, user, startPhase, false, Ready, startPhase, false, false, false)
    {
      this.broker, this.token, this.operationId, this.user := broker, token, operationId, user;
      attemptedPhase, terminal, stage := startPhase, false, Ready;
      reached, finalized, settled, refused := startPhase, false, false, false;
    }

    method Advance(next: Phase, failureClass: Option<string>, evidence: Option<Evidence>, purpose: Purpose)
      modifies this, broker
      requires Sound(broker.Current())
      ensures Matches(Ask(old(View()), token, old(Record()), next, failureClass, evidence, purpose))
      ensures Sound(broker.Current())
    {
      hide Sound;
      var waiting := broker.nextCall;
      broker.AdvanceExecution(user, ProjectSteps.Advance(operationId, token, next, failureClass, evidence));
      stage := Advancing(if broker.nextCall == waiting then None else Some(waiting), purpose);
    }

    /** The callback throws, or its executor does. */
    method CatchError()
      modifies this, broker
      requires Sound(broker.Current())
      ensures Matches(Catch(old(View()), token, old(Record())))
      ensures Sound(broker.Current())
    {
      hide Sound;
      if terminal {
        stage := Ended;
      } else if attemptedPhase == RemoteCreated || attemptedPhase == ThreadStarted || attemptedPhase == Completed {
        Advance(ReconcileRequired, Some("worker_protocol_failed"), None, Recover);
      } else {
        Advance(FailedRetryable, Some("worker_protocol_failed"), None, Recover);
      }
    }

    /** The callback of the executor, up to its first wait. */
    method OnAdapterEvent(event: Event)
      modifies this, broker
      requires Sound(broker.Current()) && stage == Ready
      ensures Matches(OnEvent(old(View()), token, event))
      ensures Sound(broker.Current())
    {
      hide Sound, AdvanceBegin;
      match event {
        case DoneEvent =>
          if attemptedPhase != Pushed || terminal {
            CatchError();
          } else {
            attemptedPhase := ThreadStarted;
            stage := Finalizing;
            finalized := true;
          }
        case PhaseEvent(phase) =>
          if terminal || !ReportedPhase(phase) {
            CatchError();
          } else {
            attemptedPhase := phase;
            Advance(phase, None, None, ReportPhase);
          }
        case FailedEvent(classification, reconcileRequired) =>
          if terminal {
            CatchError();
          } else {
            Advance(if reconcileRequired then ReconcileRequired else FailedRetryable, Some(classification), None, ReportFailure);
          }
        case ExecutorThrows => CatchError();
        case ExecutorReturns => stage := Ended;
      }
    }

    method OnFinalization(evidence: Option<Evidence>)
      modifies this, broker
      requires Sound(broker.Current()) && stage == Finalizing
      ensures Matches(OnFinalized(old(View()), token, evidence))
      ensures Sound(broker.Current())
    {
      hide Sound, AdvanceBegin;
      if evidence.None? { CatchError(); } else { Advance(ThreadStarted, None, evidence, RegisterThread); }
    }

    /** The broker answers; the callback goes on, ends or throws. */
    method OnAdvanceAnswer(valid: bool)
      modifies this, broker
      requires Sound(broker.Current()) && stage.Advancing?
      ensures Matches(OnAdvanced(old(View()), token, valid))
      ensures Sound(broker.Current())
    {
      hide Sound, Checkpointed, AdvanceGranted, Answered, Resume;
      ghost var before := View();
      var granted := TakeAnswer(valid);
      SameResume(before.(broker := broker.Current()), token, Record(), granted);
      SameResume(View(), token, Record(), granted);
      assert Without(before.(broker := broker.Current()), token) == Without(View(), token);
      GoOn(granted);
    }

    method TakeAnswer(valid: bool) returns (granted: bool)
      modifies this`reached, this`settled, broker
      requires Sound(broker.Current()) && stage.Advancing?
      ensures granted == AdvanceGranted(old(broker.Current()), stage.call, valid)
      ensures broker.Current() == Answered(old(broker.Current()), stage.call, valid)
      ensures Record() == if granted
                          then Checkpointed(old(Record()), old(broker.Current()).calls[stage.call.value].advance.next)
                          else old(Record())
      ensures Sound(broker.Current())
    {
      hide Sound, Commits, AdvanceEnd, Next;
      granted := false;
      if stage.call.Some? && stage.call.value in broker.calls && broker.calls[stage.call.value].AdvanceCall? {
        AnswerIsStep(broker.Current(), stage.call.value, valid);
        ghost var next := broker.calls[stage.call.value].advance.next;
        granted := broker.AdvanceTransaction(stage.call.value, valid);
        if granted {
          settled := settled || (finalized && (next == ThreadStarted || next == ReconcileRequired));
          reached := if next == FailedRetryable then reached else next;
        }
      }
    }

    method GoOn(granted: bool)
      modifies this, broker
      requires Sound(broker.Current()) && stage.Advancing?
      ensures Matches(Resume(old(View()), token, old(Record()), granted))
      ensures Sound(broker.Current())
    {
      hide Sound, AdvanceBegin;
      match stage.purpose {
        case Direct => stage := Ended;
        case ReportPhase => if granted { stage := Ready; } else { CatchError(); }
        case RegisterThread => if granted { Advance(Completed, None, None, Complete); } else { CatchError(); }
        case Complete => if granted { terminal, stage := true, Ready; } else { CatchError(); }
        case ReportFailure => if granted { terminal, stage := true, Ready; } else { CatchError(); }
        case Recover =>
          stage := Ended;
          refused := finalized && !granted;
      }
    }
  }

  lemma AnswerIsStep(s: State, call: nat, valid: bool)
    requires call in s.calls && s.calls[call].AdvanceCall?
    ensures Enabled(s, DoAdvanceEnd(call, valid)) && Next(s, DoAdvanceEnd(call, valid)) == AdvanceEnd(s, call, valid)
  {
  }
}
