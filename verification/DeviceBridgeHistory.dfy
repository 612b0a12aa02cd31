/**
 Where an operation of the device bridge stands, read off the steps of its run: what was reported by
 whom, when, and with which outcome.
 */
module DeviceBridgeHistory {
  import opened Options
  import opened Ascii
  import opened DeviceBridge
  import opened DeviceBridgeTheorems

  // ---- what can happen to an operation ---------------------------------------------------------

  datatype Happening = Started | ProbeVerified | ProbeFailed | Confirmed | Delivered | Authorized | ReportedCompleted | ReportedFailed

  /** The owner calls while the bridge is up, and what the call does is saved. */
  predicate ByOwner(op: Operation, user: Id, w: World) {
    user == op.scope.userId && w.enabled && w.save
  }

  /** The inventory still has the device that the request was made for. */
  predicate SameBinding(scope: Scope, w: World) {
    && w.binding.Some? && w.binding.value.valid && w.binding.value.projectId == scope.projectId
    && Lower(w.binding.value.identityTag) == scope.identityTag
  }

  /** The artifact still is what the request was made for. */
  predicate SameArtifact(scope: Scope, w: World) {
    && w.artifact.Some? && w.artifact.value.active && w.now < w.artifact.value.expiresAt
    && w.artifact.value.projectId == scope.projectId && w.artifact.value.sessionId == scope.sessionId
    && Lower(w.artifact.value.sha) == scope.artifactSha
  }

  /** The device is the one of the request, and so is the artifact. */
  predicate SameDevice(op: Operation, report: ProbeReport, w: World) {
    && SameBinding(op.scope, w) && SameArtifact(op.scope, w)
    && w.binding.value.macTag == Some(MacTag(op.scope.projectId, report.mac))
    && report.artifactSha == op.scope.artifactSha
    && w.session == Some(op.scope.projectId)
  }

  predicate Probes(op: Operation, step: Step) {
    && step.DoSubmitProbe? && step.probe.Some? && ByOwner(op, step.user, step.w)
    && op.phase == Probe && step.w.now < op.phaseExpiresAt && step.w.profile
  }

  /** What was verified still stands. */
  predicate StillThere(op: Operation, w: World) {
    && w.profile && w.session.Some?
    && w.artifact.Some? && w.artifact.value.active && w.now < w.artifact.value.expiresAt && op.verifiedSha == Some(w.artifact.value.sha)
    && w.binding.Some? && w.binding.value.valid && w.binding.value.projectId == op.scope.projectId
    && w.binding.value.identityTag == op.scope.identityTag && w.binding.value.macTag == op.actualTag
  }

  predicate Reports(op: Operation, step: Step, outcome: WriteOutcome) {
    && step.DoReport? && step.report.Some? && ByOwner(op, step.user, step.w)
    && op.phase == Destructive && step.w.now < op.reportingExpiresAt
    && op.verifiedSha == Some(step.report.value.artifactSha) && op.writeToken == Some(step.report.value.writeToken)
    && step.report.value.outcome == outcome
  }

  /** The step is this for the operation. */
  predicate Is(s: State, step: Step, o: Id, h: Happening) {
    if h == Started then
      step.DoStartProbe? && step.id == o && o !in s.mem.operations && o in Next(s, step).mem.operations
    else
      && o in s.mem.operations && (step.DoSubmitProbe? || step.DoConfirm? || step.DoDeliver? || step.DoAuthorize? || step.DoReport?) && step.of == o
      && var op := s.mem.operations[o];
      match h
      case Started => false
      case ProbeVerified => Probes(op, step) && SameDevice(op, step.probe.value, step.w)
      case ProbeFailed => Probes(op, step) && !SameDevice(op, step.probe.value, step.w)
      case Confirmed =>
        step.DoConfirm? && ByOwner(op, step.user, step.w) && op.phase == Verified && step.w.now < op.phaseExpiresAt && StillThere(op, step.w)
      case Delivered =>
        && step.DoDeliver? && ByOwner(op, step.user, step.w) && op.phase == Confirmation && step.w.now < op.phaseExpiresAt
        && StillThere(op, step.w) && step.w.bytes
        && step.w.artifact.value.projectId == op.scope.projectId && step.w.artifact.value.sessionId == op.scope.sessionId
        && step.w.artifact.value.sha == op.scope.artifactSha
      case Authorized =>
        && step.DoAuthorize? && step.request.Some? && ByOwner(op, step.user, step.w)
        && op.phase == Confirmation && step.w.now < op.phaseExpiresAt && StillThere(op, step.w) && step.w.bytes
        && op.challenge.Some? && op.verifiedSha == Some(step.request.value.artifactSha)
        && op.actualTag == Some(MacTag(op.scope.projectId, step.request.value.mac))
      case ReportedCompleted => Reports(op, step, WriteCompleted)
      case ReportedFailed => Reports(op, step, WriteFailed)
  }

  ghost predicate Happened(steps: seq<Step>, o: Id, h: Happening) {
    exists k :: 0 <= k < |steps| && Is(Run(steps[..k]), steps[k], o, h)
  }

  lemma {:induction false} HappenedNext(steps: seq<Step>, o: Id, h: Happening)
    requires steps != []
    ensures var init := steps[..|steps| - 1];
            Happened(steps, o, h) <==> Happened(init, o, h) || Is(Run(init), steps[|steps| - 1], o, h)
  {
    hide Is, Run;
    var init := steps[..|steps| - 1];
    forall k | 0 <= k < |init| ensures Is(Run(init[..k]), init[k], o, h) == Is(Run(steps[..k]), steps[k], o, h) {
      assert init[..k] == steps[..k];
    }
  }

  // ---- one step --------------------------------------------------------------------------------

  /** What the happenings leave behind in the operation. */
  predicate Shows(op: Operation, h: Happening) {
    match h
    case Started => true
    case ProbeVerified => op.actualTag.Some?
    case ProbeFailed => op.phase == Failed && op.writeToken.None?
    case Confirmed => op.phase == Confirmation || op.writeToken.Some?
    case Delivered => op.challenge.Some? || op.writeToken.Some?
    case Authorized => op.writeToken.Some?
    case ReportedCompleted => op.phase == Completed
    case ReportedFailed => op.phase == Failed && op.writeToken.Some?
  }

  /** The other steps leave the operation alone. */
  lemma OtherShows(s: State, step: Step, o: Id, h: Happening)
    requires Sound(s) && o in s.mem.operations && h != Started
    requires (step.DoRequest? || step.DoApprove? || step.DoStartProbe?) || step.of != o
    ensures o in Next(s, step).mem.operations && Next(s, step).mem.operations[o] == s.mem.operations[o] && !Is(s, step, o, h)
  {
    hide Sound, ArtifactFits, BindingFits, EvidenceStands, QuotaLeft, HasApproval, HasOperation, ProbeMatches;
    if !(step.DoRequest? || step.DoApprove? || step.DoStartProbe?) && step.of in s.mem.operations { OperationKnown(s, step.of); }
  }

  lemma ProbeShows(s: State, step: Step, o: Id, h: Happening)
    requires Sound(s) && o in s.mem.operations && h != Started && step.DoSubmitProbe? && step.of == o
    ensures o in Next(s, step).mem.operations
    ensures Shows(Next(s, step).mem.operations[o], h) <==> Shows(s.mem.operations[o], h) || Is(s, step, o, h)
  {
    hide Sound;
    OperationKnown(s, o);
  }

  lemma ConfirmShows(s: State, step: Step, o: Id, h: Happening)
    requires Sound(s) && o in s.mem.operations && h != Started && (step.DoConfirm? || step.DoDeliver?) && step.of == o
    ensures o in Next(s, step).mem.operations
    ensures Shows(Next(s, step).mem.operations[o], h) <==> Shows(s.mem.operations[o], h) || Is(s, step, o, h)
  {
    hide Sound;
    OperationKnown(s, o);
  }

  lemma WriteShows(s: State, step: Step, o: Id, h: Happening)
    requires Sound(s) && o in s.mem.operations && h != Started && (step.DoAuthorize? || step.DoReport?) && step.of == o
    ensures o in Next(s, step).mem.operations
    ensures Shows(Next(s, step).mem.operations[o], h) <==> Shows(s.mem.operations[o], h) || Is(s, step, o, h)
  {
    hide Sound;
    OperationKnown(s, o);
  }

  lemma StepShows(s: State, step: Step, o: Id, h: Happening)
    requires Sound(s) && o in s.mem.operations && h != Started
    ensures o in Next(s, step).mem.operations
    ensures Shows(Next(s, step).mem.operations[o], h) <==> Shows(s.mem.operations[o], h) || Is(s, step, o, h)
  {
    hide Sound, Next, Is, Shows;
    if (step.DoRequest? || step.DoApprove? || step.DoStartProbe?) || step.of != o {
      OtherShows(s, step, o, h);
    } else if step.DoSubmitProbe? {
      ProbeShows(s, step, o, h);
    } else if step.DoConfirm? || step.DoDeliver? {
      ConfirmShows(s, step, o, h);
    } else {
      WriteShows(s, step, o, h);
    }
  }

  // ---- runs ------------------------------------------------------------------------------------

  /** A new operation shows nothing, and only starting a probe makes one. */
  lemma NewShows(s: State, step: Step, o: Id, h: Happening)
    requires Sound(s) && o !in s.mem.operations
    ensures o in Next(s, step).mem.operations <==> Is(s, step, o, Started)
    ensures o in Next(s, step).mem.operations && h != Started ==> !Shows(Next(s, step).mem.operations[o], h)
    ensures h != Started ==> !Is(s, step, o, h)
  {
    hide Sound, ArtifactFits, BindingFits, EvidenceStands, QuotaLeft, HasApproval, HasOperation, ProbeMatches, Probes;
    if !(step.DoRequest? || step.DoApprove? || step.DoStartProbe?) && step.of in s.mem.operations { OperationKnown(s, step.of); }
  }

  /** Each of these can be read off the operation exactly when it has happened in the run. */
  lemma {:induction false} HappenedExactly(steps: seq<Step>, o: Id, h: Happening)
    ensures var operations := Run(steps).mem.operations;
            o in operations && Shows(operations[o], h) <==> Happened(steps, o, h)
    decreases |steps|
  {
    hide Sound, Next, Is, Shows, Happened;
    if steps == [] {
      NothingHappened(o, h);
    } else {
      var init, last := steps[..|steps| - 1], steps[|steps| - 1];
      HappenedExactly(init, o, h);
      HappenedNext(steps, o, h);
      RunSound(init);
      if o !in Run(init).mem.operations {
        NewShows(Run(init), last, o, h);
        if h == Started { AlwaysShown(Run(steps).mem.operations, o); }
      } else if h == Started {
        StaysThere(Run(init), last, o);
        AlwaysShown(Run(init).mem.operations, o);
        AlwaysShown(Run(steps).mem.operations, o);
      } else {
        StepShows(Run(init), last, o, h);
      }
    }
  }

  lemma AlwaysShown(operations: map<Id, Operation>, o: Id)
    ensures o in operations ==> Shows(operations[o], Started)
  {
  }

  lemma StaysThere(s: State, step: Step, o: Id)
    requires Sound(s) && o in s.mem.operations
    ensures o in Next(s, step).mem.operations && !Is(s, step, o, Started)
  {
    hide Sound, Next;
    StepForward(s, step);
  }

  lemma NothingHappened(o: Id, h: Happening)
    ensures !Happened([], o, h) && o !in Run([]).mem.operations
  {
  }

  /** The step is told that this outcome of the operation was recorded. */
  predicate Grants(s: State, step: Step, o: Id, outcome: WriteOutcome) {
    GrantsReport(s, step, o) && step.report.Some? && step.report.value.outcome == outcome
  }

  lemma RecordedIsGranted(s: State, step: Step, o: Id)
    requires Sound(s)
    ensures Is(s, step, o, ReportedCompleted) ==> Grants(s, step, o, WriteCompleted)
    ensures Is(s, step, o, ReportedFailed) ==> Grants(s, step, o, WriteFailed)
  {
    hide Sound;
  }

  lemma GrantedIsRecorded(s: State, step: Step, o: Id)
    requires Sound(s)
    ensures Grants(s, step, o, WriteCompleted) ==>
              Is(s, step, o, ReportedCompleted) || (o in s.mem.operations && Shows(s.mem.operations[o], ReportedCompleted))
    ensures Grants(s, step, o, WriteFailed) ==>
              Is(s, step, o, ReportedFailed) || (o in s.mem.operations && Shows(s.mem.operations[o], ReportedFailed))
  {
    hide Sound;
  }

  /** The phase that a reported outcome leads to. */
  function Outcome(h: Happening): WriteOutcome {
    if h == ReportedCompleted then WriteCompleted else WriteFailed
  }

  ghost predicate GrantedIn(steps: seq<Step>, o: Id, outcome: WriteOutcome) {
    exists k :: 0 <= k < |steps| && Grants(Run(steps[..k]), steps[k], o, outcome)
  }

  lemma {:induction false} GrantedExactly(steps: seq<Step>, o: Id, h: Happening)
    requires h == ReportedCompleted || h == ReportedFailed
    ensures GrantedIn(steps, o, Outcome(h)) <==> Happened(steps, o, h)
  {
    hide Sound, Run, Is, Shows, Grants;
    if Happened(steps, o, h) {
      var k :| 0 <= k < |steps| && Is(Run(steps[..k]), steps[k], o, h);
      RunSound(steps[..k]);
      RecordedIsGranted(Run(steps[..k]), steps[k], o);
      assert Grants(Run(steps[..k]), steps[k], o, Outcome(h));
    }
    if GrantedIn(steps, o, Outcome(h)) {
      var k :| 0 <= k < |steps| && Grants(Run(steps[..k]), steps[k], o, Outcome(h));
      RunSound(steps[..k]);
      GrantedIsRecorded(Run(steps[..k]), steps[k], o);
      HappenedExactly(steps[..k], o, h);
      if Happened(steps[..k], o, h) { HappenedBefore(steps, k, o, h); }
    }
  }

  lemma {:induction false} HappenedBefore(steps: seq<Step>, k: nat, o: Id, h: Happening)
    requires k <= |steps| && Happened(steps[..k], o, h)
    ensures Happened(steps, o, h)
  {
    hide Run, Is;
    var j :| 0 <= j < k && Is(Run(steps[..k][..j]), steps[..k][j], o, h);
    assert steps[..k][..j] == steps[..j];
  }

  /**
   An operation is completed exactly when some report of completion was granted to it, and has failed
   after its authorization exactly when some report of a failure was: by its owner, in time, with its
   token and its artifact.
   */
  lemma {:induction false} OutcomeIsReported(steps: seq<Step>, o: Id)
    ensures var operations := Run(steps).mem.operations;
            && (o in operations && operations[o].phase == Completed <==> GrantedIn(steps, o, WriteCompleted))
            && (o in operations && operations[o].phase == Completed <==> Happened(steps, o, ReportedCompleted))
            && (o in operations && operations[o].phase == Failed && operations[o].writeToken.Some? <==> GrantedIn(steps, o, WriteFailed))
            && (o in operations && operations[o].phase == Failed && operations[o].writeToken.Some? <==> Happened(steps, o, ReportedFailed))
  {
    hide Run, Happened, GrantedIn;
    HappenedExactly(steps, o, ReportedCompleted);
    HappenedExactly(steps, o, ReportedFailed);
    GrantedExactly(steps, o, ReportedCompleted);
    GrantedExactly(steps, o, ReportedFailed);
  }

  /** So for the earlier phases: each is reached exactly by its own step, and a probe that does not match ends the operation. */
  lemma {:induction false} PhaseIsReached(steps: seq<Step>, o: Id)
    ensures var operations := Run(steps).mem.operations;
            && (o in operations <==> Happened(steps, o, Started))
            && (o in operations && operations[o].phase == Failed && operations[o].writeToken.None? <==> Happened(steps, o, ProbeFailed))
            && (o in operations && operations[o].actualTag.Some? <==> Happened(steps, o, ProbeVerified))
            && (o in operations && (operations[o].phase == Confirmation || operations[o].writeToken.Some?) <==> Happened(steps, o, Confirmed))
            && (o in operations && (operations[o].challenge.Some? || operations[o].writeToken.Some?) <==> Happened(steps, o, Delivered))
            && (o in operations && operations[o].writeToken.Some? <==> Happened(steps, o, Authorized))
  {
    hide Run, Happened;
    HappenedExactly(steps, o, Started);
    HappenedExactly(steps, o, ProbeFailed);
    HappenedExactly(steps, o, ProbeVerified);
    HappenedExactly(steps, o, Confirmed);
    HappenedExactly(steps, o, Delivered);
    HappenedExactly(steps, o, Authorized);
  }

  // ---- deadlines -------------------------------------------------------------------------------

  ghost predicate HappenedAt(steps: seq<Step>, o: Id, h: Happening, now: int) {
    exists k :: 0 <= k < |steps| && Is(Run(steps[..k]), steps[k], o, h) && steps[k].w.now == now
  }

  lemma {:induction false} HappenedAtNext(steps: seq<Step>, o: Id, h: Happening, now: int)
    requires steps != []
    ensures var init, last := steps[..|steps| - 1], steps[|steps| - 1];
            HappenedAt(steps, o, h, now) <==> HappenedAt(init, o, h, now) || (Is(Run(init), last, o, h) && last.w.now == now)
  {
    hide Is, Run;
    var init := steps[..|steps| - 1];
    forall k | 0 <= k < |init| ensures Is(Run(init[..k]), init[k], o, h) == Is(Run(steps[..k]), steps[k], o, h) {
      assert init[..k] == steps[..k];
    }
  }

  /** A new probe has five minutes, and fifteen until its outcome can be reported no more. */
  lemma StartedStamp(s: State, step: Step, o: Id)
    requires Sound(s) && Is(s, step, o, Started)
    ensures var op := Next(s, step).mem.operations[o];
            op.phase == Probe && op.reportingExpiresAt == step.w.now + 900000 && op.phaseExpiresAt == step.w.now + 300000
  {
    hide Sound, ArtifactFits, BindingFits, HasOperation;
  }

  /** A confirmation has one minute, an authorization two; nothing else moves a deadline. */
  lemma StepStamp(s: State, step: Step, o: Id)
    requires Sound(s) && o in s.mem.operations
    ensures o in Next(s, step).mem.operations
    ensures var op, op' := s.mem.operations[o], Next(s, step).mem.operations[o];
            && op'.reportingExpiresAt == op.reportingExpiresAt
            && (if Is(s, step, o, Confirmed) then op'.phase == Confirmation && op'.phaseExpiresAt == step.w.now + 60000
                else if Is(s, step, o, Authorized) then op'.phase == Destructive && op'.phaseExpiresAt == step.w.now + 120000
                else op'.phaseExpiresAt == op.phaseExpiresAt
                     && (op'.phase == op.phase || (op.phase == Probe && op'.phase == Verified) || op'.phase == Completed || op'.phase == Failed))
  {
    hide Sound, Next, Is;
    if (step.DoRequest? || step.DoApprove? || step.DoStartProbe?) || step.of != o {
      OtherShows(s, step, o, Confirmed);
      OtherShows(s, step, o, Authorized);
    } else if step.DoSubmitProbe? {
      ProbeStamp(s, step, o);
    } else {
      OpenStamp(s, step, o);
    }
  }

  lemma ProbeStamp(s: State, step: Step, o: Id)
    requires Sound(s) && o in s.mem.operations && step.DoSubmitProbe? && step.of == o
    ensures !Is(s, step, o, Confirmed) && !Is(s, step, o, Authorized) && o in Next(s, step).mem.operations
    ensures var op, op' := s.mem.operations[o], Next(s, step).mem.operations[o];
            && op'.reportingExpiresAt == op.reportingExpiresAt && op'.phaseExpiresAt == op.phaseExpiresAt
            && (op'.phase == op.phase || (op.phase == Probe && op'.phase == Verified) || op'.phase == Failed)
  {
    hide Sound, ProbeMatches;
    OperationKnown(s, o);
  }

  lemma OpenStamp(s: State, step: Step, o: Id)
    requires Sound(s) && o in s.mem.operations && (step.DoConfirm? || step.DoDeliver? || step.DoAuthorize? || step.DoReport?) && step.of == o
    ensures o in Next(s, step).mem.operations
    ensures var op, op' := s.mem.operations[o], Next(s, step).mem.operations[o];
            && op'.reportingExpiresAt == op.reportingExpiresAt
            && (if Is(s, step, o, Confirmed) then op'.phase == Confirmation && op'.phaseExpiresAt == step.w.now + 60000
                else if Is(s, step, o, Authorized) then op'.phase == Destructive && op'.phaseExpiresAt == step.w.now + 120000
                else op'.phaseExpiresAt == op.phaseExpiresAt && (op'.phase == op.phase || op'.phase == Completed || op'.phase == Failed))
  {
    hide Sound;
    OperationKnown(s, o);
  }

  /** Every deadline counts from the step that set it. */
  lemma {:induction false} DeadlinesCount(steps: seq<Step>, o: Id)
    requires o in Run(steps).mem.operations
    ensures var op := Run(steps).mem.operations[o];
            && HappenedAt(steps, o, Started, op.reportingExpiresAt - 900000)
            && (op.phase == Probe || op.phase == Verified ==> op.phaseExpiresAt == op.reportingExpiresAt - 600000)
            && (op.phase == Confirmation ==> HappenedAt(steps, o, Confirmed, op.phaseExpiresAt - 60000))
            && (op.phase == Destructive ==> HappenedAt(steps, o, Authorized, op.phaseExpiresAt - 120000))
    decreases |steps|
  {
    hide Sound, Next, Is, HappenedAt;
    if steps != [] {
      var init, last := steps[..|steps| - 1], steps[|steps| - 1];
      var op := Run(steps).mem.operations[o];
      RunSound(init);
      HappenedAtNext(steps, o, Started, op.reportingExpiresAt - 900000);
      HappenedAtNext(steps, o, Confirmed, op.phaseExpiresAt - 60000);
      HappenedAtNext(steps, o, Authorized, op.phaseExpiresAt - 120000);
      if o in Run(init).mem.operations {
        DeadlinesCount(init, o);
        StepStamp(Run(init), last, o);
      } else {
        NewShows(Run(init), last, o, Started);
        StartedStamp(Run(init), last, o);
      }
    }
  }

  // ---- requests and approvals --------------------------------------------------------------------

  predicate Asks(step: Step, r: Id, request: Request) {
    && step.DoRequest? && step.id == r && step.w.enabled && step.w.save && step.scope == request.scope
    && step.w.session == Some(request.scope.projectId) && SameBinding(request.scope, step.w) && request.expiresAt == step.w.now + 300000
  }

  predicate Approves(s: State, step: Step, a: Id, approval: Approval) {
    && step.DoApprove? && step.id == a && step.w.enabled && step.w.save && step.of == approval.requestId
    && step.of in s.mem.requests && s.mem.requests[step.of].scope == approval.scope && step.user == approval.scope.userId
    && step.w.now < s.mem.requests[step.of].expiresAt && !s.mem.requests[step.of].approved
    && step.w.session == Some(approval.scope.projectId) && SameBinding(approval.scope, step.w) && SameArtifact(approval.scope, step.w)
    && approval.expiresAt == step.w.now + 300000
  }

  predicate StartsProbe(s: State, step: Step, o: Id, op: Operation) {
    && step.DoStartProbe? && step.id == o && step.w.enabled && step.w.save && step.w.profile && step.of == op.approvalId
    && step.of in s.mem.approvals && s.mem.approvals[step.of].scope == op.scope && step.user == op.scope.userId
    && step.w.now < s.mem.approvals[step.of].expiresAt && !s.mem.approvals[step.of].consumed
    && step.w.session == Some(op.scope.projectId) && SameBinding(op.scope, step.w) && SameArtifact(op.scope, step.w)
    && step.w.binding.value.macTag.Some?
  }

  lemma RequestStep(s: State, step: Step, r: Id)
    requires r in Next(s, step).mem.requests
    ensures var request := Next(s, step).mem.requests[r];
            if r in s.mem.requests then request == s.mem.requests[r].(approved := request.approved) else Asks(step, r, request)
  {
    hide QuotaLeft, HasApproval, HasOperation, EvidenceStands, ProbeMatches;
  }

  lemma ApprovalStep(s: State, step: Step, a: Id)
    requires a in Next(s, step).mem.approvals
    ensures var approval := Next(s, step).mem.approvals[a];
            if a in s.mem.approvals then approval == s.mem.approvals[a].(consumed := approval.consumed) else Approves(s, step, a, approval)
  {
    hide QuotaLeft, HasApproval, HasOperation, EvidenceStands, ProbeMatches;
  }

  lemma OperationStep(s: State, step: Step, o: Id)
    requires Sound(s) && o in Next(s, step).mem.operations && o !in s.mem.operations
    ensures StartsProbe(s, step, o, Next(s, step).mem.operations[o])
  {
    hide Sound, QuotaLeft, HasApproval, HasOperation, EvidenceStands, ProbeMatches;
    if !(step.DoRequest? || step.DoApprove? || step.DoStartProbe?) && step.of in s.mem.operations { OperationKnown(s, step.of); }
  }

  /** Nothing more is asked of an approval, nor of a probe. */
  lemma {:induction false} AdmittedExactly(steps: seq<Step>, step: Step)
    requires Enabled(Run(steps), step)
    ensures var s := Run(steps);
            && (step.DoApprove? && step.of in s.mem.requests ==>
                  (step.id in Next(s, step).mem.approvals
                   <==> Approves(s, step, step.id, Approval(step.id, step.of, s.mem.requests[step.of].scope, false, step.w.now + 300000))))
            && (step.DoStartProbe? && step.of in s.mem.approvals ==>
                  (step.id in Next(s, step).mem.operations
                   <==> exists op :: StartsProbe(s, step, step.id, op)))
  {
    hide Run, OperationsOk, QuotaLeft;
    RunSound(steps);
    var s := Run(steps);
    if step.DoApprove? && step.id in Next(s, step).mem.approvals { ApprovalStep(s, step, step.id); }
    if step.DoStartProbe? && step.of in s.mem.approvals {
      if step.id in Next(s, step).mem.operations { OperationStep(s, step, step.id); }
    }
  }

  lemma {:induction false} RequestAsked(steps: seq<Step>, r: Id) returns (i: nat)
    requires r in Run(steps).mem.requests
    ensures i < |steps| && Asks(steps[i], r, Run(steps).mem.requests[r])
    decreases |steps|
  {
    hide Next;
    assert steps != [];
    var init := steps[..|steps| - 1];
    RequestStep(Run(init), steps[|steps| - 1], r);
    if r in Run(init).mem.requests { i := RequestAsked(init, r); } else { i := |steps| - 1; }
  }

  lemma {:induction false} ApprovalGiven(steps: seq<Step>, a: Id) returns (j: nat)
    requires a in Run(steps).mem.approvals
    ensures j < |steps| && Approves(Run(steps[..j]), steps[j], a, Run(steps).mem.approvals[a])
    decreases |steps|
  {
    hide Next;
    assert steps != [];
    var init := steps[..|steps| - 1];
    ApprovalStep(Run(init), steps[|steps| - 1], a);
    if a in Run(init).mem.approvals {
      j := ApprovalGiven(init, a);
      assert init[..j] == steps[..j];
    } else {
      j := |steps| - 1;
    }
  }

  lemma {:induction false} ProbeStarted(steps: seq<Step>, o: Id) returns (k: nat)
    requires o in Run(steps).mem.operations
    ensures k < |steps| && StartsProbe(Run(steps[..k]), steps[k], o, Run(steps).mem.operations[o])
    decreases |steps|
  {
    hide Next, Sound;
    assert steps != [];
    var init := steps[..|steps| - 1];
    RunSound(init);
    if o in Run(init).mem.operations {
      k := ProbeStarted(init, o);
      assert init[..k] == steps[..k];
      StepForward(Run(init), steps[|steps| - 1]);
    } else {
      k := |steps| - 1;
      OperationStep(Run(init), steps[k], o);
    }
  }

  /** The steps at these places request, approve and start the operation, each by its owner and within five minutes of the one before. */
  ghost predicate Admitted(steps: seq<Step>, i: nat, j: nat, k: nat, o: Id, op: Operation) {
    && i < j < k < |steps| && steps[i].DoRequest? && steps[j].DoApprove? && steps[k].DoStartProbe?
    && steps[i].scope == op.scope
    && steps[j].of == steps[i].id && steps[j].user == op.scope.userId && steps[j].w.now < steps[i].w.now + 300000
    && steps[k].of == steps[j].id && steps[k].user == op.scope.userId && steps[k].w.now < steps[j].w.now + 300000
    && steps[k].id == o && steps[j].id == op.approvalId
    && (forall n :: n in [i, j, k] ==> steps[n].w.enabled && steps[n].w.save && steps[n].w.session == Some(op.scope.projectId) && SameBinding(op.scope, steps[n].w))
    && SameArtifact(op.scope, steps[j].w) && SameArtifact(op.scope, steps[k].w)
  }

  /** Every operation was requested, approved and started by its owner, in this order and in time. */
  lemma {:induction false} OperationIsAdmitted(steps: seq<Step>, o: Id)
    requires o in Run(steps).mem.operations
    ensures exists i, j, k :: Admitted(steps, i, j, k, o, Run(steps).mem.operations[o])
  {
    hide Run;
    var op := Run(steps).mem.operations[o];
    var k := ProbeStarted(steps, o);
    var j := ApprovalGiven(steps[..k], op.approvalId);
    assert steps[..k][..j] == steps[..j];
    var i := RequestAsked(steps[..j], steps[j].of);
    assert Admitted(steps, i, j, k, o, op);
  }

  // ---- the quota -------------------------------------------------------------------------------

  /** The requests of a session, or of a user, that still wait for their approval. */
  function Waiting(requests: map<Id, Request>, now: nat, scope: Scope, ofUser: bool): set<Id> {
    set r | r in requests && !requests[r].approved && now < requests[r].expiresAt
            && (if ofUser then requests[r].scope.userId == scope.userId else requests[r].scope.sessionId == scope.sessionId)
  }

  /** A request is taken exactly while fewer than three of its session and five of its user are waiting. */
  lemma QuotaIsExact(s: State, scope: Scope, id: Id, w: World)
    requires id !in s.mem.requests && w.enabled && w.save && w.session == Some(scope.projectId) && SameBinding(scope, w) && SameArtifact(scope, w)
    ensures id in RequestFlash(s, scope, id, w).mem.requests
            <==> |Waiting(s.mem.requests, w.now, scope, false)| < 3 && |Waiting(s.mem.requests, w.now, scope, true)| < 5
  {
    var requests := s.mem.requests;
    assert (set r | r in Pending(requests, w.now) && requests[r].scope.sessionId == scope.sessionId) == Waiting(requests, w.now, scope, false);
    assert (set r | r in Pending(requests, w.now) && requests[r].scope.userId == scope.userId) == Waiting(requests, w.now, scope, true);
  }

  // ---- challenges ----------------------------------------------------------------------------------

  ghost predicate Spent(t: Tables) {
    forall o :: o in t.operations && t.operations[o].writeToken.Some? ==> t.operations[o].challenge == None
  }

  lemma SpentKept(s: State, step: Step)
    requires Sound(s) && Spent(s.mem)
    ensures Spent(Next(s, step).mem)
  {
    hide BindingFits, ArtifactFits, EvidenceStands, QuotaLeft, HasApproval, HasOperation;
  }

  /** A challenge is answered once: after the authorization none is left. */
  lemma {:induction false} ChallengeIsSpent(steps: seq<Step>)
    ensures Spent(Run(steps).mem)
    decreases |steps|
  {
    hide Sound, Next, Spent;
    if steps == [] { NothingSpent(); }
    else {
      RunSound(steps[..|steps| - 1]);
      ChallengeIsSpent(steps[..|steps| - 1]);
      SpentKept(Run(steps[..|steps| - 1]), steps[|steps| - 1]);
    }
  }

  lemma NothingSpent()
    ensures Spent(Run([]).mem)
  {
  }
}
