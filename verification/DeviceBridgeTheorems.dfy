/**
 What every run of the device bridge keeps.
 */
module DeviceBridgeTheorems {
  import opened Options
  import opened Ascii
  import opened DeviceBridge

  // ---- the invariant ---------------------------------------------------------------------------

  ghost predicate Keyed(t: Tables) {
    && (forall r :: r in t.requests ==> t.requests[r].id == r)
    && (forall a :: a in t.approvals ==> t.approvals[a].id == a)
    && (forall o :: o in t.operations ==> t.operations[o].id == o)
  }

  /** Every approval has its own approved request, and the other way round. */
  ghost predicate ApprovalsChain(t: Tables) {
    && (forall a :: a in t.approvals ==> ApprovalFits(t, a))
    && (forall a, b :: a in t.approvals && b in t.approvals && t.approvals[a].requestId == t.approvals[b].requestId ==> a == b)
    && (forall r :: r in t.requests ==> (t.requests[r].approved <==> HasApproval(t.approvals, r)))
  }

  predicate ApprovalFits(t: Tables, a: Id)
    requires a in t.approvals
  {
    && t.approvals[a].requestId in t.requests && t.requests[t.approvals[a].requestId].approved
    && t.approvals[a].scope == t.requests[t.approvals[a].requestId].scope
  }

  /** Every operation has its own consumed approval, and the other way round. */
  ghost predicate OperationsChain(t: Tables) {
    && (forall o :: o in t.operations ==> OperationFits(t, o))
    && (forall a, b :: a in t.operations && b in t.operations && t.operations[a].approvalId == t.operations[b].approvalId ==> a == b)
    && (forall a :: a in t.approvals ==> (t.approvals[a].consumed <==> HasOperation(t.operations, a)))
  }

  predicate OperationFits(t: Tables, o: Id)
    requires o in t.operations
  {
    && t.operations[o].approvalId in t.approvals && t.approvals[t.operations[o].approvalId].consumed
    && t.operations[o].scope == t.approvals[t.operations[o].approvalId].scope
  }

  /** The artifact has been verified, and the device has matched the inventory. */
  predicate Proven(op: Operation, matched: set<(Id, MacTag)>) {
    && op.verifiedSha == Some(op.scope.artifactSha)
    && op.actualTag.Some? && (op.id, op.actualTag.value) in matched
  }

  predicate OperationOk(op: Operation, matched: set<(Id, MacTag)>, delivered: set<Id>) {
    match op.phase
    case Probe => op.writeToken == None && op.challenge == None && op.nextEventSequence == 0
    case Verified => op.writeToken == None && op.challenge == None && op.nextEventSequence == 0 && Proven(op, matched)
    case Confirmation =>
      && op.writeToken == None && op.nextEventSequence == 0 && Proven(op, matched)
      && (op.challenge.Some? ==> op.id in delivered)
    case Destructive => op.writeToken.Some? && op.nextEventSequence == 1 && Proven(op, matched) && op.id in delivered
    case Completed => op.writeToken.Some? && op.nextEventSequence == 2 && Proven(op, matched) && op.id in delivered
    case Failed => if op.writeToken.Some? then op.nextEventSequence == 2 && Proven(op, matched) && op.id in delivered
                   else op.nextEventSequence == 0
  }

  ghost predicate OperationsOk(s: State) {
    forall o :: o in s.mem.operations ==> OperationOk(s.mem.operations[o], s.matched, s.delivered)
  }

  ghost predicate Sound(s: State) {
    Keyed(s.mem) && ApprovalsChain(s.mem) && OperationsChain(s.mem) && OperationsOk(s) && s.mem == s.disk
  }

  // ---- changes -----------------------------------------------------------------------------------

  /** An operation is replaced by one of the same approval and scope. */
  lemma ReplaceKeeps(s: State, op: Operation, matched: set<(Id, MacTag)>, delivered: set<Id>)
    requires Sound(s) && op.id in s.mem.operations
    requires op.approvalId == s.mem.operations[op.id].approvalId && op.scope == s.mem.operations[op.id].scope
    requires s.matched <= matched && s.delivered <= delivered && OperationOk(op, matched, delivered)
    ensures Sound(Replace(s, op, true).(matched := matched, delivered := delivered))
  {
    hide ApprovalsChain;
    var t := s.mem.(operations := s.mem.operations[op.id := op]);
    SameApprovals(s.mem, t);
    forall a | a in t.approvals ensures HasOperation(t.operations, a) == HasOperation(s.mem.operations, a) {
      if HasOperation(s.mem.operations, a) {
        var o :| o in s.mem.operations && s.mem.operations[o].approvalId == a;
        assert t.operations[o].approvalId == a;
      }
      if HasOperation(t.operations, a) {
        var o :| o in t.operations && t.operations[o].approvalId == a;
        assert s.mem.operations[o].approvalId == a;
      }
    }
  }

  lemma SameApprovals(t: Tables, t': Tables)
    requires ApprovalsChain(t) && t'.requests == t.requests && t'.approvals == t.approvals
    ensures ApprovalsChain(t')
  {
    forall a | a in t'.approvals ensures ApprovalFits(t', a) { assert ApprovalFits(t, a); }
  }

  lemma RequestKeeps(s: State, scope: Scope, id: Id, w: World)
    requires Sound(s) && id !in s.mem.requests
    ensures Sound(RequestFlash(s, scope, id, w))
  {
    hide QuotaLeft, Lower, OperationsOk, OperationsChain;
    var t := s.mem.(requests := s.mem.requests[id := Request(id, scope, false, w.now + LIFETIME)]);
    forall a | a in t.approvals ensures ApprovalFits(t, a) { assert ApprovalFits(s.mem, a); }
    assert !HasApproval(t.approvals, id);
    SameOperations(s, t);
  }

  lemma SameOperations(s: State, t: Tables)
    requires OperationsChain(s.mem) && OperationsOk(s) && t.approvals == s.mem.approvals && t.operations == s.mem.operations
    ensures OperationsChain(t) && OperationsOk(s.(mem := t, disk := t))
  {
    forall o | o in t.operations ensures OperationFits(t, o) { assert OperationFits(s.mem, o); }
  }

  lemma ApproveKeeps(s: State, user: Id, r: Id, id: Id, w: World)
    requires Sound(s) && id !in s.mem.approvals
    ensures Sound(Approve(s, user, r, id, w))
  {
    hide ArtifactFits, BindingFits, OperationsOk, ApprovalsChain, OperationsChain, HasApproval;
    if MayApprove(s.mem, user, r, w) {
      var request := s.mem.requests[r];
      var t := s.mem.(requests := s.mem.requests[r := request.(approved := true)],
                      approvals := s.mem.approvals[id := Approval(id, r, request.scope, false, w.now + LIFETIME)]);
      ApprovedChain(s.mem, t, r, id);
      ApprovedOperations(s.mem, t, id);
      OperationsOkSame(s, t);
    }
  }

  lemma OperationsOkSame(s: State, t: Tables)
    requires OperationsOk(s) && t.operations == s.mem.operations
    ensures OperationsOk(s.(mem := t, disk := t))
  {
  }

  lemma OperationsOkAdded(s: State, t: Tables, op: Operation)
    requires OperationsOk(s) && t.operations == s.mem.operations[op.id := op] && OperationOk(op, s.matched, s.delivered)
    ensures OperationsOk(s.(mem := t, disk := t))
  {
  }

  lemma ApprovedChain(t: Tables, t': Tables, r: Id, id: Id)
    requires ApprovalsChain(t) && r in t.requests && id !in t.approvals && !HasApproval(t.approvals, r)
    requires t'.requests == t.requests[r := t.requests[r].(approved := true)]
    requires id in t'.approvals && t'.approvals == t.approvals[id := t'.approvals[id]]
    requires t'.approvals[id].requestId == r && t'.approvals[id].scope == t.requests[r].scope
    ensures ApprovalsChain(t')
  {
    forall a | a in t'.approvals ensures ApprovalFits(t', a) { if a != id { assert ApprovalFits(t, a); } }
    forall q | q in t'.requests ensures t'.requests[q].approved <==> HasApproval(t'.approvals, q) {
      if q == r { assert t'.approvals[id].requestId == q; }
      if HasApproval(t.approvals, q) {
        var a :| a in t.approvals && t.approvals[a].requestId == q;
        assert t'.approvals[a].requestId == q;
      }
    }
  }

  lemma ApprovedOperations(t: Tables, t': Tables, id: Id)
    requires OperationsChain(t) && id !in t.approvals && t'.operations == t.operations
    requires id in t'.approvals && t'.approvals == t.approvals[id := t'.approvals[id]] && !t'.approvals[id].consumed
    ensures OperationsChain(t')
  {
    forall o | o in t'.operations ensures OperationFits(t', o) { assert OperationFits(t, o); }
    assert !HasOperation(t.operations, id);
  }

  lemma StartProbeKeeps(s: State, user: Id, a: Id, id: Id, w: World)
    requires Sound(s) && id !in s.mem.operations
    ensures Sound(StartProbe(s, user, a, id, w))
  {
    hide ArtifactFits, BindingFits, ApprovalsChain, OperationsChain, HasOperation, OperationsOk;
    if MayProbe(s.mem, user, a, w) {
      var approval := s.mem.approvals[a];
      var op := Operation(id, a, approval.scope, Probe, None, None, None, None, 0, w.now + LIFETIME, w.now + REPORT_LIFETIME);
      var t := s.mem.(approvals := s.mem.approvals[a := approval.(consumed := true)], operations := s.mem.operations[id := op]);
      StartedApprovals(s.mem, t, a);
      StartedChain(s.mem, t, a, op);
      OperationsOkAdded(s, t, op);
    }
  }

  lemma StartedApprovals(t: Tables, t': Tables, a: Id)
    requires ApprovalsChain(t) && a in t.approvals && t'.requests == t.requests
    requires t'.approvals == t.approvals[a := t.approvals[a].(consumed := true)]
    ensures ApprovalsChain(t')
  {
    forall b | b in t'.approvals ensures ApprovalFits(t', b) { assert ApprovalFits(t, b); }
    forall r | r in t'.requests ensures HasApproval(t'.approvals, r) == HasApproval(t.approvals, r) {
      if HasApproval(t.approvals, r) {
        var b :| b in t.approvals && t.approvals[b].requestId == r;
        assert t'.approvals[b].requestId == r;
      }
      if HasApproval(t'.approvals, r) {
        var b :| b in t'.approvals && t'.approvals[b].requestId == r;
        assert t.approvals[b].requestId == r;
      }
    }
  }

  lemma StartedChain(t: Tables, t': Tables, a: Id, op: Operation)
    requires OperationsChain(t) && a in t.approvals && !HasOperation(t.operations, a) && op.id !in t.operations
    requires op.approvalId == a && op.scope == t.approvals[a].scope
    requires t'.approvals == t.approvals[a := t.approvals[a].(consumed := true)] && t'.operations == t.operations[op.id := op]
    ensures OperationsChain(t')
  {
    forall o | o in t'.operations ensures OperationFits(t', o) { if o != op.id { assert OperationFits(t, o); } }
    forall b | b in t'.approvals ensures t'.approvals[b].consumed <==> HasOperation(t'.operations, b) {
      if b == a { assert t'.operations[op.id].approvalId == b; }
      if HasOperation(t.operations, b) {
        var o :| o in t.operations && t.operations[o].approvalId == b;
        assert t'.operations[o].approvalId == b;
      }
    }
  }

  lemma OperationKnown(s: State, o: Id)
    requires Sound(s) && o in s.mem.operations
    ensures s.mem.operations[o].id == o && OperationOk(s.mem.operations[o], s.matched, s.delivered)
  {
  }

  lemma MatchKnown(op: Operation, report: ProbeReport, w: World)
    requires ProbeMatches(op, report, w)
    ensures w.binding.Some? && w.binding.value.macTag == Some(MacTag(op.scope.projectId, report.mac)) && report.artifactSha == op.scope.artifactSha
  {
  }

  /** A step on one operation. */
  lemma OperationStepKeeps(s: State, step: Step)
    requires Sound(s) && (step.DoSubmitProbe? || step.DoConfirm? || step.DoDeliver? || step.DoAuthorize? || step.DoReport?)
    ensures Sound(Next(s, step))
  {
    hide Sound, BindingFits, ArtifactFits, UsableBinding, UsableArtifact;
    var o := step.of;
    if Next(s, step) != s && o in s.mem.operations {
      OperationKnown(s, o);
      var op := s.mem.operations[o];
      match step {
        case DoSubmitProbe(user, _, probe, w) =>
          var op' := ProbedOperation(op, probe.value, w);
          if ProbeMatches(op, probe.value, w) { MatchKnown(op, probe.value, w); }
          ReplaceKeeps(s, op', if ProbeMatches(op, probe.value, w) then s.matched + {(o, w.binding.value.macTag.value)} else s.matched, s.delivered);
        case DoConfirm(user, _, w) =>
          ReplaceKeeps(s, op.(phase := Confirmation, phaseExpiresAt := w.now + CONFIRM_LIFETIME), s.matched, s.delivered);
        case DoDeliver(user, _, challenge, w) =>
          ReplaceKeeps(s, op.(challenge := Some(challenge)), s.matched, s.delivered + {o});
        case DoAuthorize(user, _, request, w) =>
          ReplaceKeeps(s, WritingOperation(op, request.value, w.now), s.matched, s.delivered);
        case DoReport(user, _, report, w) =>
          ReplaceKeeps(s, op.(phase := OutcomePhase(report.value.outcome), nextEventSequence := op.nextEventSequence + 1), s.matched, s.delivered);
      }
    }
  }

  lemma StepKeeps(s: State, step: Step)
    requires Sound(s)
    ensures Sound(Next(s, step))
  {
    hide Sound, RequestFlash, Approve, StartProbe;
    if Enabled(s, step) {
      match step
      case DoRequest(scope, id, w) => RequestKeeps(s, scope, id, w);
      case DoApprove(user, r, id, w) => ApproveKeeps(s, user, r, id, w);
      case DoStartProbe(user, a, id, w) => StartProbeKeeps(s, user, a, id, w);
      case _ => OperationStepKeeps(s, step);
    }
  }

  lemma {:induction false} RunSound(steps: seq<Step>)
    ensures Sound(Run(steps))
  {
    hide Next;
    if steps != [] {
      RunSound(steps[..|steps| - 1]);
      StepKeeps(Run(steps[..|steps| - 1]), steps[|steps| - 1]);
    }
  }

  // ---- the promises ------------------------------------------------------------------------------

  /** Operations map injectively to consumed approvals, and these to approved requests, all of one scope. */
  lemma {:induction false} ChainIsInjective(steps: seq<Step>, o: Id, p: Id)
    requires o in Run(steps).mem.operations && p in Run(steps).mem.operations
    ensures var t := Run(steps).mem;
            && t.operations[o].approvalId in t.approvals
            && var a := t.approvals[t.operations[o].approvalId];
            && a.consumed && a.requestId in t.requests
            && var r := t.requests[a.requestId];
            && r.approved && t.operations[o].scope == a.scope == r.scope
            && (t.operations[p].approvalId in t.approvals && t.approvals[t.operations[p].approvalId].requestId == a.requestId ==> o == p)
  {
    hide OperationsOk;
    RunSound(steps);
    var t := Run(steps).mem;
    assert OperationFits(t, o) && OperationFits(t, p);
    assert ApprovalFits(t, t.operations[o].approvalId);
  }

  /** A consumed approval has an operation, an approved request has an approval. */
  lemma {:induction false} ConsumedIsUsed(steps: seq<Step>)
    ensures var t := Run(steps).mem;
            && (forall a :: a in t.approvals ==> (t.approvals[a].consumed <==> HasOperation(t.operations, a)))
            && (forall r :: r in t.requests ==> (t.requests[r].approved <==> HasApproval(t.approvals, r)))
  {
    hide OperationsOk;
    RunSound(steps);
  }

  /** A write is authorized only for a verified artifact on a matched device, after its delivery, as the first event. */
  lemma {:induction false} DestructiveIsEarned(steps: seq<Step>, o: Id)
    requires o in Run(steps).mem.operations && Run(steps).mem.operations[o].phase == Destructive
    ensures var s := Run(steps);
            var op := s.mem.operations[o];
            && op.verifiedSha == Some(op.scope.artifactSha)
            && op.actualTag.Some? && (o, op.actualTag.value) in s.matched
            && o in s.delivered && op.nextEventSequence == 1
  {
    hide ApprovalsChain, OperationsChain;
    RunSound(steps);
    OperationKnown(Run(steps), o);
  }

  function Rank(phase: Phase): nat {
    match phase
    case Probe => 0
    case Verified => 1
    case Confirmation => 2
    case Destructive => 3
    case Completed => 4
    case Failed => 4
  }

  /** Phases move forward, and an operation that is over does not change any more. */
  predicate Forward(op: Operation, op': Operation) {
    && op'.scope == op.scope && op'.approvalId == op.approvalId
    && Rank(op.phase) <= Rank(op'.phase)
    && (op.phase == Completed || op.phase == Failed ==> op' == op)
  }

  ghost predicate AllForward(t: Tables, t': Tables) {
    forall o :: o in t.operations ==> o in t'.operations && Forward(t.operations[o], t'.operations[o])
  }

  lemma ReplaceForward(s: State, op: Operation)
    requires op.id in s.mem.operations && Forward(s.mem.operations[op.id], op)
    ensures AllForward(s.mem, Replace(s, op, true).mem)
  {
  }

  lemma StaysForward(t: Tables)
    ensures AllForward(t, t)
  {
  }

  lemma OperationForward(s: State, step: Step)
    requires Sound(s) && (step.DoSubmitProbe? || step.DoConfirm? || step.DoDeliver? || step.DoAuthorize? || step.DoReport?)
    ensures AllForward(s.mem, Next(s, step).mem)
  {
    hide Sound, AllForward, ArtifactFits, BindingFits, UsableArtifact, UsableBinding, EvidenceStands;
    StaysForward(s.mem);
    if Next(s, step) != s && step.of in s.mem.operations {
      OperationKnown(s, step.of);
      var op := s.mem.operations[step.of];
      match step {
        case DoSubmitProbe(_, _, probe, w) => ReplaceForward(s, ProbedOperation(op, probe.value, w));
        case DoConfirm(_, _, w) => ReplaceForward(s, op.(phase := Confirmation, phaseExpiresAt := w.now + CONFIRM_LIFETIME));
        case DoDeliver(_, _, challenge, _) => ReplaceForward(s, op.(challenge := Some(challenge)));
        case DoAuthorize(_, _, request, w) => ReplaceForward(s, WritingOperation(op, request.value, w.now));
        case DoReport(_, _, report, _) =>
          ReplaceForward(s, op.(phase := OutcomePhase(report.value.outcome), nextEventSequence := op.nextEventSequence + 1));
      }
    }
  }

  lemma StepForward(s: State, step: Step)
    requires Sound(s)
    ensures AllForward(s.mem, Next(s, step).mem)
  {
    if step.DoRequest? || step.DoApprove? || step.DoStartProbe? {
      hide Sound, ArtifactFits, BindingFits, UsableArtifact, UsableBinding, QuotaLeft, HasApproval, HasOperation;
    } else {
      hide Sound, Next, AllForward;
      OperationForward(s, step);
    }
  }

  lemma {:induction false} RunForward(steps: seq<Step>, more: seq<Step>)
    ensures AllForward(Run(steps).mem, Run(steps + more).mem)
    decreases |more|
  {
    hide Next, Sound;
    if more == [] {
      assert steps + more == steps;
    } else {
      var init := more[..|more| - 1];
      RunForward(steps, init);
      assert (steps + more)[..|steps + more| - 1] == steps + init;
      RunSound(steps + init);
      StepForward(Run(steps + init), more[|more| - 1]);
    }
  }

  /** Phases only move forward, and a reported outcome never flips. */
  lemma {:induction false} PhasesMoveForward(steps: seq<Step>, more: seq<Step>, o: Id)
    requires o in Run(steps).mem.operations
    ensures var before, after := Run(steps).mem.operations, Run(steps + more).mem.operations;
            && o in after && Rank(before[o].phase) <= Rank(after[o].phase)
            && (before[o].phase == Completed || before[o].phase == Failed ==> after[o] == before[o])
  {
    RunForward(steps, more);
  }

  /** A step that cannot save changes nothing, in memory or on disk. */
  lemma FailedSaveChangesNothing(s: State, step: Step)
    requires !step.w.save
    ensures Next(s, step) == s
  {
  }

  function Saved(steps: seq<Step>): seq<Step> {
    if steps == [] then []
    else Saved(steps[..|steps| - 1]) + (if steps[|steps| - 1].w.save then [steps[|steps| - 1]] else [])
  }

  /** A run is the run of its saved steps alone, and what it has in memory is on disk. */
  lemma {:induction false} UnsavedStepsVanish(steps: seq<Step>)
    ensures Run(steps) == Run(Saved(steps)) && Run(steps).mem == Run(steps).disk
    decreases |steps|
  {
    hide Next, ApprovalsChain, OperationsChain, OperationsOk;
    RunSound(steps);
    if steps != [] {
      var init, last := steps[..|steps| - 1], steps[|steps| - 1];
      UnsavedStepsVanish(init);
      if last.w.save {
        assert (Saved(init) + [last])[..|Saved(init)|] == Saved(init);
      } else {
        FailedSaveChangesNothing(Run(init), last);
        assert Saved(init) + [] == Saved(init);
      }
    }
  }

  // ---- repetitions -------------------------------------------------------------------------------

  /** The step reports an outcome of the operation, and is told that it was recorded. */
  predicate GrantsReport(s: State, step: Step, o: Id) {
    step.DoReport? && step.of == o && Report(s, step.user, o, step.report, step.w).1
  }

  ghost predicate ReportedIn(steps: seq<Step>, more: seq<Step>, o: Id) {
    exists k :: 0 <= k < |more| && GrantsReport(Run(steps + more[..k]), more[k], o)
  }

  lemma {:induction false} ReportedNext(steps: seq<Step>, more: seq<Step>, o: Id)
    requires more != []
    ensures var init := more[..|more| - 1];
            ReportedIn(steps, more, o) <==> ReportedIn(steps, init, o) || GrantsReport(Run(steps + init), more[|more| - 1], o)
  {
    hide GrantsReport, Run;
    var init := more[..|more| - 1];
    forall k | 0 <= k < |init| ensures GrantsReport(Run(steps + init[..k]), init[k], o) == GrantsReport(Run(steps + more[..k]), more[k], o) {
      assert init[..k] == more[..k];
    }
  }

  /** Only a report changes an operation that is being written. */
  lemma DestructiveStep(s: State, step: Step, o: Id)
    requires Sound(s) && o in s.mem.operations && s.mem.operations[o].phase == Destructive
    ensures var operations := Next(s, step).mem.operations;
            && o in operations
            && if GrantsReport(s, step, o) then operations[o].phase == Completed || operations[o].phase == Failed
               else operations[o] == s.mem.operations[o]
  {
    hide ApprovalsChain, OperationsChain, ArtifactFits, BindingFits, UsableArtifact, UsableBinding, QuotaLeft, HasApproval, HasOperation;
  }

  lemma {:induction false} DestructiveUntilReported(steps: seq<Step>, more: seq<Step>, o: Id)
    requires o in Run(steps).mem.operations && Run(steps).mem.operations[o].phase == Destructive
    ensures var operations := Run(steps + more).mem.operations;
            && o in operations
            && if ReportedIn(steps, more, o) then operations[o].phase == Completed || operations[o].phase == Failed
               else operations[o] == Run(steps).mem.operations[o]
    decreases |more|
  {
    hide Next, Sound, GrantsReport, ReportedIn;
    if more == [] {
      assert steps + more == steps;
      NothingReported(steps, o);
    } else {
      var init, last := more[..|more| - 1], more[|more| - 1];
      DestructiveUntilReported(steps, init, o);
      ReportedNext(steps, more, o);
      assert (steps + more)[..|steps + more| - 1] == steps + init;
      RunSound(steps + init);
      if ReportedIn(steps, init, o) {
        StepForward(Run(steps + init), last);
      } else {
        DestructiveStep(Run(steps + init), last, o);
      }
    }
  }

  lemma {:induction false} NothingReported(steps: seq<Step>, o: Id)
    ensures !ReportedIn(steps, [], o)
  {
  }

  /**
   Once an authorization has been granted, whatever happens later: another request for the operation
   is granted exactly when it names the same user and write token, no outcome has been recorded yet
   and the bridge is up; and it never changes anything.
   */
  lemma {:induction false} AuthorizeAgain(steps: seq<Step>, user: Id, o: Id, request: WriteRequest, w: World, more: seq<Step>,
                                          user': Id, request': WriteRequest, w': World)
    requires Authorize(Run(steps), user, o, Some(request), w).1
    ensures var granted := steps + [DoAuthorize(user, o, Some(request), w)];
            var s := Run(granted + more);
            Authorize(s, user', o, Some(request'), w')
            == (s, w'.enabled && w'.profile && user' == user && request'.writeToken == request.writeToken && !ReportedIn(granted, more, o))
  {
    hide Run, Next, ReportedIn;
    var granted := steps + [DoAuthorize(user, o, Some(request), w)];
    RunSound(steps);
    Granted(steps, user, o, request, w);
    DestructiveUntilReported(granted, more, o);
    RunForward(granted, more);
  }

  lemma {:induction false} Granted(steps: seq<Step>, user: Id, o: Id, request: WriteRequest, w: World)
    requires Authorize(Run(steps), user, o, Some(request), w).1
    ensures var operations := Run(steps + [DoAuthorize(user, o, Some(request), w)]).mem.operations;
            && o in operations && operations[o].phase == Destructive && operations[o].writeToken == Some(request.writeToken)
            && operations[o].scope.userId == user
  {
    hide EvidenceStands;
    var step := DoAuthorize(user, o, Some(request), w);
    assert (steps + [step])[..|steps|] == steps;
    RunSound(steps);
    if o in Run(steps).mem.operations { OperationKnown(Run(steps), o); }
  }

  /**
   Once a report has been recorded, whatever happens later: another report of the operation is
   answered with yes exactly when it names the same user, write token and outcome and the bridge is
   up; and it never changes anything.
   */
  lemma {:induction false} ReportAgain(steps: seq<Step>, user: Id, o: Id, report: WriteReport, w: World, more: seq<Step>,
                                       user': Id, report': WriteReport, w': World)
    requires Report(Run(steps), user, o, Some(report), w).1
    ensures var s := Run(steps + [DoReport(user, o, Some(report), w)] + more);
            Report(s, user', o, Some(report'), w')
            == (s, w'.enabled && user' == user && report'.writeToken == report.writeToken && report'.outcome == report.outcome)
  {
    hide Run, Next;
    var recorded := steps + [DoReport(user, o, Some(report), w)];
    Recorded(steps, user, o, report, w);
    PhasesMoveForward(recorded, more, o);
  }

  lemma {:induction false} Recorded(steps: seq<Step>, user: Id, o: Id, report: WriteReport, w: World)
    requires Report(Run(steps), user, o, Some(report), w).1
    ensures var operations := Run(steps + [DoReport(user, o, Some(report), w)]).mem.operations;
            && o in operations && operations[o].phase == OutcomePhase(report.outcome) && operations[o].writeToken == Some(report.writeToken)
            && operations[o].scope.userId == user
  {
    var step := DoReport(user, o, Some(report), w);
    assert (steps + [step])[..|steps|] == steps;
    RunSound(steps);
    if o in Run(steps).mem.operations { OperationKnown(Run(steps), o); }
  }

  /** So of the two outcomes an operation can have, at most one is ever recorded. */
  lemma {:induction false} OtherOutcomeRefused(steps: seq<Step>, user: Id, o: Id, report: WriteReport, w: World, more: seq<Step>, step: Step)
    requires Report(Run(steps), user, o, Some(report), w).1
    requires GrantsReport(Run(steps + [DoReport(user, o, Some(report), w)] + more), step, o)
    ensures step.report.Some? && step.report.value.outcome == report.outcome && step.user == user
  {
    hide Run, Next;
    var s := Run(steps + [DoReport(user, o, Some(report), w)] + more);
    if step.report.Some? {
      ReportAgain(steps, user, o, report, w, more, step.user, step.report.value, step.w);
    }
  }
}
