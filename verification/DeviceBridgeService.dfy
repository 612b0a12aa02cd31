/**
 The device bridge as the session service keeps it: three maps, saved as a snapshot that already
 holds the change before the maps are changed.  A failed save throws out of the method.
 */
module DeviceBridgeService {
  import opened Options
  import opened Ascii
  import opened DeviceBridge
  import opened DeviceBridgeTheorems

  class BridgeState {
    var requests: map<Id, Request>
    var approvals: map<Id, Approval>
    var operations: map<Id, Operation>
    var disk: Tables
    ghost var matched: set<(Id, MacTag)>
    ghost var delivered: set<Id>

    ghost function Current(): State
      reads this
    {
      State(Tables(requests, approvals, operations), disk, matched, delivered)
    }

    constructor ()
      ensures Current() == Empty && Sound(Current())
    {
      requests, approvals, operations := map[], map[], map[];
      disk, matched, delivered := Tables(map[], map[], map[]), {}, {};
      new;
      RunSound([]);
    }

    /** `persistStateSnapshot`; `false` is an exception. */
    method PersistSnapshot(snapshot: Tables, save: bool) returns (saved: bool)
      modifies this`disk
      ensures saved == save && disk == if save then snapshot else old(disk)
    {
      if save { disk := snapshot; }
      saved := save;
    }

    /** Saves the operations with `updated` in place of its predecessor, then sets it. */
    method PersistOperation(updated: Operation, save: bool) returns (saved: bool)
      modifies this`disk, this`operations
      ensures saved == save && Current() == Replace(old(Current()), updated, save)
    {
      saved := PersistSnapshot(Tables(requests, approvals, operations[updated.id := updated]), save);
      if saved { operations := operations[updated.id := updated]; }
    }

    /** `createDeviceBridgeRequest` */
    method CreateRequest(scope: Scope, id: Id, w: World) returns (ok: bool)
      modifies this
      requires Sound(Current()) && id !in requests
      ensures Current() == Next(old(Current()), DoRequest(scope, id, w)) && Sound(Current())
      ensures ok <==> id in requests
    {
      hide Sound, BindingFits, QuotaLeft;
      StepKeeps(Current(), DoRequest(scope, id, w));
      if !w.enabled || w.session != Some(scope.projectId) { return false; }
      if w.artifact.None? || w.artifact.value.projectId != scope.projectId || w.artifact.value.sessionId != scope.sessionId { return false; }
      if Lower(w.artifact.value.sha) != scope.artifactSha { return false; }
      var fits := BindingFits(w.binding, scope);
      var quota := QuotaLeft(requests, scope, w.now);
      if !fits || !quota { return false; }
      var request := Request(id, scope, false, w.now + LIFETIME);
      ok := PersistSnapshot(Tables(requests[id := request], approvals, operations), w.save);
      if ok { requests := requests[id := request]; }
    }

    /** `approveDeviceBridgeRequest` */
    method ApproveRequest(user: Id, requestId: Id, id: Id, w: World) returns (ok: bool)
      modifies this
      requires Sound(Current()) && id !in approvals
      ensures Current() == Next(old(Current()), DoApprove(user, requestId, id, w)) && Sound(Current())
      ensures ok <==> id in approvals
    {
      hide Sound, ArtifactFits, BindingFits, HasApproval;
      StepKeeps(Current(), DoApprove(user, requestId, id, w));
      if !w.enabled || requestId !in requests { return false; }
      var request := requests[requestId];
      if request.scope.userId != user || request.approved || request.expiresAt <= w.now { return false; }
      var existing := HasApproval(approvals, requestId);
      if existing || w.session != Some(request.scope.projectId) { return false; }
      var artifact := ArtifactFits(w.artifact, request.scope, w.now);
      var binding := BindingFits(w.binding, request.scope);
      if !artifact || !binding { return false; }
      var approval := Approval(id, requestId, request.scope, false, w.now + LIFETIME);
      var approvedRequest := request.(approved := true);
      ok := PersistSnapshot(Tables(requests[requestId := approvedRequest], approvals[id := approval], operations), w.save);
      if !ok { return; }
      requests := requests[requestId := approvedRequest];
      approvals := approvals[id := approval];
    }

    /** `startDeviceBridgeProbe` */
    method StartDeviceProbe(user: Id, approvalId: Id, id: Id, w: World) returns (ok: bool)
      modifies this
      requires Sound(Current()) && id !in operations
      ensures Current() == Next(old(Current()), DoStartProbe(user, approvalId, id, w)) && Sound(Current())
      ensures ok <==> id in operations
    {
      hide Sound, ArtifactFits, HasOperation;
      StepKeeps(Current(), DoStartProbe(user, approvalId, id, w));
      if !w.enabled || approvalId !in approvals { return false; }
      var approval := approvals[approvalId];
      if approval.scope.userId != user || approval.consumed || approval.expiresAt <= w.now { return false; }
      if !w.profile || w.session != Some(approval.scope.projectId) { return false; }
      var duplicate := HasOperation(operations, approvalId);
      var artifact := ArtifactFits(w.artifact, approval.scope, w.now);
      if duplicate || !artifact || !BindingFits(w.binding, approval.scope) || w.binding.value.macTag.None? { return false; }
      var operation := Operation(id, approvalId, approval.scope, Probe, None, None, None, None, 0, w.now + LIFETIME, w.now + REPORT_LIFETIME);
      var consumed := approval.(consumed := true);
      ok := PersistSnapshot(Tables(requests, approvals[approvalId := consumed], operations[id := operation]), w.save);
      if !ok { return; }
      approvals := approvals[approvalId := consumed];
      operations := operations[id := operation];
    }

    /** `submitDeviceBridgeProbe`: `true` when the operation is verified. */
    method SubmitDeviceProbe(user: Id, o: Id, probe: Option<ProbeReport>, w: World) returns (ok: bool)
      modifies this
      requires Sound(Current())
      ensures Current() == Next(old(Current()), DoSubmitProbe(user, o, probe, w)) && Sound(Current())
      ensures ok ==> o in operations && operations[o].phase == Verified
    {
      hide Sound;
      StepKeeps(Current(), DoSubmitProbe(user, o, probe, w));
      if !w.enabled || probe.None? || o !in operations { return false; }
      KnownId(Current(), o);
      var operation := operations[o];
      if operation.scope.userId != user || operation.phase != Probe || operation.phaseExpiresAt <= w.now || !w.profile { return false; }
      var observed := MacTag(operation.scope.projectId, probe.value.mac);
      var identityMatches := BindingFits(w.binding, operation.scope) && w.binding.value.macTag == Some(observed);
      var artifactMatches := ArtifactFits(w.artifact, operation.scope, w.now) && probe.value.artifactSha == operation.scope.artifactSha;
      var verified := identityMatches && artifactMatches && w.session == Some(operation.scope.projectId);
      var updated := operation.(phase := if verified then Verified else Failed);
      if verified { updated := updated.(actualTag := Some(observed), verifiedSha := Some(probe.value.artifactSha)); }
      var saved := PersistOperation(updated, w.save);
      if saved && verified { matched := matched + {(o, observed)}; }
      ok := saved && verified;
    }

    method CheckEvidence(operation: Operation, w: World) returns (stands: bool)
      ensures stands == EvidenceStands(operation, w)
    {
      if !w.profile || w.session.None? { return false; }
      if !UsableArtifact(w.artifact, w.now) || Some(w.artifact.value.sha) != operation.verifiedSha { return false; }
      if !UsableBinding(w.binding, operation.scope.projectId) { return false; }
      stands := w.binding.value.identityTag == operation.scope.identityTag && w.binding.value.macTag == operation.actualTag;
    }

    /** `confirmDeviceBridgeProbe` */
    method ConfirmProbe(user: Id, o: Id, w: World) returns (ok: bool)
      modifies this
      requires Sound(Current())
      ensures Current() == Next(old(Current()), DoConfirm(user, o, w)) && Sound(Current())
      ensures ok ==> o in operations && operations[o].phase == Confirmation
    {
      hide Sound, EvidenceStands;
      StepKeeps(Current(), DoConfirm(user, o, w));
      if !w.enabled || o !in operations { return false; }
      KnownId(Current(), o);
      var operation := operations[o];
      if operation.scope.userId != user || operation.phase != Verified || operation.phaseExpiresAt <= w.now { return false; }
      var stands := CheckEvidence(operation, w);
      if !stands { return false; }
      var updated := operation.(phase := Confirmation);
      updated := updated.(phaseExpiresAt := w.now + CONFIRM_LIFETIME);
      ok := PersistOperation(updated, w.save);
    }

    /** `deliverConfirmedDeviceArtifact` */
    method DeliverArtifact(user: Id, o: Id, challenge: nat, w: World) returns (ok: bool)
      modifies this
      requires Sound(Current())
      ensures Current() == Next(old(Current()), DoDeliver(user, o, challenge, w)) && Sound(Current())
      ensures ok ==> o in delivered
    {
      hide Sound, EvidenceStands;
      StepKeeps(Current(), DoDeliver(user, o, challenge, w));
      if !w.enabled || o !in operations { return false; }
      KnownId(Current(), o);
      var operation := operations[o];
      if operation.scope.userId != user || operation.phase != Confirmation || operation.phaseExpiresAt <= w.now { return false; }
      var stands := CheckEvidence(operation, w);
      if !stands || !w.bytes { return false; }
      EvidenceHasArtifact(operation, w);
      var artifact := w.artifact.value;
      if artifact.projectId != operation.scope.projectId || artifact.sessionId != operation.scope.sessionId { return false; }
      if artifact.sha != operation.scope.artifactSha { return false; }
      ok := PersistOperation(operation.(challenge := Some(challenge)), w.save);
      if ok { delivered := delivered + {o}; }
    }

    /** `authorizeDeviceBridgeWrite` */
    method AuthorizeWrite(user: Id, o: Id, request: Option<WriteRequest>, w: World) returns (ok: bool)
      modifies this
      requires Sound(Current())
      ensures (Current(), ok) == Authorize(old(Current()), user, o, request, w) && Sound(Current())
    {
      hide Sound, EvidenceStands;
      StepKeeps(Current(), DoAuthorize(user, o, request, w));
      if !w.enabled || request.None? || o !in operations { return false; }
      KnownId(Current(), o);
      var operation, parsed := operations[o], request.value;
      if operation.scope.userId != user { return false; }
      if operation.phase == Destructive && operation.writeToken == Some(parsed.writeToken) && w.profile { return true; }
      if operation.phase != Confirmation || operation.phaseExpiresAt <= w.now || operation.challenge.None? { return false; }
      if Some(parsed.artifactSha) != operation.verifiedSha { return false; }
      var stands := CheckEvidence(operation, w);
      if !stands || !w.bytes { return false; }
      if Some(MacTag(operation.scope.projectId, parsed.mac)) != operation.actualTag { return false; }
      var updated := operation.(phase := Destructive);
      updated := updated.(challenge := None);
      updated := updated.(writeToken := Some(parsed.writeToken));
      updated := updated.(nextEventSequence := operation.nextEventSequence + 1, phaseExpiresAt := w.now + WRITE_LIFETIME);
      ok := PersistOperation(updated, w.save);
    }

    /** `reportDeviceBridgeWrite` */
    method ReportWrite(user: Id, o: Id, report: Option<WriteReport>, w: World) returns (ok: bool)
      modifies this
      requires Sound(Current())
      ensures (Current(), ok) == Report(old(Current()), user, o, report, w) && Sound(Current())
    {
      hide Sound;
      StepKeeps(Current(), DoReport(user, o, report, w));
      if !w.enabled || report.None? || o !in operations { return false; }
      KnownId(Current(), o);
      var operation, parsed := operations[o], report.value;
      if operation.scope.userId != user { return false; }
      if operation.phase == OutcomePhase(parsed.outcome) && operation.writeToken == Some(parsed.writeToken) { return true; }
      if operation.phase != Destructive || operation.reportingExpiresAt <= w.now { return false; }
      if Some(parsed.artifactSha) != operation.verifiedSha || operation.writeToken != Some(parsed.writeToken) { return false; }
      var updated := operation.(phase := OutcomePhase(parsed.outcome));
      updated := updated.(nextEventSequence := operation.nextEventSequence + 1);
      ok := PersistOperation(updated, w.save);
    }
  }

  lemma KnownId(s: State, o: Id)
    requires Sound(s) && o in s.mem.operations
    ensures s.mem.operations[o].id == o
  {
  }

  lemma EvidenceHasArtifact(operation: Operation, w: World)
    requires EvidenceStands(operation, w)
    ensures w.artifact.Some?
  {
  }
}
