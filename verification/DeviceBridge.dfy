/**
 The device bridge: a request to flash a device, its approval, the probe of the device, the
 confirmation, the delivery of the artifact, the authorization to write and the report.
 A step first saves what it is about to do, and only then does it in memory.
 */
module DeviceBridge {
  import opened Options
  import opened Ascii

  type Id = string

  /** What is to be flashed where, by whom; fixed with the request. */
  datatype Scope = Scope(
    userId: Id, sessionId: Id, projectId: Id, artifactId: Id, artifactSha: string,
    bindingId: Id, identityTag: string)

  datatype Request = Request(id: Id, scope: Scope, approved: bool, expiresAt: nat)
  datatype Approval = Approval(id: Id, requestId: Id, scope: Scope, consumed: bool, expiresAt: nat)

  datatype Phase = Probe | Verified | Confirmation | Destructive | Completed | Failed

  /** An HMAC over project and address, taken as injective. */
  datatype MacTag = MacTag(projectId: Id, mac: string)

  datatype Operation = Operation(
    id: Id,
    approvalId: Id,
    scope: Scope,
    phase: Phase,
    actualTag: Option<MacTag>,
    verifiedSha: Option<string>,
    challenge: Option<nat>,
    writeToken: Option<string>,  // the digest of the token, taken as the token
    nextEventSequence: nat,
    phaseExpiresAt: nat,
    reportingExpiresAt: nat)

  datatype Tables = Tables(requests: map<Id, Request>, approvals: map<Id, Approval>, operations: map<Id, Operation>)

  /**
   `matched` records the device tags that agreed with the inventory when an operation was verified,
   `delivered` the operations whose artifact has been handed out.
   */
  datatype State = State(mem: Tables, disk: Tables, matched: set<(Id, MacTag)>, delivered: set<Id>)

  datatype Artifact = Artifact(active: bool, expiresAt: nat, projectId: Id, sessionId: Id, sha: string)
  datatype Binding = Binding(valid: bool, projectId: Id, identityTag: string, macTag: Option<MacTag>)

  /**
   What a call finds around it: flags, keys and the user's rights; the device profile; the workspace
   of the owned, authorized and ready session; the artifact and the inventory binding it looks up;
   whether the artifact's bytes can be read; and whether saving succeeds.
   */
  datatype World = World(
    now: nat, enabled: bool, profile: bool, session: Option<Id>,
    artifact: Option<Artifact>, binding: Option<Binding>, bytes: bool, save: bool)

  const LIFETIME: nat := 300000
  const CONFIRM_LIFETIME: nat := 60000
  const WRITE_LIFETIME: nat := 120000
  const REPORT_LIFETIME: nat := 900000

  /** Persist, then remember. */
  function Commit(s: State, t: Tables, save: bool): State {
    if save then s.(mem := t, disk := t) else s
  }

  predicate UsableArtifact(a: Option<Artifact>, now: nat) {
    a.Some? && a.value.active && now < a.value.expiresAt
  }

  predicate UsableBinding(b: Option<Binding>, projectId: Id) {
    b.Some? && b.value.valid && b.value.projectId == projectId
  }

  predicate ArtifactFits(a: Option<Artifact>, scope: Scope, now: nat) {
    && UsableArtifact(a, now) && a.value.projectId == scope.projectId && a.value.sessionId == scope.sessionId
    && Lower(a.value.sha) == scope.artifactSha
  }

  predicate BindingFits(b: Option<Binding>, scope: Scope) {
    UsableBinding(b, scope.projectId) && Lower(b.value.identityTag) == scope.identityTag
  }

  // ---- request and approval --------------------------------------------------------------------

  function Pending(requests: map<Id, Request>, now: nat): set<Id> {
    set r | r in requests && !requests[r].approved && now < requests[r].expiresAt
  }

  predicate QuotaLeft(requests: map<Id, Request>, scope: Scope, now: nat) {
    && |set r | r in Pending(requests, now) && requests[r].scope.sessionId == scope.sessionId| < 3
    && |set r | r in Pending(requests, now) && requests[r].scope.userId == scope.userId| < 5
  }

  function RequestFlash(s: State, scope: Scope, id: Id, w: World): State {
    if && w.enabled && w.session == Some(scope.projectId)
       && w.artifact.Some? && w.artifact.value.projectId == scope.projectId && w.artifact.value.sessionId == scope.sessionId
       && Lower(w.artifact.value.sha) == scope.artifactSha
       && BindingFits(w.binding, scope) && QuotaLeft(s.mem.requests, scope, w.now)
    then Commit(s, s.mem.(requests := s.mem.requests[id := Request(id, scope, false, w.now + LIFETIME)]), w.save)
    else s
  }

  predicate HasApproval(approvals: map<Id, Approval>, requestId: Id) {
    exists a :: a in approvals && approvals[a].requestId == requestId
  }

  predicate MayApprove(t: Tables, user: Id, r: Id, w: World) {
    && w.enabled && r in t.requests
    && t.requests[r].scope.userId == user
    && !t.requests[r].approved && !HasApproval(t.approvals, r) && w.now < t.requests[r].expiresAt
    && w.session == Some(t.requests[r].scope.projectId)
    && ArtifactFits(w.artifact, t.requests[r].scope, w.now) && BindingFits(w.binding, t.requests[r].scope)
  }

  function Approve(s: State, user: Id, r: Id, id: Id, w: World): State {
    if !MayApprove(s.mem, user, r, w) then s
    else
      var request := s.mem.requests[r];
      Commit(s, s.mem.(requests := s.mem.requests[r := request.(approved := true)],
                       approvals := s.mem.approvals[id := Approval(id, r, request.scope, false, w.now + LIFETIME)]), w.save)
  }

  // ---- probe -----------------------------------------------------------------------------------

  predicate HasOperation(operations: map<Id, Operation>, approvalId: Id) {
    exists o :: o in operations && operations[o].approvalId == approvalId
  }

  predicate MayProbe(t: Tables, user: Id, a: Id, w: World) {
    && w.enabled && a in t.approvals
    && t.approvals[a].scope.userId == user && !t.approvals[a].consumed && w.now < t.approvals[a].expiresAt
    && w.profile && w.session == Some(t.approvals[a].scope.projectId)
    && !HasOperation(t.operations, a)
    && ArtifactFits(w.artifact, t.approvals[a].scope, w.now)
    && BindingFits(w.binding, t.approvals[a].scope) && w.binding.value.macTag.Some?
  }

  function StartProbe(s: State, user: Id, a: Id, id: Id, w: World): State {
    if !MayProbe(s.mem, user, a, w) then s
    else
      var approval := s.mem.approvals[a];
      Commit(s, s.mem.(approvals := s.mem.approvals[a := approval.(consumed := true)],
                       operations := s.mem.operations[id :=
                         Operation(id, a, approval.scope, Probe, None, None, None, None, 0, w.now + LIFETIME, w.now + REPORT_LIFETIME)]), w.save)
  }

  datatype ProbeReport = ProbeReport(mac: string, artifactSha: string)

  predicate ProbeOpen(t: Tables, user: Id, o: Id, w: World) {
    && w.enabled && o in t.operations
    && t.operations[o].scope.userId == user && t.operations[o].phase == Probe && w.now < t.operations[o].phaseExpiresAt && w.profile
  }

  predicate ProbeMatches(op: Operation, report: ProbeReport, w: World) {
    && BindingFits(w.binding, op.scope) && w.binding.value.macTag == Some(MacTag(op.scope.projectId, report.mac))
    && ArtifactFits(w.artifact, op.scope, w.now) && report.artifactSha == op.scope.artifactSha
    && w.session == Some(op.scope.projectId)
  }

  /** The new operation; a report that does not match ends it. */
  function ProbedOperation(op: Operation, report: ProbeReport, w: World): Operation {
    if ProbeMatches(op, report, w)
    then op.(phase := Verified, actualTag := Some(MacTag(op.scope.projectId, report.mac)), verifiedSha := Some(report.artifactSha))
    else op.(phase := Failed)
  }

  function Replace(s: State, op: Operation, save: bool): State {
    Commit(s, s.mem.(operations := s.mem.operations[op.id := op]), save)
  }

  function SubmitProbe(s: State, user: Id, o: Id, report: Option<ProbeReport>, w: World): State {
    if report.None? || !ProbeOpen(s.mem, user, o, w) then s
    else
      var s' := Replace(s, ProbedOperation(s.mem.operations[o], report.value, w), w.save);
      if w.save && ProbeMatches(s.mem.operations[o], report.value, w)
      then s'.(matched := s.matched + {(o, w.binding.value.macTag.value)}) else s'
  }

  // ---- confirmation, delivery, write ------------------------------------------------------------

  /** What confirmation, delivery and authorization ask of the device and the artifact alike. */
  predicate EvidenceStands(op: Operation, w: World) {
    && w.profile && w.session.Some? && UsableArtifact(w.artifact, w.now) && Some(w.artifact.value.sha) == op.verifiedSha
    && UsableBinding(w.binding, op.scope.projectId)
    && w.binding.value.identityTag == op.scope.identityTag && w.binding.value.macTag == op.actualTag
  }

  predicate OpenIn(t: Tables, user: Id, o: Id, phase: Phase, w: World) {
    && w.enabled && o in t.operations && t.operations[o].scope.userId == user
    && t.operations[o].phase == phase && w.now < t.operations[o].phaseExpiresAt
  }

  function Confirm(s: State, user: Id, o: Id, w: World): State {
    if !OpenIn(s.mem, user, o, Verified, w) || !EvidenceStands(s.mem.operations[o], w) then s
    else Replace(s, s.mem.operations[o].(phase := Confirmation, phaseExpiresAt := w.now + CONFIRM_LIFETIME), w.save)
  }

  predicate MayDeliver(t: Tables, user: Id, o: Id, w: World) {
    && OpenIn(t, user, o, Confirmation, w) && EvidenceStands(t.operations[o], w) && w.bytes
    && w.artifact.value.projectId == t.operations[o].scope.projectId && w.artifact.value.sessionId == t.operations[o].scope.sessionId
    && w.artifact.value.sha == t.operations[o].scope.artifactSha
  }

  function Deliver(s: State, user: Id, o: Id, challenge: nat, w: World): State {
    if !MayDeliver(s.mem, user, o, w) then s
    else
      var s' := Replace(s, s.mem.operations[o].(challenge := Some(challenge)), w.save);
      if w.save then s'.(delivered := s.delivered + {o}) else s'
  }

  datatype WriteRequest = WriteRequest(mac: string, artifactSha: string, writeToken: string)

  predicate WriteReplayed(t: Tables, user: Id, o: Id, r: WriteRequest, w: World) {
    && w.enabled && o in t.operations && t.operations[o].scope.userId == user
    && t.operations[o].phase == Destructive && t.operations[o].writeToken == Some(r.writeToken) && w.profile
  }

  predicate MayWrite(t: Tables, user: Id, o: Id, r: WriteRequest, w: World) {
    && OpenIn(t, user, o, Confirmation, w) && EvidenceStands(t.operations[o], w) && w.bytes
    && t.operations[o].challenge.Some? && Some(r.artifactSha) == t.operations[o].verifiedSha
    && Some(MacTag(t.operations[o].scope.projectId, r.mac)) == t.operations[o].actualTag
  }

  function WritingOperation(op: Operation, r: WriteRequest, now: nat): Operation {
    op.(phase := Destructive, challenge := None, writeToken := Some(r.writeToken),
        nextEventSequence := op.nextEventSequence + 1, phaseExpiresAt := now + WRITE_LIFETIME)
  }

  /** The new state and whether the caller is told to go ahead. */
  function Authorize(s: State, user: Id, o: Id, request: Option<WriteRequest>, w: World): (State, bool) {
    if request.Some? && WriteReplayed(s.mem, user, o, request.value, w) then (s, true)
    else if request.None? || !MayWrite(s.mem, user, o, request.value, w) then (s, false)
    else (Replace(s, WritingOperation(s.mem.operations[o], request.value, w.now), w.save), w.save)
  }

  datatype WriteOutcome = WriteCompleted | WriteFailed
  datatype WriteReport = WriteReport(artifactSha: string, outcome: WriteOutcome, writeToken: string)

  function OutcomePhase(outcome: WriteOutcome): Phase {
    if outcome == WriteCompleted then Completed else Failed
  }

  predicate ReportReplayed(t: Tables, user: Id, o: Id, r: WriteReport, w: World) {
    && w.enabled && o in t.operations && t.operations[o].scope.userId == user
    && t.operations[o].phase == OutcomePhase(r.outcome) && t.operations[o].writeToken == Some(r.writeToken)
  }

  predicate MayReport(t: Tables, user: Id, o: Id, r: WriteReport, w: World) {
    && w.enabled && o in t.operations && t.operations[o].scope.userId == user && t.operations[o].phase == Destructive
    && w.now < t.operations[o].reportingExpiresAt && Some(r.artifactSha) == t.operations[o].verifiedSha
    && t.operations[o].writeToken == Some(r.writeToken)
  }

  function Report(s: State, user: Id, o: Id, report: Option<WriteReport>, w: World): (State, bool) {
    if report.Some? && ReportReplayed(s.mem, user, o, report.value, w) then (s, true)
    else if report.None? || !MayReport(s.mem, user, o, report.value, w) then (s, false)
    else
      var op := s.mem.operations[o];
      (Replace(s, op.(phase := OutcomePhase(report.value.outcome), nextEventSequence := op.nextEventSequence + 1), w.save), w.save)
  }

  // ---- runs ------------------------------------------------------------------------------------

  datatype Step =
    | DoRequest(scope: Scope, id: Id, w: World)
    | DoApprove(user: Id, of: Id, id: Id, w: World)
    | DoStartProbe(user: Id, of: Id, id: Id, w: World)
    | DoSubmitProbe(user: Id, of: Id, probe: Option<ProbeReport>, w: World)
    | DoConfirm(user: Id, of: Id, w: World)
    | DoDeliver(user: Id, of: Id, challenge: nat, w: World)
    | DoAuthorize(user: Id, of: Id, request: Option<WriteRequest>, w: World)
    | DoReport(user: Id, of: Id, report: Option<WriteReport>, w: World)

  /** Identifiers are random and never drawn twice. */
  predicate Enabled(s: State, step: Step) {
    match step
    case DoRequest(_, id, _) => id !in s.mem.requests
    case DoApprove(_, _, id, _) => id !in s.mem.approvals
    case DoStartProbe(_, _, id, _) => id !in s.mem.operations
    case _ => true
  }

  function Next(s: State, step: Step): State {
    if !Enabled(s, step) then s
    else
      match step
      case DoRequest(scope, id, w) => RequestFlash(s, scope, id, w)
      case DoApprove(user, r, id, w) => Approve(s, user, r, id, w)
      case DoStartProbe(user, a, id, w) => StartProbe(s, user, a, id, w)
      case DoSubmitProbe(user, o, probe, w) => SubmitProbe(s, user, o, probe, w)
      case DoConfirm(user, o, w) => Confirm(s, user, o, w)
      case DoDeliver(user, o, challenge, w) => Deliver(s, user, o, challenge, w)
      case DoAuthorize(user, o, request, w) => Authorize(s, user, o, request, w).0
      case DoReport(user, o, report, w) => Report(s, user, o, report, w).0
  }

  const Empty := State(Tables(map[], map[], map[]), Tables(map[], map[], map[]), {}, {})

  function Run(steps: seq<Step>): State {
    if steps == [] then Empty else Next(Run(steps[..|steps| - 1]), steps[|steps| - 1])
  }
}
