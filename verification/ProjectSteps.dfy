/**
 The project creation broker as a step system: every transaction is atomic, and an operation is
 cut where the broker waits for the evidence of session and team to be looked up again.  The
 second half works on the rows the first half has read.
 */
module ProjectSteps {
  import opened Options
  import opened Ascii
  import opened ProjectTypes

  /** What `advanceExecution` is called with. */
  datatype Advance = Advance(
    operationId: Id,
    token: nat,
    next: Phase,
    failureClass: Option<string>,
    evidence: Option<Evidence>)

  datatype Call =
    | CreateCall(draft: Proposal)
    | ChallengeCall(proposalId: Id)
    | ConfirmCall(initial: Proposal, key: string)
    | ClaimCall(proposal: Proposal)
    | LeasedCall(operationId: Id, token: nat, startPhase: Phase)
    | AdvanceCall(row: Operation, proposal: Proposal, advance: Advance)

  /** What a lease token was issued for; tokens are random and never drawn twice. */
  datatype Issue = Issue(operationId: Id, expiresAt: nat)

  datatype State = State(db: Db, clock: nat, issued: map<nat, Issue>, calls: map<nat, Call>, nextCall: nat)

  function OpenCall(s: State, call: Call): State {
    s.(calls := s.calls[s.nextCall := call], nextCall := s.nextCall + 1)
  }

  function DropCall(s: State, call: nat): State {
    s.(calls := s.calls - {call})
  }

  // ---- proposals ---------------------------------------------------------------------------

  predicate KeyTaken(db: Db, requestKey: string) {
    exists p :: p in db.proposals && db.proposals[p].requestKey == requestKey
  }

  /** SQLite's NOCASE collation */
  predicate NameTaken(db: Db, projectName: string) {
    exists p :: p in db.proposals && Lower(db.proposals[p].projectName) == Lower(projectName)
  }

  /** `createProposal` up to the team lookup, for a parsed request of an admitted user. */
  function CreateBegin(s: State, draft: Proposal): State {
    if KeyTaken(s.db, draft.requestKey) then s else OpenCall(s, CreateCall(draft))
  }

  predicate Insertable(db: Db, id: Id, draft: Proposal) {
    id !in db.proposals && !NameTaken(db, draft.projectName) && !KeyTaken(db, draft.requestKey)
  }

  function CreateEnd(s: State, call: nat, evidence: bool, id: Id): State
    requires call in s.calls && s.calls[call].CreateCall?
  {
    var draft := s.calls[call].draft;
    var s0 := DropCall(s, call);
    if !evidence || !Insertable(s.db, id, draft) then s0
    else
      var row := draft.(id := id, confirmKey := None, challenge := None, status := Pending, expiresAt := s.clock + PROPOSAL_LIFETIME);
      s0.(db := s.db.(proposals := s.db.proposals[id := row]))
  }

  predicate Open(p: Proposal, now: nat) {
    p.status == Pending && now < p.expiresAt
  }

  function ChallengeBegin(s: State, user: Id, id: Id): State {
    if id in s.db.proposals && s.db.proposals[id].userId == user && Open(s.db.proposals[id], s.clock)
    then OpenCall(s, ChallengeCall(id)) else s
  }

  function ChallengeEnd(s: State, call: nat, evidence: bool, token: nat): State
    requires call in s.calls && s.calls[call].ChallengeCall?
  {
    var id := s.calls[call].proposalId;
    var s0 := DropCall(s, call);
    if !evidence || id !in s.db.proposals || s.db.proposals[id].status != Pending then s0
    else s0.(db := s.db.(proposals := s.db.proposals[id :=
             s.db.proposals[id].(challenge := Some(Challenge(token, s.clock + CHALLENGE_LIFETIME)))]))
  }

  predicate Answers(p: Proposal, token: nat, now: nat) {
    p.challenge.Some? && now < p.challenge.value.expiresAt && p.challenge.value.token == token
  }

  function ConfirmBegin(s: State, user: Id, id: Id, token: nat, key: string): State {
    if id in s.db.proposals && s.db.proposals[id].userId == user
       && Open(s.db.proposals[id], s.clock) && Answers(s.db.proposals[id], token, s.clock)
    then OpenCall(s, ConfirmCall(s.db.proposals[id], key)) else s
  }

  predicate HasOperation(operations: map<Id, Operation>, proposalId: Id) {
    exists o :: o in operations && operations[o].proposalId == proposalId
  }

  predicate ConfirmKeyTaken(db: Db, key: string) {
    exists p :: p in db.proposals && db.proposals[p].confirmKey == Some(key)
  }

  predicate Confirmable(db: Db, initial: Proposal, key: string, operationId: Id) {
    && initial.id in db.proposals
    && db.proposals[initial.id].status == Pending
    && Token(db.proposals[initial.id].challenge) == Token(initial.challenge)
    && operationId !in db.operations && !HasOperation(db.operations, initial.id) && !ConfirmKeyTaken(db, key)
  }

  function Token(challenge: Option<Challenge>): Option<nat> {
    if challenge.Some? then Some(challenge.value.token) else None
  }

  function NewOperation(id: Id, proposalId: Id): Operation {
    Operation(id, proposalId, Reserved, None, None, None, None)
  }

  function ConfirmEnd(s: State, call: nat, evidence: bool, operationId: Id): State
    requires call in s.calls && s.calls[call].ConfirmCall?
  {
    var c := s.calls[call];
    var s0 := DropCall(s, call);
    if !evidence || !Confirmable(s.db, c.initial, c.key, operationId) then s0
    else
      var id := c.initial.id;
      s0.(db := s.db.(operations := s.db.operations[operationId := NewOperation(operationId, id)],
                      proposals := s.db.proposals[id :=
                        s.db.proposals[id].(status := Consumed, confirmKey := Some(c.key), challenge := None)]))
  }

  function Revoke(s: State, user: Id, id: Id): State {
    if id in s.db.proposals && s.db.proposals[id].userId == user && Open(s.db.proposals[id], s.clock)
    then s.(db := s.db.(proposals := s.db.proposals[id := s.db.proposals[id].(status := Revoked, challenge := None)]))
    else s
  }

  // ---- execution ---------------------------------------------------------------------------

  predicate Leased(o: Operation, now: nat) {
    o.lease.Some? && now < o.lease.value.expiresAt
  }

  predicate WorkerBusy(operations: map<Id, Operation>, now: nat) {
    exists o :: o in operations && Leased(operations[o], now)
  }

  /** Where a claim would start an operation: nowhere, unless it is working or to be retried. */
  function StartPhase(o: Operation): Option<Phase> {
    if o.phase == Completed || o.phase == ReconcileRequired then None
    else if o.phase == FailedRetryable then (if o.resumePhase == Some(Completed) then None else o.resumePhase)
    else Some(o.phase)
  }

  function ClaimBegin(s: State, user: Id, id: Id): State {
    if id in s.db.proposals && s.db.proposals[id].userId == user && s.db.proposals[id].status == Consumed
    then OpenCall(s, ClaimCall(s.db.proposals[id])) else s
  }

  predicate Claimable(db: Db, operationId: Id, proposalId: Id, now: nat) {
    && operationId in db.operations && db.operations[operationId].proposalId == proposalId
    && !WorkerBusy(db.operations, now) && StartPhase(db.operations[operationId]).Some?
  }

  function ClaimedRow(o: Operation, token: nat, now: nat): Operation
    requires StartPhase(o).Some?
  {
    o.(phase := StartPhase(o).value, resumePhase := None, lease := Some(Lease(token, now + LEASE_LIFETIME)), failureClass := None)
  }

  /** The claiming transaction; the session and team are looked up once more behind it. */
  function ClaimLease(s: State, call: nat, evidence: bool, operationId: Id, token: nat): State
    requires call in s.calls && s.calls[call].ClaimCall?
  {
    var c := s.calls[call];
    var s0 := DropCall(s, call);
    if !evidence || !Claimable(s.db, operationId, c.proposal.id, s.clock) then s0
    else
      var row := ClaimedRow(s.db.operations[operationId], token, s.clock);
      OpenCall(s0.(db := s.db.(operations := s.db.operations[operationId := row]),
                   issued := s.issued[token := Issue(operationId, s.clock + LEASE_LIFETIME)]),
               LeasedCall(operationId, token, row.phase))
  }

  predicate Holds(operations: map<Id, Operation>, operationId: Id, token: nat) {
    && operationId in operations && operations[operationId].lease.Some?
    && operations[operationId].lease.value.token == token
  }

  /** Either the lease goes to the caller, or it is released because the evidence has changed. */
  function ClaimEnd(s: State, call: nat, evidence: bool): State
    requires call in s.calls && s.calls[call].LeasedCall?
  {
    var c := s.calls[call];
    var s0 := DropCall(s, call);
    if evidence || !Holds(s.db.operations, c.operationId, c.token) then s0
    else s0.(db := s.db.(operations := s.db.operations[c.operationId := s.db.operations[c.operationId].(lease := None)]))
  }

  function AdvanceBegin(s: State, user: Id, advance: Advance): State {
    if && advance.operationId in s.db.operations
       && s.db.operations[advance.operationId].proposalId in s.db.proposals
       && s.db.proposals[s.db.operations[advance.operationId].proposalId].userId == user
    then
      var row := s.db.operations[advance.operationId];
      OpenCall(s, AdvanceCall(row, s.db.proposals[row.proposalId], advance))
    else s
  }

  /** The checks on the row that was read before the lookup. */
  predicate Accepts(row: Operation, projectName: string, a: Advance, now: nat) {
    && row.lease.Some? && row.lease.value.token == a.token && now < row.lease.value.expiresAt
    && (a.failureClass.Some? && a.failureClass.value != "" ==> ValidFailureClass(a.failureClass.value))
    && (a.evidence.Some? ==> a.next == ThreadStarted)
    && (a.next == ThreadStarted ==> a.evidence.Some? && ValidEvidence(a.evidence.value, ProjectRoot(projectName)))
    && (a.next == Completed ==> StoredEvidence(row.evidence))
    && (a.next == FailedRetryable || a.next == ReconcileRequired || NextPhase(row.phase) == Some(a.next))
  }

  predicate Terminal(phase: Phase) {
    phase == Completed || phase == ReconcileRequired || phase == FailedRetryable
  }

  function AdvancedRow(row: Operation, a: Advance): Operation {
    row.(phase := a.next,
         resumePhase := if a.next == FailedRetryable then Some(row.phase) else None,
         lease := if Terminal(a.next) then None else row.lease,
         failureClass := if a.failureClass == Some("") then None else a.failureClass,
         evidence := if a.next == ThreadStarted && a.evidence.Some? then a.evidence else row.evidence)
  }

  predicate ThreadGranted(grants: map<Id, Grant>, managedThreadId: Id) {
    exists g :: g in grants && grants[g].evidence.managedThreadId == managedThreadId
  }

  /** The transaction goes through: the row still carries the lease, and a grant can be inserted. */
  predicate Commits(db: Db, row: Operation, projectName: string, a: Advance, now: nat) {
    && Accepts(row, projectName, a, now)
    && Holds(db.operations, row.id, a.token)
    && (a.next == Completed ==> row.id !in db.grants && !ThreadGranted(db.grants, row.evidence.value.managedThreadId))
  }

  function AdvancedDb(db: Db, row: Operation, proposal: Proposal, a: Advance): Db {
    db.(operations := db.operations[row.id := AdvancedRow(row, a)],
        grants := if a.next == Completed && row.evidence.Some?
                  then db.grants[row.id := Grant(row.id, proposal.userId, row.evidence.value, true)] else db.grants)
  }

  function AdvanceEnd(s: State, call: nat, evidence: bool): State
    requires call in s.calls && s.calls[call].AdvanceCall?
  {
    var c := s.calls[call];
    var s0 := DropCall(s, call);
    if evidence && Commits(s.db, c.row, c.proposal.projectName, c.advance, s.clock)
    then s0.(db := AdvancedDb(s.db, c.row, c.proposal, c.advance)) else s0
  }

  // ---- grants ------------------------------------------------------------------------------

  function RevokeGrant(s: State, operationId: Id): State {
    if operationId in s.db.grants && s.db.grants[operationId].active
    then s.(db := s.db.(grants := s.db.grants[operationId := s.db.grants[operationId].(active := false)]))
    else s
  }

  predicate Resolves(db: Db, o: Id, user: Id, e: Evidence) {
    && o in db.grants && db.grants[o].userId == user && db.grants[o].evidence == e && db.grants[o].active
    && o in db.operations && db.operations[o].phase == Completed
    && db.operations[o].proposalId in db.proposals && db.proposals[db.operations[o].proposalId].status == Consumed
  }

  // ---- runs --------------------------------------------------------------------------------

  datatype Step =
    | DoCreate(draft: Proposal)
    | DoCreateEnd(call: nat, evidence: bool, id: Id)
    | DoChallenge(user: Id, id: Id)
    | DoChallengeEnd(call: nat, evidence: bool, token: nat)
    | DoConfirm(user: Id, id: Id, token: nat, key: string)
    | DoConfirmEnd(call: nat, evidence: bool, id: Id)
    | DoRevoke(user: Id, id: Id)
    | DoClaim(user: Id, id: Id)
    | DoClaimLease(call: nat, evidence: bool, id: Id, token: nat)
    | DoClaimEnd(call: nat, evidence: bool)
    | DoAdvance(user: Id, advance: Advance)
    | DoAdvanceEnd(call: nat, evidence: bool)
    | DoRevokeGrant(id: Id)
    | DoWait(now: nat) // time passes

  /** An answer names an outstanding call of its kind, and a lease token is drawn once. */
  predicate Enabled(s: State, step: Step) {
    match step
    case DoCreateEnd(c, _, _) => c in s.calls && s.calls[c].CreateCall?
    case DoChallengeEnd(c, _, _) => c in s.calls && s.calls[c].ChallengeCall?
    case DoConfirmEnd(c, _, _) => c in s.calls && s.calls[c].ConfirmCall?
    case DoClaimLease(c, _, _, token) => c in s.calls && s.calls[c].ClaimCall? && token !in s.issued
    case DoClaimEnd(c, _) => c in s.calls && s.calls[c].LeasedCall?
    case DoAdvanceEnd(c, _) => c in s.calls && s.calls[c].AdvanceCall?
    case DoWait(now) => s.clock <= now
    case _ => true
  }

  function Next(s: State, step: Step): State {
    if !Enabled(s, step) then s
    else
      match step
      case DoCreate(draft) => CreateBegin(s, draft)
      case DoCreateEnd(c, evidence, id) => CreateEnd(s, c, evidence, id)
      case DoChallenge(user, id) => ChallengeBegin(s, user, id)
      case DoChallengeEnd(c, evidence, token) => ChallengeEnd(s, c, evidence, token)
      case DoConfirm(user, id, token, key) => ConfirmBegin(s, user, id, token, key)
      case DoConfirmEnd(c, evidence, id) => ConfirmEnd(s, c, evidence, id)
      case DoRevoke(user, id) => Revoke(s, user, id)
      case DoClaim(user, id) => ClaimBegin(s, user, id)
      case DoClaimLease(c, evidence, id, token) => ClaimLease(s, c, evidence, id, token)
      case DoClaimEnd(c, evidence) => ClaimEnd(s, c, evidence)
      case DoAdvance(user, advance) => AdvanceBegin(s, user, advance)
      case DoAdvanceEnd(c, evidence) => AdvanceEnd(s, c, evidence)
      case DoRevokeGrant(id) => RevokeGrant(s, id)
      case DoWait(now) => s.(clock := now)
  }

  const Empty: State := State(Db(map[], map[], map[]), 0, map[], map[], 0)

  function Run(s: State, steps: seq<Step>): State {
    if steps == [] then s else Next(Run(s, steps[..|steps| - 1]), steps[|steps| - 1])
  }
}
