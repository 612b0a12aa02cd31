/**
 What every run of the project creation broker keeps, in every interleaving of its calls.
 */
module ProjectSafety {
  import opened Options
  import opened Ascii
  import opened ProjectTypes
  import opened ProjectSteps

  // ---- the invariant -----------------------------------------------------------------------

  predicate RowOk(o: Operation, projectName: string) {
    && (o.lease.Some? ==> Working(o.phase))
    && (o.phase == FailedRetryable ==> o.resumePhase.Some? && Working(o.resumePhase.value))
    && (o.evidence.Some? ==> ValidEvidence(o.evidence.value, ProjectRoot(projectName)))
    && (EffectivePhase(o) == ThreadStarted || o.phase == Completed ==> o.evidence.Some?)
  }

  predicate LeaseIssued(o: Operation, issued: map<nat, Issue>) {
    o.lease.Some? ==> o.lease.value.token in issued && issued[o.lease.value.token] == Issue(o.id, o.lease.value.expiresAt)
  }

  ghost predicate Keyed(db: Db) {
    && (forall p :: p in db.proposals ==> db.proposals[p].id == p)
    && (forall o :: o in db.operations ==> db.operations[o].id == o && db.operations[o].proposalId in db.proposals)
  }

  ghost predicate RowsOk(db: Db) {
    forall o :: o in db.operations && db.operations[o].proposalId in db.proposals
      ==> RowOk(db.operations[o], db.proposals[db.operations[o].proposalId].projectName)
  }

  ghost predicate LeasesIssued(operations: map<Id, Operation>, issued: map<nat, Issue>) {
    forall o :: o in operations ==> LeaseIssued(operations[o], issued)
  }

  /** A proposal is consumed exactly when it has an operation, and it has at most one. */
  ghost predicate ConsumedOnce(db: Db) {
    && (forall p :: p in db.proposals ==> (db.proposals[p].status == Consumed <==> HasOperation(db.operations, p)))
    && (forall a, b :: a in db.operations && b in db.operations && db.operations[a].proposalId == db.operations[b].proposalId ==> a == b)
  }

  /** An operation is completed exactly when it has a grant, which carries its evidence. */
  ghost predicate GrantedOnce(db: Db) {
    && (forall o :: o in db.operations ==> (db.operations[o].phase == Completed <==> o in db.grants))
    && (forall g :: g in db.grants ==> g in db.operations && GrantOk(db, g))
    && (forall a, b :: a in db.grants && b in db.grants && db.grants[a].evidence.managedThreadId == db.grants[b].evidence.managedThreadId ==> a == b)
  }

  predicate GrantOk(db: Db, g: Id)
    requires g in db.grants && g in db.operations
  {
    && db.grants[g].operationId == g && db.operations[g].evidence == Some(db.grants[g].evidence)
    && db.operations[g].proposalId in db.proposals
    && db.grants[g].userId == db.proposals[db.operations[g].proposalId].userId
  }

  ghost predicate UniqueProposals(proposals: map<Id, Proposal>) {
    forall a, b :: a in proposals && b in proposals && SameColumn(proposals[a], proposals[b]) ==> a == b
  }

  /** Two rows that a UNIQUE constraint of the proposals table keeps apart. */
  predicate SameColumn(p: Proposal, q: Proposal) {
    || Lower(p.projectName) == Lower(q.projectName) || p.requestKey == q.requestKey
    || (p.confirmKey.Some? && p.confirmKey == q.confirmKey)
  }

  ghost predicate SingleLease(operations: map<Id, Operation>, now: nat) {
    forall a, b :: a in operations && b in operations && Leased(operations[a], now) && Leased(operations[b], now) ==> a == b
  }

  predicate SameProposal(p: Proposal, q: Proposal) {
    p.id == q.id && p.userId == q.userId && p.projectName == q.projectName
  }

  predicate CallOk(c: Call, db: Db, issued: map<nat, Issue>) {
    match c
    case LeasedCall(o, token, _) => token in issued && issued[token].operationId == o
    case AdvanceCall(row, proposal, a) =>
      && row.id == a.operationId && row.id in db.operations && db.operations[row.id].proposalId == row.proposalId
      && row.proposalId in db.proposals && SameProposal(proposal, db.proposals[row.proposalId])
      && RowOk(row, proposal.projectName) && LeaseIssued(row, issued)
    case _ => true
  }

  ghost predicate CallsOk(calls: map<nat, Call>, db: Db, issued: map<nat, Issue>) {
    forall c :: c in calls ==> CallOk(calls[c], db, issued)
  }

  ghost predicate DbOk(db: Db) {
    Keyed(db) && RowsOk(db) && ConsumedOnce(db) && GrantedOnce(db) && UniqueProposals(db.proposals)
  }

  ghost predicate Sound(s: State) {
    && DbOk(s.db) && LeasesIssued(s.db.operations, s.issued) && SingleLease(s.db.operations, s.clock)
    && CallsOk(s.calls, s.db, s.issued)
    && forall c :: c in s.calls ==> c < s.nextCall
  }

  // ---- how rows may change -----------------------------------------------------------------

  /** Proposals and operations only grow, and their identities never change. */
  ghost predicate Extends(db: Db, db': Db) {
    && (forall p :: p in db.proposals ==> p in db'.proposals && SameProposal(db.proposals[p], db'.proposals[p]))
    && (forall o :: o in db.operations ==> o in db'.operations && db'.operations[o].proposalId == db.operations[o].proposalId)
  }

  lemma CallsFollow(calls: map<nat, Call>, db: Db, db': Db, issued: map<nat, Issue>, issued': map<nat, Issue>)
    requires CallsOk(calls, db, issued) && Extends(db, db')
    requires forall t :: t in issued ==> t in issued' && issued'[t] == issued[t]
    ensures CallsOk(calls, db', issued')
  {
    forall c | c in calls ensures CallOk(calls[c], db', issued') { assert CallOk(calls[c], db, issued); }
  }

  /** The parts of the invariant after rows have been replaced or added; identities stay. */
  lemma RowsKept(db: Db, db': Db)
    requires Keyed(db) && RowsOk(db) && Extends(db, db') && Keyed(db')
    requires forall o :: o in db'.operations && !(o in db.operations && db'.operations[o] == db.operations[o])
               ==> RowOk(db'.operations[o], db'.proposals[db'.operations[o].proposalId].projectName)
    ensures RowsOk(db')
  {
    hide RowOk;
  }

  lemma GrantsKept(db: Db, db': Db)
    requires Keyed(db) && GrantedOnce(db) && Extends(db, db') && db'.grants == db.grants
    requires forall o :: o in db'.operations ==>
               if o in db.operations then db'.operations[o] == db.operations[o] || (o !in db.grants && db'.operations[o].phase != Completed)
               else db'.operations[o].phase != Completed
    ensures GrantedOnce(db')
  {
    forall g | g in db.grants ensures g in db'.operations && GrantOk(db', g) { assert GrantOk(db, g); }
  }

  lemma ProposalInserted(db: Db, row: Proposal)
    requires DbOk(db) && row.id !in db.proposals && row.status == Pending && row.confirmKey == None
    requires !NameTaken(db, row.projectName) && !KeyTaken(db, row.requestKey)
    ensures DbOk(db.(proposals := db.proposals[row.id := row])) && Extends(db, db.(proposals := db.proposals[row.id := row]))
  {
    hide RowOk, RowsOk, GrantedOnce, GrantOk, Lower, UniqueProposals;
    var db' := db.(proposals := db.proposals[row.id := row]);
    assert Extends(db, db');
    assert !HasOperation(db.operations, row.id);
    RowsKept(db, db');
    GrantsKept(db, db');
    InsertedUnique(db, row);
  }

  lemma InsertedUnique(db: Db, row: Proposal)
    requires UniqueProposals(db.proposals) && row.confirmKey == None && !NameTaken(db, row.projectName) && !KeyTaken(db, row.requestKey)
    ensures UniqueProposals(db.proposals[row.id := row])
  {
    hide Lower;
  }

  /** A pending proposal gets a challenge or is revoked. */
  lemma ProposalUpdated(db: Db, row: Proposal)
    requires DbOk(db) && row.id in db.proposals && db.proposals[row.id].status == Pending
    requires row == db.proposals[row.id].(challenge := row.challenge, status := row.status) && row.status != Consumed
    ensures DbOk(db.(proposals := db.proposals[row.id := row])) && Extends(db, db.(proposals := db.proposals[row.id := row]))
  {
    hide RowOk, RowsOk, GrantedOnce, GrantOk, Lower, UniqueProposals;
    var db' := db.(proposals := db.proposals[row.id := row]);
    assert Extends(db, db');
    RowsKept(db, db');
    GrantsKept(db, db');
    UpdatedUnique(db.proposals, row);
  }

  lemma UpdatedUnique(proposals: map<Id, Proposal>, row: Proposal)
    requires UniqueProposals(proposals) && row.id in proposals
    requires row == proposals[row.id].(challenge := row.challenge, status := row.status, confirmKey := row.confirmKey)
    requires row.confirmKey == proposals[row.id].confirmKey
             || (row.confirmKey.Some? && forall p :: p in proposals ==> proposals[p].confirmKey != row.confirmKey)
    ensures UniqueProposals(proposals[row.id := row])
  {
    hide Lower;
    forall a, b | a in proposals && b in proposals && SameColumn(proposals[row.id := row][a], proposals[row.id := row][b])
      ensures a == b
    {
      assert SameColumn(proposals[a], proposals[b]);
    }
  }

  lemma ProposalConsumed(db: Db, row: Proposal, o: Id)
    requires DbOk(db) && row.id in db.proposals && db.proposals[row.id].status == Pending && row.status == Consumed
    requires row == db.proposals[row.id].(challenge := row.challenge, status := Consumed, confirmKey := row.confirmKey)
    requires row.confirmKey.Some? && !ConfirmKeyTaken(db, row.confirmKey.value)
    requires o !in db.operations && !HasOperation(db.operations, row.id)
    ensures var db' := db.(operations := db.operations[o := NewOperation(o, row.id)], proposals := db.proposals[row.id := row]);
            DbOk(db') && Extends(db, db')
  {
    hide RowsOk, GrantedOnce, GrantOk, Lower, UniqueProposals, ConsumedOnce;
    var db' := db.(operations := db.operations[o := NewOperation(o, row.id)], proposals := db.proposals[row.id := row]);
    assert Extends(db, db');
    RowsKept(db, db');
    NoGrantYet(db, o);
    GrantsKept(db, db');
    UpdatedUnique(db.proposals, row);
    ConsumedAgain(db, row, o);
  }

  lemma NoGrantYet(db: Db, o: Id)
    requires GrantedOnce(db) && o !in db.operations
    ensures o !in db.grants
  {
  }

  lemma ConsumedAgain(db: Db, row: Proposal, o: Id)
    requires Keyed(db) && ConsumedOnce(db) && row.id in db.proposals && row.status == Consumed
    requires o !in db.operations && !HasOperation(db.operations, row.id)
    ensures ConsumedOnce(db.(operations := db.operations[o := NewOperation(o, row.id)], proposals := db.proposals[row.id := row]))
  {
    var db' := db.(operations := db.operations[o := NewOperation(o, row.id)], proposals := db.proposals[row.id := row]);
    forall p | p in db'.proposals ensures db'.proposals[p].status == Consumed <==> HasOperation(db'.operations, p) {
      if p == row.id { assert db'.operations[o].proposalId == p; }
      if HasOperation(db.operations, p) {
        var q :| q in db.operations && db.operations[q].proposalId == p;
        assert db'.operations[q].proposalId == p;
      }
    }
  }

  /** A row that is neither completed before nor after is replaced. */
  lemma OperationReplaced(db: Db, row: Operation)
    requires DbOk(db) && row.id in db.operations && db.operations[row.id].phase != Completed && row.phase != Completed
    requires row.proposalId == db.operations[row.id].proposalId
    requires RowOk(row, db.proposals[row.proposalId].projectName)
    ensures var db' := db.(operations := db.operations[row.id := row]);
            DbOk(db') && Extends(db, db')
  {
    hide RowOk, RowsOk, GrantOk, UniqueProposals, ConsumedOnce;
    var db' := db.(operations := db.operations[row.id := row]);
    assert Extends(db, db');
    RowsKept(db, db');
    GrantsKept(db, db');
    SameOperations(db, db');
  }

  lemma SameOperations(db: Db, db': Db)
    requires ConsumedOnce(db) && db'.proposals == db.proposals && db'.operations.Keys == db.operations.Keys
    requires forall o :: o in db.operations ==> db'.operations[o].proposalId == db.operations[o].proposalId
    ensures ConsumedOnce(db')
  {
    forall p | p in db.proposals ensures HasOperation(db.operations, p) == HasOperation(db'.operations, p) {
      if HasOperation(db.operations, p) {
        var q :| q in db.operations && db.operations[q].proposalId == p;
        assert db'.operations[q].proposalId == p;
      }
      if HasOperation(db'.operations, p) {
        var q :| q in db'.operations && db'.operations[q].proposalId == p;
        assert db.operations[q].proposalId == p;
      }
    }
  }

  lemma OperationCompleted(db: Db, row: Operation, userId: Id)
    requires DbOk(db) && row.id in db.operations && db.operations[row.id].phase != Completed && row.phase == Completed
    requires row.proposalId == db.operations[row.id].proposalId && userId == db.proposals[row.proposalId].userId
    requires RowOk(row, db.proposals[row.proposalId].projectName)
    requires row.evidence.Some? && !ThreadGranted(db.grants, row.evidence.value.managedThreadId)
    ensures var db' := db.(operations := db.operations[row.id := row],
                           grants := db.grants[row.id := Grant(row.id, userId, row.evidence.value, true)]);
            DbOk(db') && Extends(db, db')
  {
    hide RowOk, RowsOk, UniqueProposals, ConsumedOnce, GrantedOnce;
    var db' := db.(operations := db.operations[row.id := row],
                   grants := db.grants[row.id := Grant(row.id, userId, row.evidence.value, true)]);
    assert Extends(db, db');
    RowsKept(db, db');
    SameOperations(db, db');
    CompletedGrant(db, row, userId);
  }

  lemma CompletedGrant(db: Db, row: Operation, userId: Id)
    requires Keyed(db) && GrantedOnce(db) && row.id in db.operations && db.operations[row.id].phase != Completed && row.phase == Completed
    requires row.proposalId == db.operations[row.id].proposalId && userId == db.proposals[row.proposalId].userId
    requires row.evidence.Some? && !ThreadGranted(db.grants, row.evidence.value.managedThreadId)
    ensures GrantedOnce(db.(operations := db.operations[row.id := row],
                            grants := db.grants[row.id := Grant(row.id, userId, row.evidence.value, true)]))
  {
    var db' := db.(operations := db.operations[row.id := row],
                   grants := db.grants[row.id := Grant(row.id, userId, row.evidence.value, true)]);
    forall g | g in db'.grants ensures g in db'.operations && GrantOk(db', g) {
      if g != row.id { assert GrantOk(db, g); }
    }
  }

  lemma GrantRevoked(db: Db, g: Id)
    requires DbOk(db) && g in db.grants
    ensures var db' := db.(grants := db.grants[g := db.grants[g].(active := false)]);
            DbOk(db') && Extends(db, db')
  {
    hide RowOk, UniqueProposals, ConsumedOnce, RowsOk;
    var db' := db.(grants := db.grants[g := db.grants[g].(active := false)]);
    SameOperations(db, db');
    RowsKept(db, db');
    forall h | h in db'.grants ensures h in db'.operations && GrantOk(db', h) { assert GrantOk(db, h); }
  }

  // ---- steps -------------------------------------------------------------------------------

  lemma DbStep(s: State, s0: State, db': Db)
    requires Sound(s) && s0 == s.(calls := s0.calls) && s0.calls.Keys <= s.calls.Keys
    requires forall c :: c in s0.calls ==> s0.calls[c] == s.calls[c]
    requires DbOk(db') && Extends(s.db, db') && LeasesIssued(db'.operations, s.issued) && SingleLease(db'.operations, s.clock)
    ensures Sound(s0.(db := db'))
  {
    hide DbOk, LeasesIssued, SingleLease, Extends;
    CallsFollow(s.calls, s.db, db', s.issued, s.issued);
  }

  lemma CallDropped(s: State, call: nat)
    requires Sound(s)
    ensures Sound(DropCall(s, call))
  {
    hide DbOk, LeasesIssued, SingleLease, CallOk;
  }

  lemma CallOpened(s: State, call: Call)
    requires Sound(s) && CallOk(call, s.db, s.issued)
    ensures Sound(OpenCall(s, call))
  {
    hide DbOk, LeasesIssued, SingleLease, CallOk;
  }

  lemma CreateKeeps(s: State, call: nat, evidence: bool, id: Id)
    requires Sound(s) && call in s.calls && s.calls[call].CreateCall?
    ensures Sound(CreateEnd(s, call, evidence, id))
  {
    hide DbOk, LeasesIssued, SingleLease, CallsOk, Extends, Insertable;
    CallDropped(s, call);
    var draft := s.calls[call].draft;
    if evidence && Insertable(s.db, id, draft) {
      var row := draft.(id := id, confirmKey := None, challenge := None, status := Pending, expiresAt := s.clock + PROPOSAL_LIFETIME);
      InsertableFits(s.db, id, draft);
      ProposalInserted(s.db, row);
      DbStep(s, DropCall(s, call), s.db.(proposals := s.db.proposals[id := row]));
    }
  }

  lemma InsertableFits(db: Db, id: Id, draft: Proposal)
    requires Insertable(db, id, draft)
    ensures id !in db.proposals && !NameTaken(db, draft.projectName) && !KeyTaken(db, draft.requestKey)
  {
  }

  lemma ChallengeKeeps(s: State, call: nat, evidence: bool, token: nat)
    requires Sound(s) && call in s.calls && s.calls[call].ChallengeCall?
    ensures Sound(ChallengeEnd(s, call, evidence, token))
  {
    hide LeasesIssued, SingleLease, CallsOk, Extends, RowsOk, GrantedOnce, ConsumedOnce, UniqueProposals;
    CallDropped(s, call);
    var id := s.calls[call].proposalId;
    if evidence && id in s.db.proposals && s.db.proposals[id].status == Pending {
      var row := s.db.proposals[id].(challenge := Some(Challenge(token, s.clock + CHALLENGE_LIFETIME)));
      ProposalUpdated(s.db, row);
      DbStep(s, DropCall(s, call), s.db.(proposals := s.db.proposals[id := row]));
    }
  }

  lemma RevokeKeeps(s: State, user: Id, id: Id)
    requires Sound(s)
    ensures Sound(Revoke(s, user, id))
  {
    hide LeasesIssued, SingleLease, CallsOk, Extends, RowsOk, GrantedOnce, ConsumedOnce, UniqueProposals;
    if Revoke(s, user, id) != s {
      var row := s.db.proposals[id].(status := Revoked, challenge := None);
      ProposalUpdated(s.db, row);
      DbStep(s, s, s.db.(proposals := s.db.proposals[id := row]));
    }
  }

  lemma ConfirmKeeps(s: State, call: nat, evidence: bool, operationId: Id)
    requires Sound(s) && call in s.calls && s.calls[call].ConfirmCall?
    ensures Sound(ConfirmEnd(s, call, evidence, operationId))
  {
    hide CallsOk, Extends, RowsOk, GrantedOnce, ConsumedOnce, UniqueProposals, HasOperation, ConfirmKeyTaken, Token;
    CallDropped(s, call);
    var c := s.calls[call];
    if evidence && Confirmable(s.db, c.initial, c.key, operationId) {
      var row := s.db.proposals[c.initial.id].(status := Consumed, confirmKey := Some(c.key), challenge := None);
      ProposalConsumed(s.db, row, operationId);
      DbStep(s, DropCall(s, call), s.db.(operations := s.db.operations[operationId := NewOperation(operationId, row.id)],
                                         proposals := s.db.proposals[row.id := row]));
    }
  }

  lemma ClaimKeeps(s: State, call: nat, evidence: bool, operationId: Id, token: nat)
    requires Sound(s) && call in s.calls && s.calls[call].ClaimCall? && token !in s.issued
    ensures Sound(ClaimLease(s, call, evidence, operationId, token))
  {
    hide CallsOk, Extends, GrantedOnce, ConsumedOnce, UniqueProposals, ValidEvidence, CallOk;
    CallDropped(s, call);
    var c := s.calls[call];
    if evidence && Claimable(s.db, operationId, c.proposal.id, s.clock) {
      var old_ := s.db.operations[operationId];
      var row := ClaimedRow(old_, token, s.clock);
      OperationReplaced(s.db, row);
      var db' := s.db.(operations := s.db.operations[operationId := row]);
      var issued' := s.issued[token := Issue(operationId, s.clock + LEASE_LIFETIME)];
      CallsFollow(s.calls, s.db, db', s.issued, issued');
      LeaseAdded(s.db.operations, row, s.issued, s.clock);
      var s0 := DropCall(s, call).(db := db', issued := issued');
      assert Sound(s0) by { CallsShrink(s.calls, call, db', issued'); }
      LeasedIsOk(operationId, token, row.phase, db', issued');
      CallOpened(s0, LeasedCall(operationId, token, row.phase));
    }
  }

  lemma LeasedIsOk(o: Id, token: nat, startPhase: Phase, db: Db, issued: map<nat, Issue>)
    requires token in issued && issued[token].operationId == o
    ensures CallOk(LeasedCall(o, token, startPhase), db, issued)
  {
  }

  lemma CallsShrink(calls: map<nat, Call>, call: nat, db: Db, issued: map<nat, Issue>)
    requires CallsOk(calls, db, issued)
    ensures CallsOk(calls - {call}, db, issued)
  {
    hide CallOk;
  }

  lemma LeaseAdded(operations: map<Id, Operation>, row: Operation, issued: map<nat, Issue>, now: nat)
    requires LeasesIssued(operations, issued) && !WorkerBusy(operations, now)
    requires row.lease.Some? && row.lease.value.token !in issued
    ensures LeasesIssued(operations[row.id := row], issued[row.lease.value.token := Issue(row.id, row.lease.value.expiresAt)])
    ensures SingleLease(operations[row.id := row], now)
  {
  }

  lemma LeaseReduced(operations: map<Id, Operation>, row: Operation, issued: map<nat, Issue>, now: nat)
    requires LeasesIssued(operations, issued) && SingleLease(operations, now) && row.id in operations
    requires row.lease == None || row.lease == operations[row.id].lease
    requires operations[row.id].id == row.id
    ensures LeasesIssued(operations[row.id := row], issued) && SingleLease(operations[row.id := row], now)
  {
  }

  lemma ClaimEndKeeps(s: State, call: nat, evidence: bool)
    requires Sound(s) && call in s.calls && s.calls[call].LeasedCall?
    ensures Sound(ClaimEnd(s, call, evidence))
  {
    hide CallsOk, Extends, GrantedOnce, ConsumedOnce, UniqueProposals, ValidEvidence, SingleLease, LeasesIssued;
    CallDropped(s, call);
    var c := s.calls[call];
    if !evidence && Holds(s.db.operations, c.operationId, c.token) {
      var row := s.db.operations[c.operationId].(lease := None);
      OperationReplaced(s.db, row);
      LeaseReduced(s.db.operations, row, s.issued, s.clock);
      DbStep(s, DropCall(s, call), s.db.(operations := s.db.operations[c.operationId := row]));
    }
  }

  lemma AdvancedIsOk(row: Operation, projectName: string, a: Advance, now: nat)
    requires RowOk(row, projectName) && Accepts(row, projectName, a, now)
    ensures RowOk(AdvancedRow(row, a), projectName)
    ensures a.next == Completed ==> AdvancedRow(row, a).evidence == row.evidence && row.evidence.Some?
  {
    hide ValidEvidence;
  }

  /** A token names one issue, so the row still carries the lease that was read. */
  lemma SameLease(s: State, row: Operation, token: nat)
    requires LeasesIssued(s.db.operations, s.issued) && LeaseIssued(row, s.issued) && Holds(s.db.operations, row.id, token)
    requires row.lease.Some? && row.lease.value.token == token
    ensures s.db.operations[row.id].lease == row.lease
  {
    assert LeaseIssued(s.db.operations[row.id], s.issued);
  }

  lemma AdvanceKeeps(s: State, call: nat, evidence: bool)
    requires Sound(s) && call in s.calls && s.calls[call].AdvanceCall?
    ensures Sound(AdvanceEnd(s, call, evidence))
  {
    hide Extends, GrantedOnce, ConsumedOnce, UniqueProposals, ValidEvidence, SingleLease, LeasesIssued, RowOk, Accepts, ThreadGranted, StoredEvidence;
    CallDropped(s, call);
    var c := s.calls[call];
    var row, a := c.row, c.advance;
    assert CallOk(c, s.db, s.issued);
    if evidence && Commits(s.db, row, c.proposal.projectName, a, s.clock) {
      AcceptedToken(row, c.proposal.projectName, a, s.clock);
      SameLease(s, row, a.token);
      var row' := AdvancedRow(row, a);
      AdvancedIsOk(row, c.proposal.projectName, a, s.clock);
      LeaseReduced(s.db.operations, row', s.issued, s.clock);
      NotCompleted(s, row.id);
      if a.next == Completed {
        OperationCompleted(s.db, row', c.proposal.userId);
      } else {
        OperationReplaced(s.db, row');
      }
      DbStep(s, DropCall(s, call), AdvancedDb(s.db, row, c.proposal, a));
    }
  }

  lemma AcceptedToken(row: Operation, projectName: string, a: Advance, now: nat)
    requires Accepts(row, projectName, a, now)
    ensures row.lease.Some? && row.lease.value.token == a.token && (a.next == Completed ==> row.evidence.Some?)
  {
  }

  lemma NotCompleted(s: State, o: Id)
    requires Sound(s) && o in s.db.operations && s.db.operations[o].lease.Some?
    ensures s.db.operations[o].phase != Completed
  {
    hide ValidEvidence;
  }

  lemma BeginKeeps(s: State, step: Step)
    requires Sound(s) && (step.DoCreate? || step.DoChallenge? || step.DoConfirm? || step.DoClaim? || step.DoAdvance? || step.DoWait? || step.DoRevokeGrant?)
    ensures Sound(Next(s, step))
  {
    hide UniqueProposals, ConsumedOnce, ValidEvidence, RowOk, LeaseIssued, CallsOk, GrantedOnce;
    match step {
      case DoCreate(draft) => CallOpened(s, CreateCall(draft));
      case DoChallenge(user, id) => CallOpened(s, ChallengeCall(id));
      case DoConfirm(user, id, token, key) =>
        if id in s.db.proposals { CallOpened(s, ConfirmCall(s.db.proposals[id], key)); }
      case DoClaim(user, id) =>
        if id in s.db.proposals { CallOpened(s, ClaimCall(s.db.proposals[id])); }
      case DoAdvance(user, a) =>
        if AdvanceBegin(s, user, a) != s {
          var row := s.db.operations[a.operationId];
          CallOpened(s, AdvanceCall(row, s.db.proposals[row.proposalId], a));
        }
      case DoRevokeGrant(id) =>
        if RevokeGrant(s, id) != s {
          GrantRevoked(s.db, id);
          DbStep(s, s, s.db.(grants := s.db.grants[id := s.db.grants[id].(active := false)]));
        }
      case DoWait(now) =>
    }
  }

  lemma StepKeeps(s: State, step: Step)
    requires Sound(s)
    ensures Sound(Next(s, step))
  {
    hide Sound;
    if Enabled(s, step) {
      match step
      case DoCreateEnd(c, evidence, id) => CreateKeeps(s, c, evidence, id);
      case DoChallengeEnd(c, evidence, token) => ChallengeKeeps(s, c, evidence, token);
      case DoConfirmEnd(c, evidence, id) => ConfirmKeeps(s, c, evidence, id);
      case DoRevoke(user, id) => RevokeKeeps(s, user, id);
      case DoClaimLease(c, evidence, id, token) => ClaimKeeps(s, c, evidence, id, token);
      case DoClaimEnd(c, evidence) => ClaimEndKeeps(s, c, evidence);
      case DoAdvanceEnd(c, evidence) => AdvanceKeeps(s, c, evidence);
      case _ => BeginKeeps(s, step);
    }
  }

  lemma {:induction false} RunSound(steps: seq<Step>)
    ensures Sound(Run(Empty, steps))
    decreases |steps|
  {
    hide Next;
    if steps != [] {
      RunSound(steps[..|steps| - 1]);
      StepKeeps(Run(Empty, steps[..|steps| - 1]), steps[|steps| - 1]);
    }
  }
}
