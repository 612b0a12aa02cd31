/**
 The broker as the object it is: three tables that transactions change row by row, and restore when
 a constraint or a check fails half-way.  Every method takes exactly the step of the same name.
 */
module ProjectBroker {
  import opened Options
  import opened Ascii
  import opened ProjectTypes
  import opened ProjectSteps
  import opened ProjectSafety
  import opened ProjectTheorems
  import opened ProjectWorker

  class ProjectCreationBroker {
    var proposals: map<Id, Proposal>
    var operations: map<Id, Operation>
    var grants: map<Id, Grant>
    var clock: nat
    var issued: map<nat, Issue>
    var calls: map<nat, Call>
    var nextCall: nat

    ghost function Tables(): Db
      reads this
    {
      Db(proposals, operations, grants)
    }

    ghost function Current(): State
      reads this
    {
      State(Tables(), clock, issued, calls, nextCall)
    }

    constructor ()
      ensures Current() == Empty && Sound(Current())
    {
      proposals, operations, grants := map[], map[], map[];
      clock, issued, calls, nextCall := 0, map[], map[], 0;
      new;
      RunSound([]);
    }

    method Await(call: Call)
      modifies this`calls, this`nextCall
      ensures Current() == OpenCall(old(Current()), call)
    {
      calls := calls[nextCall := call];
      nextCall := nextCall + 1;
    }

    // ---- rows and their constraints ----------------------------------------------------------

    /** INSERT INTO operations: its id and its proposal are unique. */
    method InsertOperation(row: Operation) returns (inserted: bool)
      modifies this`operations
      ensures inserted == (row.id !in old(operations) && !HasOperation(old(operations), row.proposalId))
      ensures operations == if inserted then old(operations)[row.id := row] else old(operations)
    {
      inserted := row.id !in operations && !HasOperation(operations, row.proposalId);
      if inserted { operations := operations[row.id := row]; }
    }

    /** UPDATE proposals SET status='consumed': confirmation keys are unique. */
    method ConsumeProposal(id: Id, key: string) returns (updated: bool)
      modifies this`proposals
      requires id in proposals
      ensures updated == !ConfirmKeyTaken(old(Tables()), key)
      ensures proposals == if updated
                           then old(proposals)[id := old(proposals)[id].(status := Consumed, confirmKey := Some(key), challenge := None)]
                           else old(proposals)
    {
      updated := !ConfirmKeyTaken(Db(proposals, operations, grants), key);
      if updated {
        var row := proposals[id];
        row := row.(status := Consumed);
        row := row.(confirmKey := Some(key));
        row := row.(challenge := None);
        proposals := proposals[id := row];
      }
    }

    /** UPDATE operations … WHERE id=? AND lease_digest=? */
    method UpdateLeased(row: Operation, token: nat) returns (changes: nat)
      modifies this`operations
      ensures changes == if Holds(old(operations), row.id, token) then 1 else 0
      ensures operations == if changes == 1 then old(operations)[row.id := row] else old(operations)
    {
      if !(row.id in operations && operations[row.id].lease.Some? && operations[row.id].lease.value.token == token) { return 0; }
      operations := operations[row.id := row];
      changes := 1;
    }

    /** INSERT INTO controlled_runner_grants: operation and thread are unique. */
    method InsertGrant(grant: Grant) returns (inserted: bool)
      modifies this`grants
      ensures inserted == (grant.operationId !in old(grants) && !ThreadGranted(old(grants), grant.evidence.managedThreadId))
      ensures grants == if inserted then old(grants)[grant.operationId := grant] else old(grants)
    {
      inserted := grant.operationId !in grants && !ThreadGranted(grants, grant.evidence.managedThreadId);
      if inserted { grants := grants[grant.operationId := grant]; }
    }

    // ---- proposals ---------------------------------------------------------------------------

    /** `createProposal`: a known request key is answered at once, to its own user only. */
    method CreateProposal(draft: Proposal) returns (existing: Option<Id>, waiting: bool)
      modifies this
      requires Sound(Current())
      ensures Current() == Next(old(Current()), DoCreate(draft))
      ensures waiting == !KeyTaken(old(Tables()), draft.requestKey)
      ensures existing.Some? ==> existing.value in proposals && proposals[existing.value].requestKey == draft.requestKey
                                 && proposals[existing.value].userId == draft.userId
      ensures existing == None && !waiting ==>
                forall p :: p in proposals && proposals[p].requestKey == draft.requestKey ==> proposals[p].userId != draft.userId
      ensures Sound(Current())
    {
      hide Sound;
      StepKeeps(Current(), DoCreate(draft));
      KeysAreUnique(Current());
      existing := ByRequestKey(draft.requestKey);
      waiting := existing.None?;
      if waiting {
        Await(CreateCall(draft));
      } else if proposals[existing.value].userId != draft.userId {
        existing := None;
      }
    }

    method ByRequestKey(key: string) returns (found: Option<Id>)
      ensures found.Some? ==> found.value in proposals && proposals[found.value].requestKey == key
      ensures found.None? <==> !KeyTaken(Tables(), key)
    {
      if p :| p in proposals && proposals[p].requestKey == key { return Some(p); }
      found := None;
    }

    /** The insert, and the second look when another request came first. */
    method CreateProposalInserts(call: nat, evidence: bool, id: Id) returns (r: Option<Id>)
      modifies this
      requires Sound(Current()) && Enabled(Current(), DoCreateEnd(call, evidence, id))
      ensures Current() == Next(old(Current()), DoCreateEnd(call, evidence, id))
      ensures r.Some? ==>
                && r.value in proposals && proposals[r.value].requestKey == old(calls)[call].draft.requestKey
                && proposals[r.value].userId == old(calls)[call].draft.userId
      ensures evidence && r.None? ==>
                forall p :: p in proposals && proposals[p].requestKey == old(calls)[call].draft.requestKey
                  ==> proposals[p].userId != old(calls)[call].draft.userId
      ensures Sound(Current())
    {
      hide Sound;
      StepKeeps(Current(), DoCreateEnd(call, evidence, id));
      KeysAreUnique(Current());
      var draft := calls[call].draft;
      calls := calls - {call};
      if !evidence { return None; }
      if Insertable(Db(proposals, operations, grants), id, draft) {
        var row := draft.(id := id, confirmKey := None, challenge := None);
        row := row.(status := Pending, expiresAt := clock + PROPOSAL_LIFETIME);
        proposals := proposals[id := row];
        return Some(id);
      }
      r := ByRequestKey(draft.requestKey);
      if r.Some? && proposals[r.value].userId != draft.userId { r := None; }
    }

    method CreateChallenge(user: Id, id: Id)
      modifies this
      requires Sound(Current())
      ensures Current() == Next(old(Current()), DoChallenge(user, id)) && Sound(Current())
    {
      hide Sound;
      StepKeeps(Current(), DoChallenge(user, id));
      if id !in proposals || proposals[id].userId != user || proposals[id].status != Pending || proposals[id].expiresAt <= clock { return; }
      Await(ChallengeCall(id));
    }

    method ChallengeIssued(call: nat, evidence: bool, token: nat)
      modifies this
      requires Sound(Current()) && Enabled(Current(), DoChallengeEnd(call, evidence, token))
      ensures Current() == Next(old(Current()), DoChallengeEnd(call, evidence, token)) && Sound(Current())
    {
      hide Sound;
      StepKeeps(Current(), DoChallengeEnd(call, evidence, token));
      var id := calls[call].proposalId;
      calls := calls - {call};
      if evidence && id in proposals && proposals[id].status == Pending {
        proposals := proposals[id := proposals[id].(challenge := Some(Challenge(token, clock + CHALLENGE_LIFETIME)))];
      }
    }

    method Confirm(user: Id, id: Id, token: nat, key: string)
      modifies this
      requires Sound(Current())
      ensures Current() == Next(old(Current()), DoConfirm(user, id, token, key)) && Sound(Current())
    {
      hide Sound;
      StepKeeps(Current(), DoConfirm(user, id, token, key));
      if id !in proposals || proposals[id].userId != user { return; }
      var initial := proposals[id];
      if initial.status != Pending || initial.expiresAt <= clock || initial.challenge.None? { return; }
      if initial.challenge.value.expiresAt <= clock || initial.challenge.value.token != token { return; }
      Await(ConfirmCall(initial, key));
    }

    /** The confirming transaction: the operation is inserted, the proposal consumed, or neither. */
    method ConfirmCommits(call: nat, evidence: bool, operationId: Id) returns (confirmed: bool)
      modifies this
      requires Sound(Current()) && Enabled(Current(), DoConfirmEnd(call, evidence, operationId))
      ensures Current() == Next(old(Current()), DoConfirmEnd(call, evidence, operationId)) && Sound(Current())
      ensures confirmed ==> old(calls)[call].initial.id in proposals
                            && proposals[old(calls)[call].initial.id].confirmKey == Some(old(calls)[call].key)
    {
      hide Sound, HasOperation, ConfirmKeyTaken;
      StepKeeps(Current(), DoConfirmEnd(call, evidence, operationId));
      var initial, key := calls[call].initial, calls[call].key;
      calls := calls - {call};
      if !evidence || initial.id !in proposals { return false; }
      var current := proposals[initial.id];
      if current.status == Consumed && current.confirmKey == Some(key) { return true; }
      if current.status != Pending || Token(current.challenge) != Token(initial.challenge) { return false; }
      var before := operations;
      var inserted := InsertOperation(NewOperation(operationId, initial.id));
      if !inserted { return false; }
      KeyTakenElsewhere(proposals, before, operations, grants, key);
      var updated := ConsumeProposal(initial.id, key);
      if !updated {
        operations := before;
        return false;
      }
      confirmed := true;
    }

    method RevokeProposal(user: Id, id: Id)
      modifies this
      requires Sound(Current())
      ensures Current() == Next(old(Current()), DoRevoke(user, id)) && Sound(Current())
    {
      hide Sound;
      StepKeeps(Current(), DoRevoke(user, id));
      if id !in proposals || proposals[id].userId != user { return; }
      var row := proposals[id];
      if row.status != Pending || row.expiresAt <= clock { return; }
      row := row.(status := Revoked);
      row := row.(challenge := None);
      proposals := proposals[id := row];
    }

    // ---- execution ---------------------------------------------------------------------------

    method ClaimExecution(user: Id, id: Id)
      modifies this
      requires Sound(Current())
      ensures Current() == Next(old(Current()), DoClaim(user, id)) && Sound(Current())
    {
      hide Sound;
      StepKeeps(Current(), DoClaim(user, id));
      if id !in proposals || proposals[id].userId != user || proposals[id].status != Consumed { return; }
      Await(ClaimCall(proposals[id]));
    }

    method OperationOf(proposalId: Id) returns (found: Option<Id>)
      ensures found.Some? ==> found.value in operations && operations[found.value].proposalId == proposalId
      ensures found.None? <==> !HasOperation(operations, proposalId)
    {
      if o :| o in operations && operations[o].proposalId == proposalId { return Some(o); }
      found := None;
    }

    /** The claiming transaction: the lease goes to the proposal's operation when nobody holds one. */
    method ClaimTransaction(call: nat, evidence: bool, token: nat) returns (claimed: Option<Id>)
      modifies this
      requires Sound(Current()) && call in calls && calls[call].ClaimCall? && token !in issued
      ensures claimed.Some? ==> Current() == Next(old(Current()), DoClaimLease(call, evidence, claimed.value, token))
      ensures claimed.Some? <==> evidence && exists o :: Claimable(old(Tables()), o, old(calls)[call].proposal.id, old(clock))
      ensures claimed.None? ==> Current() == DropCall(old(Current()), call)
      ensures claimed.Some? ==> Holds(operations, claimed.value, token) && old(operations)[claimed.value].proposalId == old(calls)[call].proposal.id
      ensures Sound(Current())
    {
      hide Sound, WorkerBusy;
      ghost var before := Current();
      var proposal := calls[call].proposal;
      CallDropped(before, call);
      calls := calls - {call};
      if !evidence { return None; }
      var busy := WorkerBusy(operations, clock);
      var current := OperationOf(proposal.id);
      OneOperationEach(before, proposal.id);
      if busy || current.None? { return None; }
      var row := operations[current.value];
      var startPhase := StartPhase(row);
      if startPhase.None? { return None; }
      StepKeeps(before, DoClaimLease(call, evidence, current.value, token));
      assert Claimable(before.db, current.value, proposal.id, clock);
      row := row.(phase := startPhase.value, resumePhase := None);
      row := row.(lease := Some(Lease(token, clock + LEASE_LIFETIME)), failureClass := None);
      operations := operations[current.value := row];
      issued := issued[token := Issue(current.value, clock + LEASE_LIFETIME)];
      Await(LeasedCall(current.value, token, row.phase));
      claimed := current;
    }

    /** The second look at the evidence, behind the claim. */
    method ClaimChecked(call: nat, evidence: bool)
      modifies this
      requires Sound(Current()) && Enabled(Current(), DoClaimEnd(call, evidence))
      ensures Current() == Next(old(Current()), DoClaimEnd(call, evidence)) && Sound(Current())
    {
      hide Sound;
      StepKeeps(Current(), DoClaimEnd(call, evidence));
      var o, token := calls[call].operationId, calls[call].token;
      if o in operations { KeyedRow(Current(), o); }
      calls := calls - {call};
      if evidence || o !in operations { return; }
      var released := operations[o].(lease := None);
      var changes := UpdateLeased(released, token);
    }

    method AdvanceExecution(user: Id, advance: Advance)
      modifies this
      requires Sound(Current())
      ensures Current() == Next(old(Current()), DoAdvance(user, advance)) && Sound(Current())
    {
      hide Sound;
      StepKeeps(Current(), DoAdvance(user, advance));
      if advance.operationId !in operations { return; }
      var row := operations[advance.operationId];
      if row.proposalId !in proposals || proposals[row.proposalId].userId != user { return; }
      Await(AdvanceCall(row, proposals[row.proposalId], advance));
    }

    /** The checks on the row that was read, and the transaction; a refused grant rolls the update back. */
    method AdvanceTransaction(call: nat, evidence: bool) returns (advanced: bool)
      modifies this
      requires Sound(Current()) && Enabled(Current(), DoAdvanceEnd(call, evidence))
      ensures Current() == Next(old(Current()), DoAdvanceEnd(call, evidence)) && Sound(Current())
      ensures advanced == AdvanceGranted(old(Current()), Some(call), evidence)
      ensures advanced ==>
                && old(calls)[call].row.id in operations && operations[old(calls)[call].row.id].phase == old(calls)[call].advance.next
                && Holds(old(operations), old(calls)[call].row.id, old(calls)[call].advance.token)
      ensures !advanced ==> Tables() == old(Tables())
    {
      hide Sound, ThreadGranted, StoredEvidence, ValidEvidence, ValidFailureClass;
      StepKeeps(Current(), DoAdvanceEnd(call, evidence));
      var row, proposal, a := calls[call].row, calls[call].proposal, calls[call].advance;
      calls := calls - {call};
      var accepted := Accepts(row, proposal.projectName, a, clock);
      if !evidence || !accepted { return false; }
      var before := operations;
      var updated := row.(phase := a.next);
      updated := updated.(resumePhase := if a.next == FailedRetryable then Some(row.phase) else None);
      updated := updated.(lease := if Terminal(a.next) then None else row.lease);
      updated := updated.(failureClass := if a.failureClass == Some("") then None else a.failureClass);
      if a.next == ThreadStarted { updated := updated.(evidence := a.evidence); }
      var changes := UpdateLeased(updated, a.token);
      if changes != 1 { return false; }
      if a.next == Completed {
        AcceptedToken(row, proposal.projectName, a, clock);
        var inserted := InsertGrant(Grant(row.id, proposal.userId, row.evidence.value, true));
        if !inserted {
          operations := before;
          return false;
        }
      }
      advanced := true;
    }

    // ---- grants ------------------------------------------------------------------------------

    /** `resolveControlledRunnerGrant`: the one active grant with the context's fields. */
    method ResolveGrant(user: Id, e: Evidence) returns (found: Option<Id>)
      requires Sound(Current())
      ensures found.Some? <==> exists o :: o in grants && grants[o] == Grant(o, user, e, true)
      ensures found.Some? ==> Resolves(Tables(), found.value, user, e)
    {
      GrantsResolve(Current(), user, e);
      var db := Db(proposals, operations, grants);
      if o :| o in grants && Resolves(db, o, user, e) { return Some(o); }
      found := None;
    }

    method RevokeControlledGrant(operationId: Id) returns (revoked: bool)
      modifies this
      requires Sound(Current())
      ensures Current() == Next(old(Current()), DoRevokeGrant(operationId)) && Sound(Current())
      ensures revoked == (operationId in old(grants) && old(grants)[operationId].active)
    {
      hide Sound;
      StepKeeps(Current(), DoRevokeGrant(operationId));
      if operationId !in grants || !grants[operationId].active { return false; }
      grants := grants[operationId := grants[operationId].(active := false)];
      revoked := true;
    }
  }

  lemma KeysAreUnique(s: State)
    requires Sound(s)
    ensures forall a, b :: a in s.db.proposals && b in s.db.proposals && s.db.proposals[a].requestKey == s.db.proposals[b].requestKey ==> a == b
  {
    hide RowsOk, GrantedOnce, ConsumedOnce, Lower;
  }

  lemma OneOperationEach(s: State, p: Id)
    requires Sound(s)
    ensures forall a, b :: a in s.db.operations && b in s.db.operations && s.db.operations[a].proposalId == p && s.db.operations[b].proposalId == p ==> a == b
  {
    hide RowsOk, GrantedOnce, UniqueProposals, CallsOk;
  }

  lemma KeyedRow(s: State, o: Id)
    requires Sound(s) && o in s.db.operations
    ensures s.db.operations[o].id == o
  {
    hide RowsOk, GrantedOnce, UniqueProposals, CallsOk, ConsumedOnce;
  }

  lemma GrantsResolve(s: State, user: Id, e: Evidence)
    requires Sound(s)
    ensures forall o :: o in s.db.grants ==> (Resolves(s.db, o, user, e) <==> s.db.grants[o] == Grant(o, user, e, true))
  {
    hide CallsOk, LeasesIssued, SingleLease, DbOk;
    forall o | o in s.db.grants ensures Resolves(s.db, o, user, e) <==> s.db.grants[o] == Grant(o, user, e, true) {
      GrantBelongs(s.db, o);
    }
  }

  lemma KeyTakenElsewhere(proposals: map<Id, Proposal>, before: map<Id, Operation>, operations: map<Id, Operation>, grants: map<Id, Grant>, key: string)
    ensures ConfirmKeyTaken(Db(proposals, before, grants), key) == ConfirmKeyTaken(Db(proposals, operations, grants), key)
  {
  }
}
