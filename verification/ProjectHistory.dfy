/**
 What the tables of project creation owe to the steps of the run: who asked for what, with which
 challenge or lease, and when.
 */
module ProjectHistory {
  import opened Options
  import opened Ascii
  import opened ProjectTypes
  import opened ProjectSteps
  import opened ProjectSafety
  import opened ProjectTheorems

  // ---- the calls under way ---------------------------------------------------------------------

  /** The caller owns the proposal. */
  predicate OwnedBy(s: State, p: Id, user: Id) {
    p in s.db.proposals && s.db.proposals[p].userId == user
  }

  predicate StillOpen(s: State, p: Id) {
    p in s.db.proposals && s.db.proposals[p].status == Pending && s.clock < s.db.proposals[p].expiresAt
  }

  /** The step is the first half of the call: what it checks and what it reads. */
  predicate Opens(s: State, step: Step, call: Call) {
    match call
    case CreateCall(draft) => step.DoCreate? && step.draft == draft
    case ChallengeCall(p) => step.DoChallenge? && step.id == p && OwnedBy(s, p, step.user) && StillOpen(s, p)
    case ConfirmCall(initial, key) =>
      && step.DoConfirm? && step.key == key && OwnedBy(s, step.id, step.user) && StillOpen(s, step.id)
      && s.db.proposals[step.id] == initial && initial.id == step.id
      && initial.challenge.Some? && initial.challenge.value.token == step.token && s.clock < initial.challenge.value.expiresAt
    case ClaimCall(proposal) =>
      && step.DoClaim? && OwnedBy(s, step.id, step.user) && s.db.proposals[step.id] == proposal && proposal.id == step.id
      && proposal.status == Consumed
    case LeasedCall(o, token, startPhase) => step.DoClaimLease? && step.evidence && step.id == o && step.token == token
    case AdvanceCall(row, proposal, advance) =>
      && step.DoAdvance? && step.advance == advance && advance.operationId in s.db.operations
      && s.db.operations[advance.operationId] == row && row.id == advance.operationId
      && OwnedBy(s, row.proposalId, step.user) && s.db.proposals[row.proposalId] == proposal
  }

  lemma CallStep(s: State, step: Step, c: nat)
    requires Sound(s) && c in Next(s, step).calls
    ensures (c in s.calls && Next(s, step).calls[c] == s.calls[c] && c < s.nextCall) || (c == s.nextCall && Opens(s, step, Next(s, step).calls[c]))
  {
    hide LeasesIssued, SingleLease, CallsOk, RowsOk, ConsumedOnce, GrantedOnce, UniqueProposals, Accepts, ThreadGranted, Claimable, Insertable;
    if Enabled(s, step) {
      if c !in s.calls { OpenedHere(s, step, c); }
    }
  }

  lemma OpenedHere(s: State, step: Step, c: nat)
    requires Sound(s) && Enabled(s, step) && c in Next(s, step).calls && c !in s.calls
    ensures c == s.nextCall && Opens(s, step, Next(s, step).calls[c])
  {
    hide LeasesIssued, SingleLease, CallsOk, RowsOk, ConsumedOnce, GrantedOnce, UniqueProposals, Accepts, ThreadGranted, Claimable, Insertable;
  }

  /** A call under way was opened by one step of the run. */
  lemma {:induction false} CallOpened(steps: seq<Step>, c: nat) returns (j: nat)
    requires c in Run(Empty, steps).calls
    ensures j < |steps| && Opens(Run(Empty, steps[..j]), steps[j], Run(Empty, steps).calls[c]) && Run(Empty, steps[..j]).nextCall == c
    decreases |steps|
  {
    hide Next, Sound, Opens;
    assert steps != [];
    var init := steps[..|steps| - 1];
    RunSound(init);
    CallStep(Run(Empty, init), steps[|steps| - 1], c);
    if c in Run(Empty, init).calls && Run(Empty, init).calls[c] == Run(Empty, steps).calls[c] && c < Run(Empty, init).nextCall {
      j := CallOpened(init, c);
      assert init[..j] == steps[..j];
    } else {
      j := |steps| - 1;
    }
  }

  // ---- proposals -------------------------------------------------------------------------------

  /** The step inserts the proposal as it was requested, for ten minutes. */
  predicate Creates(s: State, step: Step, p: Id, proposal: Proposal) {
    && step.DoCreateEnd? && step.evidence && step.id == p && step.call in s.calls && s.calls[step.call].CreateCall?
    && var draft := s.calls[step.call].draft;
    && proposal.id == p && proposal.userId == draft.userId && proposal.sessionId == draft.sessionId
    && proposal.projectName == draft.projectName && proposal.teamId == draft.teamId && proposal.requestKey == draft.requestKey
    && proposal.expiresAt == s.clock + 600000
  }

  /** The step issues a challenge for the proposal, for two minutes. */
  predicate Issues(s: State, step: Step, p: Id, challenge: Challenge) {
    && step.DoChallengeEnd? && step.evidence && step.call in s.calls && s.calls[step.call] == ChallengeCall(p)
    && p in s.db.proposals && s.db.proposals[p].status == Pending
    && challenge.token == step.token && challenge.expiresAt == s.clock + 120000
  }

  predicate Revokes(s: State, step: Step, p: Id) {
    step.DoRevoke? && step.id == p && OwnedBy(s, p, step.user) && StillOpen(s, p)
  }

  /** The step commits a confirmation of the proposal. */
  predicate ConfirmsFor(s: State, step: Step, p: Id, o: Id, key: string) {
    && step.DoConfirmEnd? && step.evidence && step.id == o && step.call in s.calls && s.calls[step.call].ConfirmCall?
    && s.calls[step.call].initial.id == p && s.calls[step.call].key == key
    && p in s.db.proposals && s.db.proposals[p].status == Pending
    && s.db.proposals[p].challenge.Some? == s.calls[step.call].initial.challenge.Some?
    && (s.db.proposals[p].challenge.Some? ==> s.db.proposals[p].challenge.value.token == s.calls[step.call].initial.challenge.value.token)
  }

  /** How a step may change a proposal. */
  lemma ProposalStep(s: State, step: Step, p: Id)
    requires Sound(s) && p in Next(s, step).db.proposals
    ensures var proposal := Next(s, step).db.proposals[p];
            if p !in s.db.proposals then Creates(s, step, p, proposal) && proposal.status == Pending && proposal.challenge.None? && proposal.confirmKey.None?
            else
              var before := s.db.proposals[p];
              || proposal == before
              || (proposal.challenge.Some? && Issues(s, step, p, proposal.challenge.value) && proposal == before.(challenge := proposal.challenge))
              || (Revokes(s, step, p) && proposal == before.(status := Revoked, challenge := None))
              || (step.DoConfirmEnd? && step.call in s.calls && s.calls[step.call].ConfirmCall? && step.id in Next(s, step).db.operations
                  && step.id !in s.db.operations && proposal == before.(status := Consumed, confirmKey := Some(s.calls[step.call].key), challenge := None))
  {
    hide LeasesIssued, SingleLease, CallsOk, RowsOk, ConsumedOnce, GrantedOnce, UniqueProposals, Accepts, ThreadGranted, Claimable, NameTaken, KeyTaken, HasOperation, ConfirmKeyTaken;
  }

  lemma OperationStep(s: State, step: Step, o: Id)
    requires Sound(s) && o in Next(s, step).db.operations && o !in s.db.operations
    ensures var row, db := Next(s, step).db.operations[o], Next(s, step).db;
            && row == Operation(o, row.proposalId, Reserved, None, None, None, None)
            && row.proposalId in db.proposals && db.proposals[row.proposalId].confirmKey.Some?
            && ConfirmsFor(s, step, row.proposalId, o, db.proposals[row.proposalId].confirmKey.value)
  {
    hide LeasesIssued, SingleLease, CallsOk, RowsOk, ConsumedOnce, GrantedOnce, UniqueProposals, Accepts, ThreadGranted, WorkerBusy, Insertable, HasOperation, ConfirmKeyTaken;
    if Enabled(s, step) && step.DoAdvanceEnd? { CallIsOk(s, step.call); }
  }

  lemma {:induction false} ProposalCreated(steps: seq<Step>, p: Id) returns (h: nat)
    requires p in Run(Empty, steps).db.proposals
    ensures h < |steps| && Creates(Run(Empty, steps[..h]), steps[h], p, Run(Empty, steps).db.proposals[p])
    decreases |steps|
  {
    hide Next, Sound;
    assert steps != [];
    var init := steps[..|steps| - 1];
    RunSound(init);
    ProposalStep(Run(Empty, init), steps[|steps| - 1], p);
    if p in Run(Empty, init).db.proposals {
      h := ProposalCreated(init, p);
      assert init[..h] == steps[..h];
    } else {
      h := |steps| - 1;
    }
  }

  lemma {:induction false} ChallengeIssued(steps: seq<Step>, p: Id) returns (i: nat)
    requires p in Run(Empty, steps).db.proposals && Run(Empty, steps).db.proposals[p].challenge.Some?
    ensures i < |steps| && Issues(Run(Empty, steps[..i]), steps[i], p, Run(Empty, steps).db.proposals[p].challenge.value)
    decreases |steps|
  {
    hide Next, Sound, Issues;
    assert steps != [];
    var init := steps[..|steps| - 1];
    RunSound(init);
    ProposalStep(Run(Empty, init), steps[|steps| - 1], p);
    if Issues(Run(Empty, init), steps[|steps| - 1], p, Run(Empty, steps).db.proposals[p].challenge.value) {
      i := |steps| - 1;
    } else {
      i := ChallengeIssued(init, p);
      assert init[..i] == steps[..i];
    }
  }

  /** The step that made the operation, and the key its proposal was confirmed with. */
  lemma {:induction false} OperationMade(steps: seq<Step>, o: Id) returns (k: nat, key: string)
    requires o in Run(Empty, steps).db.operations
    ensures k < |steps| && ConfirmsFor(Run(Empty, steps[..k]), steps[k], Run(Empty, steps).db.operations[o].proposalId, o, key)
    decreases |steps|
  {
    hide Next, Sound, ConfirmsFor;
    assert steps != [];
    var init, last := steps[..|steps| - 1], steps[|steps| - 1];
    RunSound(init);
    if o in Run(Empty, init).db.operations {
      k, key := OperationMade(init, o);
      assert init[..k] == steps[..k];
      SameProposal(Run(Empty, init), last, o);
    } else {
      OperationStep(Run(Empty, init), last, o);
      k, key := |steps| - 1, Run(Empty, steps).db.proposals[Run(Empty, steps).db.operations[o].proposalId].confirmKey.value;
    }
  }

  lemma SameProposal(s: State, step: Step, o: Id)
    requires Sound(s) && o in s.db.operations
    ensures o in Next(s, step).db.operations && Next(s, step).db.operations[o].proposalId == s.db.operations[o].proposalId
  {
    hide Sound, Next;
    RowStep(s, step, o);
  }

  function ClockAt(steps: seq<Step>, k: nat): nat
    requires k <= |steps|
  {
    Run(Empty, steps[..k]).clock
  }

  /**
   Step `h` creates the proposal, step `i` issues a challenge for it, step `j` confirms it with that
   challenge, as its owner and in time, and step `k` is the second half of that confirmation.
   */
  ghost predicate ConfirmedBy(steps: seq<Step>, h: nat, i: nat, j: nat, k: nat, p: Proposal, o: Id) {
    && h < i < j < k < |steps|
    && steps[h].DoCreateEnd? && steps[h].id == p.id
    && steps[i].DoChallengeEnd? && Issues(Run(Empty, steps[..i]), steps[i], p.id, Challenge(steps[i].token, ClockAt(steps, i) + 120000))
    && steps[j].DoConfirm? && steps[j].user == p.userId && steps[j].id == p.id && steps[j].token == steps[i].token
    && ClockAt(steps, j) < ClockAt(steps, i) + 120000 && ClockAt(steps, j) < ClockAt(steps, h) + 600000
    && steps[k].DoConfirmEnd? && steps[k].evidence && steps[k].id == o && steps[k].call == Run(Empty, steps[..j]).nextCall
  }

  /** An operation exists only because the owner of its proposal has answered the proposal's own challenge in time. */
  lemma {:induction false} ConfirmedByChallenge(steps: seq<Step>, o: Id)
    requires o in Run(Empty, steps).db.operations
    ensures var db := Run(Empty, steps).db;
            && db.operations[o].proposalId in db.proposals
            && exists h, i, j, k :: ConfirmedBy(steps, h, i, j, k, db.proposals[db.operations[o].proposalId], o)
  {
    hide Run, Next, Sound;
    var k, key := OperationMade(steps, o);
    var p := Run(Empty, steps).db.operations[o].proposalId;
    var before := Run(Empty, steps[..k]);
    var j := CallOpened(steps[..k], steps[k].call);
    assert steps[..k][..j] == steps[..j];
    var i := ChallengeIssued(steps[..j], p);
    assert steps[..j][..i] == steps[..i];
    var h := ProposalCreated(steps[..i], p);
    assert steps[..i][..h] == steps[..h];
    OwnerStays(steps, i, p);
    OwnerStays(steps, j, p);
    assert ConfirmedBy(steps, h, i, j, k, Run(Empty, steps).db.proposals[p], o);
  }

  /** The owner, the key and the deadline of a proposal never change. */
  lemma {:induction false} OwnerStays(steps: seq<Step>, k: nat, p: Id)
    requires k <= |steps| && p in Run(Empty, steps[..k]).db.proposals
    ensures p in Run(Empty, steps).db.proposals
    ensures var before, after := Run(Empty, steps[..k]).db.proposals[p], Run(Empty, steps).db.proposals[p];
            before.id == p && after == before.(confirmKey := after.confirmKey, challenge := after.challenge, status := after.status)
    decreases |steps|
  {
    hide Next, Sound, Issues, Creates;
    if k == |steps| {
      assert steps[..k] == steps;
      RunSound(steps);
      ProposalKeyed(Run(Empty, steps), p);
    } else {
      var init := steps[..|steps| - 1];
      assert init[..k] == steps[..k];
      OwnerStays(init, k, p);
      RunSound(init);
      ProposalStays(Run(Empty, init), steps[|steps| - 1], p);
      ProposalStep(Run(Empty, init), steps[|steps| - 1], p);
    }
  }

  lemma ProposalKeyed(s: State, p: Id)
    requires Sound(s) && p in s.db.proposals
    ensures s.db.proposals[p].id == p
  {
  }

  lemma ProposalStays(s: State, step: Step, p: Id)
    requires Sound(s) && p in s.db.proposals
    ensures p in Next(s, step).db.proposals
  {
    hide DbOk, LeasesIssued, SingleLease, CallsOk, Accepts, ThreadGranted, Claimable, Insertable, HasOperation, ConfirmKeyTaken;
  }

  // ---- leases ----------------------------------------------------------------------------------

  /** The step gives a lease of the operation out, for ten minutes, when no lease of any operation is current. */
  predicate Leases(s: State, step: Step, o: Id, token: nat, issue: Issue) {
    && step.DoClaimLease? && step.evidence && step.id == o && step.token == token
    && step.call in s.calls && s.calls[step.call].ClaimCall?
    && o in s.db.operations && s.db.operations[o].proposalId == s.calls[step.call].proposal.id
    && s.db.operations[o].phase != Completed && s.db.operations[o].phase != ReconcileRequired
    && (forall p :: p in s.db.operations && s.db.operations[p].lease.Some? ==> s.db.operations[p].lease.value.expiresAt <= s.clock)
    && issue == Issue(o, s.clock + 600000)
  }

  lemma IssueStep(s: State, step: Step, token: nat)
    requires Sound(s) && token in Next(s, step).issued
    ensures if token in s.issued then Next(s, step).issued[token] == s.issued[token]
            else Leases(s, step, Next(s, step).issued[token].operationId, token, Next(s, step).issued[token])
  {
    hide LeasesIssued, SingleLease, RowsOk, ConsumedOnce, GrantedOnce, UniqueProposals, CallsOk, Accepts, ThreadGranted, Insertable, HasOperation, ConfirmKeyTaken;
    if step.DoClaimLease? {
      forall p | p in s.db.operations && !WorkerBusy(s.db.operations, s.clock) ensures !Leased(s.db.operations[p], s.clock) {}
    }
  }

  lemma {:induction false} LeaseGiven(steps: seq<Step>, token: nat) returns (k: nat)
    requires token in Run(Empty, steps).issued
    ensures k < |steps|
    ensures var issue := Run(Empty, steps).issued[token]; Leases(Run(Empty, steps[..k]), steps[k], issue.operationId, token, issue)
    decreases |steps|
  {
    hide Next, Sound, Leases;
    assert steps != [];
    var init := steps[..|steps| - 1];
    RunSound(init);
    IssueStep(Run(Empty, init), steps[|steps| - 1], token);
    if token in Run(Empty, init).issued {
      k := LeaseGiven(init, token);
      assert init[..k] == steps[..k];
    } else {
      k := |steps| - 1;
    }
  }

  /** Step `j` claims the proposal as its owner, and step `k` gives the lease out. */
  ghost predicate LeasedBy(steps: seq<Step>, j: nat, k: nat, token: nat, proposal: Proposal, issue: Issue) {
    && j < k < |steps| && steps[j].DoClaim? && steps[j].user == proposal.userId && steps[j].id == proposal.id
    && steps[k].DoClaimLease? && steps[k].call == Run(Empty, steps[..j]).nextCall && steps[k].token == token && steps[k].id == issue.operationId
    && Leases(Run(Empty, steps[..k]), steps[k], issue.operationId, token, issue)
  }

  /** A lease is given out only to the owner of the consumed proposal of its operation. */
  lemma {:induction false} LeasedToOwner(steps: seq<Step>, token: nat)
    requires token in Run(Empty, steps).issued
    ensures var s := Run(Empty, steps);
            var issue := s.issued[token];
            && issue.operationId in s.db.operations && s.db.operations[issue.operationId].proposalId in s.db.proposals
            && exists j, k :: LeasedBy(steps, j, k, token, s.db.proposals[s.db.operations[issue.operationId].proposalId], issue)
  {
    hide Run, Next, Sound;
    var k := LeaseGiven(steps, token);
    var issue := Run(Empty, steps).issued[token];
    var before := Run(Empty, steps[..k]);
    var j := CallOpened(steps[..k], steps[k].call);
    assert steps[..k][..j] == steps[..j];
    var p := before.calls[steps[k].call].proposal.id;
    OwnerStays(steps, j, p);
    RowStays(steps, k, issue.operationId);
    assert LeasedBy(steps, j, k, token, Run(Empty, steps).db.proposals[p], issue);
  }

  lemma {:induction false} RowStays(steps: seq<Step>, k: nat, o: Id)
    requires k <= |steps| && o in Run(Empty, steps[..k]).db.operations
    ensures o in Run(Empty, steps).db.operations
    ensures Run(Empty, steps).db.operations[o].proposalId == Run(Empty, steps[..k]).db.operations[o].proposalId
    decreases |steps|
  {
    hide Next, Sound;
    if k == |steps| {
      assert steps[..k] == steps;
    } else {
      var init := steps[..|steps| - 1];
      assert init[..k] == steps[..k];
      RowStays(init, k, o);
      RunSound(init);
      SameProposal(Run(Empty, init), steps[|steps| - 1], o);
    }
  }

  // ---- rows ------------------------------------------------------------------------------------

  /** A claim puts the operation where it was, or where it is to be retried. */
  predicate ClaimsRow(s: State, step: Step, row: Operation, row': Operation) {
    && step.DoClaimLease? && step.evidence && step.id == row.id
    && row.phase != Completed && row.phase != ReconcileRequired
    && (row.phase == FailedRetryable ==> row.resumePhase.Some?)
    && row' == row.(phase := if row.phase == FailedRetryable then row.resumePhase.value else row.phase, resumePhase := None,
                    lease := Some(Lease(step.token, s.clock + 600000)), failureClass := None)
  }

  /** A lease is handed back because the evidence has changed behind its claim. */
  predicate ReleasesRow(s: State, step: Step, row: Operation, row': Operation) {
    && step.DoClaimEnd? && !step.evidence && step.call in s.calls && s.calls[step.call].LeasedCall?
    && s.calls[step.call].operationId == row.id && row.lease.Some? && row.lease.value.token == s.calls[step.call].token
    && row' == row.(lease := None)
  }

  /** One phase on, or given up. */
  predicate MayFollow(phase: Phase, next: Phase) {
    || next == FailedRetryable || next == ReconcileRequired
    || (phase == Reserved && next == LocalPrepared) || (phase == LocalPrepared && next == RemoteCreated)
    || (phase == RemoteCreated && next == Pushed) || (phase == Pushed && next == ThreadStarted) || (phase == ThreadStarted && next == Completed)
  }

  /** The holder of the current lease advances the operation from the row it has read. */
  predicate AdvancesRow(s: State, step: Step, row: Operation, row': Operation) {
    && step.DoAdvanceEnd? && step.evidence && step.call in s.calls && s.calls[step.call].AdvanceCall?
    && var read, a := s.calls[step.call].row, s.calls[step.call].advance;
    && a.operationId == row.id
    && row.lease.Some? && row.lease.value.token == a.token
    && read.lease.Some? && read.lease.value.token == a.token && s.clock < read.lease.value.expiresAt
    && MayFollow(read.phase, a.next) && (a.evidence.Some? <==> a.next == ThreadStarted)
    && row'.id == row.id && row'.proposalId == row.proposalId && row'.phase == a.next
    && row'.resumePhase == (if a.next == FailedRetryable then Some(read.phase) else None)
    && row'.lease == (if a.next == FailedRetryable || a.next == ReconcileRequired || a.next == Completed then None else row.lease)
    && row'.failureClass == (if a.failureClass == Some("") then None else a.failureClass)
    && row'.evidence == (if a.next == ThreadStarted then a.evidence else read.evidence)
  }

  /** A row changes only by being claimed, handed back or advanced. */
  lemma RowStep(s: State, step: Step, o: Id)
    requires Sound(s) && o in s.db.operations
    ensures o in Next(s, step).db.operations
    ensures var row, row' := s.db.operations[o], Next(s, step).db.operations[o];
            row' == row || ClaimsRow(s, step, row, row') || ReleasesRow(s, step, row, row') || AdvancesRow(s, step, row, row')
  {
    hide Sound, Next, ClaimsRow, ReleasesRow, AdvancesRow;
    if !Enabled(s, step) {
      Ignored(s, step);
    } else if step.DoClaimLease? {
      ClaimedRowStep(s, step, o);
    } else if step.DoClaimEnd? {
      ReleasedRowStep(s, step, o);
    } else if step.DoAdvanceEnd? {
      AdvancedRowStep(s, step, o);
    } else {
      OtherRowStep(s, step, o);
    }
  }

  lemma Ignored(s: State, step: Step)
    requires !Enabled(s, step)
    ensures Next(s, step) == s
  {
  }

  lemma ClaimedRowStep(s: State, step: Step, o: Id)
    requires Sound(s) && o in s.db.operations && step.DoClaimLease? && Enabled(s, step)
    ensures o in Next(s, step).db.operations
    ensures var row, row' := s.db.operations[o], Next(s, step).db.operations[o]; row' == row || ClaimsRow(s, step, row, row')
  {
    hide Sound, WorkerBusy;
    RowKeyed(s, o);
  }

  lemma ReleasedRowStep(s: State, step: Step, o: Id)
    requires Sound(s) && o in s.db.operations && step.DoClaimEnd? && Enabled(s, step)
    ensures o in Next(s, step).db.operations
    ensures var row, row' := s.db.operations[o], Next(s, step).db.operations[o]; row' == row || ReleasesRow(s, step, row, row')
  {
    hide Sound;
    RowKeyed(s, o);
  }

  lemma AdvancedRowStep(s: State, step: Step, o: Id)
    requires Sound(s) && o in s.db.operations && step.DoAdvanceEnd? && Enabled(s, step)
    ensures o in Next(s, step).db.operations
    ensures var row, row' := s.db.operations[o], Next(s, step).db.operations[o]; row' == row || AdvancesRow(s, step, row, row')
  {
    hide DbOk, SingleLease, ThreadGranted, ValidEvidence, StoredEvidence, ValidFailureClass;
    RowKeyed(s, o);
    CallIsOk(s, step.call);
    assert LeaseIssued(s.db.operations[o], s.issued);
  }

  lemma OtherRowStep(s: State, step: Step, o: Id)
    requires Sound(s) && o in s.db.operations && !step.DoClaimLease? && !step.DoClaimEnd? && !step.DoAdvanceEnd?
    ensures o in Next(s, step).db.operations && Next(s, step).db.operations[o] == s.db.operations[o]
  {
    hide Sound, Insertable, Answers, HasOperation, ConfirmKeyTaken;
  }

  /** Step `j` asks for the advance as the owner of the operation's proposal. */
  ghost predicate AdvanceAsked(steps: seq<Step>, j: nat, k: nat, proposal: Proposal, o: Id) {
    && j < k < |steps| && steps[j].DoAdvance? && steps[j].user == proposal.userId && steps[j].advance.operationId == o
    && steps[k].DoAdvanceEnd? && steps[k].call == Run(Empty, steps[..j]).nextCall
    && steps[k].call in Run(Empty, steps[..k]).calls && Run(Empty, steps[..k]).calls[steps[k].call].AdvanceCall?
    && Run(Empty, steps[..k]).calls[steps[k].call].advance == steps[j].advance
    && o in Run(Empty, steps[..j]).db.operations && Run(Empty, steps[..k]).calls[steps[k].call].row == Run(Empty, steps[..j]).db.operations[o]
  }

  /** Every change of a row is a claim, a lease handed back, or an advance that the owner has asked for under the row's lease. */
  lemma {:induction false} RowsChangeBy(steps: seq<Step>, k: nat, o: Id)
    requires k < |steps| && o in Run(Empty, steps[..k]).db.operations
    ensures var s, s' := Run(Empty, steps[..k]), Run(Empty, steps[..k + 1]);
            && o in s'.db.operations && s.db.operations[o].proposalId in s.db.proposals
            && var row, row' := s.db.operations[o], s'.db.operations[o];
            || row' == row || ClaimsRow(s, steps[k], row, row') || ReleasesRow(s, steps[k], row, row')
            || (AdvancesRow(s, steps[k], row, row') && exists j :: AdvanceAsked(steps, j, k, s.db.proposals[row.proposalId], o))
  {
    hide Next, Sound, Opens, ClaimsRow, ReleasesRow;
    var s := Run(Empty, steps[..k]);
    assert steps[..k + 1][..k] == steps[..k];
    RunSound(steps[..k]);
    RowStep(s, steps[k], o);
    RowKeyed(s, o);
    HasProposal(s, o);
    var row, row' := s.db.operations[o], Next(s, steps[k]).db.operations[o];
    if AdvancesRow(s, steps[k], row, row') {
      var j := CallOpened(steps[..k], steps[k].call);
      assert steps[..k][..j] == steps[..j];
      OpensAdvance(steps, j, k, o);
      assert AdvanceAsked(steps, j, k, s.db.proposals[row.proposalId], o);
    }
  }

  lemma HasProposal(s: State, o: Id)
    requires Sound(s) && o in s.db.operations
    ensures s.db.operations[o].proposalId in s.db.proposals
  {
    hide RowsOk, ConsumedOnce, GrantedOnce, UniqueProposals;
  }

  lemma {:induction false} OpensAdvance(steps: seq<Step>, j: nat, k: nat, o: Id)
    requires j < k < |steps| && o in Run(Empty, steps[..k]).db.operations
    requires var s := Run(Empty, steps[..k]);
             && steps[k].DoAdvanceEnd? && steps[k].call in s.calls && s.calls[steps[k].call].AdvanceCall?
             && s.calls[steps[k].call].advance.operationId == o
             && Opens(Run(Empty, steps[..j]), steps[j], s.calls[steps[k].call])
    ensures var s0, s := Run(Empty, steps[..j]), Run(Empty, steps[..k]);
            && steps[j].DoAdvance? && steps[j].advance == s.calls[steps[k].call].advance
            && o in s0.db.operations && s.calls[steps[k].call].row == s0.db.operations[o]
            && s.db.operations[o].proposalId in s.db.proposals && steps[j].user == s.db.proposals[s.db.operations[o].proposalId].userId
  {
    hide Run, Next, Sound;
    assert steps[..k][..j] == steps[..j];
    RowStays(steps[..k], j, o);
    OwnerStays(steps[..k], j, Run(Empty, steps[..j]).db.operations[o].proposalId);
  }

  // ---- nothing more is asked ---------------------------------------------------------------------

  /** A first half goes on exactly when the caller owns an open proposal, answers its current challenge, and so on. */
  lemma OpensExactly(s: State, step: Step)
    ensures step.DoChallenge? ==> (Next(s, step) != s <==> OwnedBy(s, step.id, step.user) && StillOpen(s, step.id))
    ensures step.DoRevoke? && Next(s, step) != s ==> OwnedBy(s, step.id, step.user) && StillOpen(s, step.id)
    ensures step.DoRevoke? && OwnedBy(s, step.id, step.user) && StillOpen(s, step.id) ==> Next(s, step).db.proposals[step.id].status == Revoked
    ensures step.DoConfirm? ==>
              (Next(s, step) != s <==>
                 && OwnedBy(s, step.id, step.user) && StillOpen(s, step.id) && s.db.proposals[step.id].challenge.Some?
                 && s.db.proposals[step.id].challenge.value.token == step.token && s.clock < s.db.proposals[step.id].challenge.value.expiresAt)
    ensures step.DoClaim? ==> (Next(s, step) != s <==> OwnedBy(s, step.id, step.user) && s.db.proposals[step.id].status == Consumed)
    ensures step.DoAdvance? ==>
              (Next(s, step) != s <==>
                 step.advance.operationId in s.db.operations && OwnedBy(s, s.db.operations[step.advance.operationId].proposalId, step.user))
  {
    if Next(s, step) == s { assert Next(s, step).nextCall == s.nextCall; }
  }

  /** A request goes on exactly when its key is new, and is inserted exactly when the evidence stands and identifier, key and name are still new. */
  lemma CreatesExactly(s: State, step: Step)
    ensures step.DoCreate? ==> (Next(s, step) != s <==> forall p :: p in s.db.proposals ==> s.db.proposals[p].requestKey != step.draft.requestKey)
    ensures step.DoCreateEnd? && Enabled(s, step) && step.id !in s.db.proposals ==>
              (step.id in Next(s, step).db.proposals
               <==> step.evidence && var draft := s.calls[step.call].draft;
                    forall p :: p in s.db.proposals ==>
                      s.db.proposals[p].requestKey != draft.requestKey && Lower(s.db.proposals[p].projectName) != Lower(draft.projectName))
  {
  }

  /** A lease is given out exactly when the evidence stands, no lease of any operation is current, and the operation can be started or retried. */
  lemma ClaimsExactly(s: State, step: Step)
    requires Enabled(s, step) && step.DoClaimLease?
    ensures var c := s.calls[step.call];
            step.token in Next(s, step).issued
            <==> && step.evidence && step.id in s.db.operations && s.db.operations[step.id].proposalId == c.proposal.id
                 && (forall p :: p in s.db.operations && s.db.operations[p].lease.Some? ==> s.db.operations[p].lease.value.expiresAt <= s.clock)
                 && match s.db.operations[step.id].phase
                    case Completed => false
                    case ReconcileRequired => false
                    case FailedRetryable => s.db.operations[step.id].resumePhase.Some? && s.db.operations[step.id].resumePhase != Some(Completed)
                    case _ => true
  {
    forall p | p in s.db.operations ensures Leased(s.db.operations[p], s.clock) <==> s.db.operations[p].lease.Some? && s.clock < s.db.operations[p].lease.value.expiresAt {}
  }

  /** A confirmation that goes on is committed unless the evidence, the proposal, its challenge or the key has changed meanwhile. */
  lemma {:induction false} ConfirmsExactly(steps: seq<Step>, step: Step)
    requires Enabled(Run(Empty, steps), step) && step.DoConfirmEnd? && step.id !in Run(Empty, steps).db.operations
    ensures var s := Run(Empty, steps);
            var c := s.calls[step.call];
            step.id in Next(s, step).db.operations
            <==> ConfirmsFor(s, step, c.initial.id, step.id, c.key) && !ConfirmKeyTaken(s.db, c.key)
  {
    hide Run, LeasesIssued, SingleLease, RowsOk, GrantedOnce, UniqueProposals, CallsOk, ConfirmKeyTaken;
    RunSound(steps);
  }

  /** The holder of the current lease asks for a phase that may follow, with what it needs. */
  predicate MayAdvance(s: State, step: Step)
    requires Enabled(s, step) && step.DoAdvanceEnd?
  {
    var c := s.calls[step.call];
    var read, a := c.row, c.advance;
    && step.evidence
    && a.operationId in s.db.operations
    && s.db.operations[a.operationId].lease.Some? && s.db.operations[a.operationId].lease.value.token == a.token
    && read.lease.Some? && read.lease.value.token == a.token && s.clock < read.lease.value.expiresAt
    && MayFollow(read.phase, a.next)
    && (a.failureClass.Some? && a.failureClass.value != "" ==> ValidFailureClass(a.failureClass.value))
    && (a.next != ThreadStarted ==> a.evidence.None?)
    && (a.next == ThreadStarted ==> a.evidence.Some? && ValidEvidence(a.evidence.value, ProjectRoot(c.proposal.projectName)))
    && (a.next == Completed ==> StoredEvidence(read.evidence) && !ThreadGranted(s.db.grants, read.evidence.value.managedThreadId))
  }

  lemma MayAdvanceExactly(s: State, step: Step)
    requires Sound(s) && Enabled(s, step) && step.DoAdvanceEnd?
    ensures var c := s.calls[step.call];
            MayAdvance(s, step) <==> step.evidence && Commits(s.db, c.row, c.proposal.projectName, c.advance, s.clock)
  {
    hide SingleLease, RowsOk, UniqueProposals, ConsumedOnce, LeasesIssued, ValidFailureClass, ValidEvidence, StoredEvidence, ThreadGranted;
    CallIsOk(s, step.call);
    if s.calls[step.call].advance.operationId in s.db.operations && s.db.operations[s.calls[step.call].advance.operationId].lease.Some? {
      NotCompleted(s, s.calls[step.call].advance.operationId);
    }
  }

  lemma CommittedRow(s: State, step: Step)
    requires Sound(s) && Enabled(s, step) && step.DoAdvanceEnd? && MayAdvance(s, step)
    requires var c := s.calls[step.call]; Commits(s.db, c.row, c.proposal.projectName, c.advance, s.clock)
    ensures var s', a := Next(s, step), s.calls[step.call].advance;
            && a.operationId in s'.db.operations && AdvancesRow(s, step, s.db.operations[a.operationId], s'.db.operations[a.operationId])
            && (a.next == Completed <==> a.operationId in s'.db.grants)
  {
    hide SingleLease, RowsOk, UniqueProposals, ConsumedOnce, ValidFailureClass, ValidEvidence, StoredEvidence, ThreadGranted, Commits;
    CallIsOk(s, step.call);
    var o := s.calls[step.call].advance.operationId;
    NotCompleted(s, o);
    assert LeaseIssued(s.db.operations[o], s.issued);
  }

  /** An advance is committed exactly then; a completed operation has its grant. */
  lemma {:induction false} AdvancesExactly(steps: seq<Step>, step: Step)
    requires Enabled(Run(Empty, steps), step) && step.DoAdvanceEnd?
    ensures var s, s' := Run(Empty, steps), Next(Run(Empty, steps), step);
            var a := s.calls[step.call].advance;
            if MayAdvance(s, step)
            then && a.operationId in s'.db.operations && AdvancesRow(s, step, s.db.operations[a.operationId], s'.db.operations[a.operationId])
                 && (a.next == Completed <==> a.operationId in s'.db.grants)
            else s'.db == s.db
  {
    hide Run, Sound, Commits, AdvancesRow;
    RunSound(steps);
    var s := Run(Empty, steps);
    MayAdvanceExactly(s, step);
    if MayAdvance(s, step) { CommittedRow(s, step); }
  }

  // ---- grants --------------------------------------------------------------------------------------

  /** Some step has revoked the grant of the operation. */
  ghost predicate GrantRevokedIn(steps: seq<Step>, o: Id) {
    exists k :: 0 <= k < |steps| && steps[k] == DoRevokeGrant(o) && o in Run(Empty, steps[..k]).db.grants
  }

  lemma {:induction false} GrantRevokedNext(steps: seq<Step>, o: Id)
    requires steps != []
    ensures var init := steps[..|steps| - 1];
            GrantRevokedIn(steps, o) <==> GrantRevokedIn(init, o) || (steps[|steps| - 1] == DoRevokeGrant(o) && o in Run(Empty, init).db.grants)
  {
    hide Run;
    var init := steps[..|steps| - 1];
    forall k | 0 <= k < |init| ensures init[k] == steps[k] && init[..k] == steps[..k] {}
    if GrantRevokedIn(init, o) {
      var k :| 0 <= k < |init| && init[k] == DoRevokeGrant(o) && o in Run(Empty, init[..k]).db.grants;
      assert steps[k] == DoRevokeGrant(o);
    }
  }

  /** A step grants, revokes, or leaves the grant of an operation as it is. */
  lemma GrantStep(s: State, step: Step, o: Id)
    requires Sound(s)
    ensures var grants, grants' := s.db.grants, Next(s, step).db.grants;
            if o in grants then o in grants' && grants'[o] == (if step == DoRevokeGrant(o) then grants[o].(active := false) else grants[o])
            else o in grants' ==> grants'[o].active
  {
    hide Sound, AdvanceEnd;
    if step.DoAdvanceEnd? {
      if Enabled(s, step) { AdvanceGrants(s, step.call, step.evidence, o); }
    } else if !step.DoRevokeGrant? {
      OthersKeepGrants(s, step);
    }
  }

  lemma OthersKeepGrants(s: State, step: Step)
    requires !step.DoAdvanceEnd? && !step.DoRevokeGrant?
    ensures Next(s, step).db.grants == s.db.grants
  {
    hide Accepts, Confirmable, Insertable, Claimable, ClaimedRow, Answers, Holds;
  }

  lemma AdvanceGrants(s: State, call: nat, evidence: bool, o: Id)
    requires Sound(s) && call in s.calls && s.calls[call].AdvanceCall?
    ensures var grants, grants' := s.db.grants, AdvanceEnd(s, call, evidence).db.grants;
            if o in grants then o in grants' && grants'[o] == grants[o] else o in grants' ==> grants'[o].active
  {
    hide SingleLease, RowsOk, UniqueProposals, ConsumedOnce, LeasesIssued, Accepts, AdvancedRow, Holds, ThreadGranted;
  }

  /** In every run the grant of an operation is active exactly while no step has revoked it. */
  lemma {:induction false} ActiveUntilRevoked(steps: seq<Step>, o: Id)
    requires o in Run(Empty, steps).db.grants
    ensures Run(Empty, steps).db.grants[o].active <==> !GrantRevokedIn(steps, o)
    decreases |steps|
  {
    hide Sound, Next;
    var init, last := steps[..|steps| - 1], steps[|steps| - 1];
    RunSound(init);
    GrantStep(Run(Empty, init), last, o);
    GrantRevokedNext(steps, o);
    if o in Run(Empty, init).db.grants { ActiveUntilRevoked(init, o); } else { NeverGranted(init, o); }
  }

  lemma {:induction false} NeverGranted(steps: seq<Step>, o: Id)
    requires o !in Run(Empty, steps).db.grants
    ensures !GrantRevokedIn(steps, o)
    decreases |steps|
  {
    hide Sound, Next;
    if steps != [] {
      var init, last := steps[..|steps| - 1], steps[|steps| - 1];
      RunSound(init);
      GrantStep(Run(Empty, init), last, o);
      GrantRevokedNext(steps, o);
      NeverGranted(init, o);
    }
  }
}
