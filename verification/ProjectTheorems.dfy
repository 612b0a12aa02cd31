/**
 The promises of project creation, over every run of the broker.
 */
module ProjectTheorems {
  import opened Options
  import opened Ascii
  import opened ProjectTypes
  import opened ProjectSteps
  import opened ProjectSafety

  // ---- one operation, one grant ------------------------------------------------------------

  /** At every moment at most one operation of the whole table has an unexpired lease. */
  lemma {:induction false} OneActiveLease(steps: seq<Step>, a: Id, b: Id)
    requires var s := Run(Empty, steps);
             a in s.db.operations && b in s.db.operations && Leased(s.db.operations[a], s.clock) && Leased(s.db.operations[b], s.clock)
    ensures a == b
  {
    hide DbOk, CallsOk, LeasesIssued;
    RunSound(steps);
  }

  /** A proposal is consumed exactly when it has exactly one operation. */
  lemma {:induction false} ConsumedExactlyOnce(steps: seq<Step>, p: Id)
    requires p in Run(Empty, steps).db.proposals
    ensures var db := Run(Empty, steps).db;
            && (db.proposals[p].status == Consumed <==> HasOperation(db.operations, p))
            && (forall a, b :: a in db.operations && b in db.operations && db.operations[a].proposalId == p && db.operations[b].proposalId == p ==> a == b)
  {
    hide RowsOk, GrantedOnce, UniqueProposals, CallsOk;
    RunSound(steps);
  }

  /** An operation is completed exactly when it has a grant, which carries the evidence of its own root. */
  lemma {:induction false} CompletedExactlyGranted(steps: seq<Step>, o: Id)
    requires o in Run(Empty, steps).db.operations
    ensures var db := Run(Empty, steps).db;
            && (db.operations[o].phase == Completed <==> o in db.grants)
            && (o in db.grants ==>
                  && db.operations[o].proposalId in db.proposals
                  && var proposal := db.proposals[db.operations[o].proposalId];
                  && db.operations[o].evidence == Some(db.grants[o].evidence)
                  && db.grants[o].userId == proposal.userId
                  && db.grants[o].evidence.workspaceRoot == ProjectRoot(proposal.projectName)
                  && proposal.status == Consumed)
  {
    hide UniqueProposals, CallsOk, LeasesIssued, SingleLease;
    RunSound(steps);
    var db := Run(Empty, steps).db;
    if o in db.grants {
      GrantBelongs(db, o);
    }
  }

  lemma GrantBelongs(db: Db, g: Id)
    requires DbOk(db) && g in db.grants
    ensures g in db.operations && db.operations[g].proposalId in db.proposals && GrantOk(db, g)
    ensures db.operations[g].phase == Completed
    ensures db.proposals[db.operations[g].proposalId].status == Consumed
    ensures db.grants[g].evidence.workspaceRoot == ProjectRoot(db.proposals[db.operations[g].proposalId].projectName)
  {
    hide UniqueProposals;
    var p := db.operations[g].proposalId;
    assert HasOperation(db.operations, p);
    assert RowOk(db.operations[g], db.proposals[p].projectName);
  }

  /** What a lookup finds is the one active grant with that evidence, and every such grant is found. */
  lemma {:induction false} ResolvesActiveGrants(steps: seq<Step>, o: Id, user: Id, e: Evidence)
    ensures var db := Run(Empty, steps).db;
            && (Resolves(db, o, user, e)
                <==> o in db.grants && db.grants[o] == Grant(o, user, e, true))
            && (forall other :: Resolves(db, o, user, e) && Resolves(db, other, user, e) ==> o == other)
  {
    hide RowsOk, ConsumedOnce, UniqueProposals, CallsOk, LeasesIssued, SingleLease;
    RunSound(steps);
    var db := Run(Empty, steps).db;
    if o in db.grants { GrantBelongs(db, o); }
  }

  /** Project names differ in more than case, and request keys and confirmation keys are never shared. */
  lemma {:induction false} ProposalsAreUnique(steps: seq<Step>, a: Id, b: Id)
    requires var proposals := Run(Empty, steps).db.proposals;
             a in proposals && b in proposals && a != b
    ensures var proposals := Run(Empty, steps).db.proposals;
            && Lower(proposals[a].projectName) != Lower(proposals[b].projectName)
            && proposals[a].requestKey != proposals[b].requestKey
            && (proposals[a].confirmKey.Some? ==> proposals[a].confirmKey != proposals[b].confirmKey)
  {
    hide RowsOk, ConsumedOnce, GrantedOnce, CallsOk, LeasesIssued, SingleLease, Lower;
    RunSound(steps);
  }

  // ---- fencing -----------------------------------------------------------------------------

  /** A token that was issued and that no row carries any more. */
  ghost predicate Superseded(s: State, token: nat) {
    token in s.issued && forall o :: o in s.db.operations ==> !Holds(s.db.operations, o, token)
  }

  /** Claiming an operation supersedes the token it was leased under before. */
  lemma TakeoverSupersedes(s: State, call: nat, o: Id, fenced: nat, token: nat)
    requires Sound(s) && Enabled(s, DoClaimLease(call, true, o, token))
    requires Holds(s.db.operations, o, fenced) && Claimable(s.db, o, s.calls[call].proposal.id, s.clock)
    ensures Superseded(Next(s, DoClaimLease(call, true, o, token)), fenced)
  {
    hide DbOk, CallsOk, SingleLease;
    assert LeaseIssued(s.db.operations[o], s.issued);
    forall p | p in s.db.operations ensures LeaseIssued(s.db.operations[p], s.issued) && s.db.operations[p].id == p {
      RowKeyed(s, p);
    }
  }

  lemma RowKeyed(s: State, o: Id)
    requires Sound(s) && o in s.db.operations
    ensures s.db.operations[o].id == o
  {
  }

  /** An advance with a superseded token changes no row, whatever it had read before. */
  lemma SupersededChangesNothing(s: State, call: nat, evidence: bool)
    requires Enabled(s, DoAdvanceEnd(call, evidence)) && Superseded(s, s.calls[call].advance.token)
    ensures Next(s, DoAdvanceEnd(call, evidence)).db == s.db
  {
    hide Accepts;
  }

  lemma SupersededStays(s: State, step: Step, token: nat)
    requires Sound(s) && Superseded(s, token)
    ensures Superseded(Next(s, step), token)
  {
    hide DbOk, SingleLease, Accepts, ThreadGranted, Claimable;
    if Enabled(s, step) && step.DoAdvanceEnd? {
      var c := s.calls[step.call];
      assert CallOk(c, s.db, s.issued);
      if Commits(s.db, c.row, c.proposal.projectName, c.advance, s.clock) {
        AcceptedToken(c.row, c.proposal.projectName, c.advance, s.clock);
      }
    }
  }

  /** Once lost, a token never changes anything again. */
  lemma {:induction false} LostTokenIsFenced(steps: seq<Step>, more: seq<Step>, token: nat, call: nat, evidence: bool)
    requires Superseded(Run(Empty, steps), token)
    requires var s := Run(Run(Empty, steps), more);
             Enabled(s, DoAdvanceEnd(call, evidence)) && s.calls[call].advance.token == token
    ensures var s := Run(Run(Empty, steps), more);
            Next(s, DoAdvanceEnd(call, evidence)).db == s.db
  {
    RunSound(steps);
    StaysOverRun(Run(Empty, steps), more, token);
    SupersededChangesNothing(Run(Run(Empty, steps), more), call, evidence);
  }

  lemma {:induction false} StaysOverRun(s: State, steps: seq<Step>, token: nat)
    requires Sound(s) && Superseded(s, token)
    ensures Sound(Run(s, steps)) && Superseded(Run(s, steps), token)
    decreases |steps|
  {
    hide Sound, Superseded, Next;
    if steps != [] {
      StaysOverRun(s, steps[..|steps| - 1], token);
      var last := Run(s, steps[..|steps| - 1]);
      StepKeeps(last, steps[|steps| - 1]);
      SupersededStays(last, steps[|steps| - 1], token);
    }
  }

  // ---- the phase never moves back ----------------------------------------------------------

  predicate SameToken(c: Call, token: nat) {
    c.AdvanceCall? && c.advance.token == token
  }

  predicate TokenInUse(s: State, token: nat) {
    exists c :: c in s.calls && SameToken(s.calls[c], token)
  }

  /** Each holder advances one call at a time. */
  ghost predicate SerialRun(s: State, steps: seq<Step>) {
    steps == [] ||
    (&& SerialRun(s, steps[..|steps| - 1])
     && (steps[|steps| - 1].DoAdvance? ==> !TokenInUse(Run(s, steps[..|steps| - 1]), steps[|steps| - 1].advance.token)))
  }

  ghost predicate OneAdvanceEach(calls: map<nat, Call>) {
    forall c, d :: c in calls && d in calls && c != d && calls[c].AdvanceCall? && calls[d].AdvanceCall?
      ==> calls[c].advance.token != calls[d].advance.token
  }

  /** While the row still carries the caller's lease it is the row the call has read. */
  predicate Fresh(c: Call, operations: map<Id, Operation>) {
    c.AdvanceCall? && c.row.lease.Some? && c.row.lease.value.token == c.advance.token
      && Holds(operations, c.row.id, c.advance.token)
    ==> operations[c.row.id] == c.row
  }

  ghost predicate AllFresh(calls: map<nat, Call>, operations: map<Id, Operation>) {
    forall c :: c in calls ==> Fresh(calls[c], operations)
  }

  ghost predicate Orderly(s: State) {
    Sound(s) && OneAdvanceEach(s.calls) && AllFresh(s.calls, s.db.operations)
  }

  predicate NotBack(o: Operation, o': Operation) {
    Rank(EffectivePhase(o)) <= Rank(EffectivePhase(o'))
  }

  ghost predicate Forward(operations: map<Id, Operation>, operations': map<Id, Operation>) {
    forall o :: o in operations ==> o in operations' && NotBack(operations[o], operations'[o])
  }

  lemma AdvanceOrderly(s: State, call: nat, evidence: bool)
    requires Orderly(s) && Enabled(s, DoAdvanceEnd(call, evidence))
    ensures var s' := Next(s, DoAdvanceEnd(call, evidence));
            && OneAdvanceEach(s'.calls) && AllFresh(s'.calls, s'.db.operations)
            && Forward(s.db.operations, s'.db.operations)
  {
    hide Sound, ThreadGranted, StoredEvidence, ValidEvidence, ValidFailureClass;
    var c := s.calls[call];
    assert Fresh(c, s.db.operations);
    if evidence && Commits(s.db, c.row, c.proposal.projectName, c.advance, s.clock) {
      LeasedIsWorking(s, c.row.id);
    }
  }

  lemma LeasedIsWorking(s: State, o: Id)
    requires Sound(s) && o in s.db.operations && s.db.operations[o].lease.Some?
    ensures Working(s.db.operations[o].phase)
  {
    hide ValidEvidence;
  }

  lemma ClaimOrderly(s: State, step: Step)
    requires Orderly(s) && step.DoClaimLease? && Enabled(s, step)
    ensures var s' := Next(s, step);
            && OneAdvanceEach(s'.calls) && AllFresh(s'.calls, s'.db.operations)
            && Forward(s.db.operations, s'.db.operations)
  {
    hide DbOk, SingleLease, LeasesIssued;
    forall c | c in s.calls ensures CallOk(s.calls[c], s.db, s.issued) && Fresh(s.calls[c], s.db.operations) {}
    if step.id in s.db.operations && StartPhase(s.db.operations[step.id]).Some? { RetryIsWorking(s, step.id); }
  }

  lemma RetryIsWorking(s: State, o: Id)
    requires Sound(s) && o in s.db.operations && StartPhase(s.db.operations[o]).Some?
    ensures StartPhase(s.db.operations[o]).value == EffectivePhase(s.db.operations[o])
    ensures Working(EffectivePhase(s.db.operations[o])) || s.db.operations[o].phase == StartPhase(s.db.operations[o]).value
  {
    hide ValidEvidence;
  }

  lemma BeginOrderly(s: State, user: Id, advance: Advance)
    requires Orderly(s) && !TokenInUse(s, advance.token)
    ensures var s' := AdvanceBegin(s, user, advance);
            OneAdvanceEach(s'.calls) && AllFresh(s'.calls, s'.db.operations)
  {
    hide DbOk, SingleLease, LeasesIssued, CallsOk;
    forall c | c in s.calls ensures !SameToken(s.calls[c], advance.token) {}
    if advance.operationId in s.db.operations { RowKeyed(s, advance.operationId); }
  }

  lemma ConfirmOrderly(s: State, call: nat, evidence: bool, id: Id)
    requires Orderly(s) && Enabled(s, DoConfirmEnd(call, evidence, id))
    ensures var s' := ConfirmEnd(s, call, evidence, id);
            && OneAdvanceEach(s'.calls) && AllFresh(s'.calls, s'.db.operations)
            && Forward(s.db.operations, s'.db.operations)
  {
    hide DbOk, SingleLease, LeasesIssued, HasOperation, ConfirmKeyTaken;
    forall c | c in s.calls ensures CallOk(s.calls[c], s.db, s.issued) && Fresh(s.calls[c], s.db.operations) {}
  }

  lemma ReleaseOrderly(s: State, call: nat, evidence: bool)
    requires Orderly(s) && Enabled(s, DoClaimEnd(call, evidence))
    ensures var s' := ClaimEnd(s, call, evidence);
            && OneAdvanceEach(s'.calls) && AllFresh(s'.calls, s'.db.operations)
            && Forward(s.db.operations, s'.db.operations)
  {
    hide DbOk, SingleLease, LeasesIssued, CallsOk;
  }

  /** The other steps leave the operations alone and make no advance. */
  lemma OtherOrderly(s: State, step: Step)
    requires Orderly(s) && Enabled(s, step)
    requires !step.DoAdvanceEnd? && !step.DoClaimLease? && !step.DoAdvance? && !step.DoConfirmEnd? && !step.DoClaimEnd?
    ensures var s' := Next(s, step);
            && OneAdvanceEach(s'.calls) && AllFresh(s'.calls, s'.db.operations)
            && s'.db.operations == s.db.operations
  {
    hide DbOk, SingleLease, LeasesIssued, Insertable, Answers, CallsOk, Holds, Fresh, Sound;
    var s' := Next(s, step);
    assert s'.db.operations == s.db.operations;
    forall c | c in s'.calls ensures Fresh(s'.calls[c], s'.db.operations) {
      if !s'.calls[c].AdvanceCall? {
        NotAnAdvance(s'.calls[c], s'.db.operations);
      } else {
        assert c in s.calls && s'.calls[c] == s.calls[c];
      }
    }
  }

  lemma NotAnAdvance(c: Call, operations: map<Id, Operation>)
    requires !c.AdvanceCall?
    ensures Fresh(c, operations)
  {
  }

  lemma StepOrderly(s: State, step: Step)
    requires Orderly(s) && (step.DoAdvance? ==> !TokenInUse(s, step.advance.token))
    ensures Orderly(Next(s, step)) && Forward(s.db.operations, Next(s, step).db.operations)
  {
    hide Sound, OneAdvanceEach, AllFresh, Forward, TokenInUse;
    StepKeeps(s, step);
    if !Enabled(s, step) {
      ForwardRefl(s.db.operations);
    } else if step.DoAdvanceEnd? {
      AdvanceOrderly(s, step.call, step.evidence);
    } else if step.DoClaimLease? {
      ClaimOrderly(s, step);
    } else if step.DoAdvance? {
      BeginOrderly(s, step.user, step.advance);
      ForwardRefl(s.db.operations);
    } else if step.DoConfirmEnd? {
      ConfirmOrderly(s, step.call, step.evidence, step.id);
    } else if step.DoClaimEnd? {
      ReleaseOrderly(s, step.call, step.evidence);
    } else {
      ForwardRefl(s.db.operations);
      OtherOrderly(s, step);
    }
  }

  lemma ForwardRefl(operations: map<Id, Operation>)
    ensures Forward(operations, operations)
  {
  }

  lemma {:induction false} RunOrderly(s: State, steps: seq<Step>)
    requires Orderly(s) && SerialRun(s, steps)
    ensures Orderly(Run(s, steps)) && Forward(s.db.operations, Run(s, steps).db.operations)
    decreases |steps|
  {
    hide Orderly, Next, TokenInUse;
    if steps != [] {
      RunOrderly(s, steps[..|steps| - 1]);
      StepOrderly(Run(s, steps[..|steps| - 1]), steps[|steps| - 1]);
    }
  }

  lemma EmptyOrderly()
    ensures Orderly(Empty)
  {
    RunSound([]);
  }

  /** When every holder advances one call at a time, the effective phase of an operation never moves back. */
  lemma {:induction false} PhaseNeverMovesBack(steps: seq<Step>, more: seq<Step>, o: Id)
    requires SerialRun(Empty, steps) && SerialRun(Run(Empty, steps), more)
    requires o in Run(Empty, steps).db.operations
    ensures var before, after := Run(Empty, steps).db.operations, Run(Run(Empty, steps), more).db.operations;
            o in after && Rank(EffectivePhase(before[o])) <= Rank(EffectivePhase(after[o]))
  {
    hide Orderly;
    EmptyOrderly();
    RunOrderly(Empty, steps);
    RunOrderly(Run(Empty, steps), more);
  }

  /** Without that, a step moves an operation back exactly when it commits a check made on a row that has moved on. */
  lemma MovesBackExactly(s: State, call: nat, evidence: bool)
    requires Sound(s) && Enabled(s, DoAdvanceEnd(call, evidence))
    ensures var c, s' := s.calls[call], Next(s, DoAdvanceEnd(call, evidence));
            (c.row.id in s.db.operations && !NotBack(s.db.operations[c.row.id], s'.db.operations[c.row.id]))
            <==> (&& evidence && Commits(s.db, c.row, c.proposal.projectName, c.advance, s.clock)
                  && c.advance.next != ReconcileRequired
                  && Rank(s.db.operations[c.row.id].phase) > Rank(c.row.phase) + (if c.advance.next == FailedRetryable then 0 else 1))
  {
    hide DbOk, LeasesIssued, SingleLease, ThreadGranted, StoredEvidence, ValidEvidence, ValidFailureClass;
    var c := s.calls[call];
    assert CallOk(c, s.db, s.issued);
    if Commits(s.db, c.row, c.proposal.projectName, c.advance, s.clock) {
      LeasedIsWorking(s, c.row.id);
    }
  }

  // ---- finished operations -----------------------------------------------------------------

  predicate Finished(o: Operation) {
    o.phase == Completed || o.phase == ReconcileRequired
  }

  /** A completed operation, or one that needs reconciliation, is never leased and never changes again. */
  lemma FinishedStays(s: State, step: Step, o: Id)
    requires Sound(s) && o in s.db.operations && Finished(s.db.operations[o])
    ensures var s' := Next(s, step);
            o in s'.db.operations && s'.db.operations[o] == s.db.operations[o] && s'.db.operations[o].lease == None
  {
    hide Sound, Accepts, ThreadGranted, Insertable, Answers, HasOperation, WorkerBusy, ConfirmKeyTaken;
    FinishedIsUnleased(s, o);
    if Enabled(s, step) && step.DoAdvanceEnd? {
      CallIsOk(s, step.call);
    }
  }

  lemma FinishedIsUnleased(s: State, o: Id)
    requires Sound(s) && o in s.db.operations && Finished(s.db.operations[o])
    ensures s.db.operations[o].lease == None
  {
    hide ValidEvidence;
  }

  lemma CallIsOk(s: State, call: nat)
    requires Sound(s) && call in s.calls
    ensures CallOk(s.calls[call], s.db, s.issued)
  {
  }

  lemma {:induction false} FinishedForever(s: State, steps: seq<Step>, o: Id)
    requires Sound(s) && o in s.db.operations && Finished(s.db.operations[o])
    ensures var s' := Run(s, steps);
            Sound(s') && o in s'.db.operations && s'.db.operations[o] == s.db.operations[o] && s'.db.operations[o].lease == None
    decreases |steps|
  {
    hide Sound, Next;
    if steps == [] {
      FinishedIsUnleased(s, o);
    } else {
      var init := steps[..|steps| - 1];
      FinishedForever(s, init, o);
      StepKeeps(Run(s, init), steps[|steps| - 1]);
      FinishedStays(Run(s, init), steps[|steps| - 1], o);
    }
  }
}
