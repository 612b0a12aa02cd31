/**
 One blocking wait per session, the session projection, and the dispatch evidence.

 These hold as long as no late answer revives a closed wait beside a newer one and no session is
 reopened over a revived wait; `Unsafe` names exactly the steps that break them.
 */
module ApprovalCoherence {
  import opened Options
  import opened ApprovalTypes
  import opened ApprovalProjection
  import opened ApprovalSteps
  import opened ApprovalSafety

  // ---- the invariant -----------------------------------------------------------------------

  ghost predicate OneBlocking(records: map<Id, Wait>) {
    forall a, b :: a in records && b in records && records[a].sessionId == records[b].sessionId
                   && Blocking(records[a].state) && Blocking(records[b].state)
      ==> a == b
  }

  /** Every session shows the projection of its waits. */
  ghost predicate Shown(m: Snapshot) {
    forall sid :: sid in m.sessions ==> m.sessions[sid] == Project(m.order, m.records, sid, m.sessions[sid])
  }

  /** The continuation id is the digest of the wait's current scope and decision version. */
  predicate Named(w: Wait) {
    w.continuationId == if w.successorOf.Some?
                        then Successor(w.id, w.sessionId, w.approvalRef, w.decisionVersion)
                        else Plain(w.sessionId, w.approvalRef, w.decisionVersion)
  }

  /** Where a wait can be once it has been closed: closed, or revived by a late answer. */
  predicate AfterClose(state: WaitState) {
    state == SessionClosed || state == ResumeReconciliationRequired || state == SecurityFailure
  }

  predicate Succeeds(records: map<Id, Wait>, w: Wait) {
    w.successorOf.Some? ==>
      && OpaqueToken(w.successorOf.value, MAX_WAIT_ID_LENGTH)
      && w.successorOf.value in records && w.successorOf.value != w.id
      && SameScope(records[w.successorOf.value], w)
      && AfterClose(records[w.successorOf.value].state)
      && (Blocking(w.state) ==> records[w.successorOf.value].state == SessionClosed)
  }

  predicate CanonicalWait(w: Wait, sessions: map<Id, Session>) {
    && OpaqueToken(w.id, MAX_WAIT_ID_LENGTH)
    && FieldsCanonical(w) && Named(w)
    && w.sessionId in sessions && Bound(w, sessions[w.sessionId])
  }

  ghost predicate Canonical(records: map<Id, Wait>, sessions: map<Id, Session>) {
    forall id :: id in records ==> CanonicalWait(records[id], sessions) && Succeeds(records, records[id])
  }

  ghost predicate CallsCoherent(calls: map<nat, Call>, records: map<Id, Wait>) {
    forall c :: c in calls ==> CallCoherent(calls[c], records)
  }

  predicate CallCoherent(c: Call, records: map<Id, Wait>) {
    match c
    case RegisterCall(capability, approvalRef) => RegisterInputValid(capability, approvalRef)
    case ReopenCall(sid, prior) => prior in records && records[prior].sessionId == sid && AfterClose(records[prior].state)
    case _ => true
  }

  ghost predicate CoherentSnapshot(m: Snapshot) {
    OneBlocking(m.records) && Canonical(m.records, m.sessions) && Shown(m)
  }

  ghost predicate Coherent(s: State) {
    && CoherentSnapshot(s.mem)
    && OneBlocking(s.disk.records) && Canonical(s.disk.records, s.disk.sessions)
    && CallsCoherent(s.calls, s.mem.records)
  }

  // ---- projection --------------------------------------------------------------------------

  lemma {:induction false} NewestFrame(order: seq<Id>, records: map<Id, Wait>, records': map<Id, Wait>, sid: Id, closed: bool)
    requires forall id :: id in order ==> (id in records && Selected(records[id], sid, closed)) == (id in records' && Selected(records'[id], sid, closed))
    requires forall id :: id in order && id in records && Selected(records[id], sid, closed) ==> records[id] == records'[id]
    ensures Newest(order, records, sid, closed) == Newest(order, records', sid, closed)
  {
    if order != [] {
      assert order[|order| - 1] in order;
      NewestFrame(order[..|order| - 1], records, records', sid, closed);
    }
  }

  /** With one blocking wait there is nothing to choose. */
  lemma NewestIsTheOne(m: Snapshot, id: Id)
    requires Listed(m) && OneBlocking(m.records) && id in m.records && Blocking(m.records[id].state)
    ensures Newest(m.order, m.records, m.records[id].sessionId, false) == Some(m.records[id])
  {
    var sid := m.records[id].sessionId;
    NewestIsNewest(m.order, m.records, sid, false);
    var r := Newest(m.order, m.records, sid, false);
    var other :| other in m.order && other in m.records && m.records[other] == r.value && Selected(r.value, sid, false);
    assert other == id;
  }

  lemma NothingNewest(m: Snapshot, sid: Id)
    requires !HasActiveWait(m, sid)
    ensures Newest(m.order, m.records, sid, false) == None
  {
    NewestIsNewest(m.order, m.records, sid, false);
  }

  lemma {:induction false} ProjectIdempotent(order: seq<Id>, records: map<Id, Wait>, sid: Id, session: Session)
    ensures var p := Project(order, records, sid, session);
            && Project(order, records, sid, p) == p
            && p.userId == session.userId && p.workspaceId == session.workspaceId
            && p.managedThreadId == session.managedThreadId && p.codexThreadId == session.codexThreadId
            && (p.lifecycle == Closed <==> session.lifecycle == Closed)
  {
  }

  /** Reprojecting one session shows everything, when only waits of that session changed. */
  lemma ReprojectShows(before: Snapshot, m: Snapshot, sid: Id)
    requires Shown(before) && m.order == before.order && before.records.Keys <= m.records.Keys
    requires forall other :: other in m.sessions && other != sid ==> other in before.sessions && m.sessions[other] == before.sessions[other]
    requires forall id :: id in before.records ==> m.records[id].sessionId == before.records[id].sessionId
    requires forall id :: id in before.records && before.records[id].sessionId != sid ==> m.records[id] == before.records[id]
    requires forall id :: id in m.order ==> id in before.records
    ensures Shown(Reproject(m, sid))
  {
    var p := Reproject(m, sid);
    forall other | other in p.sessions ensures p.sessions[other] == Project(p.order, p.records, other, p.sessions[other]) {
      if other == sid {
        ProjectIdempotent(m.order, m.records, sid, m.sessions[sid]);
      } else {
        NewestFrame(m.order, before.records, m.records, other, false);
      }
    }
  }

  // ---- replacing one wait ------------------------------------------------------------------

  predicate Evolves(w: Wait, w': Wait) {
    && w'.id == w.id && w'.sessionId == w.sessionId && SameScope(w, w') && w'.successorOf == w.successorOf
    && FieldsCanonical(w') && Named(w')
  }

  ghost predicate SameBindings(sessions: map<Id, Session>, sessions': map<Id, Session>) {
    && sessions.Keys == sessions'.Keys
    && forall sid :: sid in sessions ==>
         && sessions'[sid].userId == sessions[sid].userId && sessions'[sid].workspaceId == sessions[sid].workspaceId
         && sessions'[sid].managedThreadId == sessions[sid].managedThreadId && sessions'[sid].codexThreadId == sessions[sid].codexThreadId
  }

  lemma BindingsKeepCanonical(records: map<Id, Wait>, sessions: map<Id, Session>, sessions': map<Id, Session>)
    requires Canonical(records, sessions) && SameBindings(sessions, sessions')
    ensures Canonical(records, sessions')
  {
    forall id | id in records ensures CanonicalWait(records[id], sessions') && Succeeds(records, records[id]) {
      assert CanonicalWait(records[id], sessions) && Succeeds(records, records[id]);
    }
  }

  lemma ReprojectBindings(m: Snapshot, sid: Id)
    ensures SameBindings(m.sessions, Reproject(m, sid).sessions)
    ensures Reproject(m, sid).records == m.records && Reproject(m, sid).order == m.order
  {
  }

  /** A closed wait stays closed, and a wait that did not block starts to, only if nothing else of the session blocks. */
  predicate MayBecome(m: Snapshot, w: Wait) {
    && w.id in m.records
    && (AfterClose(m.records[w.id].state) ==> AfterClose(w.state))
    && (m.records[w.id].state == SessionClosed || (Blocking(w.state) && !Blocking(m.records[w.id].state))
        ==> w.state == SessionClosed || !HasActiveWait(m, w.sessionId))
  }

  lemma ReplaceCoherent(m: Snapshot, w: Wait)
    requires OneBlocking(m.records) && Canonical(m.records, m.sessions) && MayBecome(m, w) && Evolves(m.records[w.id], w)
    requires forall id :: id in m.records ==> m.records[id].id == id
    ensures OneBlocking(m.records[w.id := w]) && Canonical(m.records[w.id := w], m.sessions)
  {
    hide CanonicalWait, Succeeds, OneBlocking, HasActiveWait;
    var records := m.records[w.id := w];
    ReplaceOneBlocking(m, w);
    EvolvedIsCanonical(m.records[w.id], w, m.sessions);
    forall id | id in records ensures CanonicalWait(records[id], m.sessions) && Succeeds(records, records[id]) {
      assert CanonicalWait(m.records[id], m.sessions) && Succeeds(m.records, m.records[id]);
      if id != w.id { SuccessorUnaffected(m, w, id); } else { OwnSuccession(m, w); }
    }
  }

  lemma ReplaceOneBlocking(m: Snapshot, w: Wait)
    requires OneBlocking(m.records) && MayBecome(m, w) && m.records[w.id].sessionId == w.sessionId
    ensures OneBlocking(m.records[w.id := w])
  {
    var records := m.records[w.id := w];
    forall a, b | a in records && b in records && records[a].sessionId == records[b].sessionId
                  && Blocking(records[a].state) && Blocking(records[b].state)
      ensures a == b
    {
      if a != b && (a == w.id || b == w.id) {
        var other := if a == w.id then b else a;
        assert BlocksSession(m.records[other], w.sessionId);
      }
    }
  }

  lemma EvolvedIsCanonical(w: Wait, w': Wait, sessions: map<Id, Session>)
    requires CanonicalWait(w, sessions) && Evolves(w, w') && w.id == w'.id
    ensures CanonicalWait(w', sessions)
  {
    hide ValidField, OpaqueToken, Sha256Text;
  }

  lemma OwnSuccession(m: Snapshot, w: Wait)
    requires MayBecome(m, w) && Evolves(m.records[w.id], w) && OneBlocking(m.records)
    requires Canonical(m.records, m.sessions)
    ensures Succeeds(m.records[w.id := w], w)
  {
    assert Succeeds(m.records, m.records[w.id]);
    if w.successorOf.Some? && Blocking(w.state) && !Blocking(m.records[w.id].state) {
      var prior := m.records[w.successorOf.value];
      assert !BlocksSession(prior, w.sessionId);
    }
  }

  lemma SuccessorUnaffected(m: Snapshot, w: Wait, id: Id)
    requires MayBecome(m, w) && Evolves(m.records[w.id], w) && id in m.records && id != w.id
    requires Succeeds(m.records, m.records[id])
    ensures Succeeds(m.records[w.id := w], m.records[id])
  {
    if m.records[id].successorOf == Some(w.id) && Blocking(m.records[id].state) {
      assert BlocksSession(m.records[id], w.sessionId);
    }
  }

  // ---- transitions -------------------------------------------------------------------------

  lemma CallsFollow(calls: map<nat, Call>, records: map<Id, Wait>, records': map<Id, Wait>)
    requires CallsCoherent(calls, records) && records.Keys <= records'.Keys
    requires forall id :: id in records ==> records'[id].sessionId == records[id].sessionId
                                            && (AfterClose(records[id].state) ==> AfterClose(records'[id].state))
    ensures CallsCoherent(calls, records')
  {
    forall c | c in calls ensures CallCoherent(calls[c], records') { assert CallCoherent(calls[c], records); }
  }

  lemma ReplaceAndReproject(before: Snapshot, w: Wait)
    requires Listed(before) && CoherentSnapshot(before) && MayBecome(before, w) && Evolves(before.records[w.id], w)
    ensures CoherentSnapshot(Reproject(before.(records := before.records[w.id := w]), w.sessionId))
  {
    hide OneBlocking, Canonical, Newest, FieldsCanonical, SameScope, Named;
    ReplaceCoherent(before, w);
    var m := before.(records := before.records[w.id := w]);
    ReprojectShows(before, m, w.sessionId);
    ReprojectBindings(m, w.sessionId);
    BindingsKeepCanonical(m.records, m.sessions, Reproject(m, w.sessionId).sessions);
  }

  lemma CommitCoherent(s: State, w: Wait, announce: bool)
    requires Listed(s.mem) && Coherent(s) && MayBecome(s.mem, w) && Evolves(s.mem.records[w.id], w)
    ensures Coherent(Commit(s, w, announce))
  {
    CommittedSnapshot(s, w, announce);
    ReplaceAndReproject(s.mem, w);
    CallsFollow(s.calls, s.mem.records, s.mem.records[w.id := w]);
  }

  lemma CommittedSnapshot(s: State, w: Wait, announce: bool)
    ensures var s' := Commit(s, w, announce);
            && s'.mem == Reproject(s.mem.(records := s.mem.records[w.id := w]), w.sessionId) && s'.disk == s'.mem
            && s'.mem.records == s.mem.records[w.id := w] && s'.calls == s.calls
  {
  }

  lemma TransitionCoherent(s: State, w: Wait, ok: bool, announce: bool)
    requires Listed(s.mem) && Coherent(s) && MayBecome(s.mem, w) && Evolves(s.mem.records[w.id], w)
    ensures Coherent(Transition(s, w, ok, announce))
  {
    if ok { CommitCoherent(s, w, announce); }
  }

  lemma WaitIsCanonical(s: State, id: Id)
    requires Listed(s.mem) && Coherent(s) && id in s.mem.records
    ensures CanonicalWait(s.mem.records[id], s.mem.sessions) && Succeeds(s.mem.records, s.mem.records[id])
    ensures s.mem.records[id].id == id
  {
  }

  /** Between locks nothing of waits and sessions changes. */
  lemma CallsIrrelevant(s: State, s': State)
    requires Coherent(s) && s'.mem == s.mem && s'.disk == s.disk
    requires forall c :: c in s'.calls ==> (c in s.calls && s'.calls[c] == s.calls[c]) || CallCoherent(s'.calls[c], s.mem.records)
    ensures Coherent(s')
  {
    forall c | c in s'.calls ensures CallCoherent(s'.calls[c], s.mem.records) {
      assert c in s.calls ==> CallCoherent(s.calls[c], s.mem.records);
    }
  }

  /** Only the progress of a wait changes, not what it is about. */
  predicate Progresses(w: Wait, w': Wait) {
    && w'.id == w.id && w'.sessionId == w.sessionId && SameScope(w, w') && w'.successorOf == w.successorOf
    && w'.subject == w.subject && w'.decisionVersion == w.decisionVersion && w'.continuationId == w.continuationId
  }

  lemma ProgressEvolves(s: State, w: Wait)
    requires Listed(s.mem) && Coherent(s) && w.id in s.mem.records && Progresses(s.mem.records[w.id], w)
    ensures Evolves(s.mem.records[w.id], w)
  {
    WaitIsCanonical(s, w.id);
    ProgressIsEvolution(s.mem.records[w.id], w);
  }

  lemma ProgressIsEvolution(w: Wait, w': Wait)
    requires FieldsCanonical(w) && Named(w) && Progresses(w, w')
    ensures Evolves(w, w')
  {
  }

  lemma ProgressCoherent(s: State, w: Wait, ok: bool, announce: bool)
    requires Listed(s.mem) && Coherent(s) && MayBecome(s.mem, w) && Progresses(s.mem.records[w.id], w)
    ensures Coherent(Transition(s, w, ok, announce))
  {
    ProgressEvolves(s, w);
    TransitionCoherent(s, w, ok, announce);
  }

  lemma FailCoherent(s: State, id: Id, state: WaitState, now: nat, ok: bool, announce: bool)
    requires Listed(s.mem) && Coherent(s) && id in s.mem.records && AfterClose(state) && Blocking(s.mem.records[id].state)
    ensures Coherent(Transition(s, Fail(s.mem.records[id], state, now), ok, announce))
  {
    hide Coherent, Transition;
    assert s.mem.records[id].id == id;
    ProgressCoherent(s, Fail(s.mem.records[id], state, now), ok, announce);
  }

  lemma BindingLossCoherent(s: State, id: Id, generation: nat, save: Save)
    requires Listed(s.mem) && Coherent(s) && id in s.mem.records && Blocking(s.mem.records[id].state)
    ensures Coherent(BindingLoss(s, id, generation, save))
  {
    if ClosedDuring(s, s.mem.records[id].sessionId, generation) {
      FailCoherent(s, id, SessionClosed, save.at, save.ok, false);
    } else {
      FailCoherent(s, id, SecurityFailure, save.at, save.ok, true);
    }
  }

  lemma SoundIsListed(s: State)
    requires Sound(s)
    ensures Listed(s.mem)
  {
  }

  // ---- dispatch evidence -------------------------------------------------------------------

  /** In a coherent state the evidence of every blocking wait of an open session is canonical. */
  lemma EvidenceHolds(s: State, id: Id)
    requires Listed(s.mem) && Coherent(s) && id in s.mem.records && Blocking(s.mem.records[id].state)
    requires s.mem.records[id].sessionId in s.mem.sessions && s.mem.sessions[s.mem.records[id].sessionId].lifecycle != Closed
    ensures Evidence(s.mem, s.mem.records[id])
    ensures IsCurrent(s, id, s.mem.records[id].sessionId, Generation(s.generation, s.mem.records[id].sessionId), {s.mem.records[id].state}, true)
  {
    var w := s.mem.records[id];
    WaitIsCanonical(s, id);
    NewestIsTheOne(s.mem, id);
    assert s.mem.sessions[w.sessionId] == Project(s.mem.order, s.mem.records, w.sessionId, s.mem.sessions[w.sessionId]);
  }

  /**
   A queued wait of an open session is reserved and handed over, or, when the reservation cannot be
   saved, left exactly as it was: no honest wait fails its dispatch check.
   */
  lemma DispatchNeverFails(s: State, id: Id, fromTick: bool, save: Save, loss: Save)
    requires Sound(s) && Coherent(s) && id in s.mem.records && s.mem.records[id].state == ApprovedResumeQueued
    requires s.mem.records[id].sessionId in s.mem.sessions && s.mem.sessions[s.mem.records[id].sessionId].lifecycle != Closed
    ensures var w := s.mem.records[id];
            var s' := Dispatch(s, id, fromTick, save, loss);
            var s1 := Commit(s, Reserved(w, save.at), true);
            && (!save.ok ==> s' == s)
            && (save.ok ==> s' == HandOver(s1, id, w.sessionId, Generation(s.generation, w.sessionId), fromTick) && Coherent(s1) && Coherent(s'))
  {
    hide Sound, Coherent, Evidence;
    SoundIsListed(s);
    EvidenceHolds(s, id);
    if save.ok {
      ReservedIsGood(s, id, save);
      var w := s.mem.records[id];
      var s1 := Commit(s, Reserved(w, save.at), true);
      HandOverCoherent(s1, id, w.sessionId, Generation(s.generation, w.sessionId), fromTick);
    }
  }

  lemma HandOverCoherent(s: State, id: Id, sid: Id, generation: nat, fromTick: bool)
    requires Coherent(s)
    ensures Coherent(HandOver(s, id, sid, generation, fromTick))
  {
    CallsIrrelevant(s, HandOver(s, id, sid, generation, fromTick));
  }

  lemma ReservedIsGood(s: State, id: Id, save: Save)
    requires Sound(s) && Coherent(s) && id in s.mem.records && s.mem.records[id].state == ApprovedResumeQueued
    requires s.mem.records[id].sessionId in s.mem.sessions && s.mem.sessions[s.mem.records[id].sessionId].lifecycle != Closed
    ensures var s1 := Commit(s, Reserved(s.mem.records[id], save.at), true);
            && Coherent(s1) && Evidence(s1.mem, s1.mem.records[id]) && s1.generation == s.generation
            && IsCurrent(s1, id, s.mem.records[id].sessionId, Generation(s.generation, s.mem.records[id].sessionId), {ResumeDispatching}, true)
  {
    var w := Reserved(s.mem.records[id], save.at);
    ReserveAdmissible(s, id, save.at);
    CommitKeeps(s, w, true);
    ReservedCoherent(s, id, save.at);
    StillOpen(s, w, true);
    EvidenceHolds(Commit(s, w, true), id);
  }

  lemma ReservedCoherent(s: State, id: Id, now: nat)
    requires Listed(s.mem) && Coherent(s) && id in s.mem.records && s.mem.records[id].state == ApprovedResumeQueued
    ensures Coherent(Commit(s, Reserved(s.mem.records[id], now), true))
  {
    hide Canonical, Shown, OneBlocking, Reproject;
    assert s.mem.records[id].id == id;
    ProgressCoherent(s, Reserved(s.mem.records[id], now), true, true);
  }

  lemma StillOpen(s: State, w: Wait, announce: bool)
    requires w.sessionId in s.mem.sessions && s.mem.sessions[w.sessionId].lifecycle != Closed
    ensures var m := Commit(s, w, announce).mem; w.sessionId in m.sessions && m.sessions[w.sessionId].lifecycle != Closed
  {
  }

  // ---- the other steps -----------------------------------------------------------------------

  lemma SameSnapshots(s: State, s': State)
    requires Coherent(s) && s'.mem == s.mem && s'.disk == s.disk
    requires forall c :: c in s'.calls ==> c in s.calls && s'.calls[c] == s.calls[c]
    ensures Coherent(s')
  {
    CallsIrrelevant(s, s');
  }

  lemma RefreshedEvolves(w: Wait, status: Option<Status>, save: Save)
    requires FieldsCanonical(w) && Named(w)
    ensures Evolves(w, RefreshedWait(w, status, save))
  {
    hide ValidField, Sha256Text, NextCheckAt, OpaqueToken;
  }

  predicate OpenSession(m: Snapshot, sid: Id) {
    sid in m.sessions && m.sessions[sid].lifecycle != Closed
  }

  lemma RefreshCommitCoherent(s: State, id: Id, status: Option<Status>, save: Save, announce: bool)
    requires Listed(s.mem) && Coherent(s) && id in s.mem.records && PreDispatch(s.mem.records[id].state)
    ensures Coherent(Transition(s, RefreshedWait(s.mem.records[id], status, save), save.ok, announce))
  {
    WaitIsCanonical(s, id);
    RefreshedEvolves(s.mem.records[id], status, save);
    TransitionCoherent(s, RefreshedWait(s.mem.records[id], status, save), save.ok, announce);
  }

  lemma RefreshedCoherent(s: State, id: Id, status: Option<Status>, save: Save, reserve: Save, loss: Save)
    requires Sound(s) && Coherent(s) && id in s.mem.records && PreDispatch(s.mem.records[id].state)
    requires OpenSession(s.mem, s.mem.records[id].sessionId)
    ensures Coherent(Refreshed(s, id, status, save, reserve, loss))
  {
    var w := s.mem.records[id];
    if status.Some? && Trusted(w, status.value) && status.value.decision == Approved {
      RefreshedApproved(s, id, status, save, reserve, loss, RefreshedWait(w, status, save).state != w.state);
    } else {
      RefreshCommitCoherent(s, id, status, save, RefreshedWait(w, status, save).state != w.state);
    }
  }

  lemma RefreshedApproved(s: State, id: Id, status: Option<Status>, save: Save, reserve: Save, loss: Save, announce: bool)
    requires Sound(s) && Coherent(s) && id in s.mem.records && PreDispatch(s.mem.records[id].state)
    requires OpenSession(s.mem, s.mem.records[id].sessionId)
    requires status.Some? && Trusted(s.mem.records[id], status.value) && status.value.decision == Approved
    ensures var s1 := Learn(s, ApprovalOf(s.mem.records[id], status.value.decisionVersion));
            var w := RefreshedWait(s.mem.records[id], status, save);
            && Coherent(Transition(s1, w, save.ok, announce))
            && (save.ok ==> id in Commit(s1, w, announce).mem.records && Coherent(Dispatch(Commit(s1, w, announce), id, true, reserve, loss)))
  {
    hide Sound, Coherent;
    var s1 := Learn(s, ApprovalOf(s.mem.records[id], status.value.decisionVersion));
    var w := RefreshedWait(s.mem.records[id], status, save);
    LearnCoherent(s, ApprovalOf(s.mem.records[id], status.value.decisionVersion));
    RefreshCommitCoherent(s1, id, status, save, announce);
    if save.ok {
      RefreshAdmissible(s1, id, status, save);
      CommitThenDispatch(s1, w, announce, reserve, loss);
    }
  }

  lemma LearnCoherent(s: State, fact: Fact)
    requires Sound(s) && Coherent(s)
    ensures Sound(Learn(s, fact)) && Coherent(Learn(s, fact)) && fact in Learn(s, fact).history.facts
    ensures Learn(s, fact).mem == s.mem
  {
    LearnKeeps(s, fact);
    SameSnapshots(s, Learn(s, fact));
  }

  lemma CommitThenDispatch(s: State, w: Wait, announce: bool, reserve: Save, loss: Save)
    requires Sound(s) && Admissible(s, w) && Coherent(Commit(s, w, announce)) && w.state == ApprovedResumeQueued
    requires OpenSession(s.mem, w.sessionId)
    ensures Coherent(Dispatch(Commit(s, w, announce), w.id, true, reserve, loss))
  {
    CommitKeeps(s, w, announce);
    StillOpen(s, w, announce);
    DispatchNeverFails(Commit(s, w, announce), w.id, true, reserve, loss);
  }

  lemma CurrentIsOpen(s: State, id: Id, sid: Id, generation: nat)
    requires IsRefreshCurrent(s, id, sid, generation)
    ensures id in s.mem.records && PreDispatch(s.mem.records[id].state) && OpenSession(s.mem, s.mem.records[id].sessionId)
  {
  }

  lemma RefreshReplyCoherent(s: State, call: nat, status: Option<Status>, save: Save, reserve: Save, loss: Save)
    requires Sound(s) && Coherent(s) && call in s.calls && s.calls[call].RefreshCall?
    ensures Coherent(RefreshReply(s, call, status, save, reserve, loss))
  {
    var c := s.calls[call];
    var s0 := ReleaseTick(DropCall(s, call), true);
    RefreshDropped(s, call);
    if IsRefreshCurrent(s0, c.waitId, c.sessionId, c.generation) {
      CurrentIsOpen(s0, c.waitId, c.sessionId, c.generation);
      RefreshedCoherent(s0, c.waitId, status, save, reserve, loss);
    }
  }

  lemma RefreshDropped(s: State, call: nat)
    requires Sound(s) && Coherent(s)
    ensures Sound(ReleaseTick(DropCall(s, call), true)) && Coherent(ReleaseTick(DropCall(s, call), true))
  {
    DropCallKeeps(s, call, true);
    SameSnapshots(s, ReleaseTick(DropCall(s, call), true));
  }

  /** A late answer brings a closed wait back while another wait of the session blocks. */
  predicate RevivesBesideActive(s: State, step: Step) {
    && step.DoDispatchReply? && step.save.ok
    && step.call in s.calls && s.calls[step.call].DispatchCall?
    && var c := s.calls[step.call];
    && c.waitId in s.mem.records && s.mem.records[c.waitId].state == SessionClosed
    && !(ClosedDuring(s, c.sessionId, c.generation) && SettledByClose(ParseResult(step.answer, step.save.at)))
    && HasActiveWait(s.mem, c.sessionId)
  }

  /** A session is opened without a wait although one of its waits blocks. */
  predicate OpensBesideActive(s: State, step: Step) {
    || (&& step.DoReopen? && step.sid in s.mem.sessions && s.mem.sessions[step.sid].lifecycle == Closed
        && Newest(s.mem.order, s.mem.records, step.sid, true) == None
        && HasActiveWait(s.mem, step.sid))
    || (&& step.DoReopenReply? && step.save.ok && step.status.Some?
        && step.call in s.calls && s.calls[step.call].ReopenCall?
        && var c := s.calls[step.call];
        && c.priorId in s.mem.records && Trusted(s.mem.records[c.priorId], step.status.value)
        && NonApproved(step.status.value.decision)
        && c.sessionId in s.mem.sessions && s.mem.sessions[c.sessionId].lifecycle == Closed
        && HasActiveWait(s.mem, c.sessionId))
  }

  predicate Unsafe(s: State, step: Step) {
    RevivesBesideActive(s, step) || OpensBesideActive(s, step)
  }

  lemma AppliedProgresses(w: Wait, result: DispatchResult, now: nat)
    ensures Progresses(w, AppliedWait(w, result, now)) && Progresses(w, LostWait(w, result, now))
  {
  }

  lemma AppliedCoherent(s: State, id: Id, result: DispatchResult, save: Save)
    requires Listed(s.mem) && Coherent(s) && id in s.mem.records && s.mem.records[id].state == ResumeDispatching
    ensures Coherent(ApplyResult(s, id, result, save))
  {
    hide Commit, AppliedWait, Coherent;
    if save.ok {
      var s1 := s.(history := AppliedHistory(s.history, id, result));
      SameSnapshots(s, s1);
      AppliedProgresses(s.mem.records[id], result, save.at);
      ProgressCoherent(s1, AppliedWait(s.mem.records[id], result, save.at), true, true);
    }
  }

  lemma LostCoherent(s: State, id: Id, sid: Id, generation: nat, result: DispatchResult, save: Save)
    requires Listed(s.mem) && Coherent(s) && id in s.mem.records && Unanswered(s.mem.records[id]) && s.mem.records[id].sessionId == sid
    requires s.mem.records[id].state == SessionClosed && save.ok ==>
               (ClosedDuring(s, sid, generation) && SettledByClose(result)) || !HasActiveWait(s.mem, sid)
    ensures Coherent(ApplyWithLoss(s, id, sid, generation, result, save))
  {
    if save.ok && !(ClosedDuring(s, sid, generation) && SettledByClose(result)) {
      LostCommitCoherent(s, id, result, save.at);
    }
  }

  lemma LostCommitCoherent(s: State, id: Id, result: DispatchResult, now: nat)
    requires Listed(s.mem) && Coherent(s) && id in s.mem.records && Unanswered(s.mem.records[id])
    requires s.mem.records[id].state == SessionClosed ==> !HasActiveWait(s.mem, s.mem.records[id].sessionId)
    ensures Coherent(Commit(s, LostWait(s.mem.records[id], result, now), true))
  {
    AppliedProgresses(s.mem.records[id], result, now);
    ProgressCoherent(s, LostWait(s.mem.records[id], result, now), true, true);
  }

  lemma DispatchReplyCoherent(s: State, call: nat, answer: DispatchResult, save: Save)
    requires Sound(s) && Coherent(s) && call in s.calls && s.calls[call].DispatchCall?
    requires !RevivesBesideActive(s, DoDispatchReply(call, answer, save))
    ensures Coherent(DispatchReply(s, call, answer, save))
  {
    hide Sound, Coherent, IsCurrent, ParseResult, ApplyResult, ApplyWithLoss;
    var c := s.calls[call];
    AnsweredCall(s, call);
    SoundIsListed(s);
    SameSnapshots(s, ReleaseTick(DropCall(s, call), c.fromTick));
    AnswerCoherent(ReleaseTick(DropCall(s, call), c.fromTick), c, ParseResult(answer, save.at), save);
  }

  lemma AnswerCoherent(s: State, c: Call, result: DispatchResult, save: Save)
    requires Listed(s.mem) && Coherent(s) && c.DispatchCall? && c.waitId in s.mem.records
    requires Unanswered(s.mem.records[c.waitId]) && s.mem.records[c.waitId].sessionId == c.sessionId
    requires s.mem.records[c.waitId].state == SessionClosed && save.ok ==>
               (ClosedDuring(s, c.sessionId, c.generation) && SettledByClose(result)) || !HasActiveWait(s.mem, c.sessionId)
    ensures if IsCurrent(s, c.waitId, c.sessionId, c.generation, {ResumeDispatching}, true)
            then Coherent(ApplyResult(s, c.waitId, result, save))
            else Coherent(ApplyWithLoss(s, c.waitId, c.sessionId, c.generation, result, save))
  {
    if IsCurrent(s, c.waitId, c.sessionId, c.generation, {ResumeDispatching}, true) {
      AppliedCoherent(s, c.waitId, result, save);
    } else {
      LostCoherent(s, c.waitId, c.sessionId, c.generation, result, save);
    }
  }

  lemma RecoverCoherent(s: State, id: Id, startup: bool, save: Save)
    requires Listed(s.mem) && Coherent(s) && id in s.mem.records
    ensures Coherent(RecoverWait(s, id, startup, save))
  {
    hide Coherent, Evidence, BindingLoss, Transition;
    var w := s.mem.records[id];
    if w.state == ResumeDispatching {
      if !Evidence(s.mem, w) {
        BindingLossCoherent(s, id, Generation(s.generation, w.sessionId), save);
      } else {
        FailCoherent(s, id, ResumeReconciliationRequired, save.at, save.ok, true);
        var s1 := Transition(s, Fail(w, ResumeReconciliationRequired, save.at), save.ok, true);
        if w.runnerRunId.Some? { SameSnapshots(s1, s1.(failures := s.failures - {(w.continuationId, w.runnerRunId.value)})); }
      }
    }
  }

  lemma FailUserRunCoherent(s: State, sid: Id, failure: UserRunFailure, save: Save)
    requires Listed(s.mem) && Coherent(s)
    ensures Coherent(FailUserRun(s, sid, failure, save).0)
  {
    var target := FirstBlocking(s.mem.order, s.mem.records, sid);
    if target.Some? {
      FailCoherent(s, target.value, if failure == FailSecurity then SecurityFailure else ResumeReconciliationRequired, save.at, save.ok, true);
    }
  }

  lemma CompletedProgresses(m: Snapshot, w: Wait, result: Completion, now: nat)
    ensures Progresses(w, CompletedWait(m, w, result, now))
  {
  }

  lemma CompleteTargetCoherent(s: State, id: Id, continuationId: ContinuationId, run: Id, result: Completion, save: Save)
    requires Listed(s.mem) && Coherent(s) && id in s.mem.records && Completable(s.mem.records[id], continuationId, run)
    ensures Coherent(CompleteTarget(s, id, continuationId, run, result, save).0)
  {
    hide Canonical, OneBlocking, Shown, Evidence, Reproject;
    var w := s.mem.records[id];
    var s0 := if result.Succeeded? then Learn(s, SucceededFact(id, run, result.managedThreadId)) else s;
    SameSnapshots(s, s0);
    if save.ok {
      var completed := CompletedWait(s.mem, w, result, save.at);
      CompletedProgresses(s.mem, w, result, save.at);
      ProgressCoherent(s0, completed, true, true);
      SameSnapshots(Commit(s0, completed, true), CompleteTarget(s, id, continuationId, run, result, save).0);
    }
  }

  lemma CompleteCoherent(s: State, continuationId: Option<ContinuationId>, run: Id, result: Completion, save: Save)
    requires Listed(s.mem) && Coherent(s)
    ensures Coherent(CompleteRunner(s, continuationId, run, result, save).0)
  {
    if continuationId.Some? {
      var target := CompletionTarget(s.mem.order, s.mem.records, continuationId.value, run);
      if target.Some? { CompleteTargetCoherent(s, target.value, continuationId.value, run, result, save); }
    }
  }

  // ---- adding a wait -----------------------------------------------------------------------

  lemma {:induction false} NewestAppend(order: seq<Id>, records: map<Id, Wait>, w: Wait, sid: Id, closed: bool)
    requires w.id !in records && w.id !in order && !Selected(w, sid, closed)
    ensures Newest(order + [w.id], records[w.id := w], sid, closed) == Newest(order, records, sid, closed)
  {
    NewestFrame(order, records, records[w.id := w], sid, closed);
    assert (order + [w.id])[..|order|] == order;
  }

  lemma AddShows(before: Snapshot, m: Snapshot, w: Wait)
    requires Listed(before) && Shown(before) && m.order == before.order && m.records == before.records && w.id !in before.records
    requires forall other :: other in m.sessions && other != w.sessionId ==> other in before.sessions && m.sessions[other] == before.sessions[other]
    ensures Shown(Reproject(AddWait(m, w), w.sessionId))
  {
    var added := AddWait(m, w);
    var p := Reproject(added, w.sessionId);
    forall other | other in p.sessions ensures p.sessions[other] == Project(p.order, p.records, other, p.sessions[other]) {
      if other == w.sessionId {
        ProjectIdempotent(added.order, added.records, other, m.sessions[other]);
      } else {
        NewestAppend(m.order, m.records, w, other, false);
      }
    }
  }

  lemma AddCanonical(records: map<Id, Wait>, sessions: map<Id, Session>, w: Wait)
    requires Canonical(records, sessions) && w.id !in records
    requires CanonicalWait(w, sessions) && Succeeds(records, w)
    ensures Canonical(records[w.id := w], sessions)
  {
    var added := records[w.id := w];
    forall id | id in added ensures CanonicalWait(added[id], sessions) && Succeeds(added, added[id]) {
      if id != w.id { assert CanonicalWait(records[id], sessions) && Succeeds(records, records[id]); }
    }
  }

  lemma AddOneBlocking(m: Snapshot, w: Wait)
    requires OneBlocking(m.records) && w.id !in m.records && !HasActiveWait(m, w.sessionId)
    ensures OneBlocking(m.records[w.id := w])
  {
    var added := m.records[w.id := w];
    forall a, b | a in added && b in added && added[a].sessionId == added[b].sessionId && Blocking(added[a].state) && Blocking(added[b].state)
      ensures a == b
    {
      if a != b {
        var other := if a == w.id then b else a;
        assert (a == w.id || b == w.id) ==> BlocksSession(m.records[other], w.sessionId);
      }
    }
  }

  lemma AddCoherent(s: State, m: Snapshot, w: Wait)
    requires Listed(s.mem) && Coherent(s) && w.id !in s.mem.records && !HasActiveWait(s.mem, w.sessionId)
    requires m.order == s.mem.order && m.records == s.mem.records && SameBindings(s.mem.sessions, m.sessions)
    requires forall other :: other in m.sessions && other != w.sessionId ==> other in s.mem.sessions && m.sessions[other] == s.mem.sessions[other]
    requires CanonicalWait(w, m.sessions) && Succeeds(m.records, w)
    ensures Coherent(CommitSnapshot(s, AddWait(m, w), w.sessionId))
    ensures Coherent(Publish(CommitSnapshot(s, AddWait(m, w), w.sessionId), w.id, w.state))
  {
    var added := AddWait(m, w);
    AddShows(s.mem, m, w);
    BindingsKeepCanonical(m.records, s.mem.sessions, m.sessions);
    AddCanonical(m.records, m.sessions, w);
    ReprojectBindings(added, w.sessionId);
    BindingsKeepCanonical(added.records, added.sessions, Reproject(added, w.sessionId).sessions);
    AddOneBlocking(m, w);
    CallsFollow(s.calls, s.mem.records, added.records);
  }

  lemma RegisteredIsCanonical(m: Snapshot, id: Id, c: Capability, approvalRef: Id, status: Status, streamingAuthorized: bool, save: Save)
    requires OpaqueToken(id, MAX_WAIT_ID_LENGTH) && RegisterInputValid(c, approvalRef) && RegisterStatusAccepted(c, approvalRef, status)
    requires c.sessionId in m.sessions && RegistrationAllowed(m.sessions[c.sessionId], c, streamingAuthorized)
    ensures var w := RegisteredWait(id, m.sessions[c.sessionId], c, status, save);
            CanonicalWait(w, m.sessions) && w.successorOf == None && w.sessionId == c.sessionId && w.id == id
  {
  }

  lemma {:induction false} RegisterReplyCoherent(s: State, call: nat, status: Option<Status>, streamingAuthorized: bool, candidates: seq<Option<Id>>, save: Save)
    requires Listed(s.mem) && Coherent(s) && call in s.calls && s.calls[call].RegisterCall?
    ensures Coherent(RegisterReply(s, call, status, streamingAuthorized, candidates, save))
  {
    var c := s.calls[call].capability;
    var s0 := DropCall(s, call);
    SameSnapshots(s, s0);
    var newId := NextWaitId(candidates, 8, s.mem.records);
    assert CallCoherent(s.calls[call], s.mem.records);
    if && status.Some? && RegisterStatusAccepted(c, s.calls[call].approvalRef, status.value)
       && newId.Some? && c.sessionId in s.mem.sessions
       && RegistrationAllowed(s.mem.sessions[c.sessionId], c, streamingAuthorized)
       && !HasActiveWait(s.mem, c.sessionId)
    {
      RegisteredIsCanonical(s.mem, newId.value, c, s.calls[call].approvalRef, status.value, streamingAuthorized, save);
      AddCoherent(s0, s.mem, RegisteredWait(newId.value, s.mem.sessions[c.sessionId], c, status.value, save));
    }
  }

  // ---- close, reopen, restart --------------------------------------------------------------

  lemma RetireCanonical(records: map<Id, Wait>, sessions: map<Id, Session>, sids: set<Id>, now: nat)
    requires Canonical(records, sessions)
    ensures Canonical(Retire(records, sids, now), sessions)
  {
    hide CanonicalWait, Succeeds, Retire;
    var retired := Retire(records, sids, now);
    forall id | id in retired ensures CanonicalWait(retired[id], sessions) && Succeeds(retired, retired[id]) {
      RetireKnown(records, sids, now, id);
      assert CanonicalWait(records[id], sessions) && Succeeds(records, records[id]);
      RetiredIsCanonical(records[id], sessions, now);
      RetiredSucceeds(records, sids, now, id);
    }
  }

  lemma RetireKnown(records: map<Id, Wait>, sids: set<Id>, now: nat, id: Id)
    ensures Retire(records, sids, now).Keys == records.Keys
    ensures id in records ==> Retire(records, sids, now)[id] == records[id] || Retire(records, sids, now)[id] == Fail(records[id], SessionClosed, now)
  {
  }

  lemma RetiredIsCanonical(w: Wait, sessions: map<Id, Session>, now: nat)
    requires CanonicalWait(w, sessions)
    ensures CanonicalWait(Fail(w, SessionClosed, now), sessions)
  {
    hide ValidField, OpaqueToken, Sha256Text;
  }

  lemma RetiredSucceeds(records: map<Id, Wait>, sids: set<Id>, now: nat, id: Id)
    requires id in records && Succeeds(records, records[id])
    ensures Succeeds(Retire(records, sids, now), Retire(records, sids, now)[id])
  {
    hide OpaqueToken;
  }

  lemma RetireOneBlocking(records: map<Id, Wait>, sids: set<Id>, now: nat)
    requires OneBlocking(records)
    ensures OneBlocking(Retire(records, sids, now))
  {
  }

  lemma CloseWaitsCoherent(s: State, sid: Id, save: Save)
    requires Listed(s.mem) && Coherent(s) && sid in s.mem.sessions && save.ok && HasActiveWait(s.mem, sid)
    ensures HasActiveWait(WithLifecycle(s.mem, sid, Closed), sid)
    ensures var closing := s.(mem := WithLifecycle(s.mem, sid, Closed));
            Coherent(CloseSessionWait(closing, sid, save).0)
  {
    hide OneBlocking, Canonical, Shown;
    ClosedSnapshot(s.mem, sid, save.at);
    CallsFollow(s.calls, s.mem.records, Retire(s.mem.records, {sid}, save.at));
  }

  lemma ClosedSnapshot(before: Snapshot, sid: Id, now: nat)
    requires Listed(before) && CoherentSnapshot(before) && sid in before.sessions
    ensures CoherentSnapshot(Reproject(WithLifecycle(before, sid, Closed).(records := Retire(before.records, {sid}, now)), sid))
  {
    hide Canonical, OneBlocking;
    var m := WithLifecycle(before, sid, Closed).(records := Retire(before.records, {sid}, now));
    RetireCanonical(before.records, before.sessions, {sid}, now);
    RetireOneBlocking(before.records, {sid}, now);
    ReprojectShows(before, m, sid);
    ReprojectBindings(m, sid);
    BindingsKeepCanonical(m.records, before.sessions, Reproject(m, sid).sessions);
  }

  /** Without an active wait a session's lifecycle may be set to anything but `paused`. */
  lemma LifecycleShows(m: Snapshot, sid: Id, session: Session)
    requires Listed(m) && CoherentSnapshot(m) && sid in m.sessions && !HasActiveWait(m, sid)
    requires session == m.sessions[sid].(lifecycle := session.lifecycle) && session.lifecycle != Paused
    ensures session.waiting == None
    ensures CoherentSnapshot(m.(sessions := m.sessions[sid := session]))
  {
    NothingNewest(m, sid);
    assert m.sessions[sid] == Project(m.order, m.records, sid, m.sessions[sid]);
    BindingsKeepCanonical(m.records, m.sessions, m.sessions[sid := session]);
  }

  lemma CloseCoherent(s: State, sid: Id, save: Save)
    requires Listed(s.mem) && Coherent(s)
    ensures Coherent(CloseSession(s, sid, save))
  {
    if sid in s.mem.sessions {
      if !HasActiveWait(s.mem, sid) {
        LifecycleShows(s.mem, sid, s.mem.sessions[sid].(lifecycle := Closed));
      } else if save.ok {
        CloseWaitsCoherent(s, sid, save);
      } else {
        SameSnapshots(s, CloseSession(s, sid, save));
      }
    }
  }

  lemma ReopenCoherent(s: State, sid: Id, save: Save)
    requires Listed(s.mem) && Coherent(s) && !OpensBesideActive(s, DoReopen(sid, save))
    ensures Coherent(Reopen(s, sid, save))
  {
    if sid in s.mem.sessions && s.mem.sessions[sid].lifecycle == Closed {
      NewestIsNewest(s.mem.order, s.mem.records, sid, true);
      var prior := Newest(s.mem.order, s.mem.records, sid, true);
      if prior.None? {
        LifecycleShows(s.mem, sid, s.mem.sessions[sid].(lifecycle := Ready));
      } else {
        CallsIrrelevant(s, OpenCall(s, ReopenCall(sid, prior.value.id)));
      }
    }
  }

  lemma ReopenReadyCoherent(s: State, sid: Id, save: Save)
    requires Listed(s.mem) && Coherent(s)
    requires save.ok && sid in s.mem.sessions && s.mem.sessions[sid].lifecycle == Closed ==> !HasActiveWait(s.mem, sid)
    ensures Coherent(ReopenReady(s, sid, save))
  {
    if save.ok && sid in s.mem.sessions && s.mem.sessions[sid].lifecycle == Closed {
      LifecycleShows(s.mem, sid, s.mem.sessions[sid].(lifecycle := Ready));
      assert s.mem.sessions[sid].(lifecycle := Ready) == s.mem.sessions[sid].(lifecycle := Ready, waiting := None);
    }
  }

  lemma SuccessorIsCanonical(m: Snapshot, id: Id, sid: Id, prior: Wait, status: Status, save: Save)
    requires prior.id in m.records && m.records[prior.id] == prior && prior.sessionId == sid
    requires CanonicalWait(prior, m.sessions) && Trusted(prior, status) && AfterClose(prior.state)
    requires OpaqueToken(id, MAX_WAIT_ID_LENGTH) && id !in m.records && !HasActiveWait(m, sid)
    ensures var w := SuccessorWait(id, sid, prior, status, save);
            CanonicalWait(w, m.sessions) && Succeeds(m.records, w) && w.sessionId == sid && w.id == id
  {
    assert !BlocksSession(prior, sid);
  }

  lemma {:induction false} SuccessorCoherent(s: State, sid: Id, priorId: Id, status: Status, candidates: seq<Option<Id>>,
                          save: Save, reserve: Save, loss: Save)
    requires Sound(s) && Coherent(s) && CallCoherent(ReopenCall(sid, priorId), s.mem.records)
    requires Trusted(s.mem.records[priorId], status)
    ensures Coherent(ReopenSuccessor(s, sid, priorId, status, candidates, save, reserve, loss))
  {
    hide Sound, Coherent;
    var prior := s.mem.records[priorId];
    var newId := NextWaitId(candidates, 8, s.mem.records);
    if newId.Some? && SuccessorAllowed(s.mem, sid, prior) {
      var w := SuccessorWait(newId.value, sid, prior, status, save);
      var s1 := if status.decision == Approved then Learn(s, ApprovalOf(w, w.decisionVersion)) else s;
      LearnCoherent(s, ApprovalOf(w, w.decisionVersion));
      if save.ok {
        WaitIsCanonical(s, priorId);
        SuccessorIsCanonical(s.mem, newId.value, sid, prior, status, save);
        SuccessorAdded(s1, sid, w, reserve, loss);
      }
    }
  }

  lemma SuccessorAdded(s: State, sid: Id, w: Wait, reserve: Save, loss: Save)
    requires Sound(s) && Coherent(s) && sid in s.mem.sessions && w.sessionId == sid && w.id !in s.mem.records
    requires !HasActiveWait(s.mem, sid) && CanonicalWait(w, s.mem.sessions) && Succeeds(s.mem.records, w)
    requires PreDispatch(w.state) && w.runnerRunId == None
    requires w.state == ApprovedResumeQueued ==> ApprovalOf(w, w.decisionVersion) in s.history.facts
    ensures var prepared := s.mem.(sessions := s.mem.sessions[sid := s.mem.sessions[sid].(lifecycle := Ready, waiting := None)]);
            var s2 := Publish(CommitSnapshot(s, AddWait(prepared, w), sid), w.id, w.state);
            && Coherent(s2)
            && (w.state == ApprovedResumeQueued ==> w.id in s2.mem.records && Coherent(Dispatch(s2, w.id, false, reserve, loss)))
  {
    var prepared := s.mem.(sessions := s.mem.sessions[sid := s.mem.sessions[sid].(lifecycle := Ready, waiting := None)]);
    var s2 := Publish(CommitSnapshot(s, AddWait(prepared, w), sid), w.id, w.state);
    AddCoherent(s, prepared, w);
    if w.state == ApprovedResumeQueued {
      AddWaitKeeps(s, prepared, w);
      AddedIsOpen(s, prepared, w);
      DispatchNeverFails(s2, w.id, false, reserve, loss);
    }
  }

  lemma AddedIsOpen(s: State, m: Snapshot, w: Wait)
    requires w.sessionId in m.sessions && m.sessions[w.sessionId].lifecycle != Closed
    ensures var s2 := Publish(CommitSnapshot(s, AddWait(m, w), w.sessionId), w.id, w.state);
            w.id in s2.mem.records && s2.mem.records[w.id] == w && OpenSession(s2.mem, w.sessionId)
  {
  }

  lemma CallIsCoherent(s: State, call: nat)
    requires Coherent(s) && call in s.calls
    ensures CallCoherent(s.calls[call], s.mem.records)
  {
  }

  lemma {:induction false} ReopenReplyCoherent(s: State, call: nat, status: Option<Status>, candidates: seq<Option<Id>>, save: Save, reserve: Save, loss: Save)
    requires Sound(s) && Coherent(s) && call in s.calls && s.calls[call].ReopenCall?
    requires !OpensBesideActive(s, DoReopenReply(call, status, candidates, save, reserve, loss))
    ensures Coherent(ReopenReply(s, call, status, candidates, save, reserve, loss))
  {
    hide Sound, Coherent;
    var c := s.calls[call];
    var s0 := DropCall(s, call);
    DropCallKeeps(s, call, false);
    SameSnapshots(s, s0);
    CallIsCoherent(s, call);
    if status.Some? && c.priorId in s.mem.records && Trusted(s.mem.records[c.priorId], status.value) {
      if NonApproved(status.value.decision) {
        ReopenReadyCoherent(s0, c.sessionId, save);
      } else {
        SuccessorCoherent(s0, c.sessionId, c.priorId, status.value, candidates, save, reserve, loss);
      }
    }
  }

  lemma TickNextCoherent(s: State, save: Save, loss: Save)
    requires Sound(s) && Coherent(s)
    ensures Coherent(TickNext(s, save, loss))
  {
    hide Sound, Coherent;
    SoundIsListed(s);
    if s.tick.Running? && !s.tick.awaiting {
      if s.tick.queue == [] { SameSnapshots(s, TickNext(s, save, loss)); }
    }
    if s.tick.Running? && s.tick.queue != [] {
      var id := s.tick.queue[0];
      var s0 := s.(tick := Running(s.tick.queue[1..], false));
      TickIrrelevant(s, s0.tick);
      SameSnapshots(s, s0);
      if id in s.mem.records && OpenSession(s.mem, s.mem.records[id].sessionId) && !s.tick.awaiting {
        match s.mem.records[id].state
        case ApprovedResumeQueued => DispatchNeverFails(s0, id, true, save, loss);
        case ResumeDispatching => RecoverCoherent(s0, id, false, save);
        case _ => CallsIrrelevant(s0, Refresh(s0, id));
      }
    }
  }

  lemma RestartCoherent(s: State, now: nat)
    requires Coherent(s)
    ensures Coherent(Restart(s, now))
  {
    var loaded := s.disk.(sessions := map sid | sid in s.disk.sessions :: Loaded(s.disk.sessions[sid]));
    ConstructedCoherent(s.disk.records, s.disk.sessions, loaded, now);
  }

  lemma ConstructedCoherent(records: map<Id, Wait>, sessions: map<Id, Session>, loaded: Snapshot, now: nat)
    requires OneBlocking(records) && Canonical(records, sessions) && loaded.records == records && SameBindings(sessions, loaded.sessions)
    ensures CoherentSnapshot(Constructed(loaded, now))
  {
    hide Canonical, OneBlocking, Retire, Newest;
    var m := Constructed(loaded, now);
    ConstructedBindings(loaded, now);
    RetireCanonical(records, sessions, ClosedSessions(loaded.sessions), now);
    RetireOneBlocking(records, ClosedSessions(loaded.sessions), now);
    BindingsKeepCanonical(m.records, sessions, m.sessions);
    forall sid | sid in m.sessions ensures m.sessions[sid] == Project(m.order, m.records, sid, m.sessions[sid]) {
      ProjectIdempotent(m.order, m.records, sid, loaded.sessions[sid]);
    }
  }

  lemma ConstructedBindings(loaded: Snapshot, now: nat)
    ensures SameBindings(loaded.sessions, Constructed(loaded, now).sessions)
  {
    hide Retire, Newest;
  }

  lemma PersistCoherent(s: State, sid: Id, save: Save)
    requires Coherent(s)
    ensures Coherent(PersistRetirements(s, sid, save))
  {
  }

  /** Every step but an unsafe one keeps one blocking wait per session, the projection and the evidence. */
  lemma StepCoherent(s: State, step: Step)
    requires Sound(s) && Coherent(s) && !Unsafe(s, step)
    ensures Coherent(Next(s, step))
  {
    hide Sound, Coherent;
    SoundIsListed(s);
    if Enabled(s, step) {
      match step
      case DoRegister(c, approvalRef) => CallsIrrelevant(s, Next(s, step));
      case DoRegisterReply(call, status, streamingAuthorized, candidates, save) =>
        RegisterReplyCoherent(s, call, status, streamingAuthorized, candidates, save);
      case DoPersistRetirements(sid, save) => PersistCoherent(s, sid, save);
      case DoTickStart(now) => SameSnapshots(s, Next(s, step));
      case DoTickNext(save, loss) => TickNextCoherent(s, save, loss);
      case DoRefreshReply(call, status, save, reserve, loss) => RefreshReplyCoherent(s, call, status, save, reserve, loss);
      case DoDispatchReply(call, answer, save) => DispatchReplyCoherent(s, call, answer, save);
      case DoRecover(id, save) => if id in s.mem.records { RecoverCoherent(s, id, true, save); }
      case DoComplete(continuationId, run, result, save) => CompleteCoherent(s, continuationId, run, result, save);
      case DoFailUserRun(sid, failure, save) => FailUserRunCoherent(s, sid, failure, save);
      case DoClose(sid, save) => CloseCoherent(s, sid, save);
      case DoReopen(sid, save) => ReopenCoherent(s, sid, save);
      case DoReopenReply(call, status, candidates, save, reserve, loss) =>
        ReopenReplyCoherent(s, call, status, candidates, save, reserve, loss);
      case DoRestart(now) => RestartCoherent(s, now);
    }
  }
}
