/**
 Runs without unsafe steps: one blocking wait per session, an exact projection, and dispatch
 evidence that never fails; and unsafe steps break exactly that.
 */
module ApprovalRuns {
  import opened Options
  import opened ApprovalTypes
  import opened ApprovalProjection
  import opened ApprovalSteps
  import opened ApprovalSafety
  import opened ApprovalCoherence

  // ---- unsafe steps are exactly the breaking ones ------------------------------------------

  lemma RevivalBreaks(s: State, step: Step)
    requires Sound(s) && RevivesBesideActive(s, step)
    ensures !OneBlocking(Next(s, step).mem.records)
  {
    hide Sound;
    var c := s.calls[step.call];
    AnsweredCall(s, step.call);
    WaitKnown(s, c.waitId);
    Revived(ReleaseTick(DropCall(s, step.call), c.fromTick), c.waitId, ParseResult(step.answer, step.save.at), step.save.at);
  }

  lemma Revived(s: State, id: Id, result: DispatchResult, now: nat)
    requires id in s.mem.records && s.mem.records[id].state == SessionClosed && s.mem.records[id].id == id
    requires HasActiveWait(s.mem, s.mem.records[id].sessionId)
    ensures !OneBlocking(Commit(s, LostWait(s.mem.records[id], result, now), true).mem.records)
  {
    var w := s.mem.records[id];
    CommittedSnapshot(s, LostWait(w, result, now), true);
    var other :| other in s.mem.records && BlocksSession(s.mem.records[other], w.sessionId);
    var records := s.mem.records[id := LostWait(w, result, now)];
    assert other != id && Blocking(records[other].state) && Blocking(records[id].state);
  }

  /** An open session with a blocking wait has to be paused. */
  lemma UnpausedBreaks(m: Snapshot, sid: Id)
    requires Listed(m) && OneBlocking(m.records) && HasActiveWait(m, sid) && sid in m.sessions && m.sessions[sid].lifecycle == Ready
    ensures !Shown(m)
  {
    var id :| id in m.records && BlocksSession(m.records[id], sid);
    NewestIsTheOne(m, id);
    assert Project(m.order, m.records, sid, m.sessions[sid]).lifecycle == Paused;
  }

  lemma OpeningBreaks(s: State, step: Step)
    requires Sound(s) && Coherent(s) && OpensBesideActive(s, step)
    ensures !Shown(Next(s, step).mem)
  {
    hide Sound, Coherent, Shown, Listed, OneBlocking, HasActiveWait;
    SoundIsListed(s);
    CoherentParts(s);
    if step.DoReopen? {
      OpenedBreaks(s.mem, Next(s, step).mem, step.sid);
    } else {
      OpenedBreaks(s.mem, Next(s, step).mem, s.calls[step.call].sessionId);
    }
  }

  lemma OpenedBreaks(before: Snapshot, m: Snapshot, sid: Id)
    requires Listed(before) && OneBlocking(before.records) && HasActiveWait(before, sid)
    requires m.order == before.order && m.records == before.records && sid in m.sessions && m.sessions[sid].lifecycle == Ready
    ensures !Shown(m)
  {
    var id :| id in before.records && BlocksSession(before.records[id], sid);
    assert BlocksSession(m.records[id], sid);
    UnpausedBreaks(m, sid);
  }

  /** A step keeps one blocking wait per session and an exact projection if and only if it is not unsafe. */
  lemma UnsafeExactly(s: State, step: Step)
    requires Sound(s) && Coherent(s)
    ensures OneBlocking(Next(s, step).mem.records) && Shown(Next(s, step).mem) <==> !Unsafe(s, step)
  {
    hide Sound, Coherent, OneBlocking, Shown;
    if RevivesBesideActive(s, step) {
      RevivalBreaks(s, step);
    } else if OpensBesideActive(s, step) {
      OpeningBreaks(s, step);
    } else {
      StepCoherent(s, step);
      CoherentParts(Next(s, step));
    }
  }

  lemma CoherentParts(s: State)
    requires Coherent(s)
    ensures OneBlocking(s.mem.records) && Shown(s.mem)
  {
  }

  // ---- runs --------------------------------------------------------------------------------

  /** No step of the run is unsafe in the state it is taken in. */
  ghost predicate SafeRun(s: State, steps: seq<Step>) {
    steps == [] || (SafeRun(s, steps[..|steps| - 1]) && !Unsafe(Run(s, steps[..|steps| - 1]), steps[|steps| - 1]))
  }

  lemma InitialCoherent(sessions: map<Id, Session>, now: nat)
    ensures Coherent(Initial(sessions, now))
  {
    var s := Initial(sessions, now);
    forall sid | sid in s.mem.sessions
      ensures s.mem.sessions[sid] == Project(s.mem.order, s.mem.records, sid, s.mem.sessions[sid])
    {
      ProjectIdempotent([], map[], sid, Loaded(sessions[sid]));
    }
  }

  lemma {:induction false} RunCoherent(sessions: map<Id, Session>, now: nat, steps: seq<Step>)
    requires SafeRun(Initial(sessions, now), steps)
    ensures Coherent(Run(Initial(sessions, now), steps)) && Sound(Run(Initial(sessions, now), steps))
    decreases |steps|
  {
    hide Coherent, Sound, Unsafe;
    RunSound(sessions, now, steps);
    if steps == [] {
      InitialCoherent(sessions, now);
    } else {
      RunCoherent(sessions, now, steps[..|steps| - 1]);
      StepCoherent(Run(Initial(sessions, now), steps[..|steps| - 1]), steps[|steps| - 1]);
    }
  }

  /** In a safe run a session never has two blocking waits. */
  lemma {:induction false} AtMostOneBlockingWait(sessions: map<Id, Session>, now: nat, steps: seq<Step>, a: Id, b: Id)
    requires SafeRun(Initial(sessions, now), steps)
    requires var records := Run(Initial(sessions, now), steps).mem.records;
             a in records && b in records && records[a].sessionId == records[b].sessionId
             && Blocking(records[a].state) && Blocking(records[b].state)
    ensures a == b
  {
    RunCoherent(sessions, now, steps);
  }

  /**
   In a safe run an open session is paused and shows its blocking wait when it has one, which is its
   newest, and is neither paused nor shows anything otherwise; a closed session shows nothing.
   */
  lemma {:induction false} SummaryIsExact(sessions: map<Id, Session>, now: nat, steps: seq<Step>, sid: Id)
    requires SafeRun(Initial(sessions, now), steps)
    requires sid in Run(Initial(sessions, now), steps).mem.sessions
    ensures var m := Run(Initial(sessions, now), steps).mem;
            var session := m.sessions[sid];
            && (session.lifecycle == Closed ==> session.waiting == None)
            && (session.lifecycle != Closed && !HasActiveWait(m, sid) ==> session.waiting == None && session.lifecycle != Paused)
            && (forall id :: id in m.records && session.lifecycle != Closed && BlocksSession(m.records[id], sid)
                  ==> session.lifecycle == Paused && session.waiting == Some(ToPublic(m.records[id]))
                      && forall other :: other in m.records && BlocksSession(m.records[other], sid)
                           ==> m.records[other].updatedAt <= m.records[id].updatedAt)
  {
    RunCoherent(sessions, now, steps);
    var m := Run(Initial(sessions, now), steps).mem;
    assert m.sessions[sid] == Project(m.order, m.records, sid, m.sessions[sid]);
    if !HasActiveWait(m, sid) { NothingNewest(m, sid); }
    forall id | id in m.records && m.sessions[sid].lifecycle != Closed && BlocksSession(m.records[id], sid)
      ensures m.sessions[sid].lifecycle == Paused && m.sessions[sid].waiting == Some(ToPublic(m.records[id]))
      ensures forall other :: other in m.records && BlocksSession(m.records[other], sid) ==> m.records[other].updatedAt <= m.records[id].updatedAt
    {
      NewestIsTheOne(m, id);
    }
  }

  /** In a safe run a queued wait of an open session always passes its dispatch check. */
  lemma {:induction false} HonestDispatch(sessions: map<Id, Session>, now: nat, steps: seq<Step>, id: Id, fromTick: bool, save: Save, loss: Save)
    requires SafeRun(Initial(sessions, now), steps)
    requires var m := Run(Initial(sessions, now), steps).mem;
             id in m.records && m.records[id].state == ApprovedResumeQueued && OpenSession(m, m.records[id].sessionId)
    ensures var s := Run(Initial(sessions, now), steps);
            var s' := Dispatch(s, id, fromTick, save, loss);
            && (!save.ok ==> s' == s)
            && (save.ok ==> id in s'.mem.records && s'.mem.records[id] == Reserved(s.mem.records[id], save.at) && s'.mem == s'.disk
                            && s.nextCall in s'.calls && s'.calls[s.nextCall] == DispatchCall(id, s.mem.records[id].sessionId, Generation(s.generation, s.mem.records[id].sessionId), fromTick)
                            && s'.history.handOvers == s.history.handOvers + multiset{id})
  {
    hide Coherent, Sound, SafeRun, Evidence;
    RunCoherent(sessions, now, steps);
    var s := Run(Initial(sessions, now), steps);
    DispatchNeverFails(s, id, fromTick, save, loss);
    if save.ok {
      CommittedSnapshot(s, Reserved(s.mem.records[id], save.at), true);
      WaitKnown(s, id);
    }
  }

  lemma WaitKnown(s: State, id: Id)
    requires Sound(s) && id in s.mem.records
    ensures s.mem.records[id].id == id
  {
  }

  /** Nor does a dispatched wait fail the check when it is completed or recovered. */
  lemma {:induction false} HonestCompletion(sessions: map<Id, Session>, now: nat, steps: seq<Step>, id: Id)
    requires SafeRun(Initial(sessions, now), steps)
    requires var m := Run(Initial(sessions, now), steps).mem;
             id in m.records && m.records[id].state == ResumeDispatching && OpenSession(m, m.records[id].sessionId)
    ensures var s := Run(Initial(sessions, now), steps);
            && Evidence(s.mem, s.mem.records[id])
            && (forall result, at :: CompletedWait(s.mem, s.mem.records[id], result, at).state == SecurityFailure
                  <==> result.Succeeded? && ValidField(result.managedThreadId) && result.managedThreadId != s.mem.records[id].managedThreadId)
  {
    hide Coherent, Sound, SafeRun;
    RunCoherent(sessions, now, steps);
    var s := Run(Initial(sessions, now), steps);
    SoundIsListed(s);
    EvidenceHolds(s, id);
  }
}
