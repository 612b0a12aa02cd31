/**
 The session projection: what a session shows of its waits, recomputed by every transition.
 */
module ApprovalProjection {
  import opened Options
  import opened ApprovalTypes

  function ToPublic(w: Wait): Summary {
    Summary(w.id, w.approvalRef, w.subject, w.consoleSurface, w.state, w.updatedAt)
  }

  predicate BlocksSession(w: Wait, sid: Id) {
    w.sessionId == sid && Blocking(w.state)
  }

  predicate ClosedIn(w: Wait, sid: Id) {
    w.sessionId == sid && w.state == SessionClosed
  }

  predicate Selected(w: Wait, sid: Id, closed: bool) {
    if closed then ClosedIn(w, sid) else BlocksSession(w, sid)
  }

  /** First of a stable descending sort by `updatedAt` over the selected waits of a session. */
  function Newest(order: seq<Id>, records: map<Id, Wait>, sid: Id, closed: bool): Option<Wait> {
    if order == [] then None
    else
      var last := order[|order| - 1];
      var best := Newest(order[..|order| - 1], records, sid, closed);
      if last in records && Selected(records[last], sid, closed)
         && (best.None? || best.value.updatedAt < records[last].updatedAt)
      then Some(records[last])
      else best
  }

  /** The wait at `k` is selected, newer than the selected waits before it, and not older than those behind it. */
  predicate NewestAt(order: seq<Id>, records: map<Id, Wait>, sid: Id, closed: bool, k: int) {
    && 0 <= k < |order| && order[k] in records && Selected(records[order[k]], sid, closed)
    && (forall j :: 0 <= j < k && order[j] in records && Selected(records[order[j]], sid, closed)
          ==> records[order[j]].updatedAt < records[order[k]].updatedAt)
    && (forall j :: k < j < |order| && order[j] in records && Selected(records[order[j]], sid, closed)
          ==> records[order[j]].updatedAt <= records[order[k]].updatedAt)
  }

  /** Of equally new waits the first one listed is selected. */
  lemma {:induction false} NewestIsFirst(order: seq<Id>, records: map<Id, Wait>, sid: Id, closed: bool)
    ensures Newest(order, records, sid, closed).Some?
            ==> exists k :: NewestAt(order, records, sid, closed, k) && records[order[k]] == Newest(order, records, sid, closed).value
  {
    if order != [] {
      var init, last := order[..|order| - 1], order[|order| - 1];
      NewestIsFirst(init, records, sid, closed);
      NewestIsNewest(init, records, sid, closed);
      var best := Newest(init, records, sid, closed);
      if Newest(order, records, sid, closed) == best && best.Some? {
        var k :| NewestAt(init, records, sid, closed, k) && records[init[k]] == best.value;
        assert NewestAt(order, records, sid, closed, k);
      } else if Newest(order, records, sid, closed).Some? {
        forall j | 0 <= j < |order| - 1 && order[j] in records && Selected(records[order[j]], sid, closed)
          ensures records[order[j]].updatedAt < records[last].updatedAt
        {
          assert init[j] in init;
        }
        assert NewestAt(order, records, sid, closed, |order| - 1);
      }
    }
  }

  /** The selection is a selected wait of the list, and no selected wait is newer. */
  lemma {:induction false} NewestIsNewest(order: seq<Id>, records: map<Id, Wait>, sid: Id, closed: bool)
    ensures var r := Newest(order, records, sid, closed);
            && (r.Some? ==> exists id :: id in order && id in records && records[id] == r.value && Selected(r.value, sid, closed))
            && (forall id :: id in order && id in records && Selected(records[id], sid, closed)
                  ==> r.Some? && records[id].updatedAt <= r.value.updatedAt)
  {
    if order != [] {
      var init := order[..|order| - 1];
      NewestIsNewest(init, records, sid, closed);
      assert order == init + [order[|order| - 1]];
    }
  }

  predicate HasActiveWait(m: Snapshot, sid: Id) {
    exists id :: id in m.records && BlocksSession(m.records[id], sid)
  }

  function Project(order: seq<Id>, records: map<Id, Wait>, sid: Id, session: Session): Session {
    if session.lifecycle == Closed then session.(waiting := None)
    else
      match Newest(order, records, sid, false)
      case None => session.(waiting := None, lifecycle := if session.lifecycle == Paused then Ready else session.lifecycle)
      case Some(w) => session.(lifecycle := Paused, waiting := Some(ToPublic(w)))
  }

  /** A snapshot whose session `sid` shows the newest published wait. */
  function Reproject(m: Snapshot, sid: Id): Snapshot {
    if sid in m.sessions
    then m.(sessions := m.sessions[sid := Project(m.order, m.records, sid, m.sessions[sid])])
    else m
  }
}
