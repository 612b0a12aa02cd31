/**
 What a saved state keeps: the newest sessions, events, waits, artifacts and device records, with
 active approval waits and referenced artifacts protected from the limits.
 */
module Retention {
  import opened Options
  import opened ApprovalTypes
  import opened Lists

  datatype SessionRecord = SessionRecord(id: Id, lifecycle: Lifecycle, at: Option<int>)
  datatype StreamEvent = StreamEvent(sessionId: Id, message: string, system: bool)
  datatype WaitRecord = WaitRecord(id: Id, state: WaitState, at: Option<int>)
  datatype Artifact = Artifact(id: Id, at: Option<int>)

  /** A device request, approval or operation: each names an artifact. */
  datatype DeviceRecord = DeviceRecord(id: Id, artifactId: Id, at: Option<int>)

  datatype Saved = Saved(
    sessions: seq<SessionRecord>,
    events: seq<StreamEvent>,
    waits: seq<WaitRecord>,
    artifacts: seq<Artifact>,
    requests: seq<DeviceRecord>,
    approvals: seq<DeviceRecord>,
    operations: seq<DeviceRecord>)

  datatype Limits = Limits(
    now: int,
    sessionAge: nat, waitAge: nat, deviceAge: nat,
    maxSessions: nat, maxEvents: nat, maxWaits: nat, maxArtifacts: nat,
    maxRequests: nat, maxApprovals: nat, maxOperations: nat)

  // ---- filter, sort, slice ---------------------------------------------------------------------

  function Filter<T(!new)>(keep: T -> bool, s: seq<T>): (r: seq<T>)
    ensures |r| <= |s| && forall x :: x in r <==> x in s && keep(x)
  {
    if s == [] then []
    else
      assert s == [s[0]] + s[1..];
      (if keep(s[0]) then [s[0]] else []) + Filter(keep, s[1..])
  }

  /** A stable sort, newest first. */
  function NewestFirst<T(!new)>(at: T -> int, s: seq<T>): (r: seq<T>)
    ensures |r| == |s| && forall x :: x in r <==> x in s
  {
    if s == [] then []
    else
      assert s == [s[0]] + s[1..];
      Place(at, s[0], NewestFirst(at, s[1..]))
  }

  function Place<T(!new)>(at: T -> int, x: T, s: seq<T>): (r: seq<T>)
    ensures |r| == |s| + 1 && forall y :: y in r <==> y == x || y in s
  {
    if s == [] || at(s[0]) <= at(x) then [x] + s
    else
      assert s == [s[0]] + s[1..];
      [s[0]] + Place(at, x, s[1..])
  }

  function Take<T>(s: seq<T>, n: nat): seq<T> {
    if n <= |s| then s[..n] else s
  }

  /** An unreadable time stands for the epoch. */
  function TimeOrZero(at: Option<int>): int {
    if at.Some? then at.value else 0
  }

  predicate NotBefore(at: Option<int>, cutoff: int) {
    at.Some? && cutoff <= at.value
  }

  // The tests and times of the lists, as values.
  function InWindow(cutoff: int): DeviceRecord -> bool { (r: DeviceRecord) => NotBefore(r.at, cutoff) }
  function DeviceTime(): DeviceRecord -> int { (r: DeviceRecord) => TimeOrZero(r.at) }
  function Alive(cutoff: int): SessionRecord -> bool { (s: SessionRecord) => KeptAlive(s, cutoff) }
  function SessionTime(): SessionRecord -> int { (s: SessionRecord) => TimeOrZero(s.at) }
  function IdIn(ids: set<Id>): SessionRecord -> bool { (s: SessionRecord) => s.id in ids }
  function OfSession(ids: set<Id>): StreamEvent -> bool { (e: StreamEvent) => e.sessionId in ids }
  function Referenced(ids: set<Id>): Artifact -> bool { (a: Artifact) => a.id in ids }
  function Unreferenced(ids: set<Id>, cutoff: int): Artifact -> bool { (a: Artifact) => a.id !in ids && NotBefore(a.at, cutoff) }
  function ArtifactTime(): Artifact -> int { (a: Artifact) => TimeOrZero(a.at) }
  function IsActive(): WaitRecord -> bool { (w: WaitRecord) => Blocking(w.state) }
  function IsTerminal(): WaitRecord -> bool { (w: WaitRecord) => !Blocking(w.state) }
  function WaitInWindow(cutoff: int): WaitRecord -> bool { (w: WaitRecord) => cutoff <= TimeOrZero(w.at) }
  function WaitTime(): WaitRecord -> int { (w: WaitRecord) => TimeOrZero(w.at) }

  /** `retainByTimestamp` */
  function RetainDevice(records: seq<DeviceRecord>, cutoff: int, max: nat): seq<DeviceRecord> {
    Take(NewestFirst(DeviceTime(), Filter(InWindow(cutoff), records)), max)
  }

  // ---- the retained state ----------------------------------------------------------------------

  predicate KeptAlive(s: SessionRecord, cutoff: int) {
    s.lifecycle == Ready || s.lifecycle == Streaming || s.lifecycle == Paused || cutoff <= TimeOrZero(s.at)
  }

  function SessionIds(sessions: seq<SessionRecord>): set<Id> {
    set i | 0 <= i < |sessions| :: sessions[i].id
  }

  function RetainedSessionIds(sessions: seq<SessionRecord>, cutoff: int, max: nat): set<Id> {
    SessionIds(Take(NewestFirst(SessionTime(), Filter(Alive(cutoff), sessions)), max))
  }

  function ReferencedBy(records: seq<DeviceRecord>): set<Id> {
    set i | 0 <= i < |records| :: records[i].artifactId
  }

  function RetainArtifacts(artifacts: seq<Artifact>, referenced: set<Id>, cutoff: int, max: nat): seq<Artifact> {
    var protect := Filter(Referenced(referenced), artifacts);
    var slots := if max < |protect| then 0 else max - |protect|;
    var others := Filter(Unreferenced(referenced, cutoff), artifacts);
    protect + Take(NewestFirst(ArtifactTime(), others), slots)
  }

  /** `new Map(…).values()`: the last record of an id, where its first one stood. */
  function ById(waits: seq<WaitRecord>): seq<WaitRecord> {
    if waits == [] then []
    else
      var init, last := ById(waits[..|waits| - 1]), waits[|waits| - 1];
      if exists i :: 0 <= i < |init| && init[i].id == last.id then Replace(init, last) else init + [last]
  }

  function Replace(waits: seq<WaitRecord>, w: WaitRecord): (r: seq<WaitRecord>)
    ensures |r| == |waits|
  {
    if waits == [] then []
    else [if waits[0].id == w.id then w else waits[0]] + Replace(waits[1..], w)
  }

  function ActiveWaits(waits: seq<WaitRecord>): seq<WaitRecord> {
    Filter(IsActive(), waits)
  }

  function RetainWaits(waits: seq<WaitRecord>, cutoff: int, max: nat): seq<WaitRecord> {
    var active := ById(ActiveWaits(waits));
    var limit := if max < |active| then 0 else max - |active|;
    var terminal := Filter(WaitInWindow(cutoff), Filter(IsTerminal(), waits));
    active + Take(NewestFirst(WaitTime(), terminal), limit)
  }

  /** `applyRetention` */
  function Retain(s: Saved, l: Limits): Saved {
    var deviceCutoff := l.now - l.deviceAge;
    var ids := RetainedSessionIds(s.sessions, l.now - l.sessionAge, l.maxSessions);
    var requests := RetainDevice(s.requests, deviceCutoff, l.maxRequests);
    var approvals := RetainDevice(s.approvals, deviceCutoff, l.maxApprovals);
    var operations := RetainDevice(s.operations, deviceCutoff, l.maxOperations);
    var referenced := ReferencedBy(requests) + ReferencedBy(approvals) + ReferencedBy(operations);
    Saved(Filter(IdIn(ids), s.sessions),
          LastN(Filter(OfSession(ids), s.events), l.maxEvents),
          RetainWaits(s.waits, l.now - l.waitAge, l.maxWaits),
          RetainArtifacts(s.artifacts, referenced, deviceCutoff, l.maxArtifacts),
          requests, approvals, operations)
  }

  // ---- lists -----------------------------------------------------------------------------------

  lemma {:induction false} FilterAll<T(!new)>(keep: T -> bool, s: seq<T>)
    requires forall x :: x in s ==> keep(x)
    ensures Filter(keep, s) == s
  {
    if s != [] {
      assert s == [s[0]] + s[1..] && s[0] in s;
      FilterAll(keep, s[1..]);
    }
  }

  lemma {:induction false} FilterNone<T(!new)>(keep: T -> bool, s: seq<T>)
    requires forall x :: x in s ==> !keep(x)
    ensures Filter(keep, s) == []
  {
    if s != [] {
      assert s == [s[0]] + s[1..] && s[0] in s;
      FilterNone(keep, s[1..]);
    }
  }

  lemma {:induction false} FilterAppend<T(!new)>(keep: T -> bool, a: seq<T>, b: seq<T>)
    ensures Filter(keep, a + b) == Filter(keep, a) + Filter(keep, b)
  {
    if a == [] {
      assert a + b == b;
    } else {
      assert (a + b)[1..] == a[1..] + b;
      FilterAppend(keep, a[1..], b);
    }
  }

  predicate Descending<T>(at: T -> int, s: seq<T>) {
    forall i, j :: 0 <= i < j < |s| ==> at(s[j]) <= at(s[i])
  }

  lemma {:induction false} PlaceDescends<T(!new)>(at: T -> int, x: T, s: seq<T>)
    requires Descending(at, s)
    ensures Descending(at, Place(at, x, s))
  {
    if s != [] && at(s[0]) > at(x) {
      PlaceDescends(at, x, s[1..]);
      var r := Place(at, x, s[1..]);
      forall k | 0 <= k < |r| ensures at(r[k]) <= at(s[0]) {
        assert r[k] in r;
        if r[k] != x {
          var i :| 0 <= i < |s[1..]| && s[1..][i] == r[k];
          assert s[i + 1] == r[k];
        }
      }
    }
  }

  lemma {:induction false} NewestDescends<T(!new)>(at: T -> int, s: seq<T>)
    ensures Descending(at, NewestFirst(at, s))
  {
    if s != [] {
      NewestDescends(at, s[1..]);
      PlaceDescends(at, s[0], NewestFirst(at, s[1..]));
    }
  }

  lemma {:induction false} DescendingIsFixed<T(!new)>(at: T -> int, s: seq<T>)
    requires Descending(at, s)
    ensures NewestFirst(at, s) == s
  {
    if s != [] {
      DescendingIsFixed(at, s[1..]);
      assert s == [s[0]] + s[1..];
      if |s| > 1 { assert s[1..][0] == s[1]; }
    }
  }

  lemma TakeDescends<T(!new)>(at: T -> int, s: seq<T>, n: nat)
    requires Descending(at, s)
    ensures Descending(at, Take(s, n))
  {
  }

  /** What sorting and slicing drops is no newer than what it keeps. */
  lemma NewestAreKept<T(!new)>(at: T -> int, s: seq<T>, n: nat, x: T, y: T)
    requires x in Take(NewestFirst(at, s), n) && y in s && y !in Take(NewestFirst(at, s), n)
    ensures at(y) <= at(x)
  {
    NewestDescends(at, s);
    var sorted := NewestFirst(at, s);
    var i :| 0 <= i < |Take(sorted, n)| && Take(sorted, n)[i] == x;
    var j :| 0 <= j < |sorted| && sorted[j] == y;
    forall k | 0 <= k < n && k < |sorted| ensures sorted[k] in Take(sorted, n) { assert Take(sorted, n)[k] == sorted[k]; }
  }

  lemma TakeIn<T(!new)>(s: seq<T>, n: nat)
    ensures |Take(s, n)| <= n && |Take(s, n)| <= |s| && forall x :: x in Take(s, n) ==> x in s
  {
  }

  // ---- saving twice changes nothing --------------------------------------------------------------

  predicate DistinctSessions(sessions: seq<SessionRecord>) {
    forall i, j :: 0 <= i < j < |sessions| ==> sessions[i].id != sessions[j].id
  }

  predicate DistinctWaits(waits: seq<WaitRecord>) {
    forall i, j :: 0 <= i < j < |waits| ==> waits[i].id != waits[j].id
  }

  lemma {:induction false} FilterDistinct(keep: SessionRecord -> bool, sessions: seq<SessionRecord>)
    requires DistinctSessions(sessions)
    ensures DistinctSessions(Filter(keep, sessions))
  {
    if sessions != [] {
      var tail := sessions[1..];
      FilterDistinct(keep, tail);
      forall x | x in Filter(keep, tail) ensures x.id != sessions[0].id {
        var i :| 0 <= i < |tail| && tail[i] == x;
        assert sessions[i + 1] == x;
      }
      var r := Filter(keep, tail);
      forall k | 0 <= k < |r| ensures r[k].id != sessions[0].id { assert r[k] in r; }
    }
  }

  lemma {:induction false} DistinctCounted(sessions: seq<SessionRecord>)
    requires DistinctSessions(sessions)
    ensures |SessionIds(sessions)| == |sessions|
  {
    if sessions != [] {
      var tail := sessions[1..];
      DistinctCounted(tail);
      assert sessions == [sessions[0]] + tail;
      forall id | id in SessionIds(tail) ensures id != sessions[0].id {
        var i :| 0 <= i < |tail| && tail[i].id == id;
        assert sessions[i + 1] == tail[i];
      }
      SessionIdsCons(sessions[0], tail);
    }
  }

  lemma {:induction false} SessionIdsCons(x: SessionRecord, tail: seq<SessionRecord>)
    ensures SessionIds([x] + tail) == {x.id} + SessionIds(tail)
  {
    var all := [x] + tail;
    forall id | id in {x.id} + SessionIds(tail) ensures id in SessionIds(all) {
      if id == x.id { assert all[0].id == id; }
      else {
        var i :| 0 <= i < |tail| && tail[i].id == id;
        assert all[i + 1].id == id;
      }
    }
  }

  lemma {:induction false} SessionIdsSize(sessions: seq<SessionRecord>)
    ensures |SessionIds(sessions)| <= |sessions|
  {
    if sessions != [] {
      SessionIdsSize(sessions[1..]);
      assert sessions == [sessions[0]] + sessions[1..];
      SessionIdsCons(sessions[0], sessions[1..]);
    }
  }

  lemma {:induction false} SessionIdsOf(sessions: seq<SessionRecord>)
    ensures forall id :: id in SessionIds(sessions) <==> exists x :: x in sessions && x.id == id
  {
    forall x | x in sessions ensures x.id in SessionIds(sessions) {
      var i :| 0 <= i < |sessions| && sessions[i] == x;
    }
  }

  lemma SubsetSize(a: set<Id>, b: set<Id>)
    requires a <= b
    ensures |a| <= |b|
  {
    assert b == a + (b - a);
  }

  /** The retained sessions are the newest ones, and all of them stay the newest. */
  lemma {:induction false} SessionsRetainedAgain(sessions: seq<SessionRecord>, cutoff: int, max: nat)
    requires DistinctSessions(sessions)
    ensures var ids := RetainedSessionIds(sessions, cutoff, max);
            var r := Filter(IdIn(ids), sessions);
            |r| <= max && RetainedSessionIds(r, cutoff, max) == ids
  {
    hide Filter, NewestFirst, Take, SessionIds;
    var sorted := NewestFirst(SessionTime(), Filter(Alive(cutoff), sessions));
    var top := Take(sorted, max);
    var ids := SessionIds(top);
    var r := Filter(IdIn(ids), sessions);
    TakeIn(sorted, max);
    SessionIdsOf(top);
    SessionIdsOf(r);
    forall x | x in r ensures Alive(cutoff)(x) {
      var y :| y in top && y.id == x.id;
      SameSession(sessions, x, y);
    }
    FilterAll(Alive(cutoff), r);
    FilterDistinct(IdIn(ids), sessions);
    DistinctCounted(r);
    SessionIdsSize(top);
    SubsetSize(SessionIds(r), ids);
    AllTaken(NewestFirst(SessionTime(), r), max);
    SessionIdsOf(NewestFirst(SessionTime(), r));
    assert SessionIds(NewestFirst(SessionTime(), r)) == ids;
  }

  lemma {:induction false} AllTaken<T>(s: seq<T>, n: nat)
    requires |s| <= n
    ensures Take(s, n) == s
  {
  }

  lemma {:induction false} SameSession(sessions: seq<SessionRecord>, x: SessionRecord, y: SessionRecord)
    requires DistinctSessions(sessions) && x in sessions && y in sessions && x.id == y.id
    ensures x == y
  {
    var i, j :| 0 <= i < |sessions| && 0 <= j < |sessions| && sessions[i] == x && sessions[j] == y;
    assert i == j;
  }

  lemma {:induction false} EventsRetainedAgain(events: seq<StreamEvent>, ids: set<Id>, max: nat)
    ensures var r := LastN(Filter(OfSession(ids), events), max);
            LastN(Filter(OfSession(ids), r), max) == r && forall e :: e in r ==> e.sessionId in ids
  {
    FilterAll(OfSession(ids), LastN(Filter(OfSession(ids), events), max));
  }

  lemma {:induction false} DeviceRetainedAgain(records: seq<DeviceRecord>, cutoff: int, max: nat)
    ensures var r := RetainDevice(records, cutoff, max);
            RetainDevice(r, cutoff, max) == r && |r| <= max
  {
    hide Filter, NewestFirst, Take;
    var sorted := NewestFirst(DeviceTime(), Filter(InWindow(cutoff), records));
    var r := Take(sorted, max);
    TakeIn(sorted, max);
    FilterAll(InWindow(cutoff), r);
    NewestDescends(DeviceTime(), Filter(InWindow(cutoff), records));
    TakeDescends(DeviceTime(), sorted, max);
    DescendingIsFixed(DeviceTime(), r);
    AllTaken(r, max);
  }

  lemma {:induction false} ArtifactsRetainedAgain(artifacts: seq<Artifact>, referenced: set<Id>, cutoff: int, max: nat)
    ensures var r := RetainArtifacts(artifacts, referenced, cutoff, max);
            RetainArtifacts(r, referenced, cutoff, max) == r
  {
    hide Filter, NewestFirst, Take;
    var protect := Filter(Referenced(referenced), artifacts);
    var slots := if max < |protect| then 0 else max - |protect|;
    var others := NewestFirst(ArtifactTime(), Filter(Unreferenced(referenced, cutoff), artifacts));
    var kept := Take(others, slots);
    TakeIn(others, slots);
    FilterAppend(Referenced(referenced), protect, kept);
    FilterAll(Referenced(referenced), protect);
    FilterNone(Referenced(referenced), kept);
    FilterAppend(Unreferenced(referenced, cutoff), protect, kept);
    FilterNone(Unreferenced(referenced, cutoff), protect);
    FilterAll(Unreferenced(referenced, cutoff), kept);
    NewestDescends(ArtifactTime(), Filter(Unreferenced(referenced, cutoff), artifacts));
    TakeDescends(ArtifactTime(), others, slots);
    DescendingIsFixed(ArtifactTime(), kept);
    AllTaken(kept, slots);
    assert protect + [] == protect && [] + kept == kept;
  }

  lemma {:induction false} ByIdIsAll(waits: seq<WaitRecord>)
    requires DistinctWaits(waits)
    ensures ById(waits) == waits
  {
    if waits != [] {
      ByIdIsAll(waits[..|waits| - 1]);
      assert waits == waits[..|waits| - 1] + [waits[|waits| - 1]];
    }
  }

  lemma {:induction false} FilterDistinctWaits(keep: WaitRecord -> bool, waits: seq<WaitRecord>)
    requires DistinctWaits(waits)
    ensures DistinctWaits(Filter(keep, waits))
  {
    if waits != [] {
      var tail := waits[1..];
      FilterDistinctWaits(keep, tail);
      var r := Filter(keep, tail);
      forall k | 0 <= k < |r| ensures r[k].id != waits[0].id {
        assert r[k] in r;
        var i :| 0 <= i < |tail| && tail[i] == r[k];
        assert waits[i + 1] == r[k];
      }
    }
  }

  lemma {:induction false} WaitsRetainedAgain(waits: seq<WaitRecord>, cutoff: int, max: nat)
    requires DistinctWaits(waits)
    ensures var r := RetainWaits(waits, cutoff, max);
            RetainWaits(r, cutoff, max) == r
  {
    hide Filter, NewestFirst, Take, ById, Blocking;
    var active := ActiveWaits(waits);
    FilterDistinctWaits(IsActive(), waits);
    ByIdIsAll(active);
    var limit := if max < |active| then 0 else max - |active|;
    var terminal := Filter(WaitInWindow(cutoff), Filter(IsTerminal(), waits));
    var sorted := NewestFirst(WaitTime(), terminal);
    var kept := Take(sorted, limit);
    TakeIn(sorted, limit);
    FilterAppend(IsActive(), active, kept);
    FilterAll(IsActive(), active);
    FilterNone(IsActive(), kept);
    FilterAppend(IsTerminal(), active, kept);
    FilterNone(IsTerminal(), active);
    FilterAll(IsTerminal(), kept);
    FilterAll(WaitInWindow(cutoff), kept);
    NewestDescends(WaitTime(), terminal);
    TakeDescends(WaitTime(), sorted, limit);
    DescendingIsFixed(WaitTime(), kept);
    AllTaken(kept, limit);
    assert active + [] == active && [] + kept == kept;
  }

  /** At one time, retention is idempotent. */
  lemma RetainedOnce(s: Saved, l: Limits)
    requires DistinctSessions(s.sessions) && DistinctWaits(s.waits)
    ensures Retain(Retain(s, l), l) == Retain(s, l)
  {
    hide RetainedSessionIds, RetainWaits, RetainArtifacts, RetainDevice, LastN, Filter, ReferencedBy, DistinctWaits, DistinctSessions;
    var ids := RetainedSessionIds(s.sessions, l.now - l.sessionAge, l.maxSessions);
    SessionsRetainedAgain(s.sessions, l.now - l.sessionAge, l.maxSessions);
    FilterAll(IdIn(ids), Filter(IdIn(ids), s.sessions));
    EventsRetainedAgain(s.events, ids, l.maxEvents);
    WaitsRetainedAgain(s.waits, l.now - l.waitAge, l.maxWaits);
    DeviceRetainedAgain(s.requests, l.now - l.deviceAge, l.maxRequests);
    DeviceRetainedAgain(s.approvals, l.now - l.deviceAge, l.maxApprovals);
    DeviceRetainedAgain(s.operations, l.now - l.deviceAge, l.maxOperations);
    var r := Retain(s, l);
    ArtifactsRetainedAgain(s.artifacts, ReferencedBy(r.requests) + ReferencedBy(r.approvals) + ReferencedBy(r.operations),
                           l.now - l.deviceAge, l.maxArtifacts);
  }

  // ---- what is never dropped, and what is dropped first ------------------------------------------

  /** Active waits survive, and of the waits that are over the newest do. */
  lemma WaitsSurvive(s: Saved, l: Limits)
    requires DistinctWaits(s.waits)
    ensures forall w :: w in s.waits && Blocking(w.state) ==> w in Retain(s, l).waits
    ensures forall w :: w in Retain(s, l).waits ==> w in s.waits
    ensures forall kept, dropped :: kept in Retain(s, l).waits && !Blocking(kept.state)
                                    && dropped in s.waits && dropped !in Retain(s, l).waits && l.now - l.waitAge <= TimeOrZero(dropped.at)
              ==> TimeOrZero(dropped.at) <= TimeOrZero(kept.at)
  {
    hide Filter, NewestFirst, Take, ById, Blocking;
    var waits, cutoff := s.waits, l.now - l.waitAge;
    var active := ActiveWaits(waits);
    FilterDistinctWaits(IsActive(), waits);
    ByIdIsAll(active);
    var limit := if l.maxWaits < |active| then 0 else l.maxWaits - |active|;
    var terminal := Filter(WaitInWindow(cutoff), Filter(IsTerminal(), waits));
    TakeIn(NewestFirst(WaitTime(), terminal), limit);
    var r := RetainWaits(waits, cutoff, l.maxWaits);
    assert r == active + Take(NewestFirst(WaitTime(), terminal), limit);
    forall kept, dropped | kept in r && !Blocking(kept.state) && dropped in waits && dropped !in r && cutoff <= TimeOrZero(dropped.at)
      ensures TimeOrZero(dropped.at) <= TimeOrZero(kept.at)
    {
      assert !IsActive()(dropped);
      NewestAreKept(WaitTime(), terminal, limit, kept, dropped);
    }
  }

  /** An artifact that a retained request, approval or operation names survives. */
  lemma ReferencedArtifactsSurvive(s: Saved, l: Limits, a: Artifact)
    requires a in s.artifacts
    requires var r := Retain(s, l);
             || (exists x :: x in r.requests && x.artifactId == a.id)
             || (exists x :: x in r.approvals && x.artifactId == a.id)
             || (exists x :: x in r.operations && x.artifactId == a.id)
    ensures a in Retain(s, l).artifacts
  {
    hide Filter, NewestFirst, Take, RetainDevice;
    var r := Retain(s, l);
    NamesAreReferenced(r.requests);
    NamesAreReferenced(r.approvals);
    NamesAreReferenced(r.operations);
    var referenced := ReferencedBy(r.requests) + ReferencedBy(r.approvals) + ReferencedBy(r.operations);
    assert a in Filter(Referenced(referenced), s.artifacts);
  }

  lemma {:induction false} NamesAreReferenced(records: seq<DeviceRecord>)
    ensures forall x :: x in records ==> x.artifactId in ReferencedBy(records)
  {
    forall x | x in records ensures x.artifactId in ReferencedBy(records) {
      var i :| 0 <= i < |records| && records[i] == x;
    }
  }

  /** Stream events are kept only of sessions that are kept. */
  lemma EventsOfKeptSessions(s: Saved, l: Limits, e: StreamEvent)
    requires e in Retain(s, l).events
    ensures e in s.events && exists x :: x in Retain(s, l).sessions && x.id == e.sessionId
  {
    hide Filter, NewestFirst, Take;
    var ids := RetainedSessionIds(s.sessions, l.now - l.sessionAge, l.maxSessions);
    var sorted := NewestFirst(SessionTime(), Filter(Alive(l.now - l.sessionAge), s.sessions));
    TakeIn(sorted, l.maxSessions);
    SessionIdsOf(Take(sorted, l.maxSessions));
    EventsRetainedAgain(s.events, ids, l.maxEvents);
    LastNIn(Filter(OfSession(ids), s.events), l.maxEvents);
    var x :| x in Take(sorted, l.maxSessions) && x.id == e.sessionId;
    assert x in Filter(IdIn(ids), s.sessions);
  }

  lemma {:induction false} ByIdSize(waits: seq<WaitRecord>)
    ensures |ById(waits)| <= |waits|
  {
    if waits != [] { ByIdSize(waits[..|waits| - 1]); }
  }

  /** No list is longer than its limit, or than what is protected. */
  lemma RetainedSizes(s: Saved, l: Limits)
    requires DistinctSessions(s.sessions)
    ensures var r := Retain(s, l);
            && |r.sessions| <= l.maxSessions && (l.maxEvents > 0 ==> |r.events| <= l.maxEvents)
            && |r.requests| <= l.maxRequests && |r.approvals| <= l.maxApprovals && |r.operations| <= l.maxOperations
            && (|r.waits| <= l.maxWaits || |r.waits| <= |ActiveWaits(s.waits)|)
            && var referenced := ReferencedBy(r.requests) + ReferencedBy(r.approvals) + ReferencedBy(r.operations);
            && (|r.artifacts| <= l.maxArtifacts
                || (|r.artifacts| == |Filter(Referenced(referenced), s.artifacts)| && forall a :: a in r.artifacts ==> a.id in referenced))
  {
    hide Filter, NewestFirst, ById, RetainDevice, RetainedSessionIds;
    SessionsRetainedAgain(s.sessions, l.now - l.sessionAge, l.maxSessions);
    DeviceRetainedAgain(s.requests, l.now - l.deviceAge, l.maxRequests);
    DeviceRetainedAgain(s.approvals, l.now - l.deviceAge, l.maxApprovals);
    DeviceRetainedAgain(s.operations, l.now - l.deviceAge, l.maxOperations);
    ByIdSize(ActiveWaits(s.waits));
  }

  /**
   What a limit keeps of a list: some of the eligible, the newest first, and not all of them only when
   it keeps as many as it may.
   */
  ghost predicate NewestOf<T(!new)>(kept: seq<T>, s: seq<T>, eligible: T -> bool, at: T -> int, max: nat) {
    && |kept| <= max
    && (forall x :: x in kept ==> x in s && eligible(x))
    && (forall y :: y in s && eligible(y) && y !in kept ==> |kept| == max && forall x :: x in kept ==> at(y) <= at(x))
  }

  lemma {:induction false} TakenIsNewest<T(!new)>(s: seq<T>, eligible: T -> bool, at: T -> int, max: nat)
    ensures NewestOf(Take(NewestFirst(at, Filter(eligible, s)), max), s, eligible, at, max)
  {
    hide Filter, NewestFirst;
    var filtered := Filter(eligible, s);
    var sorted := NewestFirst(at, filtered);
    var kept := Take(sorted, max);
    TakeIn(sorted, max);
    forall y | y in s && eligible(y) && y !in kept ensures |kept| == max && forall x :: x in kept ==> at(y) <= at(x) {
      assert y in sorted;
      forall x | x in kept ensures at(y) <= at(x) { NewestAreKept(at, filtered, max, x, y); }
    }
  }

  /** Running, ready and paused sessions, and those that are not too old. */
  function MayStay(l: Limits): SessionRecord -> bool {
    (s: SessionRecord) =>
      s.lifecycle == Ready || s.lifecycle == Streaming || s.lifecycle == Paused
      || l.now - l.sessionAge <= (match s.at case Some(at) => at case None => 0)
  }

  function LastSeen(): SessionRecord -> int { (s: SessionRecord) => match s.at case Some(at) => at case None => 0 }

  /** The sessions that stay are the newest of those that may. */
  lemma SessionsSurvive(s: Saved, l: Limits)
    requires DistinctSessions(s.sessions)
    ensures NewestOf(Retain(s, l).sessions, s.sessions, MayStay(l), LastSeen(), l.maxSessions)
  {
    hide Filter, NewestFirst, Take, SessionIds;
    var cutoff := l.now - l.sessionAge;
    var top := Take(NewestFirst(SessionTime(), Filter(Alive(cutoff), s.sessions)), l.maxSessions);
    var r := Retain(s, l).sessions;
    TakenIsNewest(s.sessions, Alive(cutoff), SessionTime(), l.maxSessions);
    SessionIdsOf(top);
    SessionsRetainedAgain(s.sessions, cutoff, l.maxSessions);
    forall x | x in s.sessions ensures x in r <==> x in top {
      if x.id in SessionIds(top) {
        var y :| y in top && y.id == x.id;
        SameSession(s.sessions, x, y);
      }
    }
    SameSize(s, l, top);
    forall x ensures MayStay(l)(x) == Alive(cutoff)(x) && LastSeen()(x) == SessionTime()(x) {}
  }

  /** As many sessions are kept as were taken. */
  lemma {:induction false} SameSize(s: Saved, l: Limits, top: seq<SessionRecord>)
    requires DistinctSessions(s.sessions)
    requires top == Take(NewestFirst(SessionTime(), Filter(Alive(l.now - l.sessionAge), s.sessions)), l.maxSessions)
    requires forall x :: x in s.sessions ==> (x in Retain(s, l).sessions <==> x in top)
    ensures |Retain(s, l).sessions| == |top|
  {
    hide Filter, NewestFirst, SessionIds;
    var filtered := Filter(Alive(l.now - l.sessionAge), s.sessions);
    FilterDistinct(Alive(l.now - l.sessionAge), s.sessions);
    SortDistinct(SessionTime(), filtered);
    var r := Retain(s, l).sessions;
    FilterDistinct(IdIn(RetainedSessionIds(s.sessions, l.now - l.sessionAge, l.maxSessions)), s.sessions);
    DistinctCounted(r);
    DistinctCounted(top);
    SessionIdsOf(r);
    SessionIdsOf(top);
    assert SessionIds(r) == SessionIds(top);
  }

  lemma {:induction false} SortDistinct(at: SessionRecord -> int, sessions: seq<SessionRecord>)
    requires DistinctSessions(sessions)
    ensures DistinctSessions(NewestFirst(at, sessions))
  {
    hide Place;
    if sessions != [] {
      SortDistinct(at, sessions[1..]);
      PlaceDistinct(at, sessions[0], NewestFirst(at, sessions[1..]));
    }
  }

  lemma {:induction false} PlaceDistinct(at: SessionRecord -> int, x: SessionRecord, s: seq<SessionRecord>)
    requires DistinctSessions(s) && forall y :: y in s ==> y.id != x.id
    ensures DistinctSessions(Place(at, x, s))
  {
    if s != [] && !(at(s[0]) <= at(x)) {
      PlaceDistinct(at, x, s[1..]);
      assert forall y :: y in s[1..] ==> y.id != s[0].id;
    }
  }

  /** Records with a readable time that are not too old. */
  function Recent(l: Limits): DeviceRecord -> bool { (r: DeviceRecord) => r.at.Some? && l.now - l.deviceAge <= r.at.value }

  function MadeAt(): DeviceRecord -> int { (r: DeviceRecord) => match r.at case Some(at) => at case None => 0 }

  /** So are the requests, approvals and operations. */
  lemma DeviceRecordsSurvive(s: Saved, l: Limits)
    ensures var r := Retain(s, l);
            && NewestOf(r.requests, s.requests, Recent(l), MadeAt(), l.maxRequests)
            && NewestOf(r.approvals, s.approvals, Recent(l), MadeAt(), l.maxApprovals)
            && NewestOf(r.operations, s.operations, Recent(l), MadeAt(), l.maxOperations)
  {
    hide NewestOf, RetainDevice, RetainArtifacts, RetainWaits, RetainedSessionIds, Filter;
    DeviceNewest(s.requests, l, l.maxRequests);
    DeviceNewest(s.approvals, l, l.maxApprovals);
    DeviceNewest(s.operations, l, l.maxOperations);
  }

  lemma {:induction false} DeviceNewest(records: seq<DeviceRecord>, l: Limits, max: nat)
    ensures NewestOf(RetainDevice(records, l.now - l.deviceAge, max), records, Recent(l), MadeAt(), max)
  {
    hide Filter, NewestFirst, Take;
    TakenIsNewest(records, InWindow(l.now - l.deviceAge), DeviceTime(), max);
    forall x ensures Recent(l)(x) == InWindow(l.now - l.deviceAge)(x) && MadeAt()(x) == DeviceTime()(x) {}
  }

  /** The artifacts that no retained record names, and that are not too old. */
  function Idle(l: Limits, referenced: set<Id>): Artifact -> bool {
    (a: Artifact) => a.id !in referenced && a.at.Some? && l.now - l.deviceAge <= a.at.value
  }

  function UploadedAt(): Artifact -> int { (a: Artifact) => match a.at case Some(at) => at case None => 0 }

  /** Behind the referenced artifacts, the newest of the others fill what is left of the limit. */
  lemma ArtifactsSurvive(s: Saved, l: Limits)
    ensures var r := Retain(s, l);
            var referenced := ReferencedBy(r.requests) + ReferencedBy(r.approvals) + ReferencedBy(r.operations);
            var protected := Filter(Referenced(referenced), s.artifacts);
            && protected <= r.artifacts
            && NewestOf(r.artifacts[|protected|..], s.artifacts, Idle(l, referenced), UploadedAt(),
                        if l.maxArtifacts < |protected| then 0 else l.maxArtifacts - |protected|)
  {
    hide Filter, NewestFirst, Take, RetainDevice;
    var r := Retain(s, l);
    var referenced := ReferencedBy(r.requests) + ReferencedBy(r.approvals) + ReferencedBy(r.operations);
    var protected := Filter(Referenced(referenced), s.artifacts);
    var slots := if l.maxArtifacts < |protected| then 0 else l.maxArtifacts - |protected|;
    var cutoff := l.now - l.deviceAge;
    TakenIsNewest(s.artifacts, Unreferenced(referenced, cutoff), ArtifactTime(), slots);
    var rest := Take(NewestFirst(ArtifactTime(), Filter(Unreferenced(referenced, cutoff), s.artifacts)), slots);
    assert r.artifacts == protected + rest && r.artifacts[|protected|..] == rest;
    forall x ensures Idle(l, referenced)(x) == Unreferenced(referenced, cutoff)(x) && UploadedAt()(x) == ArtifactTime()(x) {}
  }

  /** The stream events of a list whose session is one of these, in their order. */
  ghost predicate EventsOf(kept: seq<StreamEvent>, events: seq<StreamEvent>, sessions: seq<SessionRecord>) {
    if events == [] then kept == []
    else if exists x :: x in sessions && x.id == events[|events| - 1].sessionId
    then kept != [] && kept[|kept| - 1] == events[|events| - 1] && EventsOf(kept[..|kept| - 1], events[..|events| - 1], sessions)
    else EventsOf(kept, events[..|events| - 1], sessions)
  }

  lemma {:induction false} FilterLast<T(!new)>(keep: T -> bool, s: seq<T>)
    requires s != []
    ensures Filter(keep, s) == Filter(keep, s[..|s| - 1]) + (if keep(s[|s| - 1]) then [s[|s| - 1]] else [])
  {
    if |s| > 1 {
      FilterLast(keep, s[1..]);
      assert s[1..][..|s[1..]| - 1] == s[..|s| - 1][1..];
      assert s[1..][|s[1..]| - 1] == s[|s| - 1];
    }
  }

  lemma {:induction false} FilteredEvents(ids: set<Id>, events: seq<StreamEvent>, sessions: seq<SessionRecord>)
    requires forall id :: id in ids <==> exists x :: x in sessions && x.id == id
    ensures EventsOf(Filter(OfSession(ids), events), events, sessions)
    decreases |events|
  {
    if events != [] {
      hide Filter;
      FilterLast(OfSession(ids), events);
      FilteredEvents(ids, events[..|events| - 1], sessions);
      var init := Filter(OfSession(ids), events[..|events| - 1]);
      assert (init + [events[|events| - 1]])[..|init|] == init && init + [] == init;
    }
  }

  /** Of the stream events of kept sessions the last ones stay, as many as the limit allows. */
  lemma EventsSurvive(s: Saved, l: Limits)
    requires DistinctSessions(s.sessions) && l.maxEvents > 0
    ensures var r := Retain(s, l);
            exists older :: EventsOf(older + r.events, s.events, r.sessions) && (older != [] ==> |r.events| == l.maxEvents)
  {
    hide Filter, NewestFirst, Take, SessionIds, EventsOf;
    var r := Retain(s, l);
    var cutoff := l.now - l.sessionAge;
    var ids := RetainedSessionIds(s.sessions, cutoff, l.maxSessions);
    var top := Take(NewestFirst(SessionTime(), Filter(Alive(cutoff), s.sessions)), l.maxSessions);
    TakeIn(NewestFirst(SessionTime(), Filter(Alive(cutoff), s.sessions)), l.maxSessions);
    SessionIdsOf(top);
    forall id ensures id in ids <==> exists x :: x in r.sessions && x.id == id {
      if id in ids {
        var x :| x in top && x.id == id;
        assert x in Filter(IdIn(ids), s.sessions);
      }
    }
    FilteredEvents(ids, s.events, r.sessions);
    var all := Filter(OfSession(ids), s.events);
    var older := all[..|all| - |r.events|];
    assert older + r.events == all;
  }

  // ---- waits that share an id ------------------------------------------------------------------------

  /** The record at `i` is the last one with its id. */
  predicate LastAt(waits: seq<WaitRecord>, i: int, w: WaitRecord) {
    0 <= i < |waits| && waits[i] == w && forall j :: i < j < |waits| ==> waits[j].id != w.id
  }

  ghost predicate HasLast(waits: seq<WaitRecord>, w: WaitRecord) {
    exists i :: LastAt(waits, i, w)
  }

  /** The active record at `i` is the last active one with its id. */
  predicate LastActiveAt(waits: seq<WaitRecord>, i: int, w: WaitRecord) {
    0 <= i < |waits| && waits[i] == w && Blocking(w.state) && forall j :: i < j < |waits| && Blocking(waits[j].state) ==> waits[j].id != w.id
  }

  ghost predicate HasLastActive(waits: seq<WaitRecord>, w: WaitRecord) {
    exists i :: LastActiveAt(waits, i, w)
  }

  lemma {:induction false} HasLastAppend(waits: seq<WaitRecord>, x: WaitRecord, w: WaitRecord)
    ensures HasLast(waits + [x], w) <==> w == x || (HasLast(waits, w) && w.id != x.id)
  {
    var all := waits + [x];
    forall j | 0 <= j < |waits| ensures all[j] == waits[j] {}
    if w == x { assert LastAt(all, |waits|, w); }
    if HasLast(waits, w) && w.id != x.id {
      var i :| LastAt(waits, i, w);
      assert LastAt(all, i, w);
    }
    if HasLast(all, w) && w != x {
      var i :| LastAt(all, i, w);
      assert all[|waits|] == x;
      assert LastAt(waits, i, w);
    }
  }

  lemma {:induction false} HasLastActiveAppend(waits: seq<WaitRecord>, x: WaitRecord, w: WaitRecord)
    ensures HasLastActive(waits + [x], w)
            <==> if Blocking(x.state) then w == x || (HasLastActive(waits, w) && w.id != x.id) else HasLastActive(waits, w)
  {
    hide Blocking;
    var all := waits + [x];
    assert all[|waits|] == x;
    forall j | 0 <= j < |waits| ensures all[j] == waits[j] {}
    if Blocking(x.state) && w == x { assert LastActiveAt(all, |waits|, w); }
    if HasLastActive(waits, w) && (!Blocking(x.state) || w.id != x.id) {
      var i :| LastActiveAt(waits, i, w);
      assert LastActiveAt(all, i, w);
    }
    if HasLastActive(all, w) && (w != x || !Blocking(x.state)) {
      var i :| LastActiveAt(all, i, w);
      assert LastActiveAt(waits, i, w);
    }
  }

  lemma {:induction false} ActiveLast(waits: seq<WaitRecord>, w: WaitRecord)
    ensures HasLast(ActiveWaits(waits), w) <==> HasLastActive(waits, w)
  {
    hide HasLast, HasLastActive, Blocking, LastAt, LastActiveAt;
    if waits == [] {
      NoLast(w);
    } else {
      var init, x := waits[..|waits| - 1], waits[|waits| - 1];
      assert waits == init + [x];
      ActiveLast(init, w);
      FilterAppend(IsActive(), init, [x]);
      HasLastActiveAppend(init, x, w);
      HasLastAppend(ActiveWaits(init), x, w);
      assert Filter(IsActive(), [x]) == if Blocking(x.state) then [x] else [];
      assert ActiveWaits(init) + [] == ActiveWaits(init);
    }
  }

  lemma NoLast(w: WaitRecord)
    ensures !HasLast([], w) && !HasLastActive([], w)
  {
  }

  lemma {:induction false} ReplaceIn(waits: seq<WaitRecord>, w: WaitRecord)
    ensures forall i :: 0 <= i < |waits| ==> Replace(waits, w)[i] == if waits[i].id == w.id then w else waits[i]
  {
    if waits != [] { ReplaceIn(waits[1..], w); }
  }

  lemma {:induction false} ByIdLast(waits: seq<WaitRecord>)
    ensures DistinctWaits(ById(waits)) && forall w :: w in ById(waits) <==> HasLast(waits, w)
  {
    hide HasLast;
    if waits == [] {
      forall w ensures !HasLast([], w) { NoLast(w); }
    } else {
      var init, x := waits[..|waits| - 1], waits[|waits| - 1];
      assert waits == init + [x];
      ByIdLast(init);
      ReplaceIn(ById(init), x);
      forall w ensures w in ById(waits) <==> HasLast(waits, w) {
        HasLastAppend(init, x, w);
        ByIdNext(init, x, w);
      }
      ByIdNextDistinct(init, x);
    }
  }

  lemma {:induction false} ByIdNext(init: seq<WaitRecord>, x: WaitRecord, w: WaitRecord)
    ensures w in ById(init + [x]) <==> w == x || (w in ById(init) && w.id != x.id)
  {
    var ws := ById(init);
    assert (init + [x])[..|init + [x]| - 1] == init;
    ReplaceIn(ws, x);
    var next := ById(init + [x]);
    if w in ws && w.id != x.id {
      var i :| 0 <= i < |ws| && ws[i] == w;
      assert next[i] == w;
    }
    if w == x {
      if i :| 0 <= i < |ws| && ws[i].id == x.id { assert next[i] == x; } else { assert next[|ws|] == x; }
    }
    if w in next && w != x {
      var i :| 0 <= i < |next| && next[i] == w;
      assert ws[i] == w;
    }
  }

  lemma {:induction false} ByIdNextDistinct(init: seq<WaitRecord>, x: WaitRecord)
    requires DistinctWaits(ById(init))
    ensures DistinctWaits(ById(init + [x]))
  {
    assert (init + [x])[..|init + [x]| - 1] == init;
    ReplaceIn(ById(init), x);
  }

  /** A wait that is over and not too old. */
  function Over(l: Limits): WaitRecord -> bool {
    (w: WaitRecord) => !Blocking(w.state) && l.now - l.waitAge <= (match w.at case Some(at) => at case None => 0)
  }

  function UpdatedAt(): WaitRecord -> int { (w: WaitRecord) => match w.at case Some(at) => at case None => 0 }

  /** The first `n` of the waits that stay are the last active record of each id, and the newest of those that are over fill what is left of the limit. */
  ghost predicate WaitsKept(kept: seq<WaitRecord>, n: nat, waits: seq<WaitRecord>, l: Limits) {
    && n <= |kept| && DistinctWaits(kept[..n])
    && (forall w :: w in kept[..n] <==> HasLastActive(waits, w))
    && NewestOf(kept[n..], waits, Over(l), UpdatedAt(), if l.maxWaits < n then 0 else l.maxWaits - n)
  }

  lemma {:induction false} TerminalNewest(waits: seq<WaitRecord>, l: Limits, max: nat)
    ensures NewestOf(Take(NewestFirst(WaitTime(), Filter(WaitInWindow(l.now - l.waitAge), Filter(IsTerminal(), waits))), max), waits, Over(l), UpdatedAt(), max)
  {
    hide Filter, NewestFirst, Take;
    var terminal := Filter(IsTerminal(), waits);
    TakenIsNewest(terminal, WaitInWindow(l.now - l.waitAge), WaitTime(), max);
  }

  /** Of any saved waits, also of several with one id. */
  lemma WaitsKeptExactly(s: Saved, l: Limits)
    ensures exists n :: WaitsKept(Retain(s, l).waits, n, s.waits, l)
  {
    hide Filter, NewestFirst, Take, ById, RetainDevice, RetainArtifacts, NewestOf, HasLastActive, HasLast;
    var active := ById(ActiveWaits(s.waits));
    var limit := if l.maxWaits < |active| then 0 else l.maxWaits - |active|;
    var rest := Take(NewestFirst(WaitTime(), Filter(WaitInWindow(l.now - l.waitAge), Filter(IsTerminal(), s.waits))), limit);
    TerminalNewest(s.waits, l, limit);
    ByIdLast(ActiveWaits(s.waits));
    forall w ensures w in active <==> HasLastActive(s.waits, w) { ActiveLast(s.waits, w); }
    var kept := Retain(s, l).waits;
    assert kept == active + rest && kept[..|active|] == active && kept[|active|..] == rest;
    assert WaitsKept(kept, |active|, s.waits, l);
  }

  // ---- sessions blocked by the old timeout ---------------------------------------------------------

  const TIMED_OUT := "Codex runner timed out and was stopped."
  const FAILED := "Codex runner failed."

  predicate TerminalMessage(e: StreamEvent) {
    e.system && e.message in {"Codex runner completed.", "Codex runner was cancelled.", "Codex runner timed out and was stopped.", "Codex runner failed."}
  }

  /** The terminal messages of a session, oldest first. */
  function Terminals(events: seq<StreamEvent>, sid: Id): seq<string> {
    if events == [] then []
    else
      var e := events[|events| - 1];
      Terminals(events[..|events| - 1], sid) + (if TerminalMessage(e) && e.sessionId == sid then [e.message] else [])
  }

  predicate EndsWith(messages: seq<string>, a: string, b: string) {
    |messages| >= 2 && messages[|messages| - 2] == a && messages[|messages| - 1] == b
  }

  predicate EndsInTimeout(messages: seq<string>) {
    EndsWith(messages, "Codex runner timed out and was stopped.", "Codex runner failed.")
  }

  /** `legacyTimeoutBlockedSessionIds`: sessions whose last two runs messages are a timeout and a failure. */
  method LegacyTimeoutBlocked(events: seq<StreamEvent>) returns (blocked: set<Id>)
    ensures forall sid :: sid in blocked <==> EndsInTimeout(Terminals(events, sid))
  {
    hide Terminals, TerminalMessage, LastN, EndsWith, TIMED_OUT, FAILED;
    var terminal: map<Id, seq<string>> := map[];
    NoTerminals();
    for i := 0 to |events|
      invariant forall sid :: sid in terminal ==> terminal[sid] == LastN(Terminals(events[..i], sid), 2)
      invariant forall sid :: sid !in terminal ==> Terminals(events[..i], sid) == []
    {
      var e := events[i];
      TerminalsGrow(events, i);
      if TerminalMessage(e) {
        var messages := if e.sessionId in terminal then terminal[e.sessionId] else [];
        LastNGrows(Terminals(events[..i], e.sessionId), [e.message], 2);
        terminal := terminal[e.sessionId := LastN(messages + [e.message], 2)];
      }
    }
    assert events[..|events|] == events;
    blocked := set sid | sid in terminal && |terminal[sid]| == 2 && terminal[sid][0] == TIMED_OUT && terminal[sid][1] == FAILED;
    forall sid ensures sid in blocked <==> EndsInTimeout(Terminals(events, sid)) {
      var messages := Terminals(events, sid);
      LastTwoEnds(messages, TIMED_OUT, FAILED);
      TimeoutIs(messages);
      if sid in terminal { assert terminal[sid] == LastN(messages, 2); } else { assert LastN(messages, 2) == []; }
    }
  }

  lemma NoTerminals()
    ensures forall sid :: Terminals([], sid) == []
    ensures LastN<string>([], 2) == []
  {
  }

  lemma {:induction false} TerminalsGrow(events: seq<StreamEvent>, i: nat)
    requires i < |events|
    ensures forall sid :: Terminals(events[..i + 1], sid)
                       == if TerminalMessage(events[i]) && events[i].sessionId == sid then Terminals(events[..i], sid) + [events[i].message]
                          else Terminals(events[..i], sid)
  {
    hide TerminalMessage;
    assert events[..i + 1][..i] == events[..i];
  }

  lemma {:induction false} LastTwoEnds(messages: seq<string>, a: string, b: string)
    ensures var m := LastN(messages, 2);
            EndsWith(messages, a, b) <==> |m| == 2 && m[0] == a && m[1] == b
  {
  }

  lemma TimeoutIs(messages: seq<string>)
    ensures EndsInTimeout(messages) <==> EndsWith(messages, TIMED_OUT, FAILED)
  {
  }
}
