/**
 Single use of controlled operation grants: the durable store that forgets old nonces and holds at
 most 10,000, against the store that remembers every nonce.
 */
module ReplayStore {
  const MAX_AGE: nat := 600000
  const MAX_RECORDS: nat := 10000

  datatype Grant = Grant(nonce: string, issuedAt: nat, expiresAt: nat)

  /** One execution: when its last verification and when its consumption read the clock. */
  datatype Attempt = Attempt(grant: Grant, verifiedAt: nat, consumedAt: nat)

  datatype Outcome = Accepted | Replayed | Full | GrantInvalid | GrantExpired

  predicate NonceCharacter(c: char) { '0' <= c <= '9' || 'a' <= c <= 'f' || c == '-' }

  predicate ValidNonce(nonce: string) {
    |nonce| == 36 && forall i :: 0 <= i < |nonce| ==> NonceCharacter(nonce[i])
  }

  /** The time window of `authenticateControlledOperationGrant` */
  predicate InWindow(g: Grant, now: nat) {
    now < g.expiresAt && g.issuedAt <= now && g.expiresAt - g.issuedAt <= MAX_AGE
  }

  // ---- the durable store -----------------------------------------------------------------------

  /** Nonces with the modification time of their file. */
  type Records = map<string, nat>

  predicate Old(consumedAt: nat, now: nat) {
    consumedAt < now - MAX_AGE
  }

  function Prune(records: Records, now: nat): Records {
    map n | n in records && !Old(records[n], now) :: records[n]
  }

  function Consume(records: Records, nonce: string, now: nat): (Records, Outcome) {
    if !ValidNonce(nonce) then (records, GrantInvalid)
    else
      var kept := Prune(records, now);
      if |kept| >= MAX_RECORDS then (kept, Full)
      else if nonce in kept then (kept, Replayed)
      else (kept[nonce := now], Accepted)
  }

  function Execute(records: Records, a: Attempt): (Records, Outcome) {
    if !InWindow(a.grant, a.verifiedAt) then (records, GrantExpired)
    else Consume(records, a.grant.nonce, a.consumedAt)
  }

  /** The store after a run, and its outcomes. */
  function Run(attempts: seq<Attempt>): (r: (Records, seq<Outcome>))
    ensures |r.1| == |attempts|
  {
    if attempts == [] then (map[], [])
    else
      var (records, outcomes) := Run(attempts[..|attempts| - 1]);
      var (records', outcome) := Execute(records, attempts[|attempts| - 1]);
      (records', outcomes + [outcome])
  }

  // ---- what every run keeps --------------------------------------------------------------------

  /** The clock never goes back, and an execution consumes after it has verified. */
  ghost predicate ClockAdvances(attempts: seq<Attempt>) {
    && (forall i :: 0 <= i < |attempts| ==> attempts[i].verifiedAt <= attempts[i].consumedAt)
    && (forall i, j :: 0 <= i < j < |attempts| ==> attempts[i].consumedAt <= attempts[j].consumedAt)
  }

  lemma {:induction false} OutcomesGrow(attempts: seq<Attempt>, k: nat)
    requires k < |attempts|
    ensures Run(attempts).1[k] == Run(attempts[..k + 1]).1[k]
    decreases |attempts|
  {
    if k < |attempts| - 1 {
      var init := attempts[..|attempts| - 1];
      OutcomesGrow(init, k);
      assert init[..k + 1] == attempts[..k + 1];
    } else {
      assert attempts[..k + 1] == attempts;
    }
  }

  lemma {:induction false} NeverTooMany(attempts: seq<Attempt>)
    ensures |Run(attempts).0| <= MAX_RECORDS
  {
    if attempts != [] {
      NeverTooMany(attempts[..|attempts| - 1]);
      var records := Run(attempts[..|attempts| - 1]).0;
      var last := attempts[|attempts| - 1];
      PruneShrinks(records, last.consumedAt);
    }
  }

  lemma {:induction false} PruneShrinks(records: Records, now: nat)
    ensures |Prune(records, now)| <= |records|
  {
    var kept := Prune(records, now);
    assert kept.Keys <= records.Keys;
    SubsetSize(kept.Keys, records.Keys);
    assert |kept.Keys| == |kept| && |records.Keys| == |records|;
  }

  lemma {:induction false} SubsetSize(a: set<string>, b: set<string>)
    requires a <= b
    ensures |a| <= |b|
  {
    assert b == a + (b - a);
  }

  predicate AcceptedAt(attempts: seq<Attempt>, outcomes: seq<Outcome>, i: int, nonce: string) {
    0 <= i < |attempts| && i < |outcomes| && outcomes[i] == Accepted && attempts[i].grant.nonce == nonce
  }

  /** The store holds acceptances, and has dropped only those that are too old by `now`. */
  ghost predicate Remembers(records: Records, attempts: seq<Attempt>, outcomes: seq<Outcome>, now: nat) {
    && (forall n :: n in records ==> exists i :: AcceptedAt(attempts, outcomes, i, n) && attempts[i].consumedAt == records[n])
    && (forall i, n :: AcceptedAt(attempts, outcomes, i, n) ==>
          Old(attempts[i].consumedAt, now) || (n in records && attempts[i].consumedAt <= records[n]))
  }

  function Latest(attempts: seq<Attempt>): nat {
    if attempts == [] then 0 else attempts[|attempts| - 1].consumedAt
  }

  lemma {:induction false} RunRemembers(attempts: seq<Attempt>)
    requires ClockAdvances(attempts)
    ensures Remembers(Run(attempts).0, attempts, Run(attempts).1, Latest(attempts))
    decreases |attempts|
  {
    hide Remembers, Execute;
    if attempts == [] {
      NothingRemembered();
    } else {
      var init, last := attempts[..|attempts| - 1], attempts[|attempts| - 1];
      assert attempts == init + [last];
      RunRemembers(init);
      var (records, outcomes) := Run(init);
      StepRemembers(records, init, outcomes, last);
    }
  }

  lemma {:induction false} NothingRemembered()
    ensures Remembers(Run([]).0, [], Run([]).1, 0)
  {
  }

  lemma {:induction false} StepRemembers(records: Records, init: seq<Attempt>, outcomes: seq<Outcome>, last: Attempt)
    requires |outcomes| == |init| && ClockAdvances(init + [last]) && Remembers(records, init, outcomes, Latest(init))
    ensures var (records', outcome) := Execute(records, last);
            Remembers(records', init + [last], outcomes + [outcome], last.consumedAt)
  {
    hide ValidNonce, InWindow;
    var (records', outcome) := Execute(records, last);
    var attempts, outcomes' := init + [last], outcomes + [outcome];
    if init != [] { assert attempts[|init| - 1].consumedAt <= attempts[|init|].consumedAt; }
    forall n | n in records' ensures exists i :: AcceptedAt(attempts, outcomes', i, n) && attempts[i].consumedAt == records'[n] {
      if outcome == Accepted && n == last.grant.nonce {
        assert AcceptedAt(attempts, outcomes', |init|, n);
      } else {
        var i :| AcceptedAt(init, outcomes, i, n) && init[i].consumedAt == records[n];
        assert AcceptedAt(attempts, outcomes', i, n) && attempts[i] == init[i];
      }
    }
    forall i, n | AcceptedAt(attempts, outcomes', i, n)
      ensures Old(attempts[i].consumedAt, last.consumedAt) || (n in records' && attempts[i].consumedAt <= records'[n])
    {
      assert attempts[i].consumedAt <= last.consumedAt;
      if i < |init| { assert AcceptedAt(init, outcomes, i, n); }
    }
  }

  // ---- the promise -----------------------------------------------------------------------------

  /** What an execution finds out from what the store remembers. */
  lemma {:induction false} ExecuteDecides(records: Records, init: seq<Attempt>, outcomes: seq<Outcome>, last: Attempt)
    requires Remembers(records, init, outcomes, Latest(init)) && Latest(init) <= last.consumedAt
    ensures Execute(records, last).1 == Accepted ==>
              forall i :: AcceptedAt(init, outcomes, i, last.grant.nonce) ==> Old(init[i].consumedAt, last.consumedAt)
    ensures Execute(records, last).1 == Replayed ==>
              exists i :: AcceptedAt(init, outcomes, i, last.grant.nonce) && !Old(init[i].consumedAt, last.consumedAt)
  {
    hide ValidNonce, InWindow;
  }

  /** The outcome of the last attempt of a run, from the acceptances before it. */
  lemma {:induction false} LastOutcome(attempts: seq<Attempt>)
    requires attempts != [] && ClockAdvances(attempts)
    ensures var n := |attempts| - 1;
            var outcomes := Run(attempts).1;
            var nonce := attempts[n].grant.nonce;
            && (outcomes[n] == Accepted ==>
                  forall i :: 0 <= i < n && AcceptedAt(attempts, outcomes, i, nonce) ==> Old(attempts[i].consumedAt, attempts[n].consumedAt))
            && (outcomes[n] == Replayed ==>
                  exists i :: 0 <= i < n && AcceptedAt(attempts, outcomes, i, nonce) && !Old(attempts[i].consumedAt, attempts[n].consumedAt))
  {
    hide Execute, Remembers, Old;
    var n := |attempts| - 1;
    var init, last := attempts[..n], attempts[n];
    assert ClockAdvances(init);
    RunRemembers(init);
    var (records, outcomes) := Run(init);
    if n > 0 { assert attempts[n - 1].consumedAt <= attempts[n].consumedAt; }
    ExecuteDecides(records, init, outcomes, last);
    var all := Run(attempts).1;
    assert all == outcomes + [Execute(records, last).1];
    forall i | 0 <= i < n ensures AcceptedAt(attempts, all, i, last.grant.nonce) == AcceptedAt(init, outcomes, i, last.grant.nonce) {}
  }

  lemma {:induction false} Prefix(attempts: seq<Attempt>, k: nat)
    requires k < |attempts|
    ensures forall i :: 0 <= i <= k ==> Run(attempts[..k + 1]).1[i] == Run(attempts).1[i]
    ensures ClockAdvances(attempts) ==> ClockAdvances(attempts[..k + 1])
  {
    var init := attempts[..k + 1];
    forall i | 0 <= i <= k ensures Run(init).1[i] == Run(attempts).1[i] {
      OutcomesGrow(attempts, i);
      OutcomesGrow(init, i);
      assert init[..i + 1] == attempts[..i + 1];
    }
  }

  /** The nonces the store still holds: those it has accepted no more than ten minutes before. */
  function StillHeld(records: Records, now: nat): set<string> {
    set n | n in records && now <= records[n] + 600000
  }

  predicate InTime(a: Attempt) {
    a.grant.issuedAt <= a.verifiedAt < a.grant.expiresAt <= a.grant.issuedAt + 600000
  }

  predicate WellFormed(nonce: string) {
    |nonce| == 36 && forall i :: 0 <= i < 36 ==> nonce[i] in "0123456789abcdef-"
  }

  predicate HasRoom(attempts: seq<Attempt>, k: nat)
    requires k < |attempts|
  {
    |StillHeld(Run(attempts[..k]).0, attempts[k].consumedAt)| < 10000
  }

  /** The grant is verified within its ten minutes, its nonce is well formed, and the store has room. */
  predicate Passes(attempts: seq<Attempt>, k: nat)
    requires k < |attempts|
  {
    InTime(attempts[k]) && WellFormed(attempts[k].grant.nonce) && HasRoom(attempts, k)
  }

  lemma PrunedIsHeld(records: Records, now: nat)
    ensures |Prune(records, now)| == |StillHeld(records, now)|
  {
    var kept := Prune(records, now);
    assert kept.Keys == StillHeld(records, now);
    assert |kept.Keys| == |kept|;
  }

  lemma NonceCharacters(c: char)
    ensures NonceCharacter(c) <==> c in "0123456789abcdef-"
  {
  }

  /** Only then does single use decide; otherwise the first check that fails is the reason. */
  lemma {:induction false} PassesExactly(attempts: seq<Attempt>, k: nat)
    requires k < |attempts|
    ensures Passes(attempts, k) <==> Run(attempts).1[k] == Accepted || Run(attempts).1[k] == Replayed
    ensures Run(attempts).1[k] == GrantExpired <==> !InTime(attempts[k])
    ensures Run(attempts).1[k] == GrantInvalid <==> InTime(attempts[k]) && !WellFormed(attempts[k].grant.nonce)
    ensures Run(attempts).1[k] == Full <==> InTime(attempts[k]) && WellFormed(attempts[k].grant.nonce) && !HasRoom(attempts, k)
  {
    OutcomesGrow(attempts, k);
    assert attempts[..k + 1][..k] == attempts[..k];
    PrunedIsHeld(Run(attempts[..k]).0, attempts[k].consumedAt);
    var nonce := attempts[k].grant.nonce;
    forall i | 0 <= i < |nonce| ensures NonceCharacter(nonce[i]) <==> nonce[i] in "0123456789abcdef-" { NonceCharacters(nonce[i]); }
  }

  /**
   An attempt that gets past its checks is refused as a replay exactly when its nonce was accepted no
   more than ten minutes before it consumes.
   */
  lemma {:induction false} RefusedExactly(attempts: seq<Attempt>, k: nat)
    requires k < |attempts| && ClockAdvances(attempts)
    requires Passes(attempts, k)
    ensures var outcomes := Run(attempts).1;
            && (outcomes[k] == Accepted || outcomes[k] == Replayed)
            && (outcomes[k] == Replayed <==>
                  exists i :: 0 <= i < k && AcceptedAt(attempts, outcomes, i, attempts[k].grant.nonce)
                             && attempts[k].consumedAt <= attempts[i].consumedAt + 600000)
  {
    hide InWindow, ValidNonce, Passes;
    PassesExactly(attempts, k);
    var init := attempts[..k + 1];
    Prefix(attempts, k);
    LastOutcome(init);
    var outcomes, all := Run(init).1, Run(attempts).1;
    if all[k] == Replayed {
      var i :| 0 <= i < k && AcceptedAt(init, outcomes, i, attempts[k].grant.nonce) && !Old(init[i].consumedAt, init[k].consumedAt);
      assert AcceptedAt(attempts, all, i, attempts[k].grant.nonce);
    } else {
      forall i | 0 <= i < k && AcceptedAt(attempts, all, i, attempts[k].grant.nonce) ensures Old(attempts[i].consumedAt, attempts[k].consumedAt) {
        assert AcceptedAt(init, outcomes, i, attempts[k].grant.nonce);
      }
    }
  }

  /** A grant is accepted twice only when the second execution consumes more than ten minutes after the first, hence after its window. */
  lemma {:induction false} AcceptedTwiceOnlyLate(attempts: seq<Attempt>, i: nat, k: nat)
    requires i < k < |attempts| && ClockAdvances(attempts) && attempts[i].grant == attempts[k].grant
    requires Run(attempts).1[i] == Accepted && Run(attempts).1[k] == Accepted
    ensures attempts[i].consumedAt + MAX_AGE < attempts[k].consumedAt
    ensures attempts[k].verifiedAt < attempts[k].grant.expiresAt < attempts[k].consumedAt
  {
    PassesExactly(attempts, k);
    RefusedExactly(attempts, k);
    assert AcceptedAt(attempts, Run(attempts).1, i, attempts[k].grant.nonce);
    AcceptedVerifies(attempts, i);
    AcceptedVerifies(attempts, k);
  }

  lemma {:induction false} AcceptedVerifies(attempts: seq<Attempt>, k: nat)
    requires k < |attempts| && Run(attempts).1[k] == Accepted
    ensures InWindow(attempts[k].grant, attempts[k].verifiedAt)
  {
    OutcomesGrow(attempts, k);
    assert attempts[..k + 1][..k] == attempts[..k];
  }

  // ---- the store that remembers everything -------------------------------------------------------

  /** The store in memory refuses every nonce it has seen and forgets none. */
  function Remember(consumed: set<string>, nonce: string): (set<string>, bool) {
    (consumed + {nonce}, nonce !in consumed)
  }

  /** The unbounded store after a run, and its outcomes. */
  function Unbounded(attempts: seq<Attempt>): (set<string>, seq<Outcome>) {
    if attempts == [] then ({}, [])
    else
      var (consumed, outcomes) := Unbounded(attempts[..|attempts| - 1]);
      var (consumed', accepted) := Remember(consumed, attempts[|attempts| - 1].grant.nonce);
      (consumed', outcomes + [if accepted then Accepted else Replayed])
  }

  /** The attempts of a run that get past their checks, and what the durable store answered to them. */
  function Passing(attempts: seq<Attempt>): (seq<Attempt>, seq<Outcome>) {
    if attempts == [] then ([], [])
    else
      var n := |attempts| - 1;
      var (passed, outcomes) := Passing(attempts[..n]);
      if Passes(attempts, n) then (passed + [attempts[n]], outcomes + [Run(attempts).1[n]]) else (passed, outcomes)
  }

  /** What is verified in its window is consumed before the window has ended. */
  ghost predicate ConsumesInTime(attempts: seq<Attempt>) {
    forall i :: 0 <= i < |attempts| && InWindow(attempts[i].grant, attempts[i].verifiedAt) ==> attempts[i].consumedAt <= attempts[i].grant.expiresAt
  }

  /** A nonce belongs to one grant. */
  ghost predicate NoncesUnique(attempts: seq<Attempt>) {
    forall i, j :: 0 <= i < j < |attempts| && attempts[i].grant.nonce == attempts[j].grant.nonce ==> attempts[i].grant == attempts[j].grant
  }

  /** Nonces that the durable store has accepted before attempt `k`. */
  ghost predicate Consumed(attempts: seq<Attempt>, k: nat, nonce: string) {
    exists i :: 0 <= i < k && AcceptedAt(attempts, Run(attempts).1, i, nonce)
  }

  lemma {:induction false} AcceptedOnce(attempts: seq<Attempt>, k: nat)
    requires k < |attempts| && ClockAdvances(attempts) && ConsumesInTime(attempts) && NoncesUnique(attempts) && Passes(attempts, k)
    ensures Run(attempts).1[k] == Accepted <==> !Consumed(attempts, k, attempts[k].grant.nonce)
  {
    RefusedExactly(attempts, k);
    var outcomes := Run(attempts).1;
    if outcomes[k] == Accepted && Consumed(attempts, k, attempts[k].grant.nonce) {
      var i :| 0 <= i < k && AcceptedAt(attempts, outcomes, i, attempts[k].grant.nonce);
      AcceptedTwiceOnlyLate(attempts, i, k);
    }
  }

  lemma {:induction false} ConsumedNext(attempts: seq<Attempt>, nonce: string)
    requires attempts != []
    ensures var n := |attempts| - 1;
            && (Consumed(attempts, n, nonce) <==> Consumed(attempts[..n], n, nonce))
            && (Consumed(attempts, n + 1, nonce) <==> Consumed(attempts, n, nonce) || AcceptedAt(attempts, Run(attempts).1, n, nonce))
  {
    hide Execute;
    var n := |attempts| - 1;
    var outcomes, before := Run(attempts).1, Run(attempts[..n]).1;
    forall i | 0 <= i < n ensures AcceptedAt(attempts, outcomes, i, nonce) == AcceptedAt(attempts[..n], before, i, nonce) {}
  }

  /** The unbounded store holds the nonces that the durable one has ever accepted. */
  lemma {:induction false} SameNonces(attempts: seq<Attempt>)
    requires ClockAdvances(attempts) && ConsumesInTime(attempts) && NoncesUnique(attempts)
    ensures forall nonce :: nonce in Unbounded(Passing(attempts).0).0 <==> Consumed(attempts, |attempts|, nonce)
    ensures Unbounded(Passing(attempts).0).1 == Passing(attempts).1
    decreases |attempts|
  {
    hide Consumed, Passes, ValidNonce, InWindow, Run;
    if attempts == [] {
      NothingConsumed();
    } else {
      var n := |attempts| - 1;
      var init, nonce := attempts[..n], attempts[n].grant.nonce;
      SameNonces(init);
      forall other ensures Consumed(attempts, n + 1, other) <==> Consumed(init, n, other) || AcceptedAt(attempts, Run(attempts).1, n, other) {
        ConsumedNext(attempts, other);
      }
      ConsumedNext(attempts, nonce);
      PassesExactly(attempts, n);
      if Passes(attempts, n) {
        AcceptedOnce(attempts, n);
        assert (Passing(init).0 + [attempts[n]])[..|Passing(init).0|] == Passing(init).0;
      }
    }
  }

  lemma {:induction false} NothingConsumed()
    ensures forall nonce :: !Consumed([], 0, nonce)
  {
  }

  /**
   When no grant is consumed after its expiry, every attempt that gets past its checks is answered as
   by a store that forgets nothing and is given just these attempts.
   */
  lemma {:induction false} RefinesUnboundedStore(attempts: seq<Attempt>)
    requires ClockAdvances(attempts) && ConsumesInTime(attempts) && NoncesUnique(attempts)
    ensures Passing(attempts).1 == Unbounded(Passing(attempts).0).1
  {
    SameNonces(attempts);
  }

  // ---- a delay that lets a grant through twice ---------------------------------------------------

  function LateNonce(): string { seq(36, _ => 'a') }

  /** The second execution verifies just inside the window and consumes just outside. */
  lemma {:induction false} DelayAcceptsTwice()
    ensures var g := Grant(LateNonce(), 0, MAX_AGE);
            var attempts := [Attempt(g, 0, 0), Attempt(g, MAX_AGE - 1, MAX_AGE + 1)];
            ClockAdvances(attempts) && Run(attempts).1 == [Accepted, Accepted]
  {
    var g := Grant(LateNonce(), 0, MAX_AGE);
    var first, second := Attempt(g, 0, 0), Attempt(g, MAX_AGE - 1, MAX_AGE + 1);
    assert ValidNonce(g.nonce);
    assert [first][..0] == [] && [first, second][..1] == [first];
    assert Prune(map[], 0) == map[];
    assert Execute(map[], first) == (map[g.nonce := 0], Accepted);
    assert Run([]) == (map[], []);
    assert Run([first]) == (map[g.nonce := 0], [] + [Accepted]) by { OneAttempt([], first); }
    assert Prune(map[g.nonce := 0], MAX_AGE + 1) == map[];
    assert Execute(map[g.nonce := 0], second) == (map[g.nonce := MAX_AGE + 1], Accepted);
    OneAttempt([first], second);
    assert [first] + [second] == [first, second];
  }

  lemma {:induction false} OneAttempt(init: seq<Attempt>, last: Attempt)
    ensures var (records, outcomes) := Run(init);
            var (records', outcome) := Execute(records, last);
            Run(init + [last]) == (records', outcomes + [outcome])
  {
    hide Execute;
    assert (init + [last])[..|init|] == init;
  }

  // ---- the stores --------------------------------------------------------------------------------

  class DurableReplayStore {
    var records: Records

    constructor ()
      ensures records == map[]
    {
      records := map[];
    }

    /** `pruneExpired`, entry by entry */
    method PruneExpired(now: nat)
      modifies this
      ensures records == Prune(old(records), now)
    {
      var entries := records.Keys;
      while entries != {}
        invariant entries <= records.Keys <= old(records).Keys
        invariant forall n :: n in records ==> records[n] == old(records)[n]
        invariant forall n :: n in old(records) && n !in entries ==> (n in records <==> !Old(old(records)[n], now))
        decreases |entries|
      {
        var entry :| entry in entries;
        entries := entries - {entry};
        if Old(records[entry], now) { records := records - {entry}; }
      }
    }

    /** `consume` */
    method ConsumeNonce(nonce: string, now: nat) returns (outcome: Outcome)
      modifies this
      ensures (records, outcome) == Consume(old(records), nonce, now)
    {
      if !ValidNonce(nonce) { return GrantInvalid; }
      PruneExpired(now);
      if |records| >= MAX_RECORDS { return Full; }
      if nonce in records { return Replayed; }
      records := records[nonce := now];
      outcome := Accepted;
    }
  }

  class MemoryReplayStore {
    var consumed: set<string>

    constructor ()
      ensures consumed == {}
    {
      consumed := {};
    }

    method ConsumeNonce(nonce: string) returns (accepted: bool)
      modifies this
      ensures (consumed, accepted) == Remember(old(consumed), nonce)
    {
      if nonce in consumed {
        assert consumed + {nonce} == consumed;
        return false;
      }
      consumed := consumed + {nonce};
      accepted := true;
    }
  }

  /** `execute` as far as single use goes: the last verification, and then the consumption. */
  class ControlledOperationsBroker {
    const store: DurableReplayStore
    ghost var attempts: seq<Attempt>

    ghost predicate Valid()
      reads this, store
    {
      store.records == Run(attempts).0
    }

    constructor ()
      ensures Valid() && attempts == [] && fresh(store)
    {
      store := new DurableReplayStore();
      attempts := [];
    }

    method ExecuteGrant(grant: Grant, verifiedAt: nat, consumedAt: nat) returns (outcome: Outcome)
      modifies this, store
      requires Valid()
      ensures Valid() && attempts == old(attempts) + [Attempt(grant, verifiedAt, consumedAt)]
      ensures outcome == Run(attempts).1[|attempts| - 1]
    {
      ghost var before := attempts;
      attempts := attempts + [Attempt(grant, verifiedAt, consumedAt)];
      assert attempts[..|attempts| - 1] == before;
      if !InWindow(grant, verifiedAt) { return GrantExpired; }
      outcome := store.ConsumeNonce(grant.nonce, consumedAt);
    }
  }
}
