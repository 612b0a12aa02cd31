/**
 Requests to publish an app, idempotent by user, workspace and key.  Several processes share the
 table: another one may insert between the lookup of `create` and its own insert, so a creation is
 cut there.  Digests are taken as injective: the digest of a specification is its stable text.
 */
module AppPublication {
  import opened Options
  import opened JsonGrammar
  import opened JsonText
  import opened StableJson

  type Id = string

  datatype Key = Key(userId: Id, workspaceId: Id, requestKey: string)

  datatype Row = Row(id: Id, key: Key, specText: Text)

  datatype Outcome = Created(id: Id) | Replayed(id: Id) | Conflict | Denied

  /** A create that has looked for its key and found nothing. */
  datatype Attempt = Attempt(key: Key, spec: Json)

  datatype Answer = Answer(key: Key, spec: Json, outcome: Outcome)

  datatype State = State(rows: seq<Row>, attempts: map<nat, Attempt>, nextAttempt: nat, answers: seq<Answer>)

  function ByKey(rows: seq<Row>, key: Key): (r: Option<Row>)
    ensures r.Some? ==> r.value in rows && r.value.key == key
    ensures r.None? ==> forall i :: 0 <= i < |rows| ==> rows[i].key != key
  {
    if rows == [] then None else if rows[0].key == key then Some(rows[0]) else ByKey(rows[1..], key)
  }

  /** PRIMARY KEY(id), UNIQUE(user_id, workspace_id, request_key_digest) */
  predicate Insertable(rows: seq<Row>, row: Row) {
    forall i :: 0 <= i < |rows| ==> rows[i].id != row.id && rows[i].key != row.key
  }

  /** What a create answers when a row has its key. */
  function Against(leq: Order, row: Row, spec: Json): Outcome {
    if row.specText == StableText(leq, spec) then Replayed(row.id) else Conflict
  }

  function Say(s: State, key: Key, spec: Json, outcome: Outcome): State {
    s.(answers := s.answers + [Answer(key, spec, outcome)])
  }

  /** `create` up to its transaction. `allowed` is what the user, the key and the specification pass. */
  function Create(leq: Order, s: State, key: Key, spec: Json, allowed: bool): State {
    if !allowed then Say(s, key, spec, Denied)
    else
      var existing := ByKey(s.rows, key);
      if existing.Some? then Say(s, key, spec, Against(leq, existing.value, spec))
      else s.(attempts := s.attempts[s.nextAttempt := Attempt(key, spec)], nextAttempt := s.nextAttempt + 1)
  }

  /** The transaction, and the second lookup when it is rolled back. */
  function Insert(leq: Order, s: State, attempt: nat, id: Id): State
    requires attempt in s.attempts
  {
    var a := s.attempts[attempt];
    var row := Row(id, a.key, StableText(leq, a.spec));
    var s0 := s.(attempts := s.attempts - {attempt});
    if Insertable(s.rows, row) then Say(s0.(rows := s.rows + [row]), a.key, a.spec, Created(id))
    else
      var raced := ByKey(s.rows, a.key);
      Say(s0, a.key, a.spec, if raced.Some? then Against(leq, raced.value, a.spec) else Denied)
  }

  datatype Step = DoCreate(key: Key, spec: Json, allowed: bool) | DoInsert(attempt: nat, id: Id)

  /** Specifications are JSON values. */
  predicate Enabled(s: State, step: Step) {
    match step
    case DoCreate(_, spec, _) => JsonOk(spec)
    case DoInsert(attempt, _) => attempt in s.attempts
  }

  function Next(leq: Order, s: State, step: Step): State {
    if !Enabled(s, step) then s
    else
      match step
      case DoCreate(key, spec, allowed) => Create(leq, s, key, spec, allowed)
      case DoInsert(attempt, id) => Insert(leq, s, attempt, id)
  }

  const Empty := State([], map[], 0, [])

  function Run(leq: Order, steps: seq<Step>): State {
    if steps == [] then Empty else Next(leq, Run(leq, steps[..|steps| - 1]), steps[|steps| - 1])
  }

  // ---- what every run keeps --------------------------------------------------------------------

  ghost predicate UniqueRows(rows: seq<Row>) {
    forall i, j :: 0 <= i < j < |rows| ==> rows[i].id != rows[j].id && rows[i].key != rows[j].key
  }

  /** The row a creation left behind. */
  predicate RowOf(leq: Order, a: Answer, row: Row)
  {
    a.outcome == Created(row.id) && row.key == a.key && row.specText == StableText(leq, a.spec)
  }

  /** Every row was left by a creation, and every creation has left its row. */
  ghost predicate RowsAnswered(leq: Order, rows: seq<Row>, answers: seq<Answer>) {
    && (forall i :: 0 <= i < |rows| ==> Answered(leq, rows[i], answers))
    && (forall k :: 0 <= k < |answers| && answers[k].outcome.Created? ==> Left(leq, answers[k], rows))
  }

  ghost predicate Answered(leq: Order, row: Row, answers: seq<Answer>) {
    exists k :: 0 <= k < |answers| && RowOf(leq, answers[k], row)
  }

  ghost predicate Left(leq: Order, a: Answer, rows: seq<Row>) {
    exists i :: 0 <= i < |rows| && RowOf(leq, a, rows[i])
  }

  /** What a later answer has to be, given a creation with the same key. */
  predicate Consistent(leq: Order, first: Answer, later: Answer) {
    first.outcome.Created? && later.key == first.key && later.outcome != Denied
    ==> later.outcome == if StableText(leq, later.spec) == StableText(leq, first.spec) then Replayed(first.outcome.id) else Conflict
  }

  ghost predicate AnswersConsistent(leq: Order, answers: seq<Answer>) {
    && (forall i, j :: 0 <= i < j < |answers| ==> Consistent(leq, answers[i], answers[j]))
    && (forall j :: 0 <= j < |answers| && (answers[j].outcome.Replayed? || answers[j].outcome.Conflict?)
          ==> exists i :: 0 <= i < j && Creates(answers[i], answers[j].key))
  }

  predicate Creates(a: Answer, key: Key) {
    a.outcome.Created? && a.key == key
  }

  ghost predicate Sound(leq: Order, s: State) {
    && UniqueRows(s.rows) && RowsAnswered(leq, s.rows, s.answers) && AnswersConsistent(leq, s.answers)
    && (forall k :: 0 <= k < |s.answers| ==> JsonOk(s.answers[k].spec))
    && (forall a :: a in s.attempts ==> JsonOk(s.attempts[a].spec))
  }

  lemma {:induction false} AnsweredGrows(leq: Order, row: Row, answers: seq<Answer>, a: Answer)
    requires Answered(leq, row, answers) || RowOf(leq, a, row)
    ensures Answered(leq, row, answers + [a])
  {
    hide RowOf;
    var all := answers + [a];
    if RowOf(leq, a, row) { assert all[|answers|] == a; }
    else {
      var k :| 0 <= k < |answers| && RowOf(leq, answers[k], row);
      assert all[k] == answers[k];
    }
  }

  lemma {:induction false} LeftGrows(leq: Order, a: Answer, rows: seq<Row>, row: Row)
    requires Left(leq, a, rows) || RowOf(leq, a, row)
    ensures Left(leq, a, rows + [row])
  {
    hide RowOf;
    var all := rows + [row];
    if RowOf(leq, a, row) { assert all[|rows|] == row; }
    else {
      var k :| 0 <= k < |rows| && RowOf(leq, a, rows[k]);
      assert all[k] == rows[k];
    }
  }

  lemma {:induction false} RowsAnsweredAgain(leq: Order, rows: seq<Row>, answers: seq<Answer>, a: Answer)
    requires RowsAnswered(leq, rows, answers) && !a.outcome.Created?
    ensures RowsAnswered(leq, rows, answers + [a])
  {
    hide Answered, Left;
    forall i | 0 <= i < |rows| ensures Answered(leq, rows[i], answers + [a]) { AnsweredGrows(leq, rows[i], answers, a); }
  }

  lemma {:induction false} RowAdded(leq: Order, rows: seq<Row>, answers: seq<Answer>, a: Answer, row: Row)
    requires RowsAnswered(leq, rows, answers) && RowOf(leq, a, row)
    ensures RowsAnswered(leq, rows + [row], answers + [a])
  {
    hide Answered, Left, RowOf;
    var rows', answers' := rows + [row], answers + [a];
    forall i | 0 <= i < |rows'| ensures Answered(leq, rows'[i], answers') { AnsweredGrows(leq, rows'[i], answers, a); }
    forall k | 0 <= k < |answers'| && answers'[k].outcome.Created? ensures Left(leq, answers'[k], rows') {
      LeftGrows(leq, answers'[k], rows, row);
    }
  }

  /** What is answered against the row of a key agrees with the creation of that row. */
  lemma {:induction false} AgainstIsConsistent(leq: Order, rows: seq<Row>, answers: seq<Answer>, key: Key, spec: Json)
    requires UniqueRows(rows) && RowsAnswered(leq, rows, answers) && ByKey(rows, key).Some?
    ensures var a := Answer(key, spec, Against(leq, ByKey(rows, key).value, spec));
            && (forall i :: 0 <= i < |answers| ==> Consistent(leq, answers[i], a))
            && (exists i :: 0 <= i < |answers| && Creates(answers[i], key))
  {
    hide StableText;
    var row := ByKey(rows, key).value;
    var a := Answer(key, spec, Against(leq, row, spec));
    var r :| 0 <= r < |rows| && rows[r] == row;
    assert Answered(leq, rows[r], answers);
    var c :| 0 <= c < |answers| && RowOf(leq, answers[c], rows[r]);
    assert Creates(answers[c], key);
    forall i | 0 <= i < |answers| ensures Consistent(leq, answers[i], a) {
      if answers[i].outcome.Created? && answers[i].key == key {
        assert Left(leq, answers[i], rows);
        var q :| 0 <= q < |rows| && RowOf(leq, answers[i], rows[q]);
        assert q == r;
      }
    }
  }

  /** An answer that follows a row with its key, or denies. */
  lemma SayKeeps(leq: Order, s: State, key: Key, spec: Json, outcome: Outcome)
    requires Sound(leq, s) && JsonOk(spec)
    requires outcome == Denied || (ByKey(s.rows, key).Some? && outcome == Against(leq, ByKey(s.rows, key).value, spec))
    ensures Sound(leq, Say(s, key, spec, outcome))
  {
    hide StableText, JsonOk, RowsAnswered, AnswersConsistent, UniqueRows;
    var a := Answer(key, spec, outcome);
    RowsAnsweredAgain(leq, s.rows, s.answers, a);
    if outcome != Denied { AgainstIsConsistent(leq, s.rows, s.answers, key, spec); }
    AnswersExtended(leq, s.answers, a);
  }

  lemma {:induction false} AnswersExtended(leq: Order, answers: seq<Answer>, a: Answer)
    requires AnswersConsistent(leq, answers)
    requires forall i :: 0 <= i < |answers| ==> Consistent(leq, answers[i], a)
    requires a.outcome.Replayed? || a.outcome.Conflict? ==> exists i :: 0 <= i < |answers| && Creates(answers[i], a.key)
    ensures AnswersConsistent(leq, answers + [a])
  {
    hide Consistent;
    var all := answers + [a];
    forall j | 0 <= j < |all| && (all[j].outcome.Replayed? || all[j].outcome.Conflict?)
      ensures exists i :: 0 <= i < j && Creates(all[i], all[j].key)
    {
      if j < |answers| {
        var i :| 0 <= i < j && Creates(answers[i], answers[j].key);
        assert Creates(all[i], all[j].key);
      } else {
        var i :| 0 <= i < |answers| && Creates(answers[i], a.key);
        assert Creates(all[i], all[j].key);
      }
    }
  }

  lemma {:induction false} CreatedIsConsistent(leq: Order, rows: seq<Row>, answers: seq<Answer>, row: Row, a: Answer)
    requires RowsAnswered(leq, rows, answers) && Insertable(rows, row) && RowOf(leq, a, row)
    ensures forall i :: 0 <= i < |answers| ==> Consistent(leq, answers[i], a)
  {
    hide StableText;
    forall i | 0 <= i < |answers| ensures Consistent(leq, answers[i], a) {
      if answers[i].outcome.Created? {
        assert Left(leq, answers[i], rows);
        var q :| 0 <= q < |rows| && RowOf(leq, answers[i], rows[q]);
      }
    }
  }

  lemma InsertKeeps(leq: Order, s: State, attempt: nat, id: Id)
    requires Sound(leq, s) && attempt in s.attempts
    ensures Sound(leq, Insert(leq, s, attempt, id))
  {
    hide StableText, JsonOk, RowsAnswered, AnswersConsistent, Against;
    var a := s.attempts[attempt];
    var row := Row(id, a.key, StableText(leq, a.spec));
    if Insertable(s.rows, row) {
      var answer := Answer(a.key, a.spec, Created(id));
      RowAdded(leq, s.rows, s.answers, answer, row);
      CreatedIsConsistent(leq, s.rows, s.answers, row, answer);
      AnswersExtended(leq, s.answers, answer);
    } else {
      var raced := ByKey(s.rows, a.key);
      SayKeeps(leq, s.(attempts := s.attempts - {attempt}), a.key, a.spec, if raced.Some? then Against(leq, raced.value, a.spec) else Denied);
    }
  }

  lemma StepKeeps(leq: Order, s: State, step: Step)
    requires Sound(leq, s)
    ensures Sound(leq, Next(leq, s, step))
  {
    hide Against, JsonOk, AnswersConsistent, RowsAnswered, UniqueRows;
    if Enabled(s, step) {
      match step
      case DoCreate(key, spec, allowed) =>
        if !allowed { SayKeeps(leq, s, key, spec, Denied); }
        else if ByKey(s.rows, key).Some? { SayKeeps(leq, s, key, spec, Against(leq, ByKey(s.rows, key).value, spec)); }
      case DoInsert(attempt, id) => InsertKeeps(leq, s, attempt, id);
    }
  }

  lemma {:induction false} RunSound(leq: Order, steps: seq<Step>)
    ensures Sound(leq, Run(leq, steps))
  {
    hide Next;
    if steps != [] {
      RunSound(leq, steps[..|steps| - 1]);
      StepKeeps(leq, Run(leq, steps[..|steps| - 1]), steps[|steps| - 1]);
    }
  }

  // ---- the promise -----------------------------------------------------------------------------

  /** Each user, workspace and key has at most one request. */
  lemma {:induction false} OneRequestPerKey(leq: Order, steps: seq<Step>, i: nat, j: nat)
    requires var rows := Run(leq, steps).rows; i < |rows| && j < |rows| && rows[i].key == rows[j].key
    ensures i == j
  {
    RunSound(leq, steps);
  }

  /**
   After a creation, every answer for its key that is not a denial repeats the request when the
   specification is the same up to member order, and is a conflict exactly when it is not.
   */
  lemma {:induction false} RepeatsOrConflicts(leq: Order, steps: seq<Step>, i: nat, j: nat)
    requires TotalOrder(leq)
    requires var answers := Run(leq, steps).answers;
             i < j < |answers| && answers[i].outcome.Created? && answers[j].key == answers[i].key && answers[j].outcome != Denied
    ensures var answers := Run(leq, steps).answers;
            && (Same(answers[j].spec, answers[i].spec) ==> answers[j].outcome == Replayed(answers[i].outcome.id))
            && (answers[j].outcome == Conflict <==> !Same(answers[j].spec, answers[i].spec))
  {
    hide Same, StableText, JsonOk;
    RunSound(leq, steps);
    var answers := Run(leq, steps).answers;
    assert Consistent(leq, answers[i], answers[j]);
    StableTextDecides(leq, answers[j].spec, answers[i].spec);
  }

  /** An answer that repeats or conflicts follows the creation of a request with its key. */
  lemma {:induction false} CreationComesFirst(leq: Order, steps: seq<Step>, j: nat)
    requires var answers := Run(leq, steps).answers; j < |answers| && (answers[j].outcome.Replayed? || answers[j].outcome.Conflict?)
    ensures var answers := Run(leq, steps).answers;
            exists i :: 0 <= i < j && Creates(answers[i], answers[j].key)
  {
    RunSound(leq, steps);
  }

  /**
   A request that is allowed is created exactly when neither its key nor the new identifier is taken;
   it is denied only when the identifier is taken by another key's request.
   */
  lemma {:induction false} CreatedExactly(leq: Order, steps: seq<Step>, attempt: nat, id: Id)
    requires attempt in Run(leq, steps).attempts
    ensures var s, s' := Run(leq, steps), Next(leq, Run(leq, steps), DoInsert(attempt, id));
            var key, spec := s.attempts[attempt].key, s.attempts[attempt].spec;
            && |s'.answers| == |s.answers| + 1 && s'.answers[..|s.answers|] == s.answers
            && var a := s'.answers[|s.answers|];
            && a.key == key && a.spec == spec && attempt !in s'.attempts
            && (a.outcome == Created(id) <==> forall i :: 0 <= i < |s.rows| ==> s.rows[i].key != key && s.rows[i].id != id)
            && (a.outcome == Denied <==>
                  (forall i :: 0 <= i < |s.rows| ==> s.rows[i].key != key) && exists i :: 0 <= i < |s.rows| && s.rows[i].id == id)
            && (a.outcome.Created? ==> s'.rows == s.rows + [Row(id, key, StableText(leq, spec))])
            && (!a.outcome.Created? ==> s'.rows == s.rows)
  {
    hide Run, StableText;
    var s := Run(leq, steps);
    var key := s.attempts[attempt].key;
    var raced := ByKey(s.rows, key);
  }

  /** A request that is not allowed is denied at once, and one whose key is taken is answered at once. */
  lemma {:induction false} AnsweredAtOnce(leq: Order, steps: seq<Step>, key: Key, spec: Json, allowed: bool)
    requires JsonOk(spec)
    ensures var s, s' := Run(leq, steps), Next(leq, Run(leq, steps), DoCreate(key, spec, allowed));
            var taken := exists i :: 0 <= i < |s.rows| && s.rows[i].key == key;
            && s'.rows == s.rows
            && (if !allowed || taken
                then |s'.answers| == |s.answers| + 1 && s'.answers[|s.answers|].key == key && s'.answers[|s.answers|].spec == spec
                     && (s'.answers[|s.answers|].outcome == Denied <==> !allowed) && s'.attempts == s.attempts
                else s'.answers == s.answers && s'.attempts == s.attempts[s.nextAttempt := Attempt(key, spec)])
  {
    hide Run, StableText, JsonOk;
    var existing := ByKey(Run(leq, steps).rows, key);
  }

  // ---- the requester ---------------------------------------------------------------------------

  class AppPublicationRequester {
    const leq: Order
    var rows: seq<Row>
    var attempts: map<nat, Attempt>
    var nextAttempt: nat
    ghost var answers: seq<Answer>

    ghost function Current(): State
      reads this
    {
      State(rows, attempts, nextAttempt, answers)
    }

    constructor (leq: Order)
      ensures this.leq == leq && Current() == Empty && Sound(leq, Current())
    {
      this.leq := leq;
      rows, attempts, nextAttempt, answers := [], map[], 0, [];
    }

    /** `#byKey` */
    method FindByKey(key: Key) returns (found: Option<Row>)
      ensures found == ByKey(rows, key)
    {
      var i := 0;
      while i < |rows|
        invariant i <= |rows| && ByKey(rows, key) == ByKey(rows[i..], key)
      {
        if rows[i].key == key { return Some(rows[i]); }
        assert rows[i..][1..] == rows[i + 1..];
        i := i + 1;
      }
      found := None;
    }

    method Reply(key: Key, spec: Json, outcome: Outcome)
      modifies this`answers
      ensures Current() == Say(old(Current()), key, spec, outcome)
    {
      answers := answers + [Answer(key, spec, outcome)];
    }

    /** `create` up to its transaction: `None` while the transaction is still to come. */
    method CreateRequest(key: Key, spec: Json, allowed: bool) returns (outcome: Option<Outcome>)
      modifies this
      requires Sound(leq, Current()) && JsonOk(spec)
      ensures Current() == Next(leq, old(Current()), DoCreate(key, spec, allowed)) && Sound(leq, Current())
      ensures outcome.Some? ==> answers == old(answers) + [Answer(key, spec, outcome.value)]
      ensures outcome.None? <==> allowed && ByKey(old(rows), key).None?
    {
      hide Sound, StableText;
      StepKeeps(leq, Current(), DoCreate(key, spec, allowed));
      if !allowed {
        Reply(key, spec, Denied);
        return Some(Denied);
      }
      var specText := StableText(leq, spec);
      var existing := FindByKey(key);
      if existing.Some? {
        var r := if existing.value.specText != specText then Conflict else Replayed(existing.value.id);
        Reply(key, spec, r);
        return Some(r);
      }
      attempts := attempts[nextAttempt := Attempt(key, spec)];
      nextAttempt := nextAttempt + 1;
      outcome := None;
    }

    /** The transaction: the row is inserted, or rolled back and looked up once more. */
    method InsertRequest(attempt: nat, id: Id) returns (outcome: Outcome)
      modifies this
      requires Sound(leq, Current()) && attempt in attempts
      ensures Current() == Next(leq, old(Current()), DoInsert(attempt, id)) && Sound(leq, Current())
      ensures answers == old(answers) + [Answer(old(attempts)[attempt].key, old(attempts)[attempt].spec, outcome)]
    {
      hide Sound, StableText;
      StepKeeps(leq, Current(), DoInsert(attempt, id));
      var a := attempts[attempt];
      attempts := attempts - {attempt};
      var row := Row(id, a.key, StableText(leq, a.spec));
      var before := rows;
      rows := rows + [row];
      var violated := exists i :: 0 <= i < |before| && (before[i].id == row.id || before[i].key == row.key);
      if !violated {
        Reply(a.key, a.spec, Created(id));
        return Created(id);
      }
      rows := before;
      var raced := FindByKey(a.key);
      if raced.None? {
        outcome := Denied;
      } else if raced.value.specText == row.specText {
        outcome := Replayed(raced.value.id);
      } else {
        outcome := Conflict;
      }
      Reply(a.key, a.spec, outcome);
    }
  }
}
