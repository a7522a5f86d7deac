/** Concrete serial runs from an empty queue, for the rules of the documents that the code breaks. */
module TimedRuns {
  import opened QueueTypes
  import opened Database
  import opened Promotion
  import opened TimeLayer
  import Promises

  const EMPTY := World(Db(map[], [], 1, 5, None), map[], 0)

  /** Some run of operations leads from the empty queue to this world. */
  ghost predicate Arises(w: World) {
    exists run, ops :: IsRun(run, ops) && run[0] == EMPTY && run[|ops|] == w
  }

  lemma EmptyArises()
    ensures Arises(EMPTY)
  {
    var run, ops: seq<Op> := [EMPTY], [];
    assert IsRun(run, ops) && run[|ops|] == EMPTY;
  }

  lemma Then(w: World, op: Op) returns (w': World)
    requires Arises(w) && CanDo(w, op)
    ensures Arises(w') && w' == Do(w, op)
  {
    w' := Do(w, op);
    var run, ops :| IsRun(run, ops) && run[0] == EMPTY && run[|ops|] == w;
    var run', ops' := run + [w'], ops + [op];
    forall i | 0 <= i < |ops'| ensures CanDo(run'[i], ops'[i]) && run'[i + 1] == Do(run'[i], ops'[i]) {
      assert run'[i] == run[i];
      if i < |ops| { assert ops'[i] == ops[i]; }
    }
    assert IsRun(run', ops') && run'[|ops'|] == w';
  }

  lemma Joins(w: World, u: UserId) returns (w': World)
    requires Arises(w) && u !in w.db.rows && w.db.maxSize.None?
    ensures Arises(w') && w' == w.(db := Apply(w.db, Insert(u, w.clock)))
  {
    w' := Then(w, DoJoin(u));
  }

  /** The only one who waits is served. */
  lemma IsServed(w: World, u: UserId) returns (w': World)
    requires Arises(w) && Users(w.db.rows, Waiting) == {u} && OpenSlots(w.db) > 0
    ensures Arises(w') && w' == w.(db := w'.db)
    ensures w'.db == w.db.(rows := w'.db.rows, log := w'.db.log)
    ensures w'.db.rows == w.db.rows[u := w.db.rows[u].(status := Serving, priorityBoost := 0)]
  {
    assert u in Users(w.db.rows, Waiting);
    w' := Then(w, DoServe(u));
  }

  /** User 1, alone in the queue, has been marked late at 0, as the first user to be served. */
  lemma FirstIsLate() returns (w: World)
    ensures Arises(w) && w.clock == 0 && w.jobs == map[1 := 300_000]
    ensures w.db.rows == map[1 := Row(0, Late, 0, None, Some(300_000))]
    ensures w.db.serviceSlots == 1 && w.db.graceTime == 5 && w.db.maxSize.None?
  {
    EmptyArises();
    var w1 := Joins(EMPTY, 1);
    assert w1.db.rows == map[1 := FreshRow(0)];
    assert Users(w1.db.rows, Waiting) == {1} && Users(w1.db.rows, Serving) == {};
    var w2 := IsServed(w1, 1);
    w := Then(w2, DoRequest(1, MarkLate, Admin));
  }

  /** SERVING stays above serviceSlots after the slots are lowered. */
  lemma ServingAboveSlots() returns (w: World)
    ensures Arises(w) && w.db.serviceSlots == 1 && |Users(w.db.rows, Serving)| == 2
  {
    EmptyArises();
    var w1 := Joins(EMPTY, 1);
    assert Users(w1.db.rows, Waiting) == {1} && Users(w1.db.rows, Serving) == {};
    var w2 := IsServed(w1, 1);
    var w3 := Then(w2, DoConfigure(Some(2), None, None));
    var w4 := Joins(w3, 2);
    assert Users(w4.db.rows, Waiting) == {2} && Users(w4.db.rows, Serving) == {1};
    var w5 := IsServed(w4, 2);
    w := Then(w5, DoConfigure(Some(1), None, None));
    assert Users(w.db.rows, Serving) == {1, 2};
  }

  /** Active rows stay above maxSize after maxSize is lowered. */
  lemma ActiveAboveMaxSize() returns (w: World)
    ensures Arises(w) && w.db.maxSize == Some(1) && |Active(w.db.rows)| == 2
  {
    EmptyArises();
    var w1 := Joins(EMPTY, 1);
    assert Users(w1.db.rows, Waiting) == {1} && Users(w1.db.rows, Serving) == {};
    var w2 := IsServed(w1, 1);
    var w3 := Joins(w2, 2);
    w := Then(w3, DoConfigure(None, None, Some(1)));
    assert Active(w.db.rows) == {1, 2};
  }

  /** User 1 is LATE and user 3 is served in the freed slot. */
  lemma ThirdIsServed() returns (w: World)
    ensures Arises(w) && w.clock == 0 && w.jobs == map[1 := 300_000]
    ensures w.db.rows == map[1 := Row(0, Late, 0, None, Some(300_000)), 3 := Row(0, Serving, 0, None, None)]
    ensures w.db.serviceSlots == 1 && w.db.graceTime == 5 && w.db.maxSize.None?
  {
    var w1 := FirstIsLate();
    var w2 := Joins(w1, 3);
    assert Users(w2.db.rows, Waiting) == {3} && Users(w2.db.rows, Serving) == {};
    w := IsServed(w2, 3);
  }

  /** User 1 was late at 0 and the worker has struck it at the deadline; user 3 is served. */
  lemma FirstIsMissed() returns (w: World)
    ensures Arises(w) && w.clock == 300_000 && w.jobs == map[]
    ensures w.db.rows == map[1 := Row(0, Missed, 0, None, Some(300_000)), 3 := Row(0, Serving, 0, None, None)]
    ensures w.db.serviceSlots == 1 && w.db.graceTime == 5 && w.db.maxSize.None?
  {
    var w1 := ThirdIsServed();
    var w2 := Then(w1, Wait(300_000));
    w := Then(w2, Fire(1));
    assert w.jobs == map[];
  }

  /** One who was MISSED comes back ahead of a user who joined in the meantime and waits. */
  lemma MissedReturnsAhead() returns (w: World, next: Op)
    ensures Arises(w) && CanDo(w, next) && next == DoRequest(1, Rejoin, User)
    ensures 1 in w.db.rows && w.db.rows[1].status.Missed?
    ensures var rows := Do(w, next).db.rows;
            1 in Users(rows, Waiting) && 2 in Users(rows, Waiting) && Before(rows[1], rows[2])
  {
    var w1 := FirstIsMissed();
    w := Joins(w1, 2);
    next := DoRequest(1, Rejoin, User);
  }

  /** "expiresAt is null unless LATE or MISSED" fails for one who was MISSED and came back. */
  lemma StaleExpiry() returns (w: World)
    ensures Arises(w) && 1 in Users(w.db.rows, Waiting) && !Promises.ExpiryDocumented(w.db.rows[1])
  {
    var w1 := FirstIsMissed();
    w := Then(w1, DoRequest(1, Rejoin, User));
  }

  /** A REJOIN a millisecond past the deadline stores MISSED and logs WAITING. */
  lemma LapsedLogsWaiting() returns (w: World)
    ensures Arises(w) && 1 in w.db.rows && w.db.rows[1].status.Missed?
    ensures History.LastOf(w.db.log, 1).Some? && History.LastOf(w.db.log, 1).value.to.Waiting?
  {
    var w1 := FirstIsLate();
    var w2 := Then(w1, Wait(300_001));
    w := Then(w2, DoRequest(1, Rejoin, User));
  }

  /** User 1 has come back at once, has been served again, and is about to be marked late again,
      with the first job still live. */
  lemma ServedAgain() returns (w: World)
    ensures Arises(w) && w.clock == 0 && w.jobs == map[1 := 300_000]
    ensures w.db.rows == map[1 := Row(0, Serving, 0, None, None)]
    ensures w.db.serviceSlots == 1 && w.db.graceTime == 5
  {
    var w1 := FirstIsLate();
    var w2 := Then(w1, DoRequest(1, Rejoin, User));
    assert w2.db.rows == map[1 := Row(0, Waiting, 1, None, None)];
    assert Users(w2.db.rows, Waiting) == {1} && Users(w2.db.rows, Serving) == {};
    w := IsServed(w2, 1);
  }

  /** The job of the first lateness comes a millisecond too early for the second and is spent:
      however long one waits, the row is LATE, past its deadline, without a job. */
  lemma JobIsSpent(dt: nat) returns (w: World)
    ensures Arises(w) && w.clock == 300_001 + dt
    ensures Overdue(w.db.rows, 1, w.clock) && w.jobs == map[]
  {
    var w1 := ServedAgain();
    var w2 := Then(w1, Wait(1));
    var w3 := Then(w2, DoRequest(1, MarkLate, Admin));
    assert w3.db.rows == map[1 := Row(0, Late, 0, None, Some(300_001))];
    var w4 := Then(w3, Wait(299_999));
    var w5 := Then(w4, Fire(1));
    assert w5.jobs == map[];
    w := Then(w5, Wait(1 + dt));
  }

  /** graceTime has dropped by four minutes: after a safety-net tick at T no job due at T is
      left, and yet a row is overdue at T. Its job fires exactly four minutes later. */
  lemma LoweredGraceDelays() returns (w: World, next: Op)
    ensures Arises(w) && next == SafetyNet
    ensures Do(w, next).jobs == map[1 := w.clock + Minutes(4)]
    ensures Overdue(Do(w, next).db.rows, 1, w.clock)
  {
    var w1 := ServedAgain();
    var w2 := Then(w1, DoConfigure(None, Some(1), None));
    var w3 := Then(w2, DoRequest(1, MarkLate, Admin));
    assert w3.db.rows == map[1 := Row(0, Late, 0, None, Some(60_000))];
    w := Then(w3, Wait(60_000));
    next := SafetyNet;
  }
}
