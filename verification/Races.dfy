/** Concrete interleavings, from an empty queue, that show which hypotheses the theorems need. */
module Races {
  import opened QueueTypes
  import opened StateMachine
  import opened Database
  import opened Promotion
  import opened Interleaving
  import opened Runs
  import Fairness
  import Wakeups
  import ExpiryRaces
  import LateReturns

  // ----- whole transactions with nobody in the way --------------------------

  /** No transaction in flight holds a row. */
  predicate NoRowHeld(s: Sys) {
    forall t :: t in s.txs ==> s.txs[t].writes == []
  }

  lemma JoinAlone(s: Sys, t: TxId, u: UserId)
    requires t !in s.txs && NoRowHeld(s) && s.lock != Some(t) && u !in s.db.rows
    requires s.db.maxSize.Some? ==> |Active(s.db.rows)| < s.db.maxSize.value
    ensures Reaches(s, s.(db := Apply(s.db, Insert(u, s.clock)), owed := s.owed + 1))
  {
    var s1 := Continue(s, t, Starting(Join(u)));
    OneStep(s, Begin(t, Join(u)), s1);
    var s2 := Continue(s, t, Tx(Join(u), Looking, 0, []));
    assert View(s1.db, s1.txs[t]) == s1.db;
    assert Do(s1, Statement(t, 0)) == s2;
    OneStep(s1, Statement(t, 0), s2);
    Further(s, s1, s2);
    var s3 := s.(db := Apply(s.db, Insert(u, s.clock)), owed := s.owed + 1);
    FreshJoinCommits(s2, t, u, s3);
    Further(s, s2, s3);
  }

  /** A join past its check, with no row of its own, inserts and commits. */
  lemma FreshJoinCommits(s: Sys, t: TxId, u: UserId, s': Sys)
    requires t in s.txs && s.txs[t] == Tx(Join(u), Looking, 0, []) && NoRowHeld(s) && s.lock != Some(t)
    requires u !in s.db.rows
    requires s' == s.(db := Apply(s.db, Insert(u, s.clock)), owed := s.owed + 1, txs := s.txs - {t})
    ensures Reaches(s, s')
  {
    var s1 := Continue(s, t, Tx(Join(u), Inserting, 0, []));
    assert View(s.db, s.txs[t]) == s.db;
    OneStep(s, Statement(t, 0), s1);
    JoinInserts(s1, t, u);
    var s2 := Continue(s1, t, Tx(Join(u), Finishing, 0, [Insert(u, s.clock)]));
    Further(s, s1, s2);
    OneWriteCommits(s2, t, Join(u), Insert(u, s.clock), s');
    Further(s, s2, s');
  }

  lemma JoinInserts(s: Sys, t: TxId, u: UserId)
    requires t in s.txs && s.txs[t] == Tx(Join(u), Inserting, 0, []) && NoRowHeld(s) && u !in s.db.rows
    ensures Reaches(s, Continue(s, t, Tx(Join(u), Finishing, 0, [Insert(u, s.clock)])))
  {
    var s' := Continue(s, t, Tx(Join(u), Finishing, 0, [Insert(u, s.clock)]));
    assert !HeldByOther(s, t, u);
    assert s.txs[t].writes + [Insert(u, s.clock)] == [Insert(u, s.clock)];
    assert Do(s, Statement(t, 0)) == s';
    OneStep(s, Statement(t, 0), s');
  }

  lemma OneWriteCommits(s: Sys, t: TxId, kind: Kind, w: Write, s': Sys)
    requires t in s.txs && s.txs[t] == Tx(kind, Finishing, 0, [w]) && s.lock != Some(t)
    requires kind.Join? || kind.Request?
    requires s' == s.(db := Apply(s.db, w), owed := s.owed + 1, txs := s.txs - {t})
    ensures Reaches(s, s')
  {
    ApplyOne(s.db, [w]);
    assert Do(s, Statement(t, 0)) == s';
    OneStep(s, Statement(t, 0), s');
  }

  /** A transaction reads its row and decides. */
  lemma TransitionReads(s: Sys, t: TxId, kind: Kind, u: UserId, w: Write)
    requires t in s.txs && s.txs[t] == Tx(kind, Fetching(u), 0, [])
    requires u in s.db.rows
    requires w == Change(u, s.db.rows[u], EventOf(kind), ActorOf(kind), s.clock, s.db.graceTime)
    requires UpdatesFor(w.qu, w.event, w.actor, w.at, w.graceTime).Ok?
    ensures Reaches(s, Continue(s, t, Tx(kind, Swapping(w), 0, [])))
  {
    var s' := Continue(s, t, Tx(kind, Swapping(w), 0, []));
    assert View(s.db, s.txs[t]) == s.db;
    assert Do(s, Statement(t, 0)) == s';
    OneStep(s, Statement(t, 0), s');
  }

  /** Its update passes the guard. */
  lemma TransitionLands(s: Sys, t: TxId, kind: Kind, w: Write)
    requires t in s.txs && s.txs[t] == Tx(kind, Swapping(w), 0, []) && !kind.Promote? && NoRowHeld(s)
    requires Lands(s.db, w)
    ensures Reaches(s, Continue(s, t, Tx(kind, Finishing, 0, [w])))
  {
    var s' := Continue(s, t, Tx(kind, Finishing, 0, [w]));
    assert View(s.db, s.txs[t]) == s.db;
    assert s.txs[t].writes + [w] == [w] && !HeldByOther(s, t, w.user);
    assert Do(s, Statement(t, 0)) == s';
    OneStep(s, Statement(t, 0), s');
  }

  /** A transaction reads its row, decides, and writes it. */
  lemma TransitionWrites(s: Sys, t: TxId, kind: Kind, u: UserId, w: Write)
    requires t in s.txs && s.txs[t] == Tx(kind, Fetching(u), 0, []) && !kind.Promote? && NoRowHeld(s)
    requires u in s.db.rows
    requires w == Change(u, s.db.rows[u], EventOf(kind), ActorOf(kind), s.clock, s.db.graceTime)
    requires UpdatesFor(w.qu, w.event, w.actor, w.at, w.graceTime).Ok?
    ensures Reaches(s, Continue(s, t, Tx(kind, Finishing, 0, [w])))
  {
    TransitionReads(s, t, kind, u, w);
    var m := Continue(s, t, Tx(kind, Swapping(w), 0, []));
    TransitionLands(m, t, kind, w);
    assert Continue(m, t, Tx(kind, Finishing, 0, [w])) == Continue(s, t, Tx(kind, Finishing, 0, [w]));
    Further(s, m, Continue(s, t, Tx(kind, Finishing, 0, [w])));
  }

  lemma RequestAlone(s: Sys, t: TxId, u: UserId, event: Event, actor: Actor)
    requires t !in s.txs && NoRowHeld(s) && s.lock != Some(t) && u in s.db.rows
    requires Requestable(Request(u, event, actor))
    requires UpdatesFor(s.db.rows[u], event, actor, s.clock, s.db.graceTime).Ok?
    ensures Reaches(s, s.(db := Apply(s.db, Change(u, s.db.rows[u], event, actor, s.clock, s.db.graceTime)),
                          owed := s.owed + 1))
  {
    var kind, w := Request(u, event, actor), Change(u, s.db.rows[u], event, actor, s.clock, s.db.graceTime);
    var s1 := Continue(s, t, Starting(kind));
    OneStep(s, Begin(t, kind), s1);
    TransitionWrites(s1, t, kind, u, w);
    var s2 := Continue(s1, t, Tx(kind, Finishing, 0, [w]));
    Further(s, s1, s2);
    var s3 := s.(db := Apply(s.db, w), owed := s.owed + 1);
    assert s3.txs == s2.txs - {t};
    OneWriteCommits(s2, t, kind, w, s3);
    Further(s, s2, s3);
  }

  /** A promoter takes the lock and counts. */
  lemma PromoterCounts(s: Sys, t: TxId)
    requires t !in s.txs && s.lock.None? && s.owed > 0 && OpenSlots(s.db) > 0
    ensures Reaches(s, s.(txs := s.txs[t := Tx(Promote, Picking, s.db.serviceSlots, [])],
                          lock := Some(t), owed := s.owed - 1))
  {
    var s1 := Do(s, Trigger(t));
    OneStep(s, Trigger(t), s1);
    var s2 := s1.(txs := s.txs[t := Tx(Promote, Settings, 0, [])], lock := Some(t));
    assert s2 == Do(s1, Statement(t, 0));
    Goes(s, s1, Statement(t, 0), s2);
    var s3 := s2.(txs := s.txs[t := Tx(Promote, Counting, s.db.serviceSlots, [])]);
    assert s3 == Do(s2, Statement(t, 0));
    Goes(s, s2, Statement(t, 0), s3);
    var s4 := s3.(txs := s.txs[t := Tx(Promote, Picking, s.db.serviceSlots, [])]);
    assert s4 == Do(s3, Statement(t, 0));
    Goes(s, s3, Statement(t, 0), s4);
  }

  /** A promoter takes the lock, finds u, and has read u's row. */
  lemma PromoterPicks(s: Sys, t: TxId, u: UserId)
    requires t !in s.txs && s.lock.None? && s.owed > 0
    requires OpenSlots(s.db) > 0 && Best(s.db.rows, u)
    ensures Reaches(s, s.(
                    txs := s.txs[t := Tx(Promote, Swapping(ServeWrite(s.db, u, s.clock)), s.db.serviceSlots, [])],
                    lock := Some(t), owed := s.owed - 1))
  {
    PromoterCounts(s, t);
    var s1 := s.(txs := s.txs[t := Tx(Promote, Picking, s.db.serviceSlots, [])], lock := Some(t), owed := s.owed - 1);
    var s2 := s1.(txs := s.txs[t := Tx(Promote, Fetching(u), s.db.serviceSlots, [])]);
    assert s2 == Do(s1, Statement(t, u));
    Goes(s, s1, Statement(t, u), s2);
    var s3 := s2.(txs := s.txs[t := Tx(Promote, Swapping(ServeWrite(s.db, u, s.clock)), s.db.serviceSlots, [])]);
    assert s3 == Do(s2, Statement(t, u));
    Goes(s, s2, Statement(t, u), s3);
  }

  /** The same promoter writes u's row, finds no further slot, and is about to commit. */
  lemma PromoterServes(s: Sys, t: TxId, u: UserId, at: int)
    requires u in Users(s.db.rows, Waiting) && OpenSlots(s.db) == 1
    requires t in s.txs && NoRowHeld(s)
    requires s.txs[t] == Tx(Promote, Swapping(ServeWrite(s.db, u, at)), s.db.serviceSlots, [])
    ensures Reaches(s, Continue(s, t, Tx(Promote, Finishing, s.db.serviceSlots, [ServeWrite(s.db, u, at)])))
    ensures ApplyAll(s.db, [ServeWrite(s.db, u, at)]) == Apply(s.db, ServeWrite(s.db, u, at))
  {
    var w := ServeWrite(s.db, u, at);
    var s1 := Continue(s, t, Tx(Promote, Counting, s.db.serviceSlots, [w]));
    assert View(s.db, s.txs[t]) == s.db && Lands(s.db, w);
    assert s.txs[t].writes + [w] == [w];
    assert !HeldByOther(s, t, u);
    assert Do(s, Statement(t, u)) == s1;
    OneStep(s, Statement(t, u), s1);
    ApplyOne(s.db, [w]);
    CountsFull(s1, t, w);
    var s2 := Continue(s1, t, Tx(Promote, Finishing, s.db.serviceSlots, [w]));
    Further(s, s1, s2);
    assert s2 == Continue(s, t, Tx(Promote, Finishing, s.db.serviceSlots, [w]));
  }

  lemma CountsFull(s: Sys, t: TxId, w: Write)
    requires Lands(s.db, w) && IsServe(w) && OpenSlots(s.db) == 1
    requires t in s.txs && s.txs[t] == Tx(Promote, Counting, s.db.serviceSlots, [w])
    ensures Reaches(s, Continue(s, t, Tx(Promote, Finishing, s.db.serviceSlots, [w])))
  {
    ApplyOne(s.db, [w]);
    UsersAfterWrite(s.db.rows, w.user, NewRow(s.db, w), Serving);
    OneStep(s, Statement(t, 0), Continue(s, t, Tx(Promote, Finishing, s.db.serviceSlots, [w])));
  }

  lemma ServeAlone(s: Sys, t: TxId, u: UserId)
    requires t !in s.txs && NoRowHeld(s) && s.lock.None? && s.owed > 0
    requires OpenSlots(s.db) == 1 && Best(s.db.rows, u)
    ensures Reaches(s, s.(db := Apply(s.db, ServeWrite(s.db, u, s.clock)), owed := s.owed - 1))
  {
    PromoterPicks(s, t, u);
    var m := s.(
    txs := s.txs[t := Tx(Promote, Swapping(ServeWrite(s.db, u, s.clock)), s.db.serviceSlots, [])],
    lock := Some(t), owed := s.owed - 1);
    PromoterServes(m, t, u, s.clock);
    var n := Continue(m, t, Tx(Promote, Finishing, s.db.serviceSlots, [ServeWrite(s.db, u, s.clock)]));
    Further(s, m, n);
    var s' := Do(n, Statement(t, u));
    OneStep(n, Statement(t, u), s');
    Further(s, n, s');
    assert s'.txs == s.txs;
  }

  const EMPTY := Sys(Db(map[], [], 1, 5, None), map[], None, 0, 0)

  // ----- a crashed promoter loses its wakeup --------------------------------

  /** Without the hypothesis that promoters survive, a slot can stay free beside a waiting
      user with nothing under way. */
  lemma CrashedPromoterLosesWakeup() returns (s: Sys)
    ensures Reaches(EMPTY, s) && s.txs == map[] && s.owed == 0 && Wakeups.HasWork(s.db)
  {
    var s0 := EMPTY;
    JoinAlone(s0, 7, 1);
    var s1 := s0.(db := Apply(s0.db, Insert(1, 0)), owed := 1);
    var s2 := Do(s1, Trigger(7));
    OneStep(s1, Trigger(7), s2);
    Further(s0, s1, s2);
    s := Do(s2, Crash(7));
    OneStep(s2, Crash(7), s);
    Further(s0, s2, s);
    assert 1 in Users(s.db.rows, Waiting);
    assert Users(s.db.rows, Serving) == {};
  }

  // ----- one who comes back ahead can be passed -----------------------------

  /** A promoter that has picked 2 commits after 1 has come back ahead of 2: both wait, 1 is
      strictly ahead, and 2 is promoted alone. This is a run of the permissive model: a share lock
      of the REJOIN's audit insert on the Queue row is not modelled. */
  lemma PassedByPickInFlight() returns (s: Sys, a: Action)
    ensures Reaches(EMPTY, s) && CanStep(s, a)
    ensures Fairness.Outranks(s, 1, 2) && !Fairness.NotPassedOver(s, 1, 2)
    ensures 2 in Fairness.NewlyServing(s, Do(s, a)) && 1 !in Fairness.NewlyServing(s, Do(s, a))
  {
    var s0 := EMPTY;
    JoinAlone(s0, 7, 1);
    var s1 := s0.(db := Apply(s0.db, Insert(1, 0)), owed := 1);
    RequestAlone(s1, 7, 1, Leave, User);
    var s2 := s1.(db := Apply(s1.db, Change(1, s1.db.rows[1], Leave, User, 0, 5)), owed := 2);
    Further(s0, s1, s2);
    var s3 := Do(s2, Tick(1));
    OneStep(s2, Tick(1), s3);
    Further(s0, s2, s3);
    JoinAlone(s3, 7, 2);
    var s4 := s3.(db := Apply(s3.db, Insert(2, 1)), owed := 3);
    Further(s0, s3, s4);
    assert s4 == BACK_LATER;
    s, a := PassedWhilePicked();
    Further(s0, s4, s);
  }

  /** User 1 joined at 0 and left; user 2 joined at 1 and waits. */
  const BACK_LATER := Sys(
    Db(map[1 := Row(0, Cancelled, 0, None, None), 2 := FreshRow(1)],
       [LogEntry(1, QuCreated, None, Waiting, User, 0),
        LogEntry(1, QuLeft, Some(Waiting), Cancelled, User, 0),
        LogEntry(2, QuCreated, None, Waiting, User, 1)], 1, 5, None), map[], None, 3, 1)

  lemma PassedWhilePicked() returns (s: Sys, a: Action)
    ensures Reaches(BACK_LATER, s) && CanStep(s, a)
    ensures Fairness.Outranks(s, 1, 2) && !Fairness.NotPassedOver(s, 1, 2)
    ensures 2 in Fairness.NewlyServing(s, Do(s, a)) && 1 !in Fairness.NewlyServing(s, Do(s, a))
  {
    var s4 := BACK_LATER;
    assert Users(s4.db.rows, Waiting) == {2} && Users(s4.db.rows, Serving) == {};
    PromoterPicks(s4, 7, 2);
    var w := ServeWrite(s4.db, 2, 1);
    var s5 := s4.(txs := map[7 := Tx(Promote, Swapping(w), 1, [])], lock := Some(7), owed := 2);
    assert s5.txs == s4.txs[7 := Tx(Promote, Swapping(w), 1, [])];
    RequestAlone(s5, 8, 1, Rejoin, User);
    var s6 := s5.(db := Apply(s5.db, Change(1, s5.db.rows[1], Rejoin, User, 1, 5)), owed := 3);
    Further(s4, s5, s6);
    assert w == ServeWrite(s6.db, 2, 1);
    s, a := ServesTheOther(s6, w);
    Further(s4, s6, s);
  }

  lemma ServesTheOther(s6: Sys, w: Write) returns (s: Sys, a: Action)
    requires s6.db.rows == map[1 := FreshRow(0), 2 := FreshRow(1)] && s6.db.serviceSlots == 1
    requires s6.txs == map[7 := Tx(Promote, Swapping(w), 1, [])] && s6.lock == Some(7)
    requires w == ServeWrite(s6.db, 2, 1)
    ensures Reaches(s6, s) && CanStep(s, a)
    ensures Fairness.Outranks(s, 1, 2) && !Fairness.NotPassedOver(s, 1, 2)
    ensures 2 in Fairness.NewlyServing(s, Do(s, a)) && 1 !in Fairness.NewlyServing(s, Do(s, a))
  {
    assert Users(s6.db.rows, Serving) == {};
    PromoterServes(s6, 7, 2, 1);
    s, a := Continue(s6, 7, Tx(Promote, Finishing, 1, [w])), Statement(7, 0);
    assert s.txs[7].writes == [w];
  }

  // ----- an old verdict on a new lateness -----------------------------------

  /** The worker finds 1 overdue; before it goes on, 1 comes back in the last millisecond, is
      served and marked late again; then the worker's update lands, since it checks the status
      alone. Row 1 turns MISSED a whole grace time too soon. */
  lemma MissedTooSoon() returns (s: Sys, a: Action)
    ensures Reaches(EMPTY, s) && CanStep(s, a) && ExpiryRaces.TurnsMissed(s, a, 1)
    ensures s.db.rows[1].expiresAt == Some(s.clock + 300_000)
  {
    var s0 := EMPTY;
    JoinAlone(s0, 7, 1);
    var s1 := s0.(db := Apply(s0.db, Insert(1, 0)), owed := 1);
    var s3 := ServedAndLate(s0, s1, 1);
    var s4 := Do(s3, Tick(300_000));
    OneStep(s3, Tick(300_000), s4);
    Further(s0, s3, s4);
    s, a := OldVerdict(s0, s4);
  }

  lemma OldVerdict(s0: Sys, s4: Sys) returns (s: Sys, a: Action)
    requires Reaches(s0, s4) && s4.txs == map[] && s4.lock.None?
    requires s4.db.graceTime == 5 && s4.db.serviceSlots == 1 && s4.clock == 300_000
    requires s4.db.rows == map[1 := Row(0, Late, 0, None, Some(300_000))]
    ensures Reaches(s0, s) && CanStep(s, a) && ExpiryRaces.TurnsMissed(s, a, 1)
    ensures s.db.rows[1].expiresAt == Some(s.clock + 300_000)
  {
    var s5 := Do(s4, Begin(8, Expire(1)));
    OneStep(s4, Begin(8, Expire(1)), s5);
    Further(s0, s4, s5);
    var s6 := Do(s5, Statement(8, 0));
    assert View(s5.db, s5.txs[8]) == s5.db;
    OneStep(s5, Statement(8, 0), s6);
    Further(s0, s5, s6);
    assert s6.txs == map[8 := Tx(Expire(1), Fetching(1), 0, [])];
    RequestAlone(s6, 7, 1, Rejoin, User);
    var s7 := s6.(db := Apply(s6.db, Change(1, s6.db.rows[1], Rejoin, User, 300_000, 5)), owed := s6.owed + 1);
    Further(s0, s6, s7);
    var s8 := ServedAndLate(s0, s7, 1);
    s, a := Strikes(s0, s8);
  }

  lemma Strikes(s0: Sys, s8: Sys) returns (s: Sys, a: Action)
    requires Reaches(s0, s8) && s8.txs == map[8 := Tx(Expire(1), Fetching(1), 0, [])]
    requires 1 in s8.db.rows && s8.db.rows[1].status.Late?
    ensures Reaches(s0, s) && CanStep(s, a) && ExpiryRaces.TurnsMissed(s, a, 1)
    ensures s.db == s8.db && s.clock == s8.clock
  {
    var w := Change(1, s8.db.rows[1], Miss, System, s8.clock, s8.db.graceTime);
    TransitionWrites(s8, 8, Expire(1), 1, w);
    s, a := Continue(s8, 8, Tx(Expire(1), Finishing, 0, [w])), Statement(8, 0);
    Further(s0, s8, s);
    ApplyOne(s.db, [w]);
  }

  // ----- an old reading of the deadline -------------------------------------

  /** A REJOIN reads row 1 in the last millisecond of its grace time and commits in the next:
      the row is WAITING again, with the boost, although its deadline has passed. */
  lemma ReturnTooLate() returns (s: Sys, a: Action)
    ensures Reaches(EMPTY, s) && CanStep(s, a) && LateReturns.Returns(s, a, 1)
    ensures s.db.rows[1].expiresAt == Some(s.clock - 1) && Do(s, a).db.rows[1].priorityBoost == 1
  {
    var s0 := EMPTY;
    JoinAlone(s0, 7, 1);
    var s1 := s0.(db := Apply(s0.db, Insert(1, 0)), owed := 1);
    var s2 := ServedAndLate(s0, s1, 1);
    var s3 := Do(s2, Tick(300_000));
    Goes(s0, s2, Tick(300_000), s3);
    s, a := CommitsLate(s0, s3);
  }

  lemma CommitsLate(s0: Sys, s3: Sys) returns (s: Sys, a: Action)
    requires Reaches(s0, s3) && s3.txs == map[] && s3.clock == 300_000
    requires s3.db.rows == map[1 := Row(0, Late, 0, None, Some(300_000))]
    ensures Reaches(s0, s) && CanStep(s, a) && LateReturns.Returns(s, a, 1)
    ensures s.db.rows[1].expiresAt == Some(s.clock - 1) && Do(s, a).db.rows[1].priorityBoost == 1
  {
    var kind := Request(1, Rejoin, User);
    var s4 := Continue(s3, 7, Starting(kind));
    Goes(s0, s3, Begin(7, kind), s4);
    var w := Change(1, s3.db.rows[1], Rejoin, User, 300_000, s3.db.graceTime);
    TransitionWrites(s4, 7, kind, 1, w);
    var s5 := Continue(s4, 7, Tx(kind, Finishing, 0, [w]));
    Further(s0, s4, s5);
    s, a := Do(s5, Tick(1)), Statement(7, 0);
    Goes(s0, s5, Tick(1), s);
    ApplyOne(s.db, [w]);
  }

  /** A REJOIN reads row 1 in its first lateness; row 1 comes back by another call, is served and
      marked late again; the REJOIN lands on the second lateness, past that one's deadline. */
  lemma ReturnOnOldReading() returns (s: Sys, a: Action)
    ensures Reaches(EMPTY, s) && CanStep(s, a) && LateReturns.Returns(s, a, 1)
    ensures s.db.rows[1].expiresAt == Some(300_001) && s.clock == 300_002
    ensures s.txs[a.t].writes == [Change(1, Row(0, Late, 0, None, Some(300_000)), Rejoin, User, 0, 5)]
  {
    var s0 := EMPTY;
    JoinAlone(s0, 7, 1);
    var s1 := s0.(db := Apply(s0.db, Insert(1, 0)), owed := 1);
    var s2 := ServedAndLate(s0, s1, 1);
    var s3 := ReadsFirstLateness(s0, s2);
    var s4 := Do(s3, Tick(1));
    Goes(s0, s3, Tick(1), s4);
    RequestAlone(s4, 7, 1, Rejoin, User);
    var s5 := s4.(db := Apply(s4.db, Change(1, s4.db.rows[1], Rejoin, User, 1, 5)), owed := s4.owed + 1);
    Further(s0, s4, s5);
    var s6 := ServedAndLate(s0, s5, 1);
    s, a := LandsOnSecondLateness(s0, s6);
  }

  lemma ReadsFirstLateness(s0: Sys, s: Sys) returns (s': Sys)
    requires Reaches(s0, s) && s.txs == map[] && s.clock == 0 && s.db.graceTime == 5
    requires s.db.rows == map[1 := Row(0, Late, 0, None, Some(300_000))]
    ensures Reaches(s0, s') && s' == s.(txs := s'.txs)
    ensures var w := Change(1, s.db.rows[1], Rejoin, User, 0, 5);
            s'.txs == map[8 := Tx(Request(1, Rejoin, User), Swapping(w), 0, [])]
  {
    var kind := Request(1, Rejoin, User);
    var m := Continue(s, 8, Starting(kind));
    Goes(s0, s, Begin(8, kind), m);
    var w := Change(1, s.db.rows[1], Rejoin, User, 0, 5);
    TransitionReads(m, 8, kind, 1, w);
    s' := Continue(m, 8, Tx(kind, Swapping(w), 0, []));
    Further(s0, m, s');
  }

  lemma LandsOnSecondLateness(s0: Sys, s6: Sys) returns (s: Sys, a: Action)
    requires Reaches(s0, s6) && s6.clock == 1 && s6.db.graceTime == 5
    requires s6.db.rows == map[1 := Row(0, Late, 0, None, Some(300_001))]
    requires var w := Change(1, Row(0, Late, 0, None, Some(300_000)), Rejoin, User, 0, 5);
             s6.txs == map[8 := Tx(Request(1, Rejoin, User), Swapping(w), 0, [])]
    ensures Reaches(s0, s) && CanStep(s, a) && LateReturns.Returns(s, a, 1)
    ensures s.db.rows[1].expiresAt == Some(300_001) && s.clock == 300_002
    ensures s.txs[a.t].writes == [Change(1, Row(0, Late, 0, None, Some(300_000)), Rejoin, User, 0, 5)]
  {
    var s7 := Do(s6, Tick(300_001));
    Goes(s0, s6, Tick(300_001), s7);
    var kind, w := Request(1, Rejoin, User), s7.txs[8].pc.write;
    TransitionLands(s7, 8, kind, w);
    s, a := Continue(s7, 8, Tx(kind, Finishing, 0, [w])), Statement(8, 0);
    Further(s0, s7, s);
    ApplyOne(s.db, [w]);
  }

  /** The only user there is gets served and is marked late at once. */
  lemma ServedAndLate(s0: Sys, s: Sys, u: UserId) returns (s': Sys)
    requires Reaches(s0, s) && NoRowHeld(s) && s.lock.None? && s.owed > 0 && 7 !in s.txs
    requires s.db.rows.Keys == {u} && s.db.rows[u].status.Waiting? && s.db.serviceSlots == 1
    ensures Reaches(s0, s')
    ensures s' == s.(db := s'.db, owed := s.owed)
    ensures s'.db.(rows := s.db.rows, log := s.db.log) == s.db
    ensures s'.db.rows
         == map[u := s.db.rows[u].(status := Late, priorityBoost := 0,
                     expiresAt := Some(ComputeExpiry(s.clock, s.db.graceTime)))]
  {
    assert Users(s.db.rows, Waiting) == {u} && Users(s.db.rows, Serving) == {};
    ServeAlone(s, 7, u);
    var m := s.(db := Apply(s.db, ServeWrite(s.db, u, s.clock)), owed := s.owed - 1);
    Further(s0, s, m);
    RequestAlone(m, 7, u, MarkLate, Admin);
    s' := m.(db := Apply(m.db, Change(u, m.db.rows[u], MarkLate, Admin, m.clock, m.db.graceTime)), owed := s.owed);
    Further(s0, m, s');
  }

  // ----- the capacity bound is reached --------------------------------------

  /** n joins that have all passed their check. */
  function Admitted(base: UserId, n: nat): (txs: map<TxId, Tx>)
    ensures forall t :: t in txs ==> t < n && txs[t].writes == []
  {
    if n == 0 then map[]
    else Admitted(base, n - 1)[n - 1 := Tx(Join(base + (n - 1)), Looking, 0, [])]
  }

  lemma {:induction false} AdmitAll(s: Sys, base: UserId, n: nat)
    requires s.txs == map[] && s.lock.None?
    requires s.db.maxSize.Some? ==> |Active(s.db.rows)| < s.db.maxSize.value
    ensures Reaches(s, s.(txs := Admitted(base, n)))
  {
    if n == 0 {
      NoStep(s);
      assert s.(txs := Admitted(base, 0)) == s;
    } else {
      AdmitAll(s, base, n - 1);
      var t, kind := n - 1, Join(base + (n - 1));
      var s1, s2 := s.(txs := Admitted(base, n - 1)), s.(txs := Admitted(base, n));
      var m := Do(s1, Begin(t, kind));
      OneStep(s1, Begin(t, kind), m);
      Further(s, s1, m);
      assert m.txs[t] == Tx(kind, Admitting, 0, []);
      assert Do(m, Statement(t, 0)).txs == s2.txs;
      OneStep(m, Statement(t, 0), s2);
      Further(s, m, s2);
    }
  }

  lemma FinishLast(s: Sys, base: UserId, n: nat) returns (m: Sys)
    requires n > 0 && s.txs == Admitted(base, n) && s.lock.None? && base + (n - 1) !in s.db.rows
    ensures Reaches(s, m) && m.txs == Admitted(base, n - 1) && m.lock.None?
    ensures m.db.rows == s.db.rows[base + (n - 1) := FreshRow(s.clock)]
  {
    var t, u := n - 1, base + (n - 1);
    m := s.(db := Apply(s.db, Insert(u, s.clock)), owed := s.owed + 1, txs := s.txs - {t});
    FreshJoinCommits(s, t, u, m);
    assert m.txs == Admitted(base, n - 1);
  }

  lemma {:induction false} FinishAll(s: Sys, base: UserId, n: nat) returns (s': Sys)
    requires s.txs == Admitted(base, n) && s.lock.None?
    requires forall u :: base <= u < base + n ==> u !in s.db.rows
    ensures Reaches(s, s') && |Active(s'.db.rows)| == |Active(s.db.rows)| + n
    decreases n
  {
    if n == 0 {
      s' := s;
      NoStep(s);
    } else {
      var u := base + (n - 1);
      var m := FinishLast(s, base, n);
      assert u !in Active(s.db.rows) && Active(m.db.rows) == Active(s.db.rows) + {u};
      s' := FinishAll(m, base, n - 1);
      Further(s, m, s');
    }
  }

  /** From any quiet queue with one place left, c racing joins bring the active rows to
      maxSize - 1 + c: the bound on racing joins cannot be improved. */
  lemma CapacityBoundReached(s: Sys, maxSize: int, base: UserId, c: nat) returns (s': Sys)
    requires s.txs == map[] && s.lock.None?
    requires s.db.maxSize == Some(maxSize) && |Active(s.db.rows)| == maxSize - 1
    requires forall u :: base <= u < base + c ==> u !in s.db.rows
    ensures Reaches(s, s') && |Active(s'.db.rows)| == maxSize - 1 + c
  {
    AdmitAll(s, base, c);
    var m := s.(txs := Admitted(base, c));
    s' := FinishAll(m, base, c);
    Further(s, m, s');
  }

  // ----- returns are not checked against maxSize ----------------------------

  /** However full the queue is, rejoin calls bring all these users back. */
  lemma {:induction false} AllReturn(s: Sys, back: set<UserId>) returns (s': Sys)
    requires s.txs == map[] && s.lock.None?
    requires forall u :: u in back ==> u in Users(s.db.rows, Cancelled) + Users(s.db.rows, Missed)
    ensures Reaches(s, s') && s'.db.maxSize == s.db.maxSize
    ensures Active(s'.db.rows) == Active(s.db.rows) + back
    decreases back
  {
    if back == {} {
      s' := s;
      NoStep(s);
    } else {
      var u :| u in back;
      RequestAlone(s, 7, u, Rejoin, User);
      var m := s.(db := Apply(s.db, Change(u, s.db.rows[u], Rejoin, User, s.clock, s.db.graceTime)),
      owed := s.owed + 1);
      assert Active(m.db.rows) == Active(s.db.rows) + {u};
      s' := AllReturn(m, back - {u});
      Further(s, m, s');
    }
  }

  const ONE_PLACE := EMPTY.(db := EMPTY.db.(maxSize := Some(1)))

  /** User 1 joins and leaves, user 2 takes the one place, and user 1 comes back. */
  lemma ReturnPassesMaxSize() returns (s: Sys)
    ensures Reaches(ONE_PLACE, s) && s.db.maxSize == Some(1) && |Active(s.db.rows)| == 2
  {
    var s0 := ONE_PLACE;
    JoinAlone(s0, 7, 1);
    var s1 := s0.(db := Apply(s0.db, Insert(1, 0)), owed := 1);
    RequestAlone(s1, 7, 1, Leave, User);
    var s2 := s1.(db := Apply(s1.db, Change(1, s1.db.rows[1], Leave, User, 0, 5)), owed := 2);
    Further(s0, s1, s2);
    assert Active(s2.db.rows) == {};
    JoinAlone(s2, 7, 2);
    var s3 := s2.(db := Apply(s2.db, Insert(2, 0)), owed := 3);
    Further(s0, s2, s3);
    assert Active(s3.db.rows) == {2};
    s := AllReturn(s3, {1});
    Further(s0, s3, s);
    assert Active(s.db.rows) == {1, 2};
  }

  // ----- compare-and-set alone does not protect the slots -------------------

  /** Without the Queue lock, two promoters fill one slot twice. */
  lemma WithoutLockSlotsOverflow() returns (s: Sys)
    ensures Reaches(EMPTY, s, false) && |Users(s.db.rows, Serving)| == 2 && s.db.serviceSlots == 1
  {
    var s1, w := FirstPromoterReady();
    ReachesUnlocked(EMPTY, s1);
    var s2 := SecondPromoterCounts(s1, w);
    Further(EMPTY, s1, s2, false);
    s := SecondPromoterServes(s2);
    Further(EMPTY, s2, s, false);
  }

  /** Two users have joined. */
  lemma TwoJoin() returns (s: Sys)
    ensures Reaches(EMPTY, s) && s.txs == map[] && s.lock.None? && s.owed == 2 && s.clock == 1
    ensures s.db.rows == map[1 := FreshRow(0), 2 := FreshRow(1)] && s.db.serviceSlots == 1
  {
    JoinAlone(EMPTY, 7, 1);
    var s1 := EMPTY.(db := Apply(EMPTY.db, Insert(1, 0)), owed := 1);
    var s2 := Do(s1, Tick(1));
    Goes(EMPTY, s1, Tick(1), s2);
    JoinAlone(s2, 7, 2);
    s := s2.(db := Apply(s2.db, Insert(2, 1)), owed := 2);
    Further(EMPTY, s2, s);
  }

  /** A promoter is about to commit that it serves the first of them. */
  lemma FirstPromoterReady() returns (s: Sys, w: Write)
    ensures Reaches(EMPTY, s) && s.owed > 0
    ensures s.db.rows == map[1 := FreshRow(0), 2 := FreshRow(1)] && s.db.serviceSlots == 1
    ensures w == ServeWrite(s.db, 1, 1) && s.txs == map[7 := Tx(Promote, Finishing, 1, [w])]
  {
    var s1 := TwoJoin();
    assert Users(s1.db.rows, Serving) == {} && Users(s1.db.rows, Waiting) == {1, 2};
    PromoterPicks(s1, 7, 1);
    w := ServeWrite(s1.db, 1, 1);
    var s2 := s1.(txs := map[7 := Tx(Promote, Swapping(w), 1, [])], lock := Some(7), owed := 1);
    assert s2.txs == s1.txs[7 := Tx(Promote, Swapping(w), 1, [])];
    Further(EMPTY, s1, s2);
    PromoterServes(s2, 7, 1, 1);
    s := s2.(txs := map[7 := Tx(Promote, Finishing, 1, [w])]);
    assert s == Continue(s2, 7, Tx(Promote, Finishing, 1, [w]));
    Further(EMPTY, s2, s);
  }

  /** The second promoter ignores the held lock and counts before the first one commits. */
  lemma SecondPromoterCounts(s: Sys, w: Write) returns (s': Sys)
    requires s.db.rows == map[1 := FreshRow(0), 2 := FreshRow(1)] && s.db.serviceSlots == 1
    requires w == ServeWrite(s.db, 1, 1) && s.owed > 0
    requires s.txs == map[7 := Tx(Promote, Finishing, 1, [w])]
    ensures Reaches(s, s', false)
    ensures s'.txs == map[8 := Tx(Promote, Picking, 1, [])] && s'.db.serviceSlots == 1
    ensures s'.db.rows == map[1 := FreshRow(0).(status := Serving), 2 := FreshRow(1)]
  {
    var rest := s.txs;
    var s1 := s.(txs := rest[8 := Tx(Promote, AwaitLock, 0, [])], owed := s.owed - 1);
    OneStep(s, Trigger(8), s1, false);
    var s2 := s1.(txs := rest[8 := Tx(Promote, Settings, 0, [])], lock := Some(8));
    assert Do(s1, Statement(8, 0)) == s2;
    OneStep(s1, Statement(8, 0), s2, false);
    Further(s, s1, s2, false);
    var s3 := s2.(txs := rest[8 := Tx(Promote, Counting, 1, [])]);
    assert Do(s2, Statement(8, 0)) == s3;
    OneStep(s2, Statement(8, 0), s3, false);
    Further(s, s2, s3, false);
    s' := CountsTooEarly(s3, w);
    Further(s, s3, s', false);
  }

  lemma CountsTooEarly(s: Sys, w: Write) returns (s': Sys)
    requires s.db.rows == map[1 := FreshRow(0), 2 := FreshRow(1)] && s.db.serviceSlots == 1
    requires w == ServeWrite(s.db, 1, 1)
    requires s.txs == map[7 := Tx(Promote, Finishing, 1, [w]), 8 := Tx(Promote, Counting, 1, [])]
    ensures Reaches(s, s', false)
    ensures s'.txs == map[8 := Tx(Promote, Picking, 1, [])] && s'.db.serviceSlots == 1
    ensures s'.db.rows == map[1 := FreshRow(0).(status := Serving), 2 := FreshRow(1)]
  {
    assert Users(s.db.rows, Serving) == {};
    var s1 := s.(txs := map[7 := Tx(Promote, Finishing, 1, [w]), 8 := Tx(Promote, Picking, 1, [])]);
    assert Do(s, Statement(8, 0)) == s1;
    OneStep(s, Statement(8, 0), s1, false);
    ApplyOne(s.db, [w]);
    s' := Do(s1, Statement(7, 0));
    OneStep(s1, Statement(7, 0), s', false);
    Further(s, s1, s', false);
    assert s'.txs == map[8 := Tx(Promote, Picking, 1, [])];
  }

  lemma SecondPromoterServes(s: Sys) returns (s': Sys)
    requires s.txs == map[8 := Tx(Promote, Picking, 1, [])] && s.db.serviceSlots == 1
    requires s.db.rows == map[1 := FreshRow(0).(status := Serving), 2 := FreshRow(1)]
    ensures Reaches(s, s', false) && |Users(s'.db.rows, Serving)| == 2 && s'.db.serviceSlots == 1
  {
    var w := ServeWrite(s.db, 2, s.clock);
    SecondPromoterReads(s, w);
    var s1 := s.(txs := map[8 := Tx(Promote, Swapping(w), 1, [])]);
    var s2 := s.(txs := map[8 := Tx(Promote, Counting, 1, [w])]);
    assert s1.txs[8].writes + [w] == [w];
    assert View(s1.db, s1.txs[8]) == s.db && Lands(s.db, w);
    assert Do(s1, Statement(8, 2)) == s2;
    Goes(s, s1, Statement(8, 2), s2, false);
    assert Users(s.db.rows, Serving) == {1};
    s' := StopsAndCommits(s2, w);
    Further(s, s2, s', false);
  }

  lemma SecondPromoterReads(s: Sys, w: Write)
    requires s.txs == map[8 := Tx(Promote, Picking, 1, [])]
    requires s.db.rows == map[1 := FreshRow(0).(status := Serving), 2 := FreshRow(1)]
    requires w == ServeWrite(s.db, 2, s.clock)
    ensures Reaches(s, s.(txs := map[8 := Tx(Promote, Swapping(w), 1, [])]), false)
  {
    assert View(s.db, s.txs[8]) == s.db;
    assert Users(s.db.rows, Waiting) == {2};
    assert Best(s.db.rows, 2);
    var s1 := s.(txs := map[8 := Tx(Promote, Fetching(2), 1, [])]);
    assert Do(s, Statement(8, 2)) == s1;
    OneStep(s, Statement(8, 2), s1, false);
    var s2 := s.(txs := map[8 := Tx(Promote, Swapping(w), 1, [])]);
    assert View(s1.db, s1.txs[8]) == s.db;
    assert Do(s1, Statement(8, 2)) == s2;
    Goes(s, s1, Statement(8, 2), s2, false);
  }

  lemma StopsAndCommits(s: Sys, w: Write) returns (s': Sys)
    requires s.txs == map[8 := Tx(Promote, Counting, 1, [w])] && s.db.serviceSlots == 1
    requires Lands(s.db, w) && IsServe(w) && |Users(s.db.rows, Serving)| == 1
    ensures Reaches(s, s', false) && |Users(s'.db.rows, Serving)| == 2 && s'.db.serviceSlots == 1
  {
    ApplyOne(s.db, [w]);
    UsersAfterWrite(s.db.rows, w.user, NewRow(s.db, w), Serving);
    var s1 := s.(txs := map[8 := Tx(Promote, Finishing, 1, [w])]);
    assert Do(s, Statement(8, 0)) == s1;
    OneStep(s, Statement(8, 0), s1, false);
    s' := Do(s1, Statement(8, 0));
    OneStep(s1, Statement(8, 0), s', false);
    Further(s, s1, s', false);
  }
}
