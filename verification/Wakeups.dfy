/** No lost wakeup: a free slot and a waiting user never sit side by side unattended. */
module Wakeups {
  import opened QueueTypes
  import opened Database
  import opened Interleaving
  import opened SlotSafety

  /** A slot is free and someone is waiting. */
  predicate HasWork(db: Db) {
    |Users(db.rows, Serving)| < db.serviceSlots && Users(db.rows, Waiting) != {}
  }

  /** A promotion is still to start, or to take the lock. */
  ghost predicate Pending(s: Sys) {
    s.owed > 0 || exists t :: t in s.txs && s.txs[t].kind.Promote? && s.txs[t].pc.AwaitLock?
  }

  /** The picked user is still there to be served. */
  predicate CanServe(db: Db, tx: Tx, u: UserId) {
    u in Users(db.rows, Waiting) && u !in WriteUsers(tx.writes)
  }

  /** The lock holder will look at the tables again, or will serve the user it has picked. */
  predicate StillWorking(db: Db, tx: Tx) {
    match tx.pc
    case Settings => true
    case Counting => true
    case Picking => true
    case Fetching(u) => CanServe(db, tx, u)
    case Swapping(w) => CanServe(db, tx, w.user)
    case _ => false
  }

  ghost predicate Attended(s: Sys) {
    && (HasWork(s.db) ==>
          || Pending(s)
          || (s.lock.Some? && s.lock.value in s.txs && s.txs[s.lock.value].kind.Promote?))
    && (s.lock.Some? && s.lock.value in s.txs && s.txs[s.lock.value].kind.Promote? ==>
          Minded(s, s.txs[s.lock.value]))
  }

  /** A holder that will not look again leaves no work behind, or a promotion is pending. */
  ghost predicate Minded(s: Sys, tx: Tx) {
    || Pending(s)
    || StillWorking(s.db, tx)
    || (tx.pc.Finishing? && !HasWork(View(s.db, tx)))
  }

  /** The rollbacks under which the claim is made: any transaction may crash but a promoter. */
  predicate PromoterSurvives(s: Sys, a: Action) {
    a.Crash? && a.t in s.txs ==> !s.txs[a.t].kind.Promote?
  }

  lemma PendingStays(s: Sys, s': Sys, t: TxId)
    requires Pending(s) && s'.owed >= s.owed
    requires forall o :: o in s.txs && o != t ==> o in s'.txs && s'.txs[o] == s.txs[o]
    requires t in s.txs && s.txs[t].kind.Promote? && s.txs[t].pc.AwaitLock? ==> t in s'.txs && s'.txs[t] == s.txs[t]
    ensures Pending(s')
  {
    if s.owed == 0 {
      var o :| o in s.txs && s.txs[o].kind.Promote? && s.txs[o].pc.AwaitLock?;
      assert o in s'.txs && s'.txs[o] == s.txs[o];
    }
  }

  lemma StepAttended(s: Sys, a: Action)
    requires SysOk(s) && CanStep(s, a) && PromoterSurvives(s, a) && Attended(s)
    ensures Attended(Do(s, a))
  {
    match a
    case Tick(_) =>
      assert Pending(s) ==> Pending(Do(s, a));
    case Begin(t, kind) =>
      if Pending(s) { PendingStays(s, Do(s, a), t); }
    case Trigger(t) =>
      assert Do(s, a).txs[t] == Starting(Promote);
    case Crash(t) =>
      if Pending(s) { PendingStays(s, Do(s, a), t); }
    case Statement(t, choice) =>
      assert TxOk(s.db, s.txs[t]);
      if s.txs[t].kind.Promote? {
        PromoterAttended(s, t, choice);
      } else {
        OtherAttended(s, t, choice);
      }
  }

  lemma OtherAttended(s: Sys, t: TxId, choice: UserId)
    requires SysOk(s) && CanStep(s, Statement(t, choice)) && Attended(s) && !s.txs[t].kind.Promote?
    ensures Attended(DoStatement(s, t, choice))
  {
    var tx, s' := s.txs[t], DoStatement(s, t, choice);
    assert TxOk(s.db, tx);
    StatementTouches(s, t, choice);
    OnlyCommitsChangeTables(s, Statement(t, choice));
    if Pending(s) || s'.owed > 0 {
      PendingAttended(s, t, s');
    } else if tx.pc.Finishing? {
      ExpiryAttended(s, t);
    } else {
      assert s'.lock != s.lock ==> s'.lock == Some(t) || !HoldsLock(tx) || tx.kind.Configure?;
    }
  }

  lemma PendingAttended(s: Sys, t: TxId, s': Sys)
    requires t in s.txs && !s.txs[t].kind.Promote? && StatementFrame(s, t, s')
    requires Pending(s) || s'.owed > 0
    ensures Attended(s')
  {
    if s'.owed == 0 { PendingStays(s, s', t); }
    assert Pending(s');
  }

  lemma MissMovesNoWork(db: Db, w: Write)
    requires w.Change? && w.event.Miss?
    ensures Users(Apply(db, w).rows, Serving) == Users(db.rows, Serving)
    ensures Users(Apply(db, w).rows, Waiting) == Users(db.rows, Waiting)
    ensures Apply(db, w).serviceSlots == db.serviceSlots
  {
  }

  /** A holder's view has work exactly when another table with the same WAITING and SERVING has. */
  lemma SameWork(db: Db, db': Db, tx: Tx)
    requires TxOk(db, tx) && TxOk(db', tx) && tx.kind.Promote?
    requires Users(db'.rows, Serving) == Users(db.rows, Serving)
    requires Users(db'.rows, Waiting) == Users(db.rows, Waiting)
    requires db'.serviceSlots == db.serviceSlots
    ensures HasWork(View(db', tx)) == HasWork(View(db, tx))
  {
    ServesMoveUsers(db, tx.writes);
    ServesMoveUsers(db', tx.writes);
    ApplyAllRows(db, tx.writes);
    ApplyAllRows(db', tx.writes);
  }

  /** The worker's commit touches neither WAITING nor SERVING, in the tables or in a holder's view. */
  lemma ExpiryAttended(s: Sys, t: TxId)
    requires SysOk(s) && Attended(s) && !Pending(s)
    requires t in s.txs && s.txs[t].kind.Expire? && s.txs[t].pc.Finishing?
    ensures Attended(Commit(s, t))
  {
    var tx, s' := s.txs[t], Commit(s, t);
    assert TxOk(s.db, tx);
    ApplyOne(s.db, tx.writes);
    MissMovesNoWork(s.db, tx.writes[0]);
    CommitKeeps(s, t);
    if s.lock.Some? && s.txs[s.lock.value].kind.Promote? {
      var holder := s.txs[s.lock.value];
      assert s.lock.value in s'.txs && s'.txs[s.lock.value] == holder;
      assert TxOk(s.db, holder) && TxOk(s'.db, holder);
      SameWork(s.db, s'.db, holder);
    }
  }

  lemma PromoterAttended(s: Sys, t: TxId, choice: UserId)
    requires SysOk(s) && CanStep(s, Statement(t, choice)) && Attended(s) && s.txs[t].kind.Promote?
    ensures Attended(DoStatement(s, t, choice))
  {
    var tx, s' := s.txs[t], DoStatement(s, t, choice);
    assert TxOk(s.db, tx);
    if tx.pc.AwaitLock? || tx.pc.Settings? {
    } else if Pending(s) {
      PendingStays(s, s', t);
    } else {
      assert s.lock == Some(t) && Minded(s, tx);
      match tx.pc
      case Counting => CountMinded(s, t, choice);
      case Picking => PickMinded(s, t, choice);
      case Fetching(_) => FetchMinded(s, t, choice);
      case Swapping(_) => SwapMinded(s, t, choice);
      case _ =>
    }
  }

  lemma CountMinded(s: Sys, t: TxId, choice: UserId)
    requires SysOk(s) && s.lock == Some(t) && t in s.txs && s.txs[t].kind.Promote? && s.txs[t].pc.Counting?
    ensures Attended(DoStatement(s, t, choice))
  {
    assert TxOk(s.db, s.txs[t]);
    ApplyAllRows(s.db, s.txs[t].writes);
  }

  lemma PickMinded(s: Sys, t: TxId, choice: UserId)
    requires SysOk(s) && s.lock == Some(t) && CanStep(s, Statement(t, choice))
    requires s.txs[t].kind.Promote? && s.txs[t].pc.Picking?
    ensures Attended(DoStatement(s, t, choice))
  {
    var tx := s.txs[t];
    assert TxOk(s.db, tx);
    ServesMoveSets(s.db, tx.writes);
    if Users(View(s.db, tx).rows, Waiting) != {} {
      assert choice in Users(s.db.rows, Waiting) - WriteUsers(tx.writes);
      assert CanServe(s.db, DoStatement(s, t, choice).txs[t], choice);
    } else {
      assert !HasWork(View(s.db, tx));
    }
  }

  /** A picked user who is still waiting passes the read and the guard. */
  lemma FetchMinded(s: Sys, t: TxId, choice: UserId)
    requires SysOk(s) && s.lock == Some(t) && t in s.txs && s.txs[t].kind.Promote? && s.txs[t].pc.Fetching?
    requires CanServe(s.db, s.txs[t], s.txs[t].pc.target)
    ensures Attended(DoStatement(s, t, choice))
  {
    var tx, u := s.txs[t], s.txs[t].pc.target;
    assert TxOk(s.db, tx);
    ApplyAllRows(s.db, tx.writes);
    assert View(s.db, tx).rows[u] == s.db.rows[u];
    assert CanServe(s.db, DoStatement(s, t, choice).txs[t], u);
  }

  lemma SwapMinded(s: Sys, t: TxId, choice: UserId)
    requires SysOk(s) && s.lock == Some(t) && t in s.txs && s.txs[t].kind.Promote? && s.txs[t].pc.Swapping?
    requires CanServe(s.db, s.txs[t], s.txs[t].pc.write.user)
    ensures Attended(DoStatement(s, t, choice))
  {
    var tx := s.txs[t];
    assert TxOk(s.db, tx);
    ApplyAllRows(s.db, tx.writes);
    assert Lands(View(s.db, tx), tx.pc.write);
  }

  // ----- over runs ----------------------------------------------------------

  ghost predicate PromotersSurvive(run: seq<Sys>, acts: seq<Action>) {
    |run| == |acts| + 1 && forall i :: 0 <= i < |acts| ==> PromoterSurvives(run[i], acts[i])
  }

  /** In every state of every run: if a slot is free and someone waits, then a promotion
      is owed, or one waits for the lock, or the lock holder is still working. */
  lemma {:induction false} NoLostWakeup(run: seq<Sys>, acts: seq<Action>)
    requires IsRun(run, acts) && Init(run[0]) && PromotersSurvive(run, acts)
    ensures SysOk(run[|acts|]) && Attended(run[|acts|])
  {
    if acts != [] {
      var n := |acts| - 1;
      PrefixRun(run, acts);
      NoLostWakeup(run[..|run| - 1], acts[..n]);
      StepAttended(run[n], acts[n]);
      StepKeeps(run[n], acts[n]);
    }
  }

  /** Once everything has come to rest, every slot is taken or nobody is waiting. */
  lemma QuietMeansSettled(run: seq<Sys>, acts: seq<Action>)
    requires IsRun(run, acts) && Init(run[0]) && PromotersSurvive(run, acts)
    requires run[|acts|].txs == map[] && run[|acts|].owed == 0
    ensures !HasWork(run[|acts|].db)
  {
    NoLostWakeup(run, acts);
  }
}
