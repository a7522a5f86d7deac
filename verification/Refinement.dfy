/** A transaction that runs while the tables stand still does what the serial operation does. */
module Refinement {
  import opened QueueTypes
  import opened StateMachine
  import opened Database
  import opened Promotion
  import opened Interleaving
  import opened SlotSafety
  import opened Operations
  import CallEffects

  function Targets(ws: seq<Write>): seq<UserId> {
    seq(|ws|, i requires 0 <= i < |ws| => ws[i].user)
  }

  /** The promoter's uncommitted work is a greedy choice from the committed tables, and it
      stops only when it has served the full quota. */
  ghost predicate OnCourse(db: Db, tx: Tx) {
    && tx.kind.Promote?
    && var p := Targets(tx.writes);
    && Greedy(db.rows, p)
    && View(db, tx).rows == Promoted(db, p, 0).rows
    && match tx.pc
       case Fetching(u) => Best(View(db, tx).rows, u)
       case Swapping(w) => Best(View(db, tx).rows, w.user)
       case Finishing => |p| == Quota(db)
       case _ => true
  }

  lemma StartsOnCourse(db: Db, tx: Tx)
    requires tx.kind.Promote? && tx.pc.AwaitLock? && tx.writes == []
    ensures OnCourse(db, tx)
  {
    assert Elements([]) == {};
  }

  lemma CountOnCourse(s: Sys, t: TxId, choice: UserId)
    requires SysOk(s) && t in s.txs && OnCourse(s.db, s.txs[t])
    requires s.txs[t].pc.Counting? || s.txs[t].pc.Picking?
    requires CanStep(s, Statement(t, choice))
    ensures t in DoStatement(s, t, choice).txs && OnCourse(s.db, DoStatement(s, t, choice).txs[t])
  {
    var tx := s.txs[t];
    assert TxOk(s.db, tx);
    PromotedUsers(s.db, Targets(tx.writes), 0);
  }

  lemma SwapOnCourse(s: Sys, t: TxId, choice: UserId)
    requires SysOk(s) && t in s.txs && OnCourse(s.db, s.txs[t]) && s.txs[t].pc.Swapping?
    ensures t in DoStatement(s, t, choice).txs ==> OnCourse(s.db, DoStatement(s, t, choice).txs[t])
  {
    var tx, w := s.txs[t], s.txs[t].pc.write;
    var p, view := Targets(s.txs[t].writes), View(s.db, s.txs[t]);
    assert TxOk(s.db, tx);
    if Lands(view, w) {
      GreedyExtends(s.db, p, 0, w.user);
      assert Targets(tx.writes + [w]) == p + [w.user];
      assert (tx.writes + [w])[..|tx.writes|] == tx.writes;
      assert ApplyAll(s.db, tx.writes + [w]) == Apply(view, w);
      ServeRows(view, Promoted(s.db, p, 0), w);
    }
  }

  /** The stale reading of a promoter's write does not show in the row it writes. */
  lemma ServeRows(view: Db, mid: Db, w: Write)
    requires view.rows == mid.rows && Lands(view, w) && IsServe(w)
    ensures Apply(view, w).rows == Apply(mid, ServeWrite(mid, w.user, 0)).rows
  {
  }

  lemma StepOnCourse(s: Sys, a: Action, t: TxId)
    requires SysOk(s) && CanStep(s, a) && t in s.txs && OnCourse(s.db, s.txs[t])
    requires t in Do(s, a).txs && Do(s, a).db == s.db
    ensures OnCourse(s.db, Do(s, a).txs[t])
  {
    if a.Statement? {
      StatementTouches(s, a.t, a.choice);
      if a.t == t {
        assert TxOk(s.db, s.txs[t]);
        match s.txs[t].pc
        case Counting => CountOnCourse(s, t, a.choice);
        case Picking => CountOnCourse(s, t, a.choice);
        case Swapping(_) => SwapOnCourse(s, t, a.choice);
        case _ =>
      }
    }
  }

  /** From taking the lock to the commit, with no other commit in between: the transaction
      serves the first Quota users of the sorted listing, in order, and nothing else. */
  lemma {:induction false} UndisturbedPromotionIsSerial(run: seq<Sys>, acts: seq<Action>, t: TxId)
    requires IsRun(run, acts) && SysOk(run[0])
    requires forall i :: 0 <= i < |run| ==> t in run[i].txs && run[i].db == run[0].db
    requires run[0].txs[t].kind.Promote? && run[0].txs[t].pc.AwaitLock?
    requires run[|acts|].txs[t].pc.Finishing?
    ensures var db, db', p := run[0].db, Commit(run[|acts|], t).db, Targets(run[|acts|].txs[t].writes);
            && Greedy(db.rows, p) && |p| == Quota(db)
            && db'.rows == Promoted(db, p, 0).rows
            && |db'.log| == |db.log| + |p| && db'.log[..|db.log|] == db.log
            && forall k :: 0 <= k < |p| ==>
                 db'.log[|db.log| + k] == ServedEntry(p[k], run[|acts|].txs[t].writes[k].at)
  {
    assert TxOk(run[0].db, run[0].txs[t]);
    StartsOnCourse(run[0].db, run[0].txs[t]);
    StaysOnCourse(run, acts, t);
    assert TxOk(run[0].db, run[|acts|].txs[t]);
    FinishedOnCourse(run[0].db, run[|acts|].txs[t]);
  }

  lemma FinishedOnCourse(db: Db, tx: Tx)
    requires TxOk(db, tx) && OnCourse(db, tx) && tx.pc.Finishing?
    ensures var db', p := ApplyAll(db, tx.writes), Targets(tx.writes);
            && Greedy(db.rows, p) && |p| == Quota(db)
            && db'.rows == Promoted(db, p, 0).rows
            && |db'.log| == |db.log| + |p| && db'.log[..|db.log|] == db.log
            && forall k :: 0 <= k < |p| ==> db'.log[|db.log| + k] == ServedEntry(p[k], tx.writes[k].at)
  {
    LogGrows(db, tx.writes);
    forall k | 0 <= k < |tx.writes|
      ensures Entry(db, tx.writes[k]) == ServedEntry(tx.writes[k].user, tx.writes[k].at)
    {
      assert IsServe(tx.writes[k]) && Lands(db, tx.writes[k]);
    }
  }

  lemma {:induction false} LogGrows(db: Db, ws: seq<Write>)
    requires WritesOk(db, ws)
    ensures |ApplyAll(db, ws).log| == |db.log| + |ws| && ApplyAll(db, ws).log[..|db.log|] == db.log
    ensures forall k :: 0 <= k < |ws| ==> Lands(db, ws[k]) && ApplyAll(db, ws).log[|db.log| + k] == Entry(db, ws[k])
  {
    if ws != [] {
      LastIsNew(ws);
      ApplyAllRows(db, ws[..|ws| - 1]);
      LogGrows(db, ws[..|ws| - 1]);
      assert Lands(db, ws[|ws| - 1]);
    }
  }

  lemma {:induction false} StaysOnCourse(run: seq<Sys>, acts: seq<Action>, t: TxId)
    requires IsRun(run, acts) && SysOk(run[0])
    requires forall i :: 0 <= i < |run| ==> t in run[i].txs && run[i].db == run[0].db
    requires OnCourse(run[0].db, run[0].txs[t])
    ensures SysOk(run[|acts|]) && OnCourse(run[0].db, run[|acts|].txs[t])
  {
    if acts != [] {
      var n := |acts| - 1;
      PrefixRun(run, acts);
      StaysOnCourse(run[..|run| - 1], acts[..n], t);
      StepKeeps(run[n], acts[n]);
      StepOnCourse(run[n], acts[n], t);
    }
  }

  // ----- the other transactions ---------------------------------------------

  /** The write is computed from the committed row. */
  predicate FreshWrite(db: Db, kind: Kind, u: UserId, w: Write) {
    && u in db.rows
    && w.Change?
    && w == Change(u, db.rows[u], EventOf(kind), ActorOf(kind), w.at, db.graceTime)
    && UpdatesFor(w.qu, w.event, w.actor, w.at, w.graceTime).Ok?
  }

  predicate MayReturn(db: Db, u: UserId) {
    u in db.rows && (db.rows[u].status.Cancelled? || db.rows[u].status.Missed?)
  }

  /** The write a finishing transaction has made is the one its serial operation makes. */
  predicate SerialWrite(db: Db, kind: Kind, w: Write) {
    match kind
    case Request(u, _, _) => FreshWrite(db, kind, u, w)
    case Expire(u) => FreshWrite(db, kind, u, w) && Overdue(db.rows, u, w.at)
    case Join(u) => HasRoom(db) && if w.Insert? then w.user == u && u !in db.rows
                                   else MayReturn(db, u) && FreshWrite(db, kind, u, w)
    case _ => false
  }

  /** What holds at each statement, as long as nothing else commits. */
  predicate SerialSoFar(s: Sys, tx: Tx) {
    match tx.pc
    case Looking => HasRoom(s.db)
    case Inserting => HasRoom(s.db) && (tx.kind.Join? ==> tx.kind.user !in s.db.rows)
    case Fetching(_) =>
      && (tx.kind.Join? ==> HasRoom(s.db) && MayReturn(s.db, tx.kind.user))
      && (tx.kind.Expire? ==> Overdue(s.db.rows, tx.kind.user, s.clock))
    case Swapping(w) => SerialWrite(s.db, tx.kind, w)
    case Finishing => |tx.writes| == 1 && SerialWrite(s.db, tx.kind, tx.writes[0])
    case _ => true
  }

  predicate OneTransition(kind: Kind) {
    kind.Request? || kind.Expire? || kind.Join?
  }

  lemma StepSerialSoFar(s: Sys, a: Action, t: TxId)
    requires SysOk(s) && CanStep(s, a) && t in s.txs && OneTransition(s.txs[t].kind) && SerialSoFar(s, s.txs[t])
    requires t in Do(s, a).txs && Do(s, a).db == s.db
    ensures SerialSoFar(Do(s, a), Do(s, a).txs[t]) && Do(s, a).txs[t].kind == s.txs[t].kind
  {
    if a.Statement? {
      StatementTouches(s, a.t, a.choice);
      if a.t == t {
        assert TxOk(s.db, s.txs[t]);
        assert s.txs[t].pc.Finishing? || View(s.db, s.txs[t]) == s.db;
      }
    }
  }

  lemma {:induction false} StaysSerial(run: seq<Sys>, acts: seq<Action>, t: TxId, kind: Kind)
    requires IsRun(run, acts) && SysOk(run[0]) && OneTransition(kind)
    requires forall i :: 0 <= i < |run| ==> t in run[i].txs && run[i].db == run[0].db
    requires run[0].txs[t] == Starting(kind)
    ensures SysOk(run[|acts|]) && run[|acts|].txs[t].kind == kind
    ensures SerialSoFar(run[|acts|], run[|acts|].txs[t])
  {
    if acts != [] {
      var n := |acts| - 1;
      PrefixRun(run, acts);
      StaysSerial(run[..|run| - 1], acts[..n], t, kind);
      StepKeeps(run[n], acts[n]);
      StepSerialSoFar(run[n], acts[n], t);
    }
  }

  /** From its start to its commit, with no other commit in between, a request, a worker's job
      and a join commit exactly what the serial operation makes of the same tables. */
  lemma UndisturbedTransactionIsSerial(run: seq<Sys>, acts: seq<Action>, t: TxId, kind: Kind)
    requires IsRun(run, acts) && SysOk(run[0]) && OneTransition(kind)
    requires forall i :: 0 <= i < |run| ==> t in run[i].txs && run[i].db == run[0].db
    requires run[0].txs[t] == Starting(kind) && run[|acts|].txs[t].pc.Finishing?
    ensures |run[|acts|].txs[t].writes| == 1
    ensures var db, db', at := run[0].db, Commit(run[|acts|], t).db, run[|acts|].txs[t].writes[0].at;
            match kind
            case Request(u, event, actor) => Transition(db, u, event, actor, at) == Ok(db')
            case Expire(u) => Overdue(db.rows, u, at) && ExpireTables(db, u, at) == db'
            case Join(u) => JoinTables(db, u, at) == Ok(db')
            case _ => true
  {
    StaysSerial(run, acts, t, kind);
    ApplyOne(run[0].db, run[|acts|].txs[t].writes);
  }

  // ----- which of them commit -----------------------------------------------

  /** The last statement of a request that nobody disturbed: a commit, or a refusal. */
  lemma RequestEnds(s: Sys, t: TxId, choice: UserId)
    requires SysOk(s) && History.Explained(s.db) && t in s.txs && s.txs[t].kind.Request?
    requires SerialSoFar(s, s.txs[t]) && t !in DoStatement(s, t, choice).txs
    ensures s.txs[t].pc.Finishing? <==>
              Transition(s.db, s.txs[t].kind.user, s.txs[t].kind.event, s.txs[t].kind.actor, s.clock).Ok?
  {
    var tx := s.txs[t];
    assert TxOk(s.db, tx);
    CallEffects.AcceptedExactly(s.db, tx.kind.user, tx.kind.event, tx.kind.actor, s.clock);
    if tx.pc.Finishing? {
      var at := tx.writes[0].at;
      CallEffects.AcceptedExactly(s.db, tx.kind.user, tx.kind.event, tx.kind.actor, at);
      assert Transition(s.db, tx.kind.user, tx.kind.event, tx.kind.actor, at).Ok?;
    } else {
      assert View(s.db, tx) == s.db;
    }
  }

  /** A request that runs from its start to its end, not rolled back, with no other commit in
      between: it commits exactly for the rows its event is for. */
  lemma UndisturbedRequestExactly(run: seq<Sys>, acts: seq<Action>, t: TxId, kind: Kind, choice: UserId)
    requires IsRun(run, acts) && SysOk(run[0]) && History.Explained(run[0].db) && kind.Request?
    requires forall i :: 0 <= i < |run| ==> t in run[i].txs && run[i].db == run[0].db
    requires run[0].txs[t] == Starting(kind)
    requires CanStep(run[|acts|], Statement(t, choice)) && t !in Do(run[|acts|], Statement(t, choice)).txs
    ensures var rows := run[0].db.rows;
            Commits(run[|acts|], Statement(t, choice)) <==>
              match kind.event
              case Leave => kind.user in Active(rows)
              case Complete => kind.user in Users(rows, Serving)
              case MarkLate => kind.user in Users(rows, Serving)
              case Rejoin =>
                || kind.user in Users(rows, Late)
                || kind.user in Users(rows, Missed)
                || kind.user in Users(rows, Cancelled)
              case _ => false
    ensures !Commits(run[|acts|], Statement(t, choice)) ==> Do(run[|acts|], Statement(t, choice)).db == run[0].db
  {
    StaysSerial(run, acts, t, kind);
    var s := run[|acts|];
    assert s.db == run[0].db && TxOk(s.db, s.txs[t]);
    RequestEnds(s, t, choice);
    OnlyCommitsChangeTables(s, Statement(t, choice));
    CallEffects.AcceptedExactly(s.db, kind.user, kind.event, kind.actor, s.clock);
  }

  lemma JoinEnds(s: Sys, t: TxId, choice: UserId)
    requires SysOk(s) && t in s.txs && s.txs[t].kind.Join?
    requires SerialSoFar(s, s.txs[t]) && t !in DoStatement(s, t, choice).txs
    ensures s.txs[t].pc.Finishing? <==> JoinTables(s.db, s.txs[t].kind.user, s.clock).Ok?
  {
    var tx := s.txs[t];
    assert TxOk(s.db, tx);
    JoinWithinCapacity(s.db, tx.kind.user, s.clock);
    if tx.pc.Finishing? {
      JoinWithinCapacity(s.db, tx.kind.user, tx.writes[0].at);
    } else {
      assert View(s.db, tx) == s.db;
    }
  }

  /** Likewise a join: it commits exactly if there is room and the user is neither active nor completed. */
  lemma UndisturbedJoinExactly(run: seq<Sys>, acts: seq<Action>, t: TxId, u: UserId, choice: UserId)
    requires IsRun(run, acts) && SysOk(run[0])
    requires forall i :: 0 <= i < |run| ==> t in run[i].txs && run[i].db == run[0].db
    requires run[0].txs[t] == Starting(Join(u))
    requires CanStep(run[|acts|], Statement(t, choice)) && t !in Do(run[|acts|], Statement(t, choice)).txs
    ensures var db := run[0].db;
            Commits(run[|acts|], Statement(t, choice)) <==>
              && (db.maxSize.Some? ==> |Active(db.rows)| < db.maxSize.value)
              && u !in Active(db.rows) && u !in Users(db.rows, Completed)
    ensures !Commits(run[|acts|], Statement(t, choice)) ==> Do(run[|acts|], Statement(t, choice)).db == run[0].db
  {
    StaysSerial(run, acts, t, Join(u));
    var s := run[|acts|];
    assert s.db == run[0].db;
    JoinEnds(s, t, choice);
    JoinWithinCapacity(s.db, u, s.clock);
    OnlyCommitsChangeTables(s, Statement(t, choice));
  }
}
