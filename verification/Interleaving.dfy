/** Transactions on one queue, interleaved statement by statement.

    Each statement sees the committed tables plus the transaction's own writes (READ
    COMMITTED). A written row stays locked until its transaction ends. The Queue row is
    one lock: triggerPromotion takes it with SELECT ... FOR UPDATE and updateQueue with
    its UPDATE, and both keep it to the end of the transaction. */
module Interleaving {
  import opened QueueTypes
  import opened StateMachine
  import opened Database
  import opened Promotion

  type TxId = nat

  datatype Kind =
    | Promote                                              // triggerPromotion
    | Request(user: UserId, event: Event, actor: Actor)    // leave, remove, complete, late, rejoin, arrived
    | Expire(user: UserId)                                 // the late-expiry worker
    | Join(user: UserId)                                   // joinQueue
    | Configure(slots: Option<int>, grace: Option<int>, maxSize: Option<int>)  // updateQueue

  /** The next statement of a transaction. */
  datatype Pc =
    | AwaitLock                   // take the Queue row
    | Settings                    // read serviceSlots
    | Counting                    // count SERVING
    | Picking                     // find the best WAITING row
    | Checking                    // the worker's own look at the row
    | Admitting                   // count active rows against maxSize
    | Looking                     // look for an existing row of the joiner
    | Inserting                   // create the row
    | Fetching(target: UserId)    // transitionQueueUser: read the row and decide
    | Swapping(write: Write)      // transitionQueueUser: the update guarded by the status read
    | Finishing                   // commit

  datatype Tx = Tx(kind: Kind, pc: Pc, slots: int, writes: seq<Write>)

  /** `owed` counts commits whose triggerPromotion call has not started yet. */
  datatype Sys = Sys(db: Db, txs: map<TxId, Tx>, lock: Option<TxId>, owed: nat, clock: int)

  datatype Action =
    | Tick(dt: nat)
    | Begin(t: TxId, kind: Kind)
    | Trigger(t: TxId)
    | Statement(t: TxId, choice: UserId)
    | Crash(t: TxId)

  function EventOf(kind: Kind): Event {
    match kind
    case Promote => Serve
    case Request(_, event, _) => event
    case Expire(_) => Miss
    case _ => Rejoin
  }

  function ActorOf(kind: Kind): Actor {
    match kind
    case Promote => System
    case Request(_, _, actor) => actor
    case Expire(_) => System
    case _ => User
  }

  function FirstPc(kind: Kind): Pc {
    match kind
    case Promote => AwaitLock
    case Request(u, _, _) => Fetching(u)
    case Expire(_) => Checking
    case Join(_) => Admitting
    case Configure(_, _, _) => AwaitLock
  }

  function Starting(kind: Kind): Tx {
    Tx(kind, FirstPc(kind), 0, [])
  }

  /** The events the endpoints send, and on whose behalf. */
  predicate Requestable(kind: Kind) {
    kind.Request? ==>
      match kind.event
      case Leave => kind.actor.User? || kind.actor.Admin?
      case Rejoin => kind.actor.User?
      case Complete => kind.actor.Admin?
      case MarkLate => kind.actor.Admin?
      case _ => false
  }

  function WriteUsers(ws: seq<Write>): (r: set<UserId>)
    ensures forall w :: w in ws ==> w.user in r
  {
    set w | w in ws :: w.user
  }

  /** What the transaction's statements see. */
  function View(db: Db, tx: Tx): Db {
    ApplyAll(db, tx.writes)
  }

  predicate HoldsLock(tx: Tx) {
    (tx.kind.Promote? && !tx.pc.AwaitLock?) || (tx.kind.Configure? && tx.pc.Finishing?)
  }

  /** The committed row is locked by a write of another transaction. */
  predicate HeldByOther(s: Sys, t: TxId, u: UserId) {
    exists t' :: t' in s.txs && t' != t && u in WriteUsers(s.txs[t'].writes)
  }

  // ----- steps --------------------------------------------------------------

  ghost predicate CanStep(s: Sys, a: Action) {
    match a
    case Tick(_) => true
    case Begin(t, kind) => t !in s.txs && Requestable(kind)
    case Trigger(t) => t !in s.txs && s.owed > 0
    case Crash(t) => t in s.txs
    case Statement(t, choice) => t in s.txs && (s.txs[t].pc.AwaitLock? ==> s.lock.None?) && Unblocked(s, t, choice)
  }

  /** A write waits for the row's lock; a pick may return any best row. */
  ghost predicate Unblocked(s: Sys, t: TxId, choice: UserId)
    requires t in s.txs
  {
    var tx := s.txs[t];
    match tx.pc
    case Picking => Users(View(s.db, tx).rows, Waiting) != {} ==> Best(View(s.db, tx).rows, choice)
    case Inserting => tx.kind.Join? ==> !HeldByOther(s, t, tx.kind.user)
    case Swapping(w) => !HeldByOther(s, t, w.user)
    case _ => true
  }

  function Continue(s: Sys, t: TxId, tx: Tx): Sys {
    s.(txs := s.txs[t := tx])
  }

  /** The transaction ends without effect: rolled back, or nothing to do. */
  function End(s: Sys, t: TxId): Sys {
    s.(txs := s.txs - {t}, lock := if s.lock == Some(t) then None else s.lock)
  }

  function Committed(db: Db, tx: Tx): Db {
    if tx.kind.Configure? then Edited(db, tx.kind.slots, tx.kind.grace, tx.kind.maxSize)
    else ApplyAll(db, tx.writes)
  }

  /** Every endpoint calls triggerPromotion after its commit; promoters and the worker do not. */
  predicate OwesTrigger(kind: Kind) {
    kind.Request? || kind.Join? || kind.Configure?
  }

  function Commit(s: Sys, t: TxId): Sys
    requires t in s.txs
  {
    var tx := s.txs[t];
    End(s, t).(db := Committed(s.db, tx), owed := if OwesTrigger(tx.kind) then s.owed + 1 else s.owed)
  }

  function Do(s: Sys, a: Action): Sys {
    match a
    case Tick(dt) => s.(clock := s.clock + dt)
    case Begin(t, kind) => Continue(s, t, Starting(kind))
    case Trigger(t) =>
      if s.owed > 0 then Continue(s, t, Starting(Promote)).(owed := s.owed - 1) else s
    case Crash(t) => End(s, t)
    case Statement(t, choice) => if t in s.txs then DoStatement(s, t, choice) else s
  }

  function DoStatement(s: Sys, t: TxId, choice: UserId): Sys
    requires t in s.txs
  {
    var tx := s.txs[t];
    var view := View(s.db, tx);
    match tx.pc
    case AwaitLock =>
      Continue(s, t, tx.(pc := if tx.kind.Promote? then Settings else Finishing)).(lock := Some(t))
    case Settings => Continue(s, t, tx.(slots := view.serviceSlots, pc := Counting))
    case Counting =>
      Continue(s, t, tx.(pc := if tx.slots - |Users(view.rows, Serving)| <= 0 then Finishing else Picking))
    case Picking =>
      Continue(s, t, tx.(pc := if Users(view.rows, Waiting) == {} then Finishing else Fetching(choice)))
    case Checking => if tx.kind.Expire? && Overdue(view.rows, tx.kind.user, s.clock)
                     then Continue(s, t, tx.(pc := Fetching(tx.kind.user))) else End(s, t)
    case Admitting =>
      if view.maxSize.Some? && |Active(view.rows)| >= view.maxSize.value then End(s, t)
      else Continue(s, t, tx.(pc := Looking))
    case Looking => if tx.kind.Join? then Look(s, t, view) else End(s, t)
    case Inserting =>
      if !tx.kind.Join? || tx.kind.user in s.db.rows then End(s, t)
      else Continue(s, t, tx.(pc := Finishing, writes := tx.writes + [Insert(tx.kind.user, s.clock)]))
    case Fetching(u) => Fetch(s, t, u, view)
    case Swapping(w) =>
      if !Lands(view, w) then End(s, t)
      else Continue(s, t, tx.(pc := if tx.kind.Promote? then Counting else Finishing, writes := tx.writes + [w]))
    case Finishing => Commit(s, t)
  }

  function Look(s: Sys, t: TxId, view: Db): Sys
    requires t in s.txs && s.txs[t].kind.Join?
  {
    var tx := s.txs[t];
    var u := tx.kind.user;
    if u !in view.rows then Continue(s, t, tx.(pc := Inserting))
    else if view.rows[u].status.Cancelled? || view.rows[u].status.Missed?
    then Continue(s, t, tx.(pc := Fetching(u)))
    else End(s, t)
  }

  function Fetch(s: Sys, t: TxId, u: UserId, view: Db): Sys
    requires t in s.txs
  {
    var tx := s.txs[t];
    if u !in view.rows then End(s, t)
    else
      var w := Change(u, view.rows[u], EventOf(tx.kind), ActorOf(tx.kind), s.clock, view.graceTime);
      if UpdatesFor(w.qu, w.event, w.actor, w.at, w.graceTime).Err? then End(s, t)
      else Continue(s, t, tx.(pc := Swapping(w)))
  }

  // ----- runs ---------------------------------------------------------------

  predicate Init(s: Sys) {
    s.db.rows == map[] && s.db.log == [] && s.txs == map[] && s.lock.None?
  }

  ghost predicate IsRun(run: seq<Sys>, acts: seq<Action>) {
    && |run| == |acts| + 1
    && forall i :: 0 <= i < |acts| ==> CanStep(run[i], acts[i]) && run[i + 1] == Do(run[i], acts[i])
  }

  // ----- what every step keeps ----------------------------------------------

  predicate IsServe(w: Write) {
    w.Change? && w.event.Serve? && w.actor.System? && w.qu.status.Waiting?
  }

  /** The write of a transaction that makes one transition. */
  predicate Fits(kind: Kind, w: Write) {
    match kind
    case Request(u, event, actor) => w.user == u && w.Change? && w.event == event && w.actor == actor
    case Expire(u) => w.user == u && w.Change? && w.event.Miss? && w.actor.System?
    case Join(u) => w.user == u && (w.Change? ==> w.event.Rejoin? && w.actor.User?)
    case _ => false
  }

  /** The update was computed without a refusal. */
  predicate Allowed(w: Write) {
    w.Change? ==> UpdatesFor(w.qu, w.event, w.actor, w.at, w.graceTime).Ok?
  }

  predicate KindOk(tx: Tx) {
    && Requestable(tx.kind)
    && match tx.kind
       case Promote =>
         && !tx.pc.Checking? && !tx.pc.Admitting? && !tx.pc.Looking? && !tx.pc.Inserting?
         && (tx.pc.AwaitLock? || tx.pc.Settings? ==> tx.writes == [])
         && (tx.pc.Swapping? ==> IsServe(tx.pc.write))
         && (forall w :: w in tx.writes ==> IsServe(w))
       case Configure(_, _, _) => tx.writes == [] && (tx.pc.AwaitLock? || tx.pc.Finishing?)
       case _ =>
         && !tx.pc.AwaitLock? && !tx.pc.Settings? && !tx.pc.Counting? && !tx.pc.Picking?
         && (tx.pc.Checking? ==> tx.kind.Expire?)
         && (tx.pc.Admitting? || tx.pc.Looking? || tx.pc.Inserting? ==> tx.kind.Join?)
         && (tx.pc.Fetching? ==> tx.pc.target == tx.kind.user)
         && (tx.pc.Swapping? ==> tx.pc.write.Change? && Fits(tx.kind, tx.pc.write) && Allowed(tx.pc.write))
         && if tx.pc.Finishing? then |tx.writes| == 1 && Fits(tx.kind, tx.writes[0]) else tx.writes == []
  }

  ghost predicate WritesOk(db: Db, ws: seq<Write>) {
    && (forall i, j :: 0 <= i < j < |ws| ==> ws[i].user != ws[j].user)
    && (forall w :: w in ws ==> Lands(db, w))
  }

  /** A promoter never commits itself to more than the slots it may fill. */
  predicate SlotsOk(db: Db, tx: Tx) {
    tx.kind.Promote? && !tx.pc.AwaitLock? && !tx.pc.Settings? ==>
      && tx.slots == db.serviceSlots
      && (tx.writes != [] ==> |Users(db.rows, Serving)| + |tx.writes| <= tx.slots)
      && (tx.pc.Picking? || tx.pc.Fetching? || tx.pc.Swapping? ==>
            |Users(db.rows, Serving)| + |tx.writes| < tx.slots)
  }

  ghost predicate TxOk(db: Db, tx: Tx) {
    KindOk(tx) && WritesOk(db, tx.writes) && SlotsOk(db, tx)
  }

  ghost predicate LockOk(s: Sys) {
    && (forall t :: t in s.txs ==> (HoldsLock(s.txs[t]) <==> s.lock == Some(t)))
    && (s.lock.Some? ==> s.lock.value in s.txs)
  }

  ghost predicate RowLocksOk(s: Sys) {
    forall t, t' :: t in s.txs && t' in s.txs && t != t' ==>
      WriteUsers(s.txs[t].writes) !! WriteUsers(s.txs[t'].writes)
  }

  ghost predicate SysOk(s: Sys) {
    && (forall t :: t in s.txs ==> TxOk(s.db, s.txs[t]))
    && LockOk(s)
    && RowLocksOk(s)
  }

  // ----- a transaction's writes, all together -------------------------------

  lemma WriteUsersSnoc(ws: seq<Write>, w: Write)
    ensures WriteUsers(ws + [w]) == WriteUsers(ws) + {w.user}
  {
    forall v | v in ws + [w] ensures v in ws || v == w {}
    assert forall v :: v in ws ==> v in ws + [w];
    assert w in ws + [w];
  }

  /** In a list of writes to distinct users, the last one's user is not written before. */
  lemma LastIsNew(ws: seq<Write>)
    requires ws != [] && forall i, j :: 0 <= i < j < |ws| ==> ws[i].user != ws[j].user
    ensures ws == ws[..|ws| - 1] + [ws[|ws| - 1]]
    ensures ws[|ws| - 1].user !in WriteUsers(ws[..|ws| - 1])
    ensures WriteUsers(ws) == WriteUsers(ws[..|ws| - 1]) + {ws[|ws| - 1].user}
  {
    var front, last := ws[..|ws| - 1], ws[|ws| - 1];
    assert ws == front + [last];
    WriteUsersSnoc(front, last);
  }

  lemma {:induction false} ApplyAllRows(db: Db, ws: seq<Write>)
    requires WritesOk(db, ws)
    ensures ApplyAll(db, ws).rows.Keys == db.rows.Keys + WriteUsers(ws)
    ensures forall u :: u in db.rows && u !in WriteUsers(ws) ==> ApplyAll(db, ws).rows[u] == db.rows[u]
    ensures forall w :: w in ws ==> ApplyAll(db, ws).rows[w.user] == NewRow(db, w)
    ensures ApplyAll(db, ws).(rows := db.rows, log := db.log) == db
  {
    if ws != [] {
      var front, last := ws[..|ws| - 1], ws[|ws| - 1];
      LastIsNew(ws);
      ApplyAllRows(db, front);
      var mid := ApplyAll(db, front);
      assert Lands(db, last);
      assert Lands(mid, last) && NewRow(mid, last) == NewRow(db, last);
      assert ApplyAll(db, ws) == Apply(mid, last);
      forall w | w in ws ensures ApplyAll(db, ws).rows[w.user] == NewRow(db, w) {
        if w in front { assert w.user in WriteUsers(front); }
      }
    }
  }

  lemma {:induction false} WriteCount(ws: seq<Write>)
    requires forall i, j :: 0 <= i < j < |ws| ==> ws[i].user != ws[j].user
    ensures |WriteUsers(ws)| == |ws|
  {
    if ws != [] {
      LastIsNew(ws);
      WriteCount(ws[..|ws| - 1]);
    }
  }

  /** A served user waited before and is SERVING after. */
  lemma ServedUser(db: Db, ws: seq<Write>, u: UserId)
    requires WritesOk(db, ws) && u in WriteUsers(ws)
    requires forall w :: w in ws ==> IsServe(w)
    ensures u in Users(db.rows, Waiting) && u in Users(ApplyAll(db, ws).rows, Serving)
  {
    ApplyAllRows(db, ws);
    var w :| w in ws && w.user == u;
    assert IsServe(w) && Lands(db, w);
  }

  lemma ServesMoveSets(db: Db, ws: seq<Write>)
    requires WritesOk(db, ws)
    requires forall w :: w in ws ==> IsServe(w)
    ensures Users(ApplyAll(db, ws).rows, Serving) == Users(db.rows, Serving) + WriteUsers(ws)
    ensures Users(ApplyAll(db, ws).rows, Waiting) == Users(db.rows, Waiting) - WriteUsers(ws)
    ensures WriteUsers(ws) <= Users(db.rows, Waiting)
  {
    var rows, mine := ApplyAll(db, ws).rows, WriteUsers(ws);
    ApplyAllRows(db, ws);
    forall u | u in mine ensures u in Users(db.rows, Waiting) && u in Users(rows, Serving) {
      ServedUser(db, ws, u);
    }
  }

  /** Serving several waiting users moves exactly them from WAITING to SERVING. */
  lemma ServesMoveUsers(db: Db, ws: seq<Write>)
    requires WritesOk(db, ws)
    requires forall w :: w in ws ==> IsServe(w)
    ensures Users(ApplyAll(db, ws).rows, Serving) == Users(db.rows, Serving) + WriteUsers(ws)
    ensures Users(ApplyAll(db, ws).rows, Waiting) == Users(db.rows, Waiting) - WriteUsers(ws)
    ensures WriteUsers(ws) <= Users(db.rows, Waiting)
    ensures |Users(ApplyAll(db, ws).rows, Serving)| == |Users(db.rows, Serving)| + |ws|
  {
    ServesMoveSets(db, ws);
    WriteCount(ws);
    assert Users(db.rows, Serving) !! WriteUsers(ws);
  }

  /** A promoter's commit leaves a row alone or takes it from WAITING to SERVING. */
  lemma PromoterTouches(db: Db, tx: Tx, u: UserId)
    requires TxOk(db, tx) && tx.kind.Promote? && u in db.rows
    ensures u in ApplyAll(db, tx.writes).rows
    ensures || ApplyAll(db, tx.writes).rows[u] == db.rows[u]
            || (db.rows[u].status.Waiting? && ApplyAll(db, tx.writes).rows[u].status.Serving?)
  {
    ApplyAllRows(db, tx.writes);
    ServesMoveUsers(db, tx.writes);
    if u in WriteUsers(tx.writes) { assert u in Users(ApplyAll(db, tx.writes).rows, Serving); }
  }

  lemma ApplyOne(db: Db, ws: seq<Write>)
    requires |ws| == 1
    ensures ApplyAll(db, ws) == Apply(db, ws[0])
  {
    assert ws[..0] == [];
  }

  /** One transition other than SERVE never adds to SERVING. */
  lemma SingleKeepsServing(db: Db, ws: seq<Write>, kind: Kind)
    requires |ws| == 1 && Fits(kind, ws[0]) && Requestable(kind) && Lands(db, ws[0])
    ensures Users(ApplyAll(db, ws).rows, Serving) <= Users(db.rows, Serving)
    ensures |Users(ApplyAll(db, ws).rows, Serving)| <= |Users(db.rows, Serving)|
  {
    var w := ws[0];
    ApplyOne(db, ws);
    UsersAfterWrite(db.rows, w.user, NewRow(db, w), Serving);
  }

  // ----- what one statement can touch ---------------------------------------

  /** A statement of t leaves the clock and every other transaction alone, and adds at most one write. */
  ghost predicate StatementFrame(s: Sys, t: TxId, s': Sys)
    requires t in s.txs
  {
    var tx := s.txs[t];
    && s'.clock == s.clock
    && s'.owed == (if tx.pc.Finishing? && OwesTrigger(tx.kind) then s.owed + 1 else s.owed)
    && (s.lock != Some(t) ==> s'.lock == if tx.pc.AwaitLock? then Some(t) else s.lock)
    && (forall o :: o != t ==> (o in s'.txs <==> o in s.txs))
    && (forall o :: o != t && o in s.txs ==> s'.txs[o] == s.txs[o])
    && (t in s'.txs ==>
          && !tx.pc.Finishing?
          && s'.txs[t].kind == tx.kind
          && !s'.txs[t].pc.AwaitLock?
          && (|| s'.txs[t].writes == tx.writes
              || (tx.pc.Swapping? && s'.txs[t].writes == tx.writes + [tx.pc.write])
              || (tx.pc.Inserting? && tx.kind.Join?
                  && s'.txs[t].writes == tx.writes + [Insert(tx.kind.user, s.clock)])))
  }

  lemma StatementTouches(s: Sys, t: TxId, choice: UserId)
    requires t in s.txs
    ensures StatementFrame(s, t, DoStatement(s, t, choice))
  {
  }

  // ----- the invariant ------------------------------------------------------

  lemma ContinueKeeps(s: Sys, t: TxId, tx: Tx)
    requires SysOk(s) && t in s.txs
    requires TxOk(s.db, tx)
    requires HoldsLock(tx) == HoldsLock(s.txs[t])
    requires forall u :: u in WriteUsers(tx.writes) ==> !HeldByOther(s, t, u)
    ensures SysOk(Continue(s, t, tx))
  {
  }

  lemma EndKeeps(s: Sys, t: TxId)
    requires SysOk(s)
    ensures SysOk(End(s, t))
  {
  }

  /** A commit leaves every other transaction's writes applicable and its slot bound true. */
  lemma CommitKeeps(s: Sys, t: TxId)
    requires SysOk(s) && t in s.txs && s.txs[t].pc.Finishing?
    ensures SysOk(Commit(s, t))
  {
    var tx, s' := s.txs[t], Commit(s, t);
    CommitServing(s, t);
    forall o | o in s'.txs ensures TxOk(s'.db, s'.txs[o]) {
      var other := s.txs[o];
      assert TxOk(s.db, other);
      if !tx.kind.Configure? { ApplyAllRows(s.db, tx.writes); }
      forall w | w in other.writes ensures Lands(s'.db, w) {
        assert w.user in WriteUsers(other.writes);
        assert w.user !in WriteUsers(tx.writes);
      }
      if HoldsLock(other) { assert !HoldsLock(tx); }
    }
  }

  lemma CommitServing(s: Sys, t: TxId)
    requires SysOk(s) && t in s.txs && s.txs[t].pc.Finishing?
    ensures !s.txs[t].kind.Promote? ==> |Users(Commit(s, t).db.rows, Serving)| <= |Users(s.db.rows, Serving)|
    ensures s.txs[t].kind.Promote? ==>
              && |Users(Commit(s, t).db.rows, Serving)| == |Users(s.db.rows, Serving)| + |s.txs[t].writes|
              && (s.txs[t].writes != [] ==> |Users(Commit(s, t).db.rows, Serving)| <= s.db.serviceSlots)
    ensures !s.txs[t].kind.Configure? ==>
              Commit(s, t).db.(rows := s.db.rows, log := s.db.log) == s.db
  {
    var tx := s.txs[t];
    assert TxOk(s.db, tx);
    if !tx.kind.Configure? { ApplyAllRows(s.db, tx.writes); }
    if tx.kind.Promote? {
      ServesMoveUsers(s.db, tx.writes);
    } else if !tx.kind.Configure? {
      SingleKeepsServing(s.db, tx.writes, tx.kind);
    }
  }

  lemma StatementKeeps(s: Sys, t: TxId, choice: UserId)
    requires SysOk(s) && CanStep(s, Statement(t, choice))
    ensures SysOk(DoStatement(s, t, choice))
  {
    var tx := s.txs[t];
    assert TxOk(s.db, tx);
    match tx.pc
    case AwaitLock => LockKeeps(s, t, choice);
    case Settings => ContinueKeeps(s, t, tx.(slots := s.db.serviceSlots, pc := Counting));
    case Counting => CountKeeps(s, t, choice);
    case Picking => PickKeeps(s, t, choice);
    case Fetching(u) => FetchKeeps(s, t, choice);
    case Swapping(w) => SwapKeeps(s, t, choice);
    case Inserting => InsertKeeps(s, t, choice);
    case Finishing => CommitKeeps(s, t);
    case _ => AdmitKeeps(s, t, choice);
  }

  lemma LockKeeps(s: Sys, t: TxId, choice: UserId)
    requires SysOk(s) && CanStep(s, Statement(t, choice)) && s.txs[t].pc.AwaitLock?
    ensures SysOk(DoStatement(s, t, choice))
  {
    assert TxOk(s.db, s.txs[t]);
  }

  lemma CountKeeps(s: Sys, t: TxId, choice: UserId)
    requires SysOk(s) && t in s.txs && s.txs[t].pc.Counting?
    ensures SysOk(DoStatement(s, t, choice))
  {
    var tx := s.txs[t];
    assert TxOk(s.db, tx);
    ServesMoveUsers(s.db, tx.writes);
    ContinueKeeps(s, t, DoStatement(s, t, choice).txs[t]);
  }

  lemma PickKeeps(s: Sys, t: TxId, choice: UserId)
    requires SysOk(s) && t in s.txs && s.txs[t].pc.Picking?
    ensures SysOk(DoStatement(s, t, choice))
  {
    assert TxOk(s.db, s.txs[t]);
    ContinueKeeps(s, t, DoStatement(s, t, choice).txs[t]);
  }

  lemma FetchKeeps(s: Sys, t: TxId, choice: UserId)
    requires SysOk(s) && t in s.txs && s.txs[t].pc.Fetching?
    ensures SysOk(DoStatement(s, t, choice))
  {
    assert TxOk(s.db, s.txs[t]);
    var s' := DoStatement(s, t, choice);
    if t in s'.txs { ContinueKeeps(s, t, s'.txs[t]); } else { EndKeeps(s, t); }
  }

  lemma SwapKeeps(s: Sys, t: TxId, choice: UserId)
    requires SysOk(s) && CanStep(s, Statement(t, choice)) && s.txs[t].pc.Swapping?
    ensures SysOk(DoStatement(s, t, choice))
  {
    var tx, w := s.txs[t], s.txs[t].pc.write;
    assert TxOk(s.db, tx);
    if Lands(View(s.db, tx), w) {
      SwapLands(s.db, tx, w);
      WriteUsersSnoc(tx.writes, w);
      ContinueKeeps(s, t, DoStatement(s, t, choice).txs[t]);
    } else {
      EndKeeps(s, t);
    }
  }

  /** The guard holds of the view only for a row the transaction has not yet written. */
  lemma SwapLands(db: Db, tx: Tx, w: Write)
    requires TxOk(db, tx) && tx.pc == Swapping(w) && Lands(View(db, tx), w)
    ensures w.user !in WriteUsers(tx.writes)
    ensures WritesOk(db, tx.writes + [w])
  {
    if tx.kind.Promote? {
      ApplyAllRows(db, tx.writes);
      ServesMoveUsers(db, tx.writes);
      assert w.user in Users(View(db, tx).rows, Waiting);
    }
  }

  lemma InsertKeeps(s: Sys, t: TxId, choice: UserId)
    requires SysOk(s) && CanStep(s, Statement(t, choice)) && s.txs[t].pc.Inserting?
    ensures SysOk(DoStatement(s, t, choice))
  {
    assert TxOk(s.db, s.txs[t]);
    var s' := DoStatement(s, t, choice);
    if t in s'.txs { ContinueKeeps(s, t, s'.txs[t]); } else { EndKeeps(s, t); }
  }

  lemma AdmitKeeps(s: Sys, t: TxId, choice: UserId)
    requires SysOk(s) && t in s.txs
    requires s.txs[t].pc.Checking? || s.txs[t].pc.Admitting? || s.txs[t].pc.Looking?
    ensures SysOk(DoStatement(s, t, choice))
  {
    assert TxOk(s.db, s.txs[t]);
    var s' := DoStatement(s, t, choice);
    if t in s'.txs { ContinueKeeps(s, t, s'.txs[t]); } else { EndKeeps(s, t); }
  }

  lemma StepKeeps(s: Sys, a: Action)
    requires SysOk(s) && CanStep(s, a)
    ensures SysOk(Do(s, a))
  {
    match a
    case Statement(t, choice) => StatementKeeps(s, t, choice);
    case Crash(t) => EndKeeps(s, t);
    case _ =>
  }
}
