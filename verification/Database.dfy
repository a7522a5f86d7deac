/** The committed tables of one queue, and the effect of one guarded write on them. */
module Database {
  import opened QueueTypes
  import opened StateMachine

  datatype Db = Db(
    rows: map<UserId, Row>,
    log: seq<LogEntry>,
    serviceSlots: int,
    graceTime: int,
    maxSize: Option<int>)

  /** A statement that changes one row: the insert of a fresh join, or the guarded
      update of a row that was read as `qu` (possibly some time before). */
  datatype Write =
    | Insert(user: UserId, at: int)
    | Change(user: UserId, qu: Row, event: Event, actor: Actor, at: int, graceTime: int)

  function FreshRow(at: int): Row {
    Row(at, Waiting, 0, None, None)
  }

  /** The compare-and-set guard: it looks at the status alone. */
  predicate Lands(db: Db, w: Write) {
    match w
    case Insert(u, _) => u !in db.rows
    case Change(u, qu, event, actor, at, grace) =>
      && u in db.rows
      && db.rows[u].status == qu.status
      && UpdatesFor(qu, event, actor, at, grace).Ok?
  }

  function NewRow(db: Db, w: Write): Row
    requires Lands(db, w)
  {
    match w
    case Insert(u, at) => FreshRow(at)
    case Change(u, qu, event, actor, at, grace) =>
      Patched(db.rows[u], UpdatesFor(qu, event, actor, at, grace).value)
  }

  /** The audit entry records the table's target status, even for a lapsed REJOIN. */
  function Entry(db: Db, w: Write): LogEntry
    requires Lands(db, w)
  {
    match w
    case Insert(u, at) => LogEntry(u, QuCreated, None, Waiting, User, at)
    case Change(u, qu, event, actor, at, grace) =>
      LogEntry(u, LogTypeOf(event), Some(qu.status), Decide(qu.status, event).value, actor, at)
  }

  /** A write whose guard fails changes nothing. */
  function Apply(db: Db, w: Write): Db {
    if Lands(db, w)
    then db.(rows := db.rows[w.user := NewRow(db, w)], log := db.log + [Entry(db, w)])
    else db
  }

  function ApplyAll(db: Db, ws: seq<Write>): Db {
    if ws == [] then db else Apply(ApplyAll(db, ws[..|ws| - 1]), ws[|ws| - 1])
  }

  /** A setting that is not a positive number is ignored. */
  function OptionalPositive(value: Option<int>): Option<int> {
    if value.Some? && value.value > 0 then value else None
  }

  /** The settings after an edit. */
  function Edited(db: Db, slots: Option<int>, grace: Option<int>, maxSize: Option<int>): Db {
    db.(serviceSlots := OptionalPositive(slots).GetOr(db.serviceSlots),
    graceTime := OptionalPositive(grace).GetOr(db.graceTime),
    maxSize := if OptionalPositive(maxSize).Some? then maxSize else db.maxSize)
  }

  function Users(rows: map<UserId, Row>, status: Status): set<UserId> {
    set u | u in rows && rows[u].status == status
  }

  /** Rows that occupy the queue: WAITING, SERVING or LATE. */
  function Active(rows: map<UserId, Row>): set<UserId> {
    set u | u in rows && (rows[u].status.Waiting? || rows[u].status.Serving? || rows[u].status.Late?)
  }

  /** LATE with a deadline at or before now: the worker acts. */
  predicate Overdue(rows: map<UserId, Row>, u: UserId, now: int) {
    && u in rows
    && rows[u].status.Late?
    && rows[u].expiresAt.Some?
    && rows[u].expiresAt.value <= now
  }

  /** Rewriting one row moves exactly that user between the status sets. */
  lemma UsersAfterWrite(rows: map<UserId, Row>, u: UserId, row: Row, status: Status)
    ensures Users(rows[u := row], status)
         == if row.status == status then Users(rows, status) + {u} else Users(rows, status) - {u}
    ensures |Users(rows[u := row], status)|
         == |Users(rows, status)|
            - (if u in rows && rows[u].status == status then 1 else 0)
            + (if row.status == status then 1 else 0)
  {
    var before, after := Users(rows, status), Users(rows[u := row], status);
    assert after == if row.status == status then before + {u} else before - {u};
    assert u in before <==> u in rows && rows[u].status == status;
  }
}
