/** What the audit log says about the rows, in every state that writes can reach. */
module History {
  import opened QueueTypes
  import opened StateMachine
  import opened Database

  // ----- reading the log ----------------------------------------------------

  function LastOf(log: seq<LogEntry>, u: UserId): Option<LogEntry> {
    if log == [] then None
    else
      var e := log[|log| - 1];
      if e.user == u then Some(e) else LastOf(log[..|log| - 1], u)
  }

  /** The kind of the user's most recent entry that left LATE. */
  function LastLateExit(log: seq<LogEntry>, u: UserId): Option<LogType> {
    if log == [] then None
    else
      var e := log[|log| - 1];
      if e.user == u && e.from == Some(Late) then Some(e.kind) else LastLateExit(log[..|log| - 1], u)
  }

  function CountTo(log: seq<LogEntry>, status: Status): int {
    if log == [] then 0
    else CountTo(log[..|log| - 1], status) + if log[|log| - 1].to == status then 1 else 0
  }

  function CountFrom(log: seq<LogEntry>, status: Status): int {
    if log == [] then 0
    else CountFrom(log[..|log| - 1], status) + if log[|log| - 1].from == Some(status) then 1 else 0
  }

  predicate LateRejoin(e: LogEntry) {
    e.kind.QuRejoined? && e.from == Some(Late)
  }

  // ----- decoding rows from the log -----------------------------------------

  /** The part of a row that the log determines. */
  datatype Shape = Shape(status: Status, priorityBoost: int, hasServed: bool, hasExpiry: bool)

  function ShapeOf(row: Row): Shape {
    Shape(row.status, row.priorityBoost, row.servedAt.Some?, row.expiresAt.Some?)
  }

  /** The shapes one entry can lead to. A REJOIN from LATE may have come in time
      or too late; the entry looks the same in both cases. */
  function Successors(s: Shape, e: LogEntry): set<Shape> {
    if e.from != Some(s.status) then {}
    else
      match e.kind
      case QuCreated => {}
      case QuServed => {Shape(Serving, 0, s.hasServed, s.hasExpiry)}
      case QuCompleted => {Shape(Completed, 0, true, s.hasExpiry)}
      case QuLate => {Shape(Late, 0, s.hasServed, true)}
      case QuMissed => {Shape(Missed, 0, s.hasServed, s.hasExpiry)}
      case QuLeft => {Shape(Cancelled, 0, s.hasServed, s.hasExpiry && !s.status.Late?)}
      case QuRejoined =>
        if s.status.Late?
        then {Shape(Waiting, 1, s.hasServed, false), Shape(Missed, 0, s.hasServed, false)}
        else {Shape(Waiting, 0, s.hasServed, s.hasExpiry)}
  }

  function After(known: set<Shape>, e: LogEntry): set<Shape> {
    if e.kind.QuCreated? then {Shape(Waiting, 0, false, false)}
    else set s, t | s in known && t in Successors(s, e) :: t
  }

  /** The shapes of the user's row that the log is consistent with. */
  function Decode(log: seq<LogEntry>, u: UserId): set<Shape> {
    if log == [] then {}
    else
      var e := log[|log| - 1];
      var known := Decode(log[..|log| - 1], u);
      if e.user == u then After(known, e) else known
  }

  lemma Append(log: seq<LogEntry>, e: LogEntry, u: UserId)
    ensures LastOf(log + [e], u) == if e.user == u then Some(e) else LastOf(log, u)
    ensures LastLateExit(log + [e], u)
         == if e.user == u && e.from == Some(Late) then Some(e.kind) else LastLateExit(log, u)
    ensures Decode(log + [e], u) == if e.user == u then After(Decode(log, u), e) else Decode(log, u)
  {
    assert (log + [e])[..|log|] == log;
  }

  lemma AppendCounts(log: seq<LogEntry>, e: LogEntry, status: Status)
    ensures CountTo(log + [e], status) == CountTo(log, status) + if e.to == status then 1 else 0
    ensures CountFrom(log + [e], status) == CountFrom(log, status) + if e.from == Some(status) then 1 else 0
  {
    assert (log + [e])[..|log|] == log;
  }

  // ----- what the log explains ----------------------------------------------

  /** The row is known from the log exactly, except for the one bit that a REJOIN
      from LATE leaves open while it is the last entry. */
  ghost predicate Decoded(log: seq<LogEntry>, u: UserId, row: Row) {
    && LastOf(log, u).Some?
    && Decode(log, u)
       == (if LateRejoin(LastOf(log, u).value)
           then {Shape(Waiting, 1, false, false), Shape(Missed, 0, false, false)}
           else {ShapeOf(row)})
    && ShapeOf(row) in Decode(log, u)
  }

  /** The fields of a row, read off its last entries. */
  ghost predicate FieldsExplained(log: seq<LogEntry>, u: UserId, row: Row) {
    && LastOf(log, u).Some?
    && var last := LastOf(log, u).value;
    && (row.status == last.to || (LateRejoin(last) && row.status.Missed?))
    && row.priorityBoost == (if row.status.Waiting? && LateRejoin(last) then 1 else 0)
    && row.servedAt == (if row.status.Completed? then Some(last.at) else None)
    && (row.expiresAt.Some? <==> row.status.Late? || LastLateExit(log, u) == Some(QuMissed))
  }

  ghost predicate ExplainedAt(db: Db, u: UserId) {
    if u in db.rows
    then Decoded(db.log, u, db.rows[u]) && FieldsExplained(db.log, u, db.rows[u])
    else LastOf(db.log, u).None? && LastLateExit(db.log, u).None? && Decode(db.log, u) == {}
  }

  ghost predicate Explained(db: Db) {
    forall u: UserId :: ExplainedAt(db, u)
  }

  /** An entry continues the user's path: it starts where the previous entry ended,
      or at MISSED if that entry was a REJOIN from LATE. */
  predicate Continues(previous: Option<LogEntry>, e: LogEntry) {
    match previous
    case None => e.kind.QuCreated? && e.from.None? && e.to.Waiting?
    case Some(p) =>
      && !e.kind.QuCreated?
      && (e.from == Some(p.to) || (LateRejoin(p) && e.from == Some(Missed)))
      && exists event: Event ::
           e.kind == LogTypeOf(event) && Decide(e.from.value, event) == Ok(e.to)
  }

  ghost predicate Chained(log: seq<LogEntry>) {
    forall k :: 0 <= k < |log| ==> Continues(LastOf(log[..k], log[k].user), log[k])
  }

  /** Every status but WAITING and MISSED holds exactly the entries that went in less
      those that went out; WAITING and MISSED do so together. */
  ghost predicate Balanced(db: Db) {
    && (forall st: Status :: !st.Waiting? && !st.Missed? ==>
          |Users(db.rows, st)| == CountTo(db.log, st) - CountFrom(db.log, st))
    && |Users(db.rows, Waiting)| + |Users(db.rows, Missed)|
       == CountTo(db.log, Waiting) + CountTo(db.log, Missed)
          - CountFrom(db.log, Waiting) - CountFrom(db.log, Missed)
  }

  ghost predicate Sound(db: Db) {
    Explained(db) && Chained(db.log) && Balanced(db)
  }

  // ----- every write keeps it -----------------------------------------------

  lemma WriteKeepsExplained(db: Db, w: Write)
    requires Explained(db) && Lands(db, w)
    ensures Explained(Apply(db, w))
  {
    forall u: UserId ensures ExplainedAt(Apply(db, w), u) {
      Append(db.log, Entry(db, w), u);
      assert ExplainedAt(db, u);
      if u == w.user { WriterExplained(db, w); }
    }
  }

  lemma WriterExplained(db: Db, w: Write)
    requires ExplainedAt(db, w.user) && Lands(db, w)
    ensures ExplainedAt(Apply(db, w), w.user)
  {
    var u, e := w.user, Entry(db, w);
    Append(db.log, e, u);
    if w.Change? {
      var row := db.rows[u];
      var known := Decode(db.log, u);
      assert e.from == Some(row.status);
      // only the row's own shape can be followed by an entry that starts at its status
      forall s | s in known && s != ShapeOf(row) ensures Successors(s, e) == {} {
        assert s.status != row.status;
      }
      assert After(known, e) == Successors(ShapeOf(row), e);
    }
  }

  lemma WriteKeepsChained(db: Db, w: Write)
    requires Explained(db) && Chained(db.log) && Lands(db, w)
    ensures Chained(Apply(db, w).log)
  {
    var log, e := db.log, Entry(db, w);
    assert ExplainedAt(db, w.user);
    assert Continues(LastOf(log, w.user), e) by {
      if w.Change? { assert e.kind == LogTypeOf(w.event) && Decide(e.from.value, w.event) == Ok(e.to); }
    }
    forall k | 0 <= k < |log + [e]|
      ensures Continues(LastOf((log + [e])[..k], (log + [e])[k].user), (log + [e])[k])
    {
      if k < |log| {
        assert (log + [e])[..k] == log[..k];
      } else {
        assert (log + [e])[..k] == log;
      }
    }
  }

  /** Rows of a status less its balance of log entries: a write changes both alike, but for a
      lapsed REJOIN, which is logged as WAITING and stored as MISSED. */
  function Surplus(db: Db, st: Status): int {
    |Users(db.rows, st)| - CountTo(db.log, st) + CountFrom(db.log, st)
  }

  lemma WriteMovesSurplus(db: Db, w: Write, st: Status)
    requires Lands(db, w)
    ensures Surplus(Apply(db, w), st)
         == Surplus(db, st) + (if NewRow(db, w).status == st then 1 else 0)
            - (if Entry(db, w).to == st then 1 else 0)
  {
    UsersAfterWrite(db.rows, w.user, NewRow(db, w), st);
    AppendCounts(db.log, Entry(db, w), st);
  }

  lemma LoggedStatus(db: Db, w: Write)
    requires Lands(db, w)
    ensures || NewRow(db, w).status == Entry(db, w).to
            || (NewRow(db, w).status.Missed? && Entry(db, w).to.Waiting?)
  {
  }

  lemma WriteKeepsBalanced(db: Db, w: Write)
    requires Balanced(db) && Lands(db, w)
    ensures Balanced(Apply(db, w))
  {
    LoggedStatus(db, w);
    forall st: Status | !st.Waiting? && !st.Missed?
      ensures |Users(Apply(db, w).rows, st)| == CountTo(Apply(db, w).log, st) - CountFrom(Apply(db, w).log, st)
    {
      WriteMovesSurplus(db, w, st);
      assert Surplus(db, st) == 0;
    }
    WriteMovesSurplus(db, w, Waiting);
    WriteMovesSurplus(db, w, Missed);
  }

  lemma WriteKeepsSound(db: Db, w: Write)
    requires Sound(db)
    ensures Sound(Apply(db, w))
  {
    if Lands(db, w) {
      WriteKeepsExplained(db, w);
      WriteKeepsChained(db, w);
      WriteKeepsBalanced(db, w);
    }
  }

  lemma {:induction false} WritesKeepSound(db: Db, ws: seq<Write>)
    requires Sound(db)
    ensures Sound(ApplyAll(db, ws))
  {
    if ws != [] {
      WritesKeepSound(db, ws[..|ws| - 1]);
      WriteKeepsSound(ApplyAll(db, ws[..|ws| - 1]), ws[|ws| - 1]);
    }
  }

  lemma EmptySound(db: Db)
    requires db.rows == map[] && db.log == []
    ensures Sound(db)
  {
    forall u: UserId ensures ExplainedAt(db, u) {}
    assert forall st :: Users(db.rows, st) == {};
  }
}
