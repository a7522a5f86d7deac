/** Consequences of the log invariant, and the exact conditions under which rules of WaitWise's
    documents that its code can break do hold. */
module Promises {
  import opened QueueTypes
  import opened StateMachine
  import opened Database
  import opened Promotion
  import opened History

  // ----- who is where, from event counts alone ------------------------------

  function CountKind(log: seq<LogEntry>, kind: LogType): int {
    if log == [] then 0
    else CountKind(log[..|log| - 1], kind) + if log[|log| - 1].kind == kind then 1 else 0
  }

  function CountKindFrom(log: seq<LogEntry>, kind: LogType, from: Status): int {
    if log == [] then 0
    else
      CountKindFrom(log[..|log| - 1], kind, from)
      + if log[|log| - 1].kind == kind && log[|log| - 1].from == Some(from) then 1 else 0
  }

  /** What an entry that continues a path says about the status it starts from and ends in. */
  predicate LegalEntry(e: LogEntry) {
    && (e.to.Serving? <==> e.kind.QuServed?)
    && (e.to.Late? <==> e.kind.QuLate?)
    && (e.to.Waiting? || e.to.Missed? <==> e.kind.QuCreated? || e.kind.QuRejoined? || e.kind.QuMissed?)
    && (e.from == Some(Serving) <==>
          e.kind.QuCompleted? || e.kind.QuLate? || (e.kind.QuLeft? && e.from == Some(Serving)))
    && (e.from == Some(Waiting) || e.from == Some(Missed) <==>
          || e.kind.QuServed?
          || (e.kind.QuLeft? && e.from == Some(Waiting))
          || (e.kind.QuRejoined? && e.from == Some(Missed)))
  }

  lemma ContinuesLegally(previous: Option<LogEntry>, e: LogEntry)
    requires Continues(previous, e)
    ensures LegalEntry(e)
  {
  }

  lemma ChainedIsLegal(log: seq<LogEntry>)
    requires Chained(log)
    ensures forall e :: e in log ==> LegalEntry(e)
  {
    forall k | 0 <= k < |log| ensures LegalEntry(log[k]) {
      ContinuesLegally(LastOf(log[..k], log[k].user), log[k]);
    }
  }

  lemma {:induction false} EntriesByKind(log: seq<LogEntry>)
    requires forall e :: e in log ==> LegalEntry(e)
    ensures CountTo(log, Serving) == CountKind(log, QuServed)
    ensures CountTo(log, Late) == CountKind(log, QuLate)
    ensures CountTo(log, Waiting) + CountTo(log, Missed)
         == CountKind(log, QuCreated) + CountKind(log, QuRejoined) + CountKind(log, QuMissed)
  {
    if log != [] {
      var e := log[|log| - 1];
      assert e in log && LegalEntry(e);
      EntriesByKind(log[..|log| - 1]);
    }
  }

  lemma {:induction false} ExitsByKind(log: seq<LogEntry>)
    requires forall e :: e in log ==> LegalEntry(e)
    ensures CountFrom(log, Serving)
         == CountKind(log, QuCompleted) + CountKind(log, QuLate) + CountKindFrom(log, QuLeft, Serving)
    ensures CountFrom(log, Waiting) + CountFrom(log, Missed)
         == CountKind(log, QuServed) + CountKindFrom(log, QuLeft, Waiting) + CountKindFrom(log, QuRejoined, Missed)
  {
    if log != [] {
      var e := log[|log| - 1];
      assert e in log && LegalEntry(e);
      ExitsByKind(log[..|log| - 1]);
    }
  }

  /** In every reachable state the number of rows SERVING, LATE, and WAITING or MISSED is an
      exact sum of event counts. */
  lemma PopulationFromLog(db: Db)
    requires Sound(db)
    ensures |Users(db.rows, Serving)|
         == CountKind(db.log, QuServed) - CountKind(db.log, QuCompleted) - CountKind(db.log, QuLate)
            - CountKindFrom(db.log, QuLeft, Serving)
    ensures |Users(db.rows, Late)| == CountKind(db.log, QuLate) - CountFrom(db.log, Late)
    ensures |Users(db.rows, Waiting)| + |Users(db.rows, Missed)|
         == CountKind(db.log, QuCreated) + CountKind(db.log, QuRejoined) + CountKind(db.log, QuMissed)
            - CountKind(db.log, QuServed) - CountKindFrom(db.log, QuLeft, Waiting)
            - CountKindFrom(db.log, QuRejoined, Missed)
  {
    ChainedIsLegal(db.log);
    EntriesByKind(db.log);
    ExitsByKind(db.log);
  }

  // ----- what holds for good ------------------------------------------------

  /** COMPLETED is final, and no write ever moves a row's place in the order of joining. */
  lemma {:induction false} NothingUndone(db: Db, ws: seq<Write>, u: UserId)
    requires u in db.rows
    ensures u in ApplyAll(db, ws).rows
    ensures ApplyAll(db, ws).rows[u].joinedAt == db.rows[u].joinedAt
    ensures db.rows[u].status.Completed? ==> ApplyAll(db, ws).rows[u] == db.rows[u]
  {
    if ws != [] { NothingUndone(db, ws[..|ws| - 1], u); }
  }

  /** The 500 "LATE user has no expiresAt" cannot be reached. */
  lemma LateHasExpiry(db: Db, u: UserId, event: Event, actor: Actor, now: int, graceTime: int)
    requires Explained(db) && u in db.rows
    ensures UpdatesFor(db.rows[u], event, actor, now, graceTime) != Err(NoExpiry)
  {
    assert ExplainedAt(db, u);
  }

  /** Stored and logged status differ exactly on a REJOIN that came after the deadline. */
  lemma LogDisagreesExactly(db: Db, w: Write)
    requires Lands(db, w)
    ensures NewRow(db, w).status != Entry(db, w).to <==> w.Change? && Lapsed(w.qu, w.event, w.at)
  {
  }

  // ----- "expiresAt is null unless LATE or MISSED" --------------------------

  predicate ExpiryDocumented(row: Row) {
    row.expiresAt.Some? ==> row.status.Late? || row.status.Missed?
  }

  /** It holds of a row exactly when the row is LATE or MISSED, or its latest exit from LATE
      was not the MISSED event. */
  lemma ExpiryDocumentedExactly(db: Db, u: UserId)
    requires Explained(db) && u in db.rows
    ensures ExpiryDocumented(db.rows[u])
       <==> db.rows[u].status.Late? || db.rows[u].status.Missed? || LastLateExit(db.log, u) != Some(QuMissed)
  {
    assert ExplainedAt(db, u);
  }

  // ----- "MISSED users can rejoin at the end of the queue" ------------------

  /** No one WAITING is strictly behind u. */
  ghost predicate IsLast(rows: map<UserId, Row>, u: UserId)
    requires u in rows
  {
    forall v :: v in Users(rows, Waiting) ==> !Before(rows[u], rows[v])
  }

  /** A REJOIN from MISSED or CANCELLED ends up last exactly when everyone WAITING is boosted
      or joined no later than the one who comes back. */
  lemma RejoinIsLastExactly(db: Db, u: UserId, now: int)
    requires Explained(db) && u in db.rows && (db.rows[u].status.Missed? || db.rows[u].status.Cancelled?)
    ensures var w := Change(u, db.rows[u], Rejoin, User, now, db.graceTime);
            && Lands(db, w)
            && (IsLast(Apply(db, w).rows, u) <==>
                  forall v :: v in Users(db.rows, Waiting) ==>
                    db.rows[v].priorityBoost > 0 || db.rows[v].joinedAt <= db.rows[u].joinedAt)
  {
    var w := Change(u, db.rows[u], Rejoin, User, now, db.graceTime);
    var after := Apply(db, w);
    UsersAfterWrite(db.rows, u, NewRow(db, w), Waiting);
    forall v | v in Users(db.rows, Waiting)
      ensures v in Users(after.rows, Waiting) && after.rows[v] == db.rows[v] && db.rows[v].priorityBoost >= 0
    {
      assert ExplainedAt(db, v);
    }
  }
}
