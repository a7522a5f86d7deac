/** What every call does, spelled out: which rows it accepts, each field it writes, the audit
    entry it appends, the jobs it touches. */
module CallEffects {
  import opened QueueTypes
  import opened Database
  import opened Operations
  import History
  import Promises

  // ----- one update ---------------------------------------------------------

  /** The rows a landed update can start from, by event. */
  lemma UpdateStarts(db: Db, w: Write)
    requires Lands(db, w) && w.Change?
    ensures match w.event
            case Serve => w.user in Users(db.rows, Waiting) && w.actor.System?
            case Leave => w.user in Active(db.rows)
            case Complete => w.user in Users(db.rows, Serving)
            case MarkLate => w.user in Users(db.rows, Serving)
            case Rejoin =>
              || w.user in Users(db.rows, Late)
              || w.user in Users(db.rows, Missed)
              || w.user in Users(db.rows, Cancelled)
            case Miss => w.user in Users(db.rows, Late)
  {
  }

  /** The row it leaves. A REJOIN looks at the row as it was read, which may be some time ago. */
  lemma UpdatedRow(db: Db, w: Write)
    requires Lands(db, w) && w.Change?
    ensures Apply(db, w).rows == db.rows[w.user := Apply(db, w).rows[w.user]]
    ensures var row, row' := db.rows[w.user], Apply(db, w).rows[w.user];
            && row'.joinedAt == row.joinedAt
            && row'.servedAt == (if w.event.Complete? then Some(w.at) else row.servedAt)
            && row'.expiresAt
               == (if w.event.MarkLate? then Some(w.at + w.graceTime * 60_000)
                   else if row.status.Late? && !w.event.Miss? then None
                   else row.expiresAt)
    ensures var row' := Apply(db, w).rows[w.user];
            match w.event
            case Serve => row'.status.Serving? && row'.priorityBoost == 0
            case Leave => row'.status.Cancelled? && row'.priorityBoost == 0
            case Complete => row'.status.Completed? && row'.priorityBoost == 0
            case MarkLate => row'.status.Late? && row'.priorityBoost == 0
            case Miss => row'.status.Missed? && row'.priorityBoost == 0
            case Rejoin =>
              if !w.qu.status.Late? then row'.status.Waiting? && row'.priorityBoost == 0
              else
                && w.qu.expiresAt.Some?
                && if w.at <= w.qu.expiresAt.value then row'.status.Waiting? && row'.priorityBoost == 1
                   else row'.status.Missed? && row'.priorityBoost == 0
  {
  }

  /** Nothing else changes but the log, by one entry. */
  lemma UpdateLogged(db: Db, w: Write)
    requires Lands(db, w) && w.Change?
    ensures Apply(db, w).(rows := db.rows, log := db.log) == db
    ensures |Apply(db, w).log| == |db.log| + 1 && Apply(db, w).log[..|db.log|] == db.log
    ensures var e := Apply(db, w).log[|db.log|];
            && e.user == w.user && e.actor == w.actor && e.at == w.at && e.from == Some(db.rows[w.user].status)
            && match w.event
               case Serve => e.kind.QuServed? && e.to.Serving?
               case Leave => e.kind.QuLeft? && e.to.Cancelled?
               case Complete => e.kind.QuCompleted? && e.to.Completed?
               case MarkLate => e.kind.QuLate? && e.to.Late?
               case Rejoin => e.kind.QuRejoined? && e.to.Waiting?
               case Miss => e.kind.QuMissed? && e.to.Missed?
  {
  }

  /** A first join. */
  lemma InsertEffect(db: Db, u: UserId, at: int)
    requires u !in db.rows
    ensures Apply(db, Insert(u, at))
         == db.(rows := db.rows[u := Row(at, Waiting, 0, None, None)],
                log := db.log + [LogEntry(u, QuCreated, None, Waiting, User, at)])
  {
  }

  // ----- transitionQueueUser ------------------------------------------------

  /** Which calls succeed. */
  lemma AcceptedExactly(db: Db, u: UserId, event: Event, actor: Actor, now: int)
    requires History.Explained(db)
    ensures Transition(db, u, event, actor, now).Ok? <==>
              match event
              case Serve => u in Users(db.rows, Waiting) && actor.System?
              case Leave => u in Active(db.rows)
              case Complete => u in Users(db.rows, Serving)
              case MarkLate => u in Users(db.rows, Serving)
              case Rejoin =>
                u in Users(db.rows, Late) || u in Users(db.rows, Missed) || u in Users(db.rows, Cancelled)
              case Miss => u in Users(db.rows, Late)
  {
    if u in db.rows { Promises.LateHasExpiry(db, u, event, actor, now, db.graceTime); }
  }

  /** Why the others fail. */
  lemma RefusedWith(db: Db, u: UserId, event: Event, actor: Actor, now: int)
    requires History.Explained(db)
    ensures Transition(db, u, event, actor, now) == Err(NotFound) <==> u !in db.rows
    ensures Transition(db, u, event, actor, now) == Err(OnlySystemServes)
       <==> event.Serve? && !actor.System? && u in Users(db.rows, Waiting)
    ensures Transition(db, u, event, actor, now).Err? && u in db.rows && !event.Serve? ==>
              Transition(db, u, event, actor, now) == Err(IllegalTransition)
  {
    if u in db.rows { Promises.LateHasExpiry(db, u, event, actor, now, db.graceTime); }
  }

  /** The tables after a call that succeeds, read and written in one go. */
  lemma TransitionEffect(db: Db, u: UserId, event: Event, actor: Actor, now: int)
    requires Transition(db, u, event, actor, now).Ok?
    ensures var db' := Transition(db, u, event, actor, now).value;
            && u in db.rows && u in db'.rows && db'.rows == db.rows[u := db'.rows[u]]
            && var row, row' := db.rows[u], db'.rows[u];
            && row'.joinedAt == row.joinedAt
            && row'.servedAt == (if event.Complete? then Some(now) else row.servedAt)
            && row'.expiresAt
               == (if event.MarkLate? then Some(now + db.graceTime * 60_000)
                   else if row.status.Late? && !event.Miss? then None
                   else row.expiresAt)
    ensures var row, row' := db.rows[u], Transition(db, u, event, actor, now).value.rows[u];
            match event
            case Serve => row'.status.Serving? && row'.priorityBoost == 0
            case Leave => row'.status.Cancelled? && row'.priorityBoost == 0
            case Complete => row'.status.Completed? && row'.priorityBoost == 0
            case MarkLate => row'.status.Late? && row'.priorityBoost == 0
            case Miss => row'.status.Missed? && row'.priorityBoost == 0
            case Rejoin =>
              if !row.status.Late? then row'.status.Waiting? && row'.priorityBoost == 0
              else
                && row.expiresAt.Some?
                && if now <= row.expiresAt.value then row'.status.Waiting? && row'.priorityBoost == 1
                   else row'.status.Missed? && row'.priorityBoost == 0
  {
    UpdatedRow(db, Change(u, db.rows[u], event, actor, now, db.graceTime));
  }

  // ----- jobs ---------------------------------------------------------------

  /** MARK_LATE adds the row's job unless one is live; no other event touches a job. */
  lemma JobsExactly(jobs: map<UserId, int>, u: UserId, event: Event, now: int, graceTime: int)
    ensures !event.MarkLate? || u in jobs ==> JobsAfter(jobs, u, event, now, graceTime) == jobs
    ensures event.MarkLate? && u !in jobs ==>
              JobsAfter(jobs, u, event, now, graceTime)
              == jobs[u := if graceTime > 0 then now + graceTime * 60_000 else now]
  {
  }

  /** The worker: MISSED exactly for a row that is LATE at or past its deadline. */
  lemma ExpiryExactly(db: Db, u: UserId, now: int)
    ensures if u in Users(db.rows, Late) && db.rows[u].expiresAt.Some? && db.rows[u].expiresAt.value <= now
            then
              && ExpireTables(db, u, now).rows == db.rows[u := db.rows[u].(status := Missed, priorityBoost := 0)]
              && ExpireTables(db, u, now).log
                 == db.log + [LogEntry(u, QuMissed, Some(Late), Missed, System, now)]
            else ExpireTables(db, u, now) == db
  {
  }

  // ----- settings -----------------------------------------------------------

  /** An edit takes the positive numbers and leaves the rest. */
  lemma EditedExactly(db: Db, slots: Option<int>, grace: Option<int>, maxSize: Option<int>)
    ensures var db' := Edited(db, slots, grace, maxSize);
            && db'.rows == db.rows && db'.log == db.log
            && db'.serviceSlots == (if slots.Some? && slots.value > 0 then slots.value else db.serviceSlots)
            && db'.graceTime == (if grace.Some? && grace.value > 0 then grace.value else db.graceTime)
            && db'.maxSize == (if maxSize.Some? && maxSize.value > 0 then maxSize else db.maxSize)
  {
  }
}
