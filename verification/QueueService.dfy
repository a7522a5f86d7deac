/** The service for one queue as it runs serially: the tables and the late-expiry jobs are
    updated in place, and every endpoint ends with a promotion run. */
module QueueService {
  import opened QueueTypes
  import opened StateMachine
  import opened Database
  import opened Promotion
  import opened Position
  import opened Operations
  import opened Wakeups
  import CallEffects
  import Promises

  datatype TransitionResult = TransitionResult(
    user: UserId,
    position: int,
    priorityBoost: int,
    from: Status,
    to: Status,
    expiresAt: Option<int>)

  lemma ServeSucceeds(db: Db, u: UserId, now: int)
    requires Best(db.rows, u)
    ensures Transition(db, u, Serve, System, now) == Ok(Apply(db, ServeWrite(db, u, now)))
  {
  }

  lemma PromotionSettles(db: Db, p: seq<UserId>, at: int, db': Db)
    requires IsPromotion(db, p, at, db')
    ensures !HasWork(db')
  {
    PromotedUsers(db, p, at);
  }

  lemma JoinEffect(db: Db, u: UserId, now: int)
    ensures JoinTables(db, u, now) == Err(AlreadyInQueue)
       <==> HasRoom(db) && (u in Users(db.rows, Completed) || u in Active(db.rows))
    ensures JoinTables(db, u, now).Ok? ==>
              var after := JoinTables(db, u, now).value.rows;
              && u in after && after == db.rows[u := after[u]]
              && (u !in db.rows ==> after[u] == Row(now, Waiting, 0, None, None))
              && after[u].status.Waiting? && after[u].priorityBoost == 0
  {
  }

  /** A transition followed by a promotion run: what the run leaves of the row and of the entry. */
  lemma AfterPromotion(before: Db, u: UserId, event: Event, actor: Actor, now: int, after: Db, p: seq<UserId>, db: Db)
    requires Transition(before, u, event, actor, now) == Ok(after) && IsPromotion(after, p, now, db)
    ensures u in db.rows
    ensures event.Complete? ==> u in Users(db.rows, Completed) && db.rows[u].servedAt == Some(now)
    ensures event.MarkLate? ==> u in Users(db.rows, Late)
    ensures event.Leave? ==> u in Users(db.rows, Cancelled)
    ensures event.Rejoin? && !before.rows[u].status.Late? ==> u in Users(db.rows, Waiting) || u in Users(db.rows, Serving)
    ensures |db.log| > |before.log| && db.log[..|before.log|] == before.log
    ensures var e := db.log[|before.log|]; e.user == u && e.actor == actor && e.at == now
  {
    CallEffects.TransitionEffect(before, u, event, actor, now);
    CallEffects.UpdateLogged(before, Change(u, before.rows[u], event, actor, now, before.graceTime));
    if u in p { assert u in Elements(p); }
    assert db.log[..|before.log|] == after.log[..|before.log|];
  }

  class WaitQueue {
    var rows: map<UserId, Row>
    var log: seq<LogEntry>
    var serviceSlots: int
    var graceTime: int
    var maxSize: Option<int>
    var jobs: map<UserId, int>  // late-expiry key to fire time

    ghost function Tables(): Db
      reads this
    {
      Db(rows, log, serviceSlots, graceTime, maxSize)
    }

    ghost predicate Valid()
      reads this
    {
      History.Sound(Tables())
    }

    constructor (serviceSlots: int, graceTime: int, maxSize: Option<int>)
      ensures Valid() && jobs == map[]
      ensures Tables() == Db(map[], [], serviceSlots, graceTime, maxSize)
    {
      this.rows, this.log, this.jobs := map[], [], map[];
      this.serviceSlots, this.graceTime, this.maxSize := serviceSlots, graceTime, maxSize;
      new;
      History.EmptySound(Tables());
    }

    /** Builds the update of a row read as `qu`, field by field. */
    method BuildUpdates(qu: Row, event: Event, actor: Actor, now: int) returns (r: Result<Updates>)
      ensures r == UpdatesFor(qu, event, actor, now, graceTime)
      ensures r.Ok? ==>
                && r.value.servedAt == (if event.Complete? then Set(Some(now)) else Keep)
                && r.value.expiresAt
                   == (if event.MarkLate? then Set(Some(now + graceTime * 60_000))
                       else if qu.status.Late? && !event.Miss? then Set(None)
                       else Keep)
                && (r.value.priorityBoost == 1 || r.value.priorityBoost == 0)
                && (r.value.priorityBoost == 1 <==>
                      event.Rejoin? && qu.status.Late? && qu.expiresAt.Some? && now <= qu.expiresAt.value)
    {
      var next := Decide(qu.status, event);
      if next.Err? { return Err(next.error); }
      var updates := Updates(next.value, 0, Keep, Keep);
      if qu.status.Serving? && next.value.Completed? {
        updates := updates.(servedAt := Set(Some(now)));
      }
      if next.value.Late? {
        updates := updates.(expiresAt := Set(Some(ComputeExpiry(now, graceTime))));
      }
      if qu.status.Late? && !next.value.Late? && !next.value.Missed? {
        updates := updates.(expiresAt := Set(None));
      }
      if qu.status.Late? && event.Rejoin? {
        if qu.expiresAt.None? { return Err(NoExpiry); }
        if CheckIfMissed(qu.expiresAt.value, now) {
          updates := updates.(status := Missed);
        } else {
          updates := updates.(priorityBoost := 1);
        }
      }
      if event.Serve? && !actor.System? { return Err(OnlySystemServes); }
      return Ok(updates);
    }

    /** The guarded update and its audit entry. */
    method WriteTransition(u: UserId, updates: Updates, event: Event, actor: Actor, now: int)
      requires u in rows && UpdatesFor(rows[u], event, actor, now, graceTime) == Ok(updates)
      modifies this`rows, this`log
      ensures Tables() == Apply(old(Tables()), Change(u, old(rows)[u], event, actor, now, graceTime))
      ensures |log| == |old(log)| + 1 && log[..|old(log)|] == old(log)
      ensures var e := log[|old(log)|];
              && e.user == u && e.actor == actor && e.at == now && e.from == Some(old(rows)[u].status)
              && match event
                 case Serve => e.kind.QuServed? && e.to.Serving?
                 case Leave => e.kind.QuLeft? && e.to.Cancelled?
                 case Complete => e.kind.QuCompleted? && e.to.Completed?
                 case MarkLate => e.kind.QuLate? && e.to.Late?
                 case Rejoin => e.kind.QuRejoined? && e.to.Waiting?
                 case Miss => e.kind.QuMissed? && e.to.Missed?
    {
      CallEffects.UpdateLogged(Tables(), Change(u, rows[u], event, actor, now, graceTime));
      var qu := rows[u];
      rows := rows[u := Patched(qu, updates)];
      log := log + [LogEntry(u, LogTypeOf(event), Some(qu.status), Decide(qu.status, event).value, actor, now)];
    }

    /** The update of u's row, or why it is refused; a LATE row without a deadline does not occur. */
    method UpdateOf(u: UserId, event: Event, actor: Actor, now: int) returns (updates: Result<Updates>)
      requires Valid() && u in rows
      ensures updates == UpdatesFor(rows[u], event, actor, now, graceTime) && updates != Err(NoExpiry)
    {
      Promises.LateHasExpiry(Tables(), u, event, actor, now, graceTime);
      updates := BuildUpdates(rows[u], event, actor, now);
    }

    method TransitionQueueUser(u: UserId, event: Event, actor: Actor, now: int)
      returns (r: Result<TransitionResult>)
      requires Valid()
      modifies this
      ensures Valid()
      ensures var outcome := Transition(old(Tables()), u, event, actor, now);
              if outcome.Ok?
              then
                && Tables() == outcome.value
                && jobs == JobsAfter(old(jobs), u, event, now, old(graceTime))
                && u in old(rows) && u in rows
                && r == Ok(TransitionResult(
                             user := u,
                             position := PositionOf(rows, u),
                             priorityBoost := rows[u].priorityBoost,
                             from := old(rows)[u].status,
                             to := rows[u].status,
                             expiresAt := rows[u].expiresAt))
              else r == Err(outcome.error) && Tables() == old(Tables()) && jobs == old(jobs)
      ensures r.Ok? <==>
                match event
                case Serve => u in Users(old(rows), Waiting) && actor.System?
                case Leave => u in Active(old(rows))
                case Complete => u in Users(old(rows), Serving)
                case MarkLate => u in Users(old(rows), Serving)
                case Rejoin =>
                  u in Users(old(rows), Late) || u in Users(old(rows), Missed) || u in Users(old(rows), Cancelled)
                case Miss => u in Users(old(rows), Late)
      ensures r != Err(NoExpiry) && (r == Err(NotFound) <==> u !in old(rows))
      ensures !event.MarkLate? ==> jobs == old(jobs)
    {
      CallEffects.AcceptedExactly(Tables(), u, event, actor, now);
      CallEffects.RefusedWith(Tables(), u, event, actor, now);
      CallEffects.JobsExactly(jobs, u, event, now, graceTime);
      if u !in rows { return Err(NotFound); }
      var updates := UpdateOf(u, event, actor, now);
      if updates.Err? { return Err(updates.error); }
      History.WriteKeepsSound(Tables(), Change(u, rows[u], event, actor, now, graceTime));
      var result := CarryOut(u, updates.value, event, actor, now);
      return Ok(result);
    }

    /** The write, the job and the report of a transition that is not refused. */
    method CarryOut(u: UserId, updates: Updates, event: Event, actor: Actor, now: int)
      returns (result: TransitionResult)
      requires u in rows && UpdatesFor(rows[u], event, actor, now, graceTime) == Ok(updates)
      modifies this`rows, this`log, this`jobs
      ensures u in rows
      ensures Tables() == Apply(old(Tables()), Change(u, old(rows)[u], event, actor, now, old(graceTime)))
      ensures jobs == JobsAfter(old(jobs), u, event, now, old(graceTime))
      ensures result == TransitionResult(
                          user := u,
                          position := PositionOf(rows, u),
                          priorityBoost := rows[u].priorityBoost,
                          from := old(rows)[u].status,
                          to := rows[u].status,
                          expiresAt := rows[u].expiresAt)
    {
      var from := rows[u].status;
      WriteTransition(u, updates, event, actor, now);
      ScheduleExpiry(u, updates, event, now);
      result := Report(u, from);
    }

    method ScheduleExpiry(u: UserId, updates: Updates, event: Event, now: int)
      requires event.MarkLate? ==> updates.expiresAt == Set(Some(ComputeExpiry(now, graceTime)))
      modifies this`jobs
      ensures jobs == JobsAfter(old(jobs), u, event, now, graceTime)
    {
      if event.MarkLate? {
        var expiresAt := updates.expiresAt.value.value;
        EnqueueCheckLateExpiry(u, if expiresAt - now > 0 then expiresAt - now else 0, now);
      }
    }

    /** The updated row as the caller sees it, with its position. */
    method Report(u: UserId, from: Status) returns (r: TransitionResult)
      requires u in rows
      ensures r == TransitionResult(u, PositionOf(rows, u), rows[u].priorityBoost, from, rows[u].status,
                                    rows[u].expiresAt)
    {
      var position := |Counted(rows, rows[u].joinedAt, rows[u].priorityBoost)| + 1;
      r := TransitionResult(u, position, rows[u].priorityBoost, from, rows[u].status, rows[u].expiresAt);
    }

    /** Adds the delayed job, unless the key is still live. */
    method EnqueueCheckLateExpiry(u: UserId, delay: int, now: int)
      modifies this`jobs
      ensures jobs == AddJob(old(jobs), u, now + delay)
      ensures jobs == if u in old(jobs) then old(jobs) else old(jobs)[u := now + delay]
    {
      if u !in jobs {
        jobs := jobs[u := now + delay];
      }
    }

    /** findFirst: some best WAITING row; rows with equal keys may come in any order. */
    method FindCandidate() returns (u: UserId)
      requires Users(rows, Waiting) != {}
      ensures Best(rows, u)
    {
      BestExists(rows);
      u :| u in Users(rows, Waiting) && forall v :: v in Users(rows, Waiting) ==> !Before(rows[v], rows[u]);
    }

    method TriggerPromotion(now: int) returns (promotedIds: seq<UserId>)
      requires Valid()
      modifies this
      ensures Valid() && jobs == old(jobs)
      ensures IsPromotion(old(Tables()), promotedIds, now, Tables())
      ensures !HasWork(Tables())
    {
      promotedIds := [];
      ghost var before := Tables();
      NothingServedYet(before, now);
      while true
        invariant Valid() && jobs == old(jobs)
        invariant Underway(before, promotedIds, now, Tables())
        decreases |Users(rows, Waiting)|
      {
        var servingCount := |Users(rows, Serving)|;
        var openSlots := serviceSlots - servingCount;
        if openSlots <= 0 { break; }
        if Users(rows, Waiting) == {} { break; }
        var candidate := FindCandidate();
        NextTurn(before, promotedIds, now, Tables(), candidate);
        ServeSucceeds(Tables(), candidate, now);
        var res := TransitionQueueUser(candidate, Serve, System, now);
        promotedIds := promotedIds + [candidate];
      }
      LastTurn(before, promotedIds, now, Tables());
      PromotionSettles(before, promotedIds, now, Tables());
    }

    // ----- endpoints --------------------------------------------------------

    /** leaveQueue, removeQueueUser, markComplete, markLate, lateRejoin and lateArrived differ
        in the event, the actor and the authorization. */
    method Endpoint(u: UserId, event: Event, actor: Actor, now: int)
      returns (r: Result<TransitionResult>, promotedIds: seq<UserId>)
      requires Valid()
      modifies this
      ensures Valid()
      ensures var outcome := Transition(old(Tables()), u, event, actor, now);
              if outcome.Ok?
              then
                && IsPromotion(outcome.value, promotedIds, now, Tables()) && !HasWork(Tables())
                && jobs == JobsAfter(old(jobs), u, event, now, old(graceTime))
                && u in old(rows) && u in outcome.value.rows
                && var after := outcome.value.rows;
                && r == Ok(TransitionResult(
                             user := u,
                             position := PositionOf(after, u),
                             priorityBoost := after[u].priorityBoost,
                             from := old(rows)[u].status,
                             to := after[u].status,
                             expiresAt := after[u].expiresAt))
              else r == Err(outcome.error) && promotedIds == [] && Tables() == old(Tables()) && jobs == old(jobs)
      ensures r.Ok? <==>
                match event
                case Serve => u in Users(old(rows), Waiting) && actor.System?
                case Leave => u in Active(old(rows))
                case Complete => u in Users(old(rows), Serving)
                case MarkLate => u in Users(old(rows), Serving)
                case Rejoin =>
                  u in Users(old(rows), Late) || u in Users(old(rows), Missed) || u in Users(old(rows), Cancelled)
                case Miss => u in Users(old(rows), Late)
      ensures r != Err(NoExpiry) && (r == Err(NotFound) <==> u !in old(rows))
      ensures r.Ok? ==>
                && (event.Complete? ==> u in Users(rows, Completed) && rows[u].servedAt == Some(now))
                && (event.MarkLate? ==> u in Users(rows, Late))
                && (event.Leave? ==> u in Users(rows, Cancelled))
                && (event.Rejoin? && !old(rows)[u].status.Late? ==> u in Users(rows, Waiting) || u in Users(rows, Serving))
      ensures r.Ok? ==>
                && |log| > |old(log)| && log[..|old(log)|] == old(log)
                && log[|old(log)|].user == u && log[|old(log)|].actor == actor && log[|old(log)|].at == now
      ensures !event.MarkLate? ==> jobs == old(jobs)
    {
      promotedIds := [];
      ghost var before := Tables();
      r := TransitionQueueUser(u, event, actor, now);
      if r.Err? { return; }
      ghost var after := Tables();
      promotedIds := TriggerPromotion(now);
      AfterPromotion(before, u, event, actor, now, after, promotedIds, Tables());
    }

    /** A first join: the row, its position, and its audit entry. */
    method InsertRow(u: UserId, now: int) returns (position: int)
      requires Valid() && u !in rows
      modifies this`rows, this`log
      ensures Valid() && Tables() == Apply(old(Tables()), Insert(u, now))
      ensures u in rows && position == PositionOf(rows, u)
      ensures rows == old(rows)[u := Row(now, Waiting, 0, None, None)]
      ensures log == old(log) + [LogEntry(u, QuCreated, None, Waiting, User, now)]
    {
      History.WriteKeepsSound(Tables(), Insert(u, now));
      rows := rows[u := FreshRow(now)];
      position := |Counted(rows, now, 0)| + 1;
      log := log + [LogEntry(u, QuCreated, None, Waiting, User, now)];
    }

    method JoinQueue(u: UserId, now: int) returns (r: Result<TransitionResult>, promotedIds: seq<UserId>)
      requires Valid()
      modifies this
      ensures Valid() && jobs == old(jobs)
      ensures var outcome := JoinTables(old(Tables()), u, now);
              if outcome.Ok?
              then
                && IsPromotion(outcome.value, promotedIds, now, Tables()) && !HasWork(Tables())
                && u in outcome.value.rows
                && var after := outcome.value.rows;
                && after == old(rows)[u := after[u]]
                && after[u].status.Waiting? && after[u].priorityBoost == 0
                && (u !in old(rows) ==> after[u] == Row(now, Waiting, 0, None, None))
                && r == Ok(TransitionResult(
                             user := u,
                             position := PositionOf(after, u),
                             priorityBoost := 0,
                             from := if u in old(rows) then old(rows)[u].status else Waiting,
                             to := Waiting,
                             expiresAt := after[u].expiresAt))
              else r == Err(outcome.error) && promotedIds == [] && Tables() == old(Tables())
      ensures r.Ok? <==> HasRoom(old(Tables())) && u !in Users(old(rows), Completed) + Active(old(rows))
      ensures r == Err(QueueFull) <==> !HasRoom(old(Tables()))
      ensures r == Err(AlreadyInQueue)
         <==> HasRoom(old(Tables())) && (u in Users(old(rows), Completed) || u in Active(old(rows)))
    {
      JoinWithinCapacity(Tables(), u, now);
      JoinEffect(Tables(), u, now);
      promotedIds := [];
      if maxSize.Some? && |Active(rows)| >= maxSize.value { return Err(QueueFull), []; }
      if u in rows {
        if rows[u].status.Cancelled? || rows[u].status.Missed? {
          r := TransitionQueueUser(u, Rejoin, User, now);
          if r.Err? { return; }
        } else {
          return Err(AlreadyInQueue), [];
        }
      } else {
        var position := InsertRow(u, now);
        r := Ok(TransitionResult(u, position, 0, Waiting, Waiting, None));
      }
      promotedIds := TriggerPromotion(now);
    }

    method UpdateQueue(slots: Option<int>, grace: Option<int>, size: Option<int>, now: int)
      returns (promotedIds: seq<UserId>)
      requires Valid()
      modifies this
      ensures Valid() && jobs == old(jobs)
      ensures IsPromotion(Edited(old(Tables()), slots, grace, size), promotedIds, now, Tables())
      ensures serviceSlots == (if slots.Some? && slots.value > 0 then slots.value else old(serviceSlots))
      ensures graceTime == (if grace.Some? && grace.value > 0 then grace.value else old(graceTime))
      ensures maxSize == (if size.Some? && size.value > 0 then size else old(maxSize))
      ensures !HasWork(Tables())
    {
      if OptionalPositive(slots).Some? { serviceSlots := slots.value; }
      if OptionalPositive(grace).Some? { graceTime := grace.value; }
      if OptionalPositive(size).Some? { maxSize := size; }
      SettingsKeepSound(old(Tables()), Tables());
      promotedIds := TriggerPromotion(now);
    }

    // ----- workers ----------------------------------------------------------

    /** The late-expiry handler; its key is free again once it has run. */
    method RunLateExpiryJob(u: UserId, now: int)
      requires Valid()
      modifies this
      ensures Valid()
      ensures Tables() == ExpireTables(old(Tables()), u, now) && jobs == old(jobs) - {u}
      ensures if u in Users(old(rows), Late) && old(rows)[u].expiresAt.Some? && old(rows)[u].expiresAt.value <= now
              then
                && rows == old(rows)[u := old(rows)[u].(status := Missed, priorityBoost := 0)]
                && log == old(log) + [LogEntry(u, QuMissed, Some(Late), Missed, System, now)]
              else rows == old(rows) && log == old(log)
    {
      CallEffects.ExpiryExactly(Tables(), u, now);
      if Overdue(rows, u, now) {
        var transition := TransitionQueueUser(u, Miss, System, now);
      }
      jobs := jobs - {u};
    }

    /** One tick of the safety net: a job now for every overdue row whose key is not live. */
    method SafetyNetTick(now: int)
      modifies this`jobs
      ensures jobs == AddJobs(old(jobs), OverdueUsers(rows, now), now)
      ensures forall u :: u in jobs <==>
                || u in old(jobs)
                || (u in rows && rows[u].status.Late? && rows[u].expiresAt.Some? && rows[u].expiresAt.value <= now)
      ensures forall u :: u in jobs ==> jobs[u] == if u in old(jobs) then old(jobs)[u] else now
    {
      var lateUsers := OverdueUsers(rows, now);
      EnqueueAll(lateUsers, now);
      ExtendsIsAddJobs(old(jobs), jobs, lateUsers, now);
    }

    method EnqueueAll(users: set<UserId>, now: int)
      modifies this`jobs
      ensures Extends(old(jobs), jobs, users, now)
    {
      var rest := users;
      ghost var before := jobs;
      assert users - rest == {};
      while rest != {}
        invariant rest <= users
        invariant Extends(before, jobs, users - rest, now)
        decreases |rest|
      {
        var qu :| qu in rest;
        ExtendsByOne(before, jobs, users, rest, qu, now);
        EnqueueCheckLateExpiry(qu, 0, now);
        rest := rest - {qu};
      }
      assert users - rest == users;
    }
  }

  lemma SettingsKeepSound(db: Db, db': Db)
    requires History.Sound(db) && db'.rows == db.rows && db'.log == db.log
    ensures History.Sound(db')
  {
    forall u: UserId ensures History.ExplainedAt(db', u) {
      assert History.ExplainedAt(db, u);
    }
  }
}
