/** What each endpoint and the expiry worker do to the tables and the job queue when they
    run alone. The interleaved model splits the same operations into statements. */
module Operations {
  import opened QueueTypes
  import opened StateMachine
  import opened Database

  /** transitionQueueUser. */
  function Transition(db: Db, u: UserId, event: Event, actor: Actor, now: int): Result<Db> {
    if u !in db.rows then Err(NotFound)
    else
      var w := Change(u, db.rows[u], event, actor, now, db.graceTime);
      var updates := UpdatesFor(w.qu, event, actor, now, db.graceTime);
      if updates.Err? then Err(updates.error) else Ok(Apply(db, w))
  }

  /** joinQueue: the capacity check comes first, then a first join or a rejoin. */
  function JoinTables(db: Db, u: UserId, now: int): Result<Db> {
    if db.maxSize.Some? && |Active(db.rows)| >= db.maxSize.value then Err(QueueFull)
    else if u !in db.rows then Ok(Apply(db, Insert(u, now)))
    else if db.rows[u].status.Cancelled? || db.rows[u].status.Missed?
    then Transition(db, u, Rejoin, User, now)
    else Err(AlreadyInQueue)
  }

  /** The late-expiry job: it looks at the row again before it acts. */
  function ExpireTables(db: Db, u: UserId, now: int): Db {
    if Overdue(db.rows, u, now) then Apply(db, Change(u, db.rows[u], Miss, System, now, db.graceTime)) else db
  }

  /** A job under a key that is still live is not added again. */
  function AddJob(jobs: map<UserId, int>, u: UserId, fireAt: int): map<UserId, int> {
    if u in jobs then jobs else jobs[u := fireAt]
  }

  /** The fire time of the job that MARK_LATE schedules. */
  function LateJobTime(now: int, graceTime: int): int {
    var delay := ComputeExpiry(now, graceTime) - now;
    now + if delay > 0 then delay else 0
  }

  function JobsAfter(jobs: map<UserId, int>, u: UserId, event: Event, now: int, graceTime: int): map<UserId, int> {
    if event.MarkLate? then AddJob(jobs, u, LateJobTime(now, graceTime)) else jobs
  }

  /** A job now for each of these users whose key is not live. */
  function AddJobs(jobs: map<UserId, int>, users: set<UserId>, now: int): map<UserId, int> {
    map u | u in jobs.Keys + users :: if u in jobs then jobs[u] else now
  }

  /** jobs' is jobs with one more job, at now, for each of the users without one. */
  ghost predicate Extends(jobs: map<UserId, int>, jobs': map<UserId, int>, users: set<UserId>, now: int) {
    && jobs'.Keys == jobs.Keys + users
    && forall u :: u in jobs'.Keys ==> jobs'[u] == if u in jobs then jobs[u] else now
  }

  lemma ExtendsByOne(jobs: map<UserId, int>, jobs': map<UserId, int>, all: set<UserId>, rest: set<UserId>,
                     u: UserId, now: int)
    requires u in rest && rest <= all && Extends(jobs, jobs', all - rest, now)
    ensures rest - {u} <= all && Extends(jobs, AddJob(jobs', u, now), all - (rest - {u}), now)
  {
    assert all - (rest - {u}) == all - rest + {u};
  }

  lemma ExtendsIsAddJobs(jobs: map<UserId, int>, jobs': map<UserId, int>, users: set<UserId>, now: int)
    requires Extends(jobs, jobs', users, now)
    ensures jobs' == AddJobs(jobs, users, now)
  {
  }

  /** The rows the safety net finds. */
  function OverdueUsers(rows: map<UserId, Row>, now: int): set<UserId> {
    set u | u in rows && Overdue(rows, u, now)
  }

  predicate HasRoom(db: Db) {
    db.maxSize.Some? ==> |Active(db.rows)| < db.maxSize.value
  }

  /** A join that runs alone is refused exactly when the queue is full or the user is in it;
      otherwise it adds the user, so it never takes the queue past maxSize. */
  lemma JoinWithinCapacity(db: Db, u: UserId, now: int)
    ensures JoinTables(db, u, now).Ok? <==> HasRoom(db) && u !in Users(db.rows, Completed) + Active(db.rows)
    ensures JoinTables(db, u, now) == Err(QueueFull) <==> !HasRoom(db)
    ensures JoinTables(db, u, now).Ok? ==>
              Active(JoinTables(db, u, now).value.rows) == Active(db.rows) + {u}
  {
  }
}
