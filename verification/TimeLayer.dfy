/** Deadlines over whole timed runs: the delayed job, its deduplicating key, the worker that
    looks again, and the safety net. */
module TimeLayer {
  import opened QueueTypes
  import opened StateMachine
  import opened Database
  import opened Promotion
  import opened Operations
  import History

  datatype World = World(db: Db, jobs: map<UserId, int>, clock: int)

  datatype Op =
    | Wait(dt: nat)
    | DoJoin(u: UserId)
    | DoRequest(u: UserId, event: Event, actor: Actor)
    | DoServe(u: UserId)
    | DoConfigure(slots: Option<int>, grace: Option<int>, maxSize: Option<int>)
    | Fire(u: UserId)
    | SafetyNet

  ghost predicate CanDo(w: World, op: Op) {
    match op
    case Wait(_) => true
    case DoJoin(u) => JoinTables(w.db, u, w.clock).Ok?
    case DoRequest(u, event, actor) =>
      && (event.Leave? || event.Rejoin? || event.Complete? || event.MarkLate?)
      && Transition(w.db, u, event, actor, w.clock).Ok?
    case DoServe(u) => OpenSlots(w.db) > 0 && Best(w.db.rows, u)
    case DoConfigure(_, _, _) => true
    case Fire(u) => u in w.jobs && w.jobs[u] <= w.clock
    case SafetyNet => true
  }

  function Do(w: World, op: Op): World {
    match op
    case Wait(dt) => w.(clock := w.clock + dt)
    case DoJoin(u) =>
      var r := JoinTables(w.db, u, w.clock);
      if r.Ok? then w.(db := r.value) else w
    case DoRequest(u, event, actor) =>
      var r := Transition(w.db, u, event, actor, w.clock);
      if r.Ok?
      then w.(db := r.value, jobs := JobsAfter(w.jobs, u, event, w.clock, w.db.graceTime))
      else w
    case DoServe(u) => if u in w.db.rows then w.(db := Apply(w.db, ServeWrite(w.db, u, w.clock))) else w
    case DoConfigure(slots, grace, maxSize) => w.(db := Edited(w.db, slots, grace, maxSize))
    case Fire(u) => w.(db := ExpireTables(w.db, u, w.clock), jobs := w.jobs - {u})
    case SafetyNet =>
      w.(jobs := AddJobs(w.jobs, OverdueUsers(w.db.rows, w.clock), w.clock))
  }

  ghost predicate IsRun(run: seq<World>, ops: seq<Op>) {
    && |run| == |ops| + 1
    && forall i :: 0 <= i < |ops| ==> CanDo(run[i], ops[i]) && run[i + 1] == Do(run[i], ops[i])
  }

  lemma PrefixRun(run: seq<World>, ops: seq<Op>)
    requires IsRun(run, ops) && ops != []
    ensures IsRun(run[..|run| - 1], ops[..|ops| - 1])
    ensures run[..|run| - 1][0] == run[0]
    ensures CanDo(run[|ops| - 1], ops[|ops| - 1]) && run[|ops|] == Do(run[|ops| - 1], ops[|ops| - 1])
  {
  }

  // ----- what an operation writes -------------------------------------------

  /** The one write an operation makes, if any. */
  function WriteOf(w: World, op: Op): Option<Write> {
    match op
    case DoJoin(u) =>
      Some(if u in w.db.rows then Change(u, w.db.rows[u], Rejoin, User, w.clock, w.db.graceTime)
           else Insert(u, w.clock))
    case DoRequest(u, event, actor) =>
      if u in w.db.rows then Some(Change(u, w.db.rows[u], event, actor, w.clock, w.db.graceTime)) else None
    case DoServe(u) => if u in w.db.rows then Some(ServeWrite(w.db, u, w.clock)) else None
    case Fire(u) =>
      if Overdue(w.db.rows, u, w.clock) then Some(Change(u, w.db.rows[u], Miss, System, w.clock, w.db.graceTime))
      else None
    case _ => None
  }

  lemma OneWrite(w: World, op: Op)
    requires CanDo(w, op)
    ensures match WriteOf(w, op)
            case None => Do(w, op).db.rows == w.db.rows && Do(w, op).db.log == w.db.log
            case Some(x) => Lands(w.db, x) && Do(w, op).db == Apply(w.db, x)
  {
  }

  lemma StepKeepsSound(w: World, op: Op)
    requires CanDo(w, op) && History.Sound(w.db)
    ensures History.Sound(Do(w, op).db)
  {
    OneWrite(w, op);
    match WriteOf(w, op)
    case None =>
      forall u: UserId ensures History.ExplainedAt(Do(w, op).db, u) {
        assert History.ExplainedAt(w.db, u);
      }
    case Some(x) => History.WriteKeepsSound(w.db, x);
  }

  /** No operation raises SERVING but a promotion, and that one stays within the slots and takes
      a user whom nobody who waits is strictly ahead of. */
  lemma StepServing(w: World, op: Op)
    requires CanDo(w, op)
    ensures |Users(Do(w, op).db.rows, Serving)| > |Users(w.db.rows, Serving)| ==>
              && op.DoServe? && |Users(Do(w, op).db.rows, Serving)| <= w.db.serviceSlots
              && op.u in Users(w.db.rows, Waiting) && op.u in Users(Do(w, op).db.rows, Serving)
              && forall v :: v in Users(w.db.rows, Waiting) ==> !Before(w.db.rows[v], w.db.rows[op.u])
  {
    OneWrite(w, op);
    match WriteOf(w, op)
    case None =>
    case Some(x) => UsersAfterWrite(w.db.rows, x.user, NewRow(w.db, x), Serving);
  }

  // ----- how late a pending job can be --------------------------------------

  predicate IsLate(db: Db, u: UserId) {
    u in db.rows && db.rows[u].status.Late?
  }

  /** The largest graceTime so far. */
  function MaxGrace(run: seq<World>, i: nat): int
    requires i < |run|
  {
    if i == 0 then run[0].db.graceTime
    else if run[i].db.graceTime > MaxGrace(run, i - 1) then run[i].db.graceTime
    else MaxGrace(run, i - 1)
  }

  lemma {:induction false} MaxGraceReached(run: seq<World>, i: nat) returns (j: nat)
    requires i < |run|
    ensures j <= i && run[j].db.graceTime == MaxGrace(run, i)
  {
    if i == 0 || run[i].db.graceTime > MaxGrace(run, i - 1) { j := i; } else { j := MaxGraceReached(run, i - 1); }
  }

  /** At no time is graceTime more than d minutes below what it was earlier in the run. */
  ghost predicate DropsWithin(run: seq<World>, d: nat) {
    forall i, j :: 0 <= i <= j < |run| ==> run[i].db.graceTime - run[j].db.graceTime <= d
  }

  function Minutes(d: int): int {
    d * 60_000
  }

  /** A pending job fires within `most` minutes from now. For a LATE row it fires no later
      than d minutes after the row's deadline, unless it is due already (the safety net adds
      such jobs). */
  ghost predicate JobsOnTime(w: World, most: int, d: nat) {
    && 0 <= w.db.graceTime <= most
    && (forall u :: u in w.jobs ==> w.jobs[u] <= w.clock + Minutes(most))
    && (forall u :: u in w.jobs && IsLate(w.db, u) ==>
          && w.db.rows[u].expiresAt.Some?
          && (w.jobs[u] <= w.db.rows[u].expiresAt.value + Minutes(d) || w.jobs[u] <= w.clock))
  }

  lemma StepJobsOnTime(w: World, op: Op, most: int, d: nat, most': int)
    requires CanDo(w, op) && JobsOnTime(w, most, d) && most - w.db.graceTime <= d
    requires most' == if Do(w, op).db.graceTime > most then Do(w, op).db.graceTime else most
    ensures JobsOnTime(Do(w, op), most', d)
  {
    OneWrite(w, op);
    forall u | u in Do(w, op).jobs && IsLate(Do(w, op).db, u)
      ensures Do(w, op).db.rows[u].expiresAt.Some?
      ensures || Do(w, op).jobs[u] <= Do(w, op).db.rows[u].expiresAt.value + Minutes(d)
              || Do(w, op).jobs[u] <= Do(w, op).clock
    {
      assert u in w.jobs ==> w.jobs[u] <= w.clock + Minutes(most);
    }
  }

  /** While graceTime never drops by more than d minutes, the pending job of a LATE row fires no
      later than d minutes after the deadline, or is due already. If it is never lowered, d is 0. */
  lemma {:induction false} JobsOnTimeOverRun(run: seq<World>, ops: seq<Op>, d: nat, i: nat)
    requires IsRun(run, ops) && JobsOnTime(run[0], run[0].db.graceTime, d) && DropsWithin(run, d)
    requires i < |run|
    ensures JobsOnTime(run[i], MaxGrace(run, i), d)
  {
    if i > 0 {
      JobsOnTimeOverRun(run, ops, d, i - 1);
      var j := MaxGraceReached(run, i - 1);
      assert run[j].db.graceTime - run[i - 1].db.graceTime <= d;
      StepJobsOnTime(run[i - 1], ops[i - 1], MaxGrace(run, i - 1), d, MaxGrace(run, i));
    }
  }

  /** The world when u's pending job fires: at its own time, or now if that has passed. */
  function AtJobTime(w: World, u: UserId): World
    requires u in w.jobs
  {
    if w.jobs[u] > w.clock then w.(clock := w.jobs[u]) else w
  }

  /** After MARK_LATE the row's pending job, once fired, expires the row exactly when no job of
      an earlier lateness was still live, or that job does not fire before the new deadline.
      Otherwise that job comes too early and is spent: the row is LATE with no job at all. */
  lemma LateJobExact(w: World, u: UserId)
    requires CanDo(w, DoRequest(u, MarkLate, Admin))
    ensures var marked := Do(w, DoRequest(u, MarkLate, Admin));
            var deadline := ComputeExpiry(w.clock, w.db.graceTime);
            && u in marked.jobs
            && var fired := Do(AtJobTime(marked, u), Fire(u));
            && u !in fired.jobs
            && IsLate(marked.db, u)
            && (fired.db.rows[u].status.Missed? <==>
                  u !in w.jobs || w.jobs[u] >= deadline || w.clock >= deadline)
            && (!fired.db.rows[u].status.Missed? ==> IsLate(fired.db, u))
  {
  }

  /** A job fires no sooner than its time: one that was due no sooner than the deadline strikes. */
  lemma FiredJobStrikes(w: World, u: UserId)
    requires CanDo(w, Fire(u)) && IsLate(w.db, u)
    requires w.db.rows[u].expiresAt.Some? && w.db.rows[u].expiresAt.value <= w.jobs[u]
    ensures u in Users(Do(w, Fire(u)).db.rows, Missed) && u !in Do(w, Fire(u)).jobs
  {
  }

  // ----- the safety net -----------------------------------------------------

  /** Every LATE row whose deadline is at most T has a job that fires by T'. */
  ghost predicate Covered(w: World, T: int, T': int) {
    forall u :: Overdue(w.db.rows, u, T) ==> u in w.jobs && w.jobs[u] <= T'
  }

  /** A tick adds a job, at now, for exactly the rows that are LATE at or past their deadline and
      have none; in particular it adds none when no row is overdue. */
  lemma TickExactly(w: World)
    ensures var jobs := Do(w, SafetyNet).jobs;
            && (forall u :: u in jobs <==>
                  || u in w.jobs
                  || (u in w.db.rows && w.db.rows[u].status.Late?
                      && w.db.rows[u].expiresAt.Some? && w.db.rows[u].expiresAt.value <= w.clock))
            && (forall u :: u in jobs ==> jobs[u] == if u in w.jobs then w.jobs[u] else w.clock)
            && ((forall u :: u in Users(w.db.rows, Late) ==>
                   w.db.rows[u].expiresAt.None? || w.db.rows[u].expiresAt.value > w.clock) ==> jobs == w.jobs)
    ensures Do(w, SafetyNet).db == w.db
  {
    var jobs := Do(w, SafetyNet).jobs;
    if forall u :: u in Users(w.db.rows, Late) ==>
                     w.db.rows[u].expiresAt.None? || w.db.rows[u].expiresAt.value > w.clock {
      assert forall u :: u in OverdueUsers(w.db.rows, w.clock) ==> u in Users(w.db.rows, Late);
      assert jobs.Keys == w.jobs.Keys;
    }
  }

  lemma SafetyNetCovers(w: World, most: int, d: nat)
    requires JobsOnTime(w, most, d)
    ensures Covered(Do(w, SafetyNet), w.clock, w.clock + Minutes(d))
  {
  }

  lemma StepCovered(w: World, op: Op, most: int, d: nat, T: int)
    requires CanDo(w, op) && JobsOnTime(w, most, d) && most - w.db.graceTime <= d
    requires Covered(w, T, T + Minutes(d)) && T <= w.clock
    ensures Covered(Do(w, op), T, T + Minutes(d)) && T <= Do(w, op).clock
  {
    OneWrite(w, op);
  }

  lemma {:induction false} CoveredOverRun(run: seq<World>, ops: seq<Op>, d: nat, k: nat, i: nat)
    requires IsRun(run, ops) && JobsOnTime(run[0], run[0].db.graceTime, d) && DropsWithin(run, d)
    requires k < i < |run| && ops[k].SafetyNet?
    ensures Covered(run[i], run[k].clock, run[k].clock + Minutes(d)) && run[k].clock <= run[i].clock
  {
    JobsOnTimeOverRun(run, ops, d, i - 1);
    if i == k + 1 {
      SafetyNetCovers(run[k], MaxGrace(run, k), d);
    } else {
      CoveredOverRun(run, ops, d, k, i - 1);
      var j := MaxGraceReached(run, i - 1);
      assert run[j].db.graceTime - run[i - 1].db.graceTime <= d;
      StepCovered(run[i - 1], ops[i - 1], MaxGrace(run, i - 1), d, run[k].clock);
    }
  }

  /** Over a run in which graceTime never drops by more than d minutes (whatever else happens
      in it, and in whatever order jobs fire), with a safety-net tick at T: once no job due by
      T + d minutes is left, no row is LATE past T. If graceTime is never lowered, d is 0. */
  lemma NoOverdueAfterDrain(run: seq<World>, ops: seq<Op>, d: nat, k: nat, u: UserId)
    requires IsRun(run, ops) && JobsOnTime(run[0], run[0].db.graceTime, d) && DropsWithin(run, d)
    requires k < |ops| && ops[k].SafetyNet?
    requires forall v :: v in run[|ops|].jobs ==> run[|ops|].jobs[v] > run[k].clock + Minutes(d)
    ensures !Overdue(run[|ops|].db.rows, u, run[k].clock)
  {
    CoveredOverRun(run, ops, d, k, |ops|);
  }

  // ----- the grace window ---------------------------------------------------

  /** The deadline of a LATE row lies at least g minutes after the row was marked late. */
  ghost predicate LateStamped(w: World, g: int) {
    forall u :: IsLate(w.db, u) ==>
      && w.db.rows[u].expiresAt.Some?
      && History.LastOf(w.db.log, u).Some?
      && History.LastOf(w.db.log, u).value.kind.QuLate?
      && w.db.rows[u].expiresAt.value >= ComputeExpiry(History.LastOf(w.db.log, u).value.at, g)
  }

  lemma StepLateStamped(w: World, op: Op, g: int)
    requires CanDo(w, op) && LateStamped(w, g) && w.db.graceTime >= g
    ensures LateStamped(Do(w, op), g)
  {
    OneWrite(w, op);
    match WriteOf(w, op)
    case None =>
    case Some(x) =>
      forall u: UserId
        ensures History.LastOf(Do(w, op).db.log, u)
             == if u == x.user then Some(Entry(w.db, x)) else History.LastOf(w.db.log, u)
      {
        History.Append(w.db.log, Entry(w.db, x), u);
      }
  }

  lemma {:induction false} LateStampedOverRun(run: seq<World>, ops: seq<Op>, g: int)
    requires IsRun(run, ops) && LateStamped(run[0], g)
    requires forall i :: 0 <= i < |run| ==> run[i].db.graceTime >= g
    ensures LateStamped(run[|ops|], g)
  {
    if ops != [] {
      var n := |ops| - 1;
      PrefixRun(run, ops);
      LateStampedOverRun(run[..|run| - 1], ops[..n], g);
      assert run[n].db.graceTime >= g;
      StepLateStamped(run[n], ops[n], g);
    }
  }

  /** In any run whose graceTime stays at g minutes or more, for any number and timing of job
      firings: a LATE row turns MISSED no sooner than g minutes after it was marked late, and
      returns to WAITING no later than its deadline. */
  lemma GraceWindow(run: seq<World>, ops: seq<Op>, g: int, next: Op, u: UserId)
    requires IsRun(run, ops) && LateStamped(run[0], g) && CanDo(run[|ops|], next)
    requires forall i :: 0 <= i < |run| ==> run[i].db.graceTime >= g
    requires IsLate(run[|ops|].db, u)
    ensures var w, w' := run[|ops|], Do(run[|ops|], next);
            && History.LastOf(w.db.log, u).Some?
            && w.db.rows[u].expiresAt.Some?
            && u in w'.db.rows
            && (w'.db.rows[u].status.Missed? ==>
                  && w.clock >= w.db.rows[u].expiresAt.value
                  && w.clock >= ComputeExpiry(History.LastOf(w.db.log, u).value.at, g))
            && (w'.db.rows[u].status.Waiting? ==> w.clock <= w.db.rows[u].expiresAt.value)
  {
    LateStampedOverRun(run, ops, g);
    OneWrite(run[|ops|], next);
  }
}
