/** The per-row state machine: which events are legal and which fields they rewrite. */
module StateMachine {
  import opened QueueTypes

  function Decide(status: Status, event: Event): Result<Status> {
    match (status, event)
    case (Waiting, Serve) => Ok(Serving)
    case (Waiting, Leave) => Ok(Cancelled)
    case (Serving, Complete) => Ok(Completed)
    case (Serving, MarkLate) => Ok(Late)
    case (Serving, Leave) => Ok(Cancelled)
    case (Late, Rejoin) => Ok(Waiting)
    case (Late, Miss) => Ok(Missed)
    case (Late, Leave) => Ok(Cancelled)
    case (Cancelled, Rejoin) => Ok(Waiting)
    case (Missed, Rejoin) => Ok(Waiting)
    case _ => Err(IllegalTransition)
  }

  function LogTypeOf(event: Event): LogType {
    match event
    case Serve => QuServed
    case Leave => QuLeft
    case Complete => QuCompleted
    case MarkLate => QuLate
    case Rejoin => QuRejoined
    case Miss => QuMissed
  }

  predicate CheckIfMissed(expiresAt: int, now: int) {
    now > expiresAt
  }

  function ComputeExpiry(now: int, graceTime: int): int {
    now + graceTime * 60_000
  }

  /** A column in an update: left alone, or overwritten (possibly with null). */
  datatype Patch<T> = Keep | Set(value: T)

  datatype Updates = Updates(
    status: Status,
    priorityBoost: int,
    servedAt: Patch<Option<int>>,
    expiresAt: Patch<Option<int>>)

  function Patched(row: Row, updates: Updates): Row {
    row.(status := updates.status,
    priorityBoost := updates.priorityBoost,
    servedAt := if updates.servedAt.Set? then updates.servedAt.value else row.servedAt,
    expiresAt := if updates.expiresAt.Set? then updates.expiresAt.value else row.expiresAt)
  }

  /** True of a REJOIN that comes back from LATE after the deadline. */
  predicate Lapsed(qu: Row, event: Event, now: int) {
    qu.status.Late? && event.Rejoin? && qu.expiresAt.Some? && CheckIfMissed(qu.expiresAt.value, now)
  }

  /** True of a REJOIN that comes back from LATE in time. */
  predicate InTime(qu: Row, event: Event, now: int) {
    qu.status.Late? && event.Rejoin? && qu.expiresAt.Some? && !CheckIfMissed(qu.expiresAt.value, now)
  }

  /** What a transition of a row read as `qu` writes, or why it is refused. */
  function UpdatesFor(qu: Row, event: Event, actor: Actor, now: int, graceTime: int): Result<Updates> {
    var next := Decide(qu.status, event);
    if next.Err? then Err(next.error)
    else if qu.status.Late? && event.Rejoin? && qu.expiresAt.None? then Err(NoExpiry)
    else if event.Serve? && !actor.System? then Err(OnlySystemServes)
    else
      Ok(Updates(
           if Lapsed(qu, event, now) then Missed else next.value,
           if InTime(qu, event, now) then 1 else 0,
           if next.value.Completed? then Set(Some(now)) else Keep,
           if next.value.Late? then Set(Some(ComputeExpiry(now, graceTime)))
           else if qu.status.Late? && !event.Miss? then Set(None)
           else Keep))
  }
}
