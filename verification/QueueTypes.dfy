/** The entities of one WaitWise queue: statuses, events, rows, audit entries. */
module QueueTypes {

  /** A user has at most one row per queue, so the user's id names the row. */
  type UserId = nat

  datatype Option<+T> = None | Some(value: T) {
    function GetOr(current: T): T {
      if Some? then value else current
    }
  }

  datatype Error =
    | NotFound             // 404 "User not found"
    | IllegalTransition    // decideQueueUserTransition throws
    | NoExpiry             // 500 "LATE user has no expiresAt"
    | OnlySystemServes     // 403 "Only system can promote users"
    | QueueFull            // 400 "Queue full"
    | AlreadyInQueue       // 400 "Already in queue"

  datatype Result<+T> = Ok(value: T) | Err(error: Error)

  datatype Status = Waiting | Serving | Late | Missed | Cancelled | Completed

  /** The events of the state machine; Miss is the source's MISSED event. */
  datatype Event = Serve | Leave | Complete | MarkLate | Rejoin | Miss

  datatype Actor = Admin | System | User

  /** Instants are milliseconds. */
  datatype Row = Row(
    joinedAt: int,
    status: Status,
    priorityBoost: int,
    servedAt: Option<int>,
    expiresAt: Option<int>)

  datatype LogType = QuCreated | QuServed | QuCompleted | QuLeft | QuLate | QuRejoined | QuMissed

  /** One audit record; `from` is absent on creation. */
  datatype LogEntry = LogEntry(
    user: UserId, kind: LogType, from: Option<Status>, to: Status, actor: Actor, at: int)
}
