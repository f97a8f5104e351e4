/** The entities of the dispatcher: jobs, robots, settings, stop requests and the history of a run. */
module Model {
  import opened Base

  type JobId = string
  type RobotId = string
  type Key = string

  /** An instant or a duration, in nanoseconds (an instant counts from the Unix epoch). */
  type Time = int
  type Duration = int

  const MINUTE: Duration := 60_000_000_000
  const DEFAULT_STOP_ACK_TIMEOUT: Duration := 30_000_000_000
  const MAX_HEARTBEAT_FUTURE_SKEW: Duration := MINUTE

  /** Unix milliseconds of an instant, rounded down. */
  function Millis(t: Time): int { t / 1_000_000 }

  datatype Status = Pending | Blocked | Assigned | Done | Failed | Unreachable | Unknown | Cancelled {
    /** Statuses that are only a verdict on the dependencies. */
    predicate Waiting() { Pending? || Blocked? || Unreachable? }
    /** A dependency with this status makes its dependents unreachable. */
    predicate Dead() { Failed? || Unreachable? || Cancelled? }
    /** A robot may be executing the job. */
    predicate InFlight() { Assigned? || Unknown? }
    /** The job has ended for good, unless it is submitted again. */
    predicate Ended() { Done? || Failed? || Cancelled? }
  }

  datatype Job = Job(
    id: JobId, priority: int, tool: string, location: string, deps: seq<JobId>,
    status: Status, robot: RobotId, key: Key,
    submittedAt: int, assignedAt: int, completedAt: int, attempt: int, seqNo: int)

  /** What never changes in the life of a job. */
  predicate SameIdentity(j: Job, j': Job) { j'.id == j.id && j'.seqNo == j.seqNo && j'.key == j.key }

  datatype Robot = Robot(
    id: RobotId, location: string, tool: string, available: bool, load: int,
    stopCapable: bool, selfReported: bool, heartbeat: Option<Time>)

  type Jobs = map<JobId, Job>
  type Robots = map<RobotId, Robot>

  datatype LocationTable = LocationTable(enabled: bool, costs: map<string, map<string, real>>)
  datatype Replan = Replan(enabled: bool, onStale: bool, onFault: bool, stopAckTimeout: Duration,
    allowUnconfirmed: bool)
  datatype ToolCheck = ToolCheck(enabled: bool, ttl: Duration, allow: bool)
  datatype Config = Config(freshness: Duration, table: LocationTable, replan: Replan, toolCheck: ToolCheck,
    archiveAfter: Duration)

  datatype StopRequest = StopRequest(robot: RobotId, attempt: int, at: Time, timeoutAt: Time, expired: bool)
  datatype ToolSeen = ToolSeen(tool: string, at: Time)

  datatype Error =
    | InvalidJob | JobExists | UnknownDep | UnknownJob | UnknownRobot | JobNotAssigned | JobInFlight | JobFinished
    | RobotMismatch | RobotBusy | AttemptMismatch | ReplanOff | NoStopRequest | StoreFailed

  datatype Outcome<+T> = Ok(value: T) | Err(error: Error)

  datatype Assignment = Assignment(job: JobId, robot: RobotId)

  /** What happened in a run. `Given`, `Silent` and `Ended` are the events the engine announces;
      the others only record the rest of a job's or a robot's life. */
  datatype Entry =
    | Created(job: JobId)
    | Given(job: JobId, robot: RobotId, attempt: int)
    | Silent(job: JobId, robot: RobotId, attempt: int)
    | Finished(job: JobId, robot: RobotId, attempt: int, success: bool)
    | Abandoned(job: JobId, robot: RobotId, attempt: int)
    | Asked(job: JobId, robot: RobotId, attempt: int, at: Time, due: Time)
    | Withdrawn(job: JobId)
    | Retried(job: JobId)
    | Joined(robot: RobotId, load: int)

  type History = seq<Entry>
}
