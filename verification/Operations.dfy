/** The engine's state as a value, and every operation that changes it as a function on that value. */
module Operations {
  import opened Base
  import opened Model
  import opened Graph
  import opened Blocking
  import opened Ordering

  datatype Memory = Memory(
    jobs: Jobs, robots: Robots, nextSeq: int, dedup: map<Key, JobId>, stopReq: map<JobId, StopRequest>,
    cfg: Config, seen: map<RobotId, ToolSeen>, log: History)

  const OFF := Config(0, LocationTable(false, map[]), Replan(false, false, false, 0, false), ToolCheck(false, 0, false),
    0)

  const EMPTY := Memory(map[], map[], 0, map[], map[], OFF, map[], [])

  // ---- Submissions ----

  /** unicode.IsSpace, as strings.TrimSpace uses it. */
  predicate Space(c: char) {
    c == ' ' || '\t' <= c <= '\r' || c == '\U{0085}' || c == '\U{00A0}' || c == '\U{1680}'
    || '\U{2000}' <= c <= '\U{200a}' || c == '\U{2028}' || c == '\U{2029}' || c == '\U{202f}' || c == '\U{205f}'
      || c == '\U{3000}'
  }

  predicate Blank(s: string) { forall i :: 0 <= i < |s| ==> Space(s[i]) }

  predicate ShapeOk(id: JobId, deps: seq<JobId>) {
    && (forall i :: 0 <= i < |deps| ==> !Blank(deps[i]) && deps[i] != id)
    && forall i, k :: 0 <= i < k < |deps| ==> deps[i] != deps[k]
  }

  predicate DepsKnown(jobs: Jobs, deps: seq<JobId>) { forall d :: d in deps ==> d in jobs }

  function AddError(jobs: Jobs, j: Job): Option<Error> {
    if Blank(j.id) || !ShapeOk(j.id, j.deps) then Some(InvalidJob)
    else if j.id in jobs then Some(JobExists)
    else if !DepsKnown(jobs, j.deps) then Some(UnknownDep)
    else None
  }

  /** The record a first submission stores. */
  ghost function Stored(m: Memory, j: Job, now: Time): Job {
    j.(seqNo := m.nextSeq + 1, submittedAt := Millis(now), assignedAt := 0, completedAt := 0, attempt := 0,
       status := Verdict(m.jobs, j.deps))
  }

  ghost function Inserted(m: Memory, j: Job): Memory {
    m.(jobs := m.jobs[j.id := j], nextSeq := m.nextSeq + 1,
       dedup := if j.key != "" then m.dedup[j.key := j.id] else m.dedup,
       log := m.log + [Created(j.id)])
  }

  /** `saved` is whether the store took the new record; the sequence number is spent either way. */
  ghost function Add(m: Memory, j: Job, now: Time, saved: bool): Memory {
    if AddError(m.jobs, j).Some? then m
    else if !saved then m.(nextSeq := m.nextSeq + 1)
    else Inserted(m, Stored(m, j, now))
  }

  ghost function AddResult(m: Memory, j: Job, now: Time, saved: bool): Outcome<Job> {
    if AddError(m.jobs, j).Some? then Err(AddError(m.jobs, j).value)
    else if !saved then Err(StoreFailed)
    else Ok(Stored(m, j, now))
  }

  /** A submission leaves the engine exactly as it was if and only if it is refused before the write;
      a failed write leaves everything but the sequence number. */
  lemma RefusalLeavesNoTrace(m: Memory, j: Job, now: Time, saved: bool)
    ensures Add(m, j, now, saved) == m <==> AddError(m.jobs, j).Some?
    ensures !saved ==> Add(m, j, now, saved).(nextSeq := m.nextSeq) == m
  {
  }

  /** How an accepted submission was answered. */
  datatype Submitted = SubmitCreated | SubmitDuplicate | SubmitRetried

  datatype Submission = NewJob | Duplicate | Refused(error: Error) | Retry

  /** What a submission with the key of a live job leads to. */
  ghost function SubmissionOf(m: Memory, j: Job): Submission
    requires j.key in m.dedup ==> m.dedup[j.key] in m.jobs
  {
    if j.key == "" || j.key !in m.dedup then NewJob
    else
      var found := m.jobs[m.dedup[j.key]];
      if found.status != Failed && found.status != Cancelled then Duplicate
      else if !ShapeOk(found.id, j.deps) then Refused(InvalidJob)
      else if !DepsKnown(m.jobs, j.deps) then Refused(UnknownDep)
      else if FromRoots(m.jobs, j.deps, found.id) then Refused(InvalidJob)
      else Retry
  }

  ghost function RetriedJob(m: Memory, id: JobId, j: Job, now: Time): Job
    requires id in m.jobs
  {
    m.jobs[id].(priority := j.priority, tool := j.tool, location := j.location, deps := j.deps, robot := "",
                submittedAt := Millis(now), assignedAt := 0, completedAt := 0, status := Verdict(m.jobs, j.deps))
  }

  ghost function Resubmitted(m: Memory, id: JobId, j: Job, now: Time): Memory
    requires id in m.jobs
  {
    m.(jobs := Refreshed(m.jobs[id := RetriedJob(m, id, j, now)]), log := m.log + [Entry.Retried(id)])
  }

  ghost function Submit(m: Memory, j: Job, now: Time, saved: bool): Memory
    requires j.key in m.dedup ==> m.dedup[j.key] in m.jobs
  {
    match SubmissionOf(m, j)
    case NewJob => Add(m, j, now, saved)
    case Duplicate => m
    case Refused(_) => m
    case Retry => Resubmitted(m, m.dedup[j.key], j, now)
  }

  // ---- Robots ----

  /** What a caller can say about a robot it registers or updates in full. */
  datatype Declaration = Declaration(id: RobotId, location: string, tool: string, available: bool, load: int,
    stopCapable: bool)

  ghost predicate Busy(jobs: Jobs, robot: RobotId) {
    exists id :: id in jobs && jobs[id].robot == robot && jobs[id].status == Assigned
  }

  function Heard(r: Robot, d: Declaration, now: Time): Robot {
    r.(location := d.location, tool := d.tool, stopCapable := d.stopCapable, heartbeat := Some(now))
  }

  function FirstSeen(d: Declaration, now: Time): Robot {
    Robot(d.id, d.location, d.tool, d.available, d.load, d.stopCapable, false, Some(now))
  }

  ghost function WithRobot(m: Memory, r: Robot): Memory { m.(robots := m.robots[r.id := r]) }

  /** A registration or heartbeat; `given` is whether it states availability. */
  ghost function Upsert(m: Memory, d: Declaration, given: bool, now: Time): Memory {
    if d.id !in m.robots then
      m.(robots := m.robots[d.id := FirstSeen(d, now)], log := m.log + [Joined(d.id, d.load)])
    else
      var r := Heard(m.robots[d.id], d, now);
      if !given then m.(robots := m.robots[d.id := r])
      else if !Busy(m.jobs, d.id)
        then m.(robots := m.robots[d.id := r.(available := d.available, selfReported := !d.available)])
      else if d.available then m.(robots := m.robots[d.id := r])
      else
        var m' := m.(robots := m.robots[d.id := r.(selfReported := true)]);
        if m.cfg.replan.enabled && m.cfg.replan.onFault
        then AbandonAll(m', JobsOfRobot(m'.jobs, d.id, false))
        else m'
  }

  ghost predicate HeldInFlight(jobs: Jobs, robot: RobotId) {
    exists id :: id in jobs && jobs[id].robot == robot && jobs[id].status.InFlight()
  }

  ghost function RemoveError(m: Memory, robot: RobotId, deleted: bool): Option<Error> {
    if robot !in m.robots then Some(UnknownRobot)
    else if HeldInFlight(m.jobs, robot) then Some(RobotBusy)
    else if !deleted then Some(StoreFailed)
    else None
  }

  ghost function Remove(m: Memory, robot: RobotId, deleted: bool): Memory {
    if RemoveError(m, robot, deleted).Some? then m else m.(robots := m.robots - {robot})
  }

  // ---- Giving work back ----

  function HeldBack(robots: Robots, robot: RobotId): Robots {
    if robot in robots then robots[robot := robots[robot].(available := false, selfReported := true)] else robots
  }

  ghost function AbandonedJob(jobs: Jobs, id: JobId): Job
    requires id in jobs
  {
    jobs[id].(robot := "", assignedAt := 0, status := Verdict(jobs, jobs[id].deps))
  }

  /** One job goes back to the queue and its robot is held unavailable. */
  ghost function Abandon(m: Memory, id: JobId): Memory
    requires id in m.jobs
  {
    var j := m.jobs[id];
    m.(robots := HeldBack(m.robots, j.robot), stopReq := m.stopReq - {id},
       jobs := m.jobs[id := AbandonedJob(m.jobs, id)], log := m.log + [Abandoned(id, j.robot, j.attempt)])
  }

  ghost function AbandonAll(m: Memory, ids: seq<JobId>): Memory
    decreases |ids|
  {
    if ids == [] then m
    else if ids[0] !in m.jobs then AbandonAll(m, ids[1..])
    else AbandonAll(Abandon(m, ids[0]), ids[1..])
  }

  ghost function HeldSet(jobs: Jobs, robot: RobotId, unknownToo: bool): set<JobId> {
    set id | id in jobs && jobs[id].robot == robot
      && (jobs[id].status == Assigned || (unknownToo && jobs[id].status == Unknown))
  }

  ghost function JobsOfRobot(jobs: Jobs, robot: RobotId, unknownToo: bool): seq<JobId> {
    Queue(jobs, BySubmission, HeldSet(jobs, robot, unknownToo))
  }

  function RequeueError(m: Memory, id: JobId, robot: RobotId): Option<Error> {
    if id !in m.jobs then Some(UnknownJob)
    else if m.jobs[id].status.Waiting() then None
    else if m.jobs[id].status.Ended() then Some(JobFinished)
    else if robot != "" && robot != m.jobs[id].robot then Some(RobotMismatch)
    else None
  }

  ghost function Requeue(m: Memory, id: JobId, robot: RobotId): Memory {
    if RequeueError(m, id, robot).Some? || m.jobs[id].status.Waiting() then m else Abandon(m, id)
  }

  ghost function ReplanError(m: Memory, robot: RobotId): Option<Error> {
    if !m.cfg.replan.enabled then Some(ReplanOff)
    else if robot !in m.robots then Some(UnknownRobot)
    else None
  }

  ghost function ReplanRobot(m: Memory, robot: RobotId): Memory {
    if ReplanError(m, robot).Some? then m
    else AbandonAll(m.(robots := HeldBack(m.robots, robot)), JobsOfRobot(m.jobs, robot, true))
  }

  // ---- Reports ----

  function CompleteError(m: Memory, id: JobId, robot: RobotId, attempt: int): Option<Error> {
    if id !in m.jobs then Some(UnknownJob)
    else if !m.jobs[id].status.InFlight() then Some(JobNotAssigned)
    else if robot != m.jobs[id].robot then Some(RobotMismatch)
    else if attempt != 0 && attempt != m.jobs[id].attempt then Some(AttemptMismatch)
    else if robot !in m.robots then Some(UnknownRobot)
    else None
  }

  function EndedJob(j: Job, success: bool, now: Time): Job {
    j.(completedAt := Millis(now), status := if success then Done else Failed)
  }

  ghost function Freed(jobs: Jobs, r: Robot): Robot {
    if !Busy(jobs, r.id) && !r.selfReported then r.(available := true) else r
  }

  /** The report of a robot is accepted. */
  ghost function Finish(m: Memory, id: JobId, success: bool, now: Time): Memory
    requires id in m.jobs && m.jobs[id].robot in m.robots
  {
    var j := m.jobs[id];
    var jobs := m.jobs[id := EndedJob(j, success, now)];
    var r := m.robots[j.robot];
    m.(jobs := Refreshed(jobs),
       robots := m.robots[j.robot := Freed(jobs, r.(load := r.load + 1))],
       log := m.log + [Finished(id, j.robot, j.attempt, success)])
  }

  ghost function Complete(m: Memory, id: JobId, success: bool, robot: RobotId, attempt: int, now: Time): Memory {
    if CompleteError(m, id, robot, attempt).Some? then m else Finish(m, id, success, now)
  }

  function CancelError(m: Memory, id: JobId): Option<Error> {
    if id !in m.jobs then Some(UnknownJob)
    else match m.jobs[id].status
      case Assigned => Some(JobInFlight)
      case Unknown => Some(JobInFlight)
      case Done => Some(JobFinished)
      case Failed => Some(JobFinished)
      case _ => None
  }

  function CancelledJob(j: Job, now: Time): Job {
    j.(status := Cancelled, robot := "", completedAt := Millis(now))
  }

  ghost function Cancel(m: Memory, id: JobId, now: Time): Memory {
    if CancelError(m, id).Some? || m.jobs[id].status == Cancelled then m
    else m.(jobs := Refreshed(m.jobs[id := CancelledJob(m.jobs[id], now)]), log := m.log + [Withdrawn(id)])
  }

  // ---- The sweep over silent robots, and the confirmed stop ----

  predicate FromFuture(now: Time, heartbeat: Time) { heartbeat - now > MAX_HEARTBEAT_FUTURE_SKEW }

  /** The robot has been heard from, but not within `timeout`. */
  predicate IsSilent(r: Robot, timeout: Duration, now: Time) {
    r.heartbeat.Some? && !(now - r.heartbeat.value < timeout && !FromFuture(now, r.heartbeat.value))
  }

  ghost function StaleSet(m: Memory, timeout: Duration, now: Time): set<JobId> {
    set id | id in m.jobs && m.jobs[id].status == Assigned && m.jobs[id].robot in m.robots
             && IsSilent(m.robots[m.jobs[id].robot], timeout, now)
  }

  ghost function BackSet(m: Memory, timeout: Duration, now: Time): set<JobId> {
    set id | id in m.jobs && m.jobs[id].status == Assigned && m.jobs[id].robot in m.robots
             && !IsSilent(m.robots[m.jobs[id].robot], timeout, now)
  }

  datatype Decision = SendBack | AskNow | KeepWaiting | CallUnknown

  function AckTimeout(cfg: Config): Duration {
    if cfg.replan.stopAckTimeout > 0 then cfg.replan.stopAckTimeout else DEFAULT_STOP_ACK_TIMEOUT
  }

  /** The request that was made for the present assignment of the job, if any. */
  predicate AskedFor(m: Memory, id: JobId) {
    id in m.jobs && id in m.stopReq && m.stopReq[id].robot == m.jobs[id].robot
      && m.stopReq[id].attempt == m.jobs[id].attempt
  }

  function StopDecision(m: Memory, id: JobId, now: Time): Decision
    requires id in m.jobs
  {
    var j := m.jobs[id];
    if j.robot !in m.robots || !m.robots[j.robot].stopCapable then SendBack
    else if !AskedFor(m, id) then AskNow
    else if now < m.stopReq[id].timeoutAt then KeepWaiting
    else if m.cfg.replan.allowUnconfirmed then SendBack
    else CallUnknown
  }

  function AskedNow(m: Memory, id: JobId, now: Time): Memory
    requires id in m.jobs
  {
    var j := m.jobs[id];
    m.(stopReq := m.stopReq[id := StopRequest(j.robot, j.attempt, now, now + AckTimeout(m.cfg), false)],
       log := m.log + [Asked(id, j.robot, j.attempt, now, now + AckTimeout(m.cfg))])
  }

  /** The stop requests, and the history, after the decision on one job. */
  function Decide(m: Memory, id: JobId, now: Time): Memory
    requires id in m.jobs
  {
    var j := m.jobs[id];
    if j.robot !in m.robots || !m.robots[j.robot].stopCapable then m
    else if !AskedFor(m, id) then AskedNow(m, id, now)
    else if now < m.stopReq[id].timeoutAt then m
    else m.(stopReq := m.stopReq[id := m.stopReq[id].(expired := true)])
  }

  function DecideAll(m: Memory, ids: seq<JobId>, now: Time): Memory
    decreases |ids|
  {
    if ids == [] then m
    else if ids[0] !in m.jobs then DecideAll(m, ids[1..], now)
    else DecideAll(Decide(m, ids[0], now), ids[1..], now)
  }

  /** The jobs of `ids` for which the decision, taken in the state `m`, is `d`. */
  function Deciding(m: Memory, ids: seq<JobId>, now: Time, d: Decision): (r: seq<JobId>)
    ensures forall id :: id in r <==> id in ids && id in m.jobs && StopDecision(m, id, now) == d
  {
    if ids == [] then []
    else
      var rest := Deciding(m, ids[1..], now, d);
      if ids[0] in m.jobs && StopDecision(m, ids[0], now) == d then [ids[0]] + rest else rest
  }

  function MarkUnknown(m: Memory, id: JobId): Memory
    requires id in m.jobs
  {
    m.(jobs := m.jobs[id := m.jobs[id].(status := Unknown)],
      log := m.log + [Silent(id, m.jobs[id].robot, m.jobs[id].attempt)])
  }

  function MarkAllUnknown(m: Memory, ids: seq<JobId>): Memory
    decreases |ids|
  {
    if ids == [] then m
    else if ids[0] !in m.jobs then MarkAllUnknown(m, ids[1..])
    else MarkAllUnknown(MarkUnknown(m, ids[0]), ids[1..])
  }

  datatype SweepResult = SweepResult(unknown: seq<JobId>, requeued: seq<JobId>, stopRequested: seq<JobId>)

  ghost function Withdrawals(m: Memory, timeout: Duration, now: Time): Memory {
    m.(stopReq := m.stopReq - BackSet(m, timeout, now))
  }

  ghost function Stale(m: Memory, timeout: Duration, now: Time): seq<JobId> {
    Queue(m.jobs, BySubmission, StaleSet(m, timeout, now))
  }

  predicate ReplansSilent(cfg: Config) { cfg.replan.enabled && cfg.replan.onStale }

  ghost function SweepReport(m: Memory, timeout: Duration, now: Time): SweepResult {
    var m' := Withdrawals(m, timeout, now);
    var stale := Stale(m, timeout, now);
    if ReplansSilent(m.cfg) then
      SweepResult(Deciding(m', stale, now, CallUnknown), Deciding(m', stale, now, SendBack),
        Deciding(m', stale, now, AskNow))
    else SweepResult(stale, [], [])
  }

  ghost function Sweep(m: Memory, timeout: Duration, now: Time): Memory {
    var m' := Withdrawals(m, timeout, now);
    var stale := Stale(m, timeout, now);
    var report := SweepReport(m, timeout, now);
    if ReplansSilent(m.cfg) then
      MarkAllUnknown(AbandonAll(DecideAll(m', stale, now), report.requeued), report.unknown)
    else MarkAllUnknown(m', stale)
  }

  function AckError(m: Memory, robot: RobotId, id: JobId): Option<Error> {
    if !m.cfg.replan.enabled then Some(ReplanOff)
    else if id !in m.jobs then Some(UnknownJob)
    else if m.jobs[id].robot != "" && m.jobs[id].robot != robot then Some(RobotMismatch)
    else if !m.jobs[id].status.InFlight() || id !in m.stopReq || m.stopReq[id].robot != robot
      || m.stopReq[id].attempt != m.jobs[id].attempt
    then Some(NoStopRequest)
    else None
  }

  ghost function AckStop(m: Memory, robot: RobotId, id: JobId): Memory {
    if AckError(m, robot, id).Some? then m else Abandon(m, id)
  }

  // ---- Settings and tool answers ----

  function Configure(m: Memory, cfg: Config): Memory {
    m.(cfg := cfg, seen := if cfg.toolCheck.enabled then m.seen else map[])
  }

  /** The second half of asking the controllers: a robot that is gone, or was asked and stayed
      silent, keeps no confirmation. */
  function RecordTools(m: Memory, asked: set<RobotId>, answers: map<RobotId, string>, now: Time): Memory {
    if !m.cfg.toolCheck.enabled then m
    else
      m.(seen := map r | r in m.seen.Keys + asked && (if r in asked then r in answers else r in m.robots) ::
                   if r in asked then ToolSeen(answers[r], now) else m.seen[r])
  }
}
