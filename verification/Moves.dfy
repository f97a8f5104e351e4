/** The atomic moves every operation is made of, and the invariant each of them keeps. */
module Moves {
  import opened Base
  import opened Model
  import opened Graph
  import opened Blocking
  import opened Ordering
  import opened Operations
  import opened Invariants
  import opened Lives
  import Storage

  datatype Move =
    | Insert(j: Job, now: Time)
    | SpendNumber
    | Resubmit(id: JobId, j: Job, now: Time)
    | Register(r: Robot)
    | Report(r: Robot)
    | Forget(robot: RobotId)
    | GiveOut(id: JobId, robot: RobotId, now: Time)
    | TakeBack(id: JobId)
    | FallSilent(id: JobId)
    | End(id: JobId, success: bool, now: Time)
    | CallOff(id: JobId, now: Time)
    | AskStop(id: JobId, now: Time)
    | Expire(id: JobId)
    | DropRequests(ids: set<JobId>)
    | Archive(ids: set<JobId>)
    | Tune(cfg: Config, seen: map<RobotId, ToolSeen>)
    | Restart(nextSeq: int, dedup: map<Key, JobId>, cfg: Config)

  /** No job outside `ids` depends on one inside. */
  ghost predicate Separable(jobs: Jobs, ids: set<JobId>) {
    forall id, d :: id in jobs && id !in ids && d in jobs[id].deps ==> d !in ids
  }

  ghost function WithoutJobs(m: Memory, ids: set<JobId>): Memory {
    m.(jobs := m.jobs - ids, stopReq := m.stopReq - ids,
       dedup := map k | k in m.dedup
         && !(m.dedup[k] in ids && m.dedup[k] in m.jobs && m.jobs[m.dedup[k]].key == k) :: m.dedup[k])
  }

  /** When a move is allowed. */
  ghost predicate Can(m: Memory, mv: Move) {
    match mv
    case Insert(j, _) => AddError(m.jobs, j).None? && j.robot == ""
    case SpendNumber => true
    case Resubmit(id, j, _) =>
      && id in m.jobs && (m.jobs[id].status == Failed || m.jobs[id].status == Cancelled)
      && DepsKnown(m.jobs, j.deps) && !FromRoots(m.jobs, j.deps, id)
    case Register(r) => r.id != "" && r.id !in m.robots && !r.selfReported
    case Report(r) =>
      && r.id in m.robots && r.load == m.robots[r.id].load
      && (r.selfReported ==> !r.available) && (r.available ==> !Operations.Busy(m.jobs, r.id))
    case Forget(r) => !HeldInFlight(m.jobs, r)
    case GiveOut(id, r, _) => id in m.jobs && m.jobs[id].status == Pending && r in m.robots && m.robots[r].available
    case TakeBack(id) => id in m.jobs && m.jobs[id].status.InFlight()
    case FallSilent(id) => id in m.jobs && m.jobs[id].status == Assigned
    case End(id, _, _) => id in m.jobs && m.jobs[id].status.InFlight() && m.jobs[id].robot in m.robots
    case CallOff(id, _) => id in m.jobs && m.jobs[id].status.Waiting()
    case AskStop(id, _) => id in m.jobs && m.jobs[id].status == Assigned
    case Expire(id) => id in m.stopReq
    case DropRequests(_) => true
    case Archive(ids) => Separable(m.jobs, ids) && forall id :: id in ids ==> id in m.jobs && m.jobs[id].status.Ended()
    case Tune(_, _) => true
    case Restart(nextSeq, dedup, _) => JobsOk(m.jobs, nextSeq) && KeysLive(m.jobs, dedup)
  }

  ghost function Do(m: Memory, mv: Move): Memory
    requires Can(m, mv)
  {
    match mv
    case Insert(j, now) => Inserted(m, Stored(m, j, now))
    case SpendNumber => m.(nextSeq := m.nextSeq + 1)
    case Resubmit(id, j, now) => Resubmitted(m, id, j, now)
    case Register(r) => Joining(m, r)
    case Report(r) => m.(robots := m.robots[r.id := r])
    case Forget(r) => m.(robots := m.robots - {r})
    case GiveOut(id, r, now) => Give(m, id, r, now)
    case TakeBack(id) => Abandon(m, id)
    case FallSilent(id) => MarkUnknown(m, id)
    case End(id, success, now) => Finish(m, id, success, now)
    case CallOff(id, now) => m.(jobs := Refreshed(m.jobs[id := CancelledJob(m.jobs[id], now)]),
      log := m.log + [Withdrawn(id)])
    case AskStop(id, now) => AskedNow(m, id, now)
    case Expire(id) => m.(stopReq := m.stopReq[id := m.stopReq[id].(expired := true)])
    case DropRequests(ids) => m.(stopReq := m.stopReq - ids)
    case Archive(ids) => WithoutJobs(m, ids)
    case Tune(cfg, seen) => m.(cfg := cfg, seen := seen)
    case Restart(nextSeq, dedup, cfg) => RestartedWith(m, nextSeq, dedup, cfg)
  }

  /** A robot that was not registered joins the registry. */
  function Joining(m: Memory, r: Robot): Memory {
    m.(robots := m.robots[r.id := r], log := m.log + [Joined(r.id, r.load)])
  }

  /** Only what the store keeps survives; requests and tool answers are gone. */
  ghost function RestartedWith(m: Memory, nextSeq: int, dedup: map<Key, JobId>, cfg: Config): Memory {
    m.(nextSeq := nextSeq, dedup := dedup, cfg := cfg, stopReq := map[], seen := map[],
       robots := map r | r in m.robots :: Storage.Kept(m.robots[r]))
  }

  // ---- The core invariant ----

  lemma MoveKeepsCore(m: Memory, mv: Move)
    requires Core(m) && Can(m, mv)
    ensures Core(Do(m, mv))
  {
    hide QueueOk, KeysLive, Stable, Reserved, RobotsOk, Refreshed, Verdict, AddError, FromRoots;
    match mv
    case Insert(j, now) => InsertKeepsCore(m, j, now);
    case Resubmit(id, j, now) => RetryKeepsCore(m, id, j, now);
    case Register(r) => RegisterKeepsCore(m, r);
    case Report(r) => ReportKeepsCore(m, r);
    case Forget(r) => ForgetKeepsCore(m, r);
    case GiveOut(id, r, now) => GiveKeepsCore(m, id, r, now);
    case TakeBack(id) => AbandonKeepsCore(m, id);
    case FallSilent(id) => MarkUnknownKeepsCore(m, id);
    case End(id, success, now) => FinishKeepsCore(m, id, success, now);
    case CallOff(id, now) => CancelKeepsCore(m, id, now);
    case Archive(ids) => ArchiveMoveKeepsCore(m, ids);
    case Restart(nextSeq, dedup, cfg) => RestartKeepsCore(m, nextSeq, dedup, cfg);
    case SpendNumber => SpendKeepsCore(m);
    case _ =>
  }

  lemma SpendKeepsCore(m: Memory)
    requires Core(m)
    ensures Core(m.(nextSeq := m.nextSeq + 1))
  {
  }

  lemma RegisterKeepsCore(m: Memory, r: Robot)
    requires Core(m) && r.id != "" && r.id !in m.robots && !r.selfReported
    ensures Core(m.(robots := m.robots[r.id := r]))
  {
    hide QueueOk, KeysLive, Stable;
    RobotsKeepCore(m, m.robots[r.id := r]);
  }

  lemma ReportKeepsCore(m: Memory, r: Robot)
    requires Core(m) && Can(m, Report(r))
    ensures Core(m.(robots := m.robots[r.id := r]))
  {
  }

  lemma ForgetKeepsCore(m: Memory, r: RobotId)
    requires Core(m) && !HeldInFlight(m.jobs, r)
    ensures Core(m.(robots := m.robots - {r}))
  {
    hide QueueOk, KeysLive, Stable;
    RobotsKeepCore(m, m.robots - {r});
  }

  lemma ArchiveMoveKeepsCore(m: Memory, ids: set<JobId>)
    requires Core(m) && Separable(m.jobs, ids)
    ensures Core(WithoutJobs(m, ids))
  {
    var dedup := WithoutJobs(m, ids).dedup;
    assert KeysLive(m.jobs, m.dedup);
    hide QueueOk, Stable, Reserved, RobotsOk;
    ArchiveKeepsCore(m, ids, dedup);
  }

  lemma RestartKeepsCore(m: Memory, nextSeq: int, dedup: map<Key, JobId>, cfg: Config)
    requires Core(m) && JobsOk(m.jobs, nextSeq) && KeysLive(m.jobs, dedup)
    ensures Core(RestartedWith(m, nextSeq, dedup, cfg))
  {
    hide JobsOk, KeysLive, Stable, Ready, Held, DepsLive, Acyclic;
  }

  // ---- Keys ----

  /** Every key of a live job is in the index. */
  ghost predicate KeysFound(jobs: Jobs, dedup: map<Key, JobId>) {
    forall id :: id in jobs && jobs[id].key != "" ==> jobs[id].key in dedup
  }

  /** When keys are unique there is only one key index. */
  lemma OneKeyIndex(jobs: Jobs, a: map<Key, JobId>, b: map<Key, JobId>)
    requires KeysLive(jobs, a) && KeysComplete(jobs, a) && KeysLive(jobs, b) && KeysFound(jobs, b)
    ensures a == b
  {
    forall k | k in b ensures k in a && a[k] == b[k] {
    }
    forall k | k in a ensures k in b {
    }
  }

  /** A new job that has a key comes with one that no live job has (as SubmitJob sees to). */
  ghost predicate FreshKey(m: Memory, mv: Move) {
    && (mv.Insert? ==> mv.j.key == "" || mv.j.key !in m.dedup)
    && (mv.Restart? ==> KeysFound(m.jobs, mv.dedup))
  }

  lemma MoveKeepsKeys(m: Memory, mv: Move)
    requires Core(m) && Can(m, mv) && KeysComplete(m.jobs, m.dedup) && FreshKey(m, mv)
    ensures KeysComplete(Do(m, mv).jobs, Do(m, mv).dedup)
  {
    hide Stable, Ready, Held, DepsLive, Acyclic, Reserved, RobotsOk, Refreshed, Verdict, FromRoots, ShapeOk, Blank,
      Reverdict, JobsOk, KeysComplete, KeysLive;
    match mv
    case Insert(j, now) => InsertKeepsKeys(m, Stored(m, j, now));
    case Resubmit(id, j, now) => RefreshKeepsKeys(m, id, RetriedJob(m, id, j, now));
    case End(id, success, now) => RefreshKeepsKeys(m, id, EndedJob(m.jobs[id], success, now));
    case CallOff(id, now) => RefreshKeepsKeys(m, id, CancelledJob(m.jobs[id], now));
    case Archive(ids) => ArchiveKeepsKeys(m, ids);
    case GiveOut(id, r, now) => UpdateKeepsKeys(m.jobs, id, GivenJob(m.jobs[id], r, now), m.nextSeq, m.dedup);
    case TakeBack(id) => UpdateKeepsKeys(m.jobs, id, AbandonedJob(m.jobs, id), m.nextSeq, m.dedup);
    case FallSilent(id) => UpdateKeepsKeys(m.jobs, id, m.jobs[id].(status := Status.Unknown), m.nextSeq, m.dedup);
    case Restart(nextSeq, dedup, cfg) => OneKeyIndex(m.jobs, m.dedup, dedup);
    case _ =>
  }

  lemma InsertKeepsKeys(m: Memory, j: Job)
    requires KeysComplete(m.jobs, m.dedup) && j.id !in m.jobs && (j.key == "" || j.key !in m.dedup)
    ensures KeysComplete(Inserted(m, j).jobs, Inserted(m, j).dedup)
  {
  }

  lemma ArchiveKeepsKeys(m: Memory, ids: set<JobId>)
    requires KeysComplete(m.jobs, m.dedup)
    ensures KeysComplete(WithoutJobs(m, ids).jobs, WithoutJobs(m, ids).dedup)
  {
  }

  lemma RefreshKeepsKeys(m: Memory, id: JobId, j: Job)
    requires KeysComplete(m.jobs, m.dedup) && id in m.jobs && SameIdentity(m.jobs[id], j)
    ensures KeysComplete(Refreshed(m.jobs[id := j]), m.dedup)
  {
  }

  // ---- Lives, loads and stop requests ----

  predicate PhaseMatches(p: Phase, s: Status) {
    match s
    case Assigned => p.Running?
    case Unknown => p.Lost?
    case Done => p.Succeeded?
    case Failed => p.Spoilt?
    case Cancelled => p.Out?
    case _ => p.Idle?
  }

  /** The record of a job and its history tell the same story. */
  predicate Matches(l: Life, j: Job) {
    && l.Life? && l.attempt == j.attempt && PhaseMatches(l.phase, j.status)
    && (WasGiven(j) ==> l.robot == j.robot)
  }

  ghost predicate LivesOk(jobs: Jobs, log: History) {
    && (forall id :: id in jobs ==> Matches(LifeOf(log, id), jobs[id]))
    && forall id :: id !in jobs ==> LifeOf(log, id).Closed()
  }

  ghost predicate LoadsOk(robots: Robots, log: History) {
    forall r :: r in robots ==> robots[r].load == LoadOf(log, r)
  }

  /** A stop request is never ahead of its job; one that still fits was made for this assignment, at
      the time and with the deadline it names, which left the robot some time to answer. */
  ghost predicate RequestsOk(m: Memory) {
    forall id :: id in m.stopReq ==>
      && id in m.jobs && m.stopReq[id].attempt <= m.jobs[id].attempt && m.stopReq[id].at < m.stopReq[id].timeoutAt
      && (AskedFor(m, id) && m.jobs[id].status.InFlight() ==> Asking(m, id) in Chapter(m.log, id))
  }

  /** The entry in the history of the request that is open for the job. */
  function Asking(m: Memory, id: JobId): Entry
    requires id in m.jobs && id in m.stopReq
  {
    Asked(id, m.jobs[id].robot, m.jobs[id].attempt, m.stopReq[id].at, m.stopReq[id].timeoutAt)
  }

  /** What the engine keeps whatever it was restarted from, as long as the records were sound. */
  ghost predicate Steady(m: Memory) { Core(m) && RequestsOk(m) }

  /** The counters tell what the history tells. */
  ghost predicate Accounted(m: Memory) { LivesOk(m.jobs, m.log) && LoadsOk(m.robots, m.log) }

  ghost predicate Sound(m: Memory) { Steady(m) && Accounted(m) }

  /** A change keeps the engine steady, and its accounts if they were right. */
  ghost predicate Keeps(m: Memory, m': Memory) { Steady(m') && (Accounted(m) ==> Accounted(m')) }

  /** One entry is added, about one job; only that job changes (verdicts of others apart). */
  lemma LivesGoOn(jobs: Jobs, jobs': Jobs, log: History, e: Entry, id: JobId)
    requires LivesOk(jobs, log) && About(e, id) && id in jobs'
    requires jobs'.Keys == jobs.Keys + {id}
    requires forall x :: x in jobs && x != id ==> SameLife(jobs[x], jobs'[x])
    requires Matches(Advance(LifeOf(log, id), e), jobs'[id])
    ensures LivesOk(jobs', log + [e])
  {
    hide LifeOf, Chapter, Advance, Matches, SameLife;
    forall x ensures x in jobs' ==> Matches(LifeOf(log + [e], x), jobs'[x])
      ensures x !in jobs' ==> LifeOf(log + [e], x).Closed()
    {
      AppendLife(log, e, x);
      if x in jobs && x != id { MatchesToo(LifeOf(log, x), jobs[x], jobs'[x]); }
    }
  }

  lemma MatchesToo(l: Life, j: Job, j': Job)
    requires Matches(l, j) && SameLife(j, j')
    ensures Matches(l, j')
  {
  }

  predicate SameLife(j: Job, j': Job) {
    j'.attempt == j.attempt && j'.robot == j.robot
      && (j'.status == j.status || (j.status.Waiting() && j'.status.Waiting()))
  }

  lemma LivesSkip(jobs: Jobs, log: History, e: Entry)
    requires LivesOk(jobs, log) && e.Joined?
    ensures LivesOk(jobs, log + [e])
  {
    forall x ensures LifeOf(log + [e], x) == LifeOf(log, x) { AppendLife(log, e, x); }
  }

  lemma RefreshedLives(jobs: Jobs, id: JobId, j: Job)
    requires id in jobs
    ensures var jobs' := Refreshed(jobs[id := j]);
      jobs'.Keys == jobs.Keys && SameLife(j, jobs'[id])
        && forall x :: x in jobs && x != id ==> SameLife(jobs[x], jobs'[x])
  {
  }

  lemma MoveKeepsLives(m: Memory, mv: Move)
    requires Core(m) && Can(m, mv) && LivesOk(m.jobs, m.log)
    ensures LivesOk(Do(m, mv).jobs, Do(m, mv).log)
  {
    hide QueueOk, KeysLive, Stable, Reserved, RobotsOk, Refreshed, Verdict, FromRoots, LifeOf, LivesOk, ShapeOk, Blank;
    if mv.Insert? || mv.Resubmit? || mv.End? || mv.CallOff? {
      QueueMoveKeepsLives(m, mv);
    } else if mv.GiveOut? || mv.TakeBack? || mv.FallSilent? || mv.AskStop? {
      AssignmentMoveKeepsLives(m, mv);
    } else if mv.Register? {
      LivesSkip(m.jobs, m.log, Joined(mv.r.id, mv.r.load));
    } else if mv.Archive? {
      ArchiveKeepsLives(m, mv.ids);
    }
  }

  lemma QueueMoveKeepsLives(m: Memory, mv: Move)
    requires Core(m) && Can(m, mv) && LivesOk(m.jobs, m.log)
    requires mv.Insert? || mv.Resubmit? || mv.End? || mv.CallOff?
    ensures LivesOk(Do(m, mv).jobs, Do(m, mv).log)
  {
    hide QueueOk, KeysLive, Stable, Reserved, RobotsOk, Refreshed, Verdict, FromRoots, LifeOf, LivesOk, ShapeOk, Blank,
      Matches, Finish;
    match mv
    case Insert(j, now) =>
      VerdictWaits(m.jobs, j.deps);
      LifeBegins(m, Stored(m, j, now));
    case Resubmit(id, j, now) =>
      VerdictWaits(m.jobs, j.deps);
      LifeChanges(m, id, RetriedJob(m, id, j, now), Retried(id));
    case End(id, success, now) => ReportKeepsLives(m, id, success, now);
    case CallOff(id, now) => LifeChanges(m, id, CancelledJob(m.jobs[id], now), Withdrawn(id));
  }

  lemma ReportKeepsLives(m: Memory, id: JobId, success: bool, now: Time)
    requires LivesOk(m.jobs, m.log) && id in m.jobs && m.jobs[id].status.InFlight() && m.jobs[id].robot in m.robots
    ensures LivesOk(Finish(m, id, success, now).jobs, Finish(m, id, success, now).log)
  {
    hide Refreshed, LifeOf, LivesOk, Matches, Freed;
    LifeChanges(m, id, EndedJob(m.jobs[id], success, now), Finished(id, m.jobs[id].robot, m.jobs[id].attempt, success));
  }

  lemma LifeBegins(m: Memory, j: Job)
    requires LivesOk(m.jobs, m.log) && j.id !in m.jobs && j.status.Waiting() && j.attempt == 0
    ensures LivesOk(m.jobs[j.id := j], m.log + [Created(j.id)])
  {
  }

  /** A job ends, is called off or is submitted again; then every verdict is recomputed. */
  lemma LifeChanges(m: Memory, id: JobId, j: Job, e: Entry)
    requires LivesOk(m.jobs, m.log) && id in m.jobs && j.attempt == m.jobs[id].attempt
    requires match e
      case Retried(x) => x == id && (m.jobs[id].status == Failed || m.jobs[id].status == Cancelled)
        && j.status.Waiting()
      case Withdrawn(x) => x == id && m.jobs[id].status.Waiting() && j.status == Cancelled
      case Finished(x, r, a, success) =>
        && x == id && m.jobs[id].status.InFlight() && r == m.jobs[id].robot == j.robot && a == j.attempt
        && j.status == (if success then Done else Failed)
      case _ => false
    ensures LivesOk(Refreshed(m.jobs[id := j]), m.log + [e])
  {
    hide LifeOf, LivesOk, Refreshed;
    LifeAt(m, id);
    RefreshedLives(m.jobs, id, j);
    LivesGoOn(m.jobs, Refreshed(m.jobs[id := j]), m.log, e, id);
  }

  lemma AssignmentMoveKeepsLives(m: Memory, mv: Move)
    requires Core(m) && Can(m, mv) && LivesOk(m.jobs, m.log)
    requires mv.GiveOut? || mv.TakeBack? || mv.FallSilent? || mv.AskStop?
    ensures LivesOk(Do(m, mv).jobs, Do(m, mv).log)
  {
    hide Core, Verdict, LifeOf, LivesOk, AddError, FromRoots, Separable, DepsKnown, Advance, Matches, GivenJob;
    LifeAt(m, mv.id);
    LifeStepsFit(LifeOf(m.log, mv.id), m, mv.id);
    match mv
    case GiveOut(id, r, now) => OneJobLives(m, id, GivenJob(m.jobs[id], r, now), Given(id, r, m.jobs[id].attempt + 1));
    case TakeBack(id) => OneJobLives(m, id, AbandonedJob(m.jobs, id),
      Abandoned(id, m.jobs[id].robot, m.jobs[id].attempt));
    case FallSilent(id) => OneJobLives(m, id, m.jobs[id].(status := Status.Unknown),
      Silent(id, m.jobs[id].robot, m.jobs[id].attempt));
    case AskStop(id, now) =>
      OneJobLives(m, id, m.jobs[id], Asked(id, m.jobs[id].robot, m.jobs[id].attempt, now, now + AckTimeout(m.cfg)));
      assert m.jobs[id := m.jobs[id]] == m.jobs;
  }

  /** The next event of an assignment fits the life so far. */
  lemma LifeStepsFit(l: Life, m: Memory, id: JobId)
    requires id in m.jobs && Matches(l, m.jobs[id])
    ensures m.jobs[id].status == Pending ==>
      forall r, now :: Matches(Advance(l, Given(id, r, m.jobs[id].attempt + 1)), GivenJob(m.jobs[id], r, now))
    ensures m.jobs[id].status.InFlight() ==>
      Matches(Advance(l, Abandoned(id, m.jobs[id].robot, m.jobs[id].attempt)), AbandonedJob(m.jobs, id))
    ensures m.jobs[id].status == Assigned ==>
      && Matches(Advance(l, Silent(id, m.jobs[id].robot, m.jobs[id].attempt)), m.jobs[id].(status := Status.Unknown))
      && forall at, due :: Matches(Advance(l, Asked(id, m.jobs[id].robot, m.jobs[id].attempt, at, due)), m.jobs[id])
  {
    hide Verdict;
    VerdictWaits(m.jobs, m.jobs[id].deps);
  }

  lemma OneJobLives(m: Memory, id: JobId, j: Job, e: Entry)
    requires LivesOk(m.jobs, m.log) && id in m.jobs && About(e, id) && Matches(Advance(LifeOf(m.log, id), e), j)
    ensures LivesOk(m.jobs[id := j], m.log + [e])
  {
    hide LifeOf, LivesOk, Advance, Matches;
    LivesGoOn(m.jobs, m.jobs[id := j], m.log, e, id);
  }

  lemma LifeAt(m: Memory, id: JobId)
    requires LivesOk(m.jobs, m.log)
    ensures id in m.jobs ==> Matches(LifeOf(m.log, id), m.jobs[id])
    ensures id !in m.jobs ==> LifeOf(m.log, id).Closed()
  {
  }

  lemma ArchiveKeepsLives(m: Memory, ids: set<JobId>)
    requires LivesOk(m.jobs, m.log) && forall id :: id in ids ==> id in m.jobs && m.jobs[id].status.Ended()
    ensures LivesOk(m.jobs - ids, m.log)
  {
  }

  lemma MoveKeepsLoads(m: Memory, mv: Move)
    requires Can(m, mv) && LoadsOk(m.robots, m.log) && RobotsOk(m.robots)
    ensures LoadsOk(Do(m, mv).robots, Do(m, mv).log)
  {
    var m' := Do(m, mv);
    hide Refreshed, Verdict, FromRoots, LoadOf, Operations.Busy;
    forall r | r in m'.robots ensures m'.robots[r].load == LoadOf(m'.log, r) {
      if |m'.log| > |m.log| {
        assert m'.log == m.log + [m'.log[|m.log|]];
        AppendLoad(m.log, m'.log[|m.log|], r);
      } else {
        assert m'.log == m.log;
      }
    }
  }

  /** Requests that were already there still fit, or fit no longer. */
  lemma RequestsGoOn(m: Memory, m': Memory)
    requires RequestsOk(m)
    requires forall id :: id in m'.stopReq ==> StillFits(m, m', id)
    requires m'.log == m.log || (|m'.log| == |m.log| + 1 && m'.log[..|m.log|] == m.log)
    requires |m'.log| > |m.log| ==> forall id :: id in m'.stopReq ==> m'.log[|m.log|] != Created(id)
    ensures RequestsOk(m')
  {
  }

  ghost predicate StillFits(m: Memory, m': Memory, id: JobId) {
    && id in m.stopReq && id in m.jobs && id in m'.jobs && id in m'.stopReq
    && m'.stopReq[id] == m.stopReq[id].(expired := m'.stopReq[id].expired)
    && m'.jobs[id].attempt >= m.jobs[id].attempt
    && ((m'.jobs[id].status.InFlight() && m'.jobs[id].attempt == m.jobs[id].attempt)
        ==> m.jobs[id].status.InFlight() && m'.jobs[id].robot == m.jobs[id].robot)
  }

  lemma MoveKeepsRequests(m: Memory, mv: Move)
    requires Core(m) && Can(m, mv) && RequestsOk(m)
    ensures RequestsOk(Do(m, mv))
  {
    hide QueueOk, KeysLive, Stable, Reserved, RobotsOk, Refreshed, Verdict, FromRoots, ShapeOk, Blank, RequestsOk,
      AskedFor, Finish, Chapter, LifeOf;
    RequestIds(m);
    match mv
    case AskStop(id, now) => AskKeepsRequests(m, id, now);
    case Resubmit(id, j, now) =>
      VerdictWaits(m.jobs, j.deps);
      RequestsSurviveRefresh(m, Do(m, mv), id, RetriedJob(m, id, j, now), Retried(id));
    case End(id, success, now) => ReportKeepsRequests(m, id, success, now);
    case CallOff(id, now) => RequestsSurviveRefresh(m, Do(m, mv), id, CancelledJob(m.jobs[id], now), Withdrawn(id));
    case _ => PlainMoveKeepsRequests(m, mv);
  }

  lemma PlainMoveKeepsRequests(m: Memory, mv: Move)
    requires Core(m) && Can(m, mv) && RequestsOk(m)
    requires !mv.AskStop? && !mv.Resubmit? && !mv.End? && !mv.CallOff?
    ensures RequestsOk(Do(m, mv))
  {
    hide QueueOk, KeysLive, Stable, Reserved, RobotsOk, Verdict, ShapeOk, Blank, RequestsOk, AskedFor, Chapter, LifeOf;
    RequestIds(m);
    if mv.TakeBack? { VerdictWaits(m.jobs, m.jobs[mv.id].deps); }
    RequestsGoOn(m, Do(m, mv));
  }

  lemma ReportKeepsRequests(m: Memory, id: JobId, success: bool, now: Time)
    requires RequestsOk(m) && id in m.jobs && m.jobs[id].status.InFlight() && m.jobs[id].robot in m.robots
    ensures RequestsOk(Finish(m, id, success, now))
  {
    hide Refreshed, RequestsOk, AskedFor, Freed;
    RequestsSurviveRefresh(m, Finish(m, id, success, now), id, EndedJob(m.jobs[id], success, now),
      Finished(id, m.jobs[id].robot, m.jobs[id].attempt, success));
  }

  lemma RequestsSurviveRefresh(m: Memory, m': Memory, id: JobId, j: Job, e: Entry)
    requires RequestsOk(m) && id in m.jobs && !j.status.InFlight() && j.attempt == m.jobs[id].attempt && !e.Created?
    requires m'.jobs == Refreshed(m.jobs[id := j]) && m'.stopReq == m.stopReq && m'.log == m.log + [e]
    ensures RequestsOk(m')
  {
    hide Refreshed, RequestsOk, AskedFor, LifeOf, Chapter;
    RequestIds(m);
    RefreshedLives(m.jobs, id, j);
    RequestsGoOn(m, m');
  }

  lemma RequestIds(m: Memory)
    requires RequestsOk(m)
    ensures forall id :: id in m.stopReq ==> id in m.jobs
  {
  }

  lemma AskKeepsRequests(m: Memory, id: JobId, now: Time)
    requires RequestsOk(m) && id in m.jobs
    ensures RequestsOk(AskedNow(m, id, now))
  {
  }

  /** Every move keeps everything. */
  lemma MoveKeeps(m: Memory, mv: Move)
    requires Steady(m) && Can(m, mv)
    ensures Keeps(m, Do(m, mv))
  {
    hide LivesOk, LoadsOk, RequestsOk, QueueOk, KeysLive, Stable, Reserved, RobotsOk, Do, Can;
    MoveKeepsCore(m, mv);
    MoveKeepsRequests(m, mv);
    if Accounted(m) {
      MoveKeepsLives(m, mv);
      MoveKeepsLoads(m, mv);
    }
  }

  // ---- Runs of moves ----

  ghost predicate CanAll(m: Memory, mvs: seq<Move>)
    decreases |mvs|
  {
    mvs == [] || (Can(m, mvs[0]) && CanAll(Do(m, mvs[0]), mvs[1..]))
  }

  ghost function DoAll(m: Memory, mvs: seq<Move>): Memory
    requires CanAll(m, mvs)
    decreases |mvs|
  {
    if mvs == [] then m else DoAll(Do(m, mvs[0]), mvs[1..])
  }

  lemma {:induction false} AllKeep(m: Memory, mvs: seq<Move>)
    requires Steady(m) && CanAll(m, mvs)
    ensures Keeps(m, DoAll(m, mvs))
    decreases |mvs|
  {
    if mvs != [] {
      hide Steady, Accounted, Do, Can;
      MoveKeeps(m, mvs[0]);
      AllKeep(Do(m, mvs[0]), mvs[1..]);
    }
  }

  lemma {:induction false} OneAfterAnother(m: Memory, a: seq<Move>, b: seq<Move>)
    requires CanAll(m, a) && CanAll(DoAll(m, a), b)
    ensures CanAll(m, a + b) && DoAll(m, a + b) == DoAll(DoAll(m, a), b)
    decreases |a|
  {
    hide Do, Can;
    if a == [] {
      assert a + b == b;
    } else {
      OneAfterAnother(Do(m, a[0]), a[1..], b);
      assert (a + b)[0] == a[0] && (a + b)[1..] == a[1..] + b;
    }
  }
}
