/** What holds in every state of the engine, and the reason each primitive change keeps it. */
module Invariants {
  import opened Base
  import opened Model
  import opened Graph
  import opened Blocking
  import opened Ordering
  import opened Operations

  ghost predicate JobsOk(jobs: Jobs, nextSeq: int) {
    SeqsDistinct(jobs) && forall id :: id in jobs ==> jobs[id].id == id && jobs[id].seqNo <= nextSeq
  }

  /** A job that was given to a robot, then or now, has only finished dependencies. */
  ghost predicate Ready(jobs: Jobs) {
    forall id, d :: id in jobs && WasGiven(jobs[id]) && d in jobs[id].deps && d in jobs ==> jobs[d].status == Done
  }

  predicate WasGiven(j: Job) { j.status.InFlight() || j.status == Done || j.status == Failed }

  /** A job names a robot exactly when it was given to one and not taken back. */
  ghost predicate Held(jobs: Jobs) {
    forall id :: id in jobs ==> (jobs[id].robot == "" <==> jobs[id].status.Waiting() || jobs[id].status == Cancelled)
  }

  /** A robot that reported itself unavailable is not available. */
  ghost predicate RobotsOk(robots: Robots) {
    forall r :: r in robots ==> robots[r].id == r && r != "" && (robots[r].selfReported ==> !robots[r].available)
  }

  /** A job in flight is on a registered robot; an assigned one is the only one there, and its robot
      is not available. */
  ghost predicate Reserved(jobs: Jobs, robots: Robots) {
    && (forall id :: id in jobs && jobs[id].status.InFlight() ==> jobs[id].robot in robots)
    && (forall id :: id in jobs && jobs[id].status == Assigned ==>
      jobs[id].robot in robots && !robots[jobs[id].robot].available)
    && forall a, b ::
         a in jobs && b in jobs && jobs[a].status == Assigned && jobs[b].status == Assigned
         && jobs[a].robot == jobs[b].robot
         ==> a == b
  }

  /** The key index names live jobs that have that key. */
  ghost predicate KeysLive(jobs: Jobs, dedup: map<Key, JobId>) {
    forall k :: k in dedup ==> k != "" && dedup[k] in jobs && jobs[dedup[k]].key == k
  }

  /** Every key of a live job is indexed, so it belongs to one job only. */
  ghost predicate KeysComplete(jobs: Jobs, dedup: map<Key, JobId>) {
    forall id :: id in jobs && jobs[id].key != "" ==> jobs[id].key in dedup && dedup[jobs[id].key] == id
  }

  ghost predicate QueueOk(jobs: Jobs, nextSeq: int) {
    JobsOk(jobs, nextSeq) && DepsLive(jobs) && Acyclic(jobs) && Ready(jobs) && Held(jobs)
  }

  ghost predicate Core(m: Memory) {
    QueueOk(m.jobs, m.nextSeq) && Stable(m.jobs) && RobotsOk(m.robots) && Reserved(m.jobs, m.robots)
      && KeysLive(m.jobs, m.dedup)
  }

  lemma EmptyIsCore()
    ensures Core(EMPTY) && KeysComplete(EMPTY.jobs, EMPTY.dedup)
  {
    assert Ranked(EMPTY.jobs, map[]);
  }

  // ---- Recomputing verdicts ----

  lemma RefreshKeepsQueue(jobs: Jobs, nextSeq: int)
    requires QueueOk(jobs, nextSeq)
    ensures QueueOk(Refreshed(jobs), nextSeq) && Stable(Refreshed(jobs)) && Reverdict(jobs, Refreshed(jobs))
  {
    RefreshedIsStable(jobs);
    hide Refreshed, Stable;
    ReverdictKeepsQueue(jobs, Refreshed(jobs), nextSeq);
  }

  lemma ReverdictKeepsQueue(jobs: Jobs, jobs': Jobs, nextSeq: int)
    requires QueueOk(jobs, nextSeq) && Reverdict(jobs, jobs')
    ensures QueueOk(jobs', nextSeq)
  {
    var rank :| Ranked(jobs, rank);
    assert Ranked(jobs', rank);
  }

  lemma ReverdictKeepsRest(jobs: Jobs, jobs': Jobs, robots: Robots, dedup: map<Key, JobId>)
    requires Reverdict(jobs, jobs')
    ensures Reserved(jobs, robots) ==> Reserved(jobs', robots)
    ensures KeysLive(jobs, dedup) ==> KeysLive(jobs', dedup)
    ensures KeysComplete(jobs, dedup) ==> KeysComplete(jobs', dedup)
  {
  }

  // ---- Changing one job ----

  lemma UpdateKeepsKeys(jobs: Jobs, id: JobId, j: Job, nextSeq: int, dedup: map<Key, JobId>)
    requires id in jobs && SameIdentity(jobs[id], j)
    ensures JobsOk(jobs, nextSeq) ==> JobsOk(jobs[id := j], nextSeq)
    ensures KeysLive(jobs, dedup) ==> KeysLive(jobs[id := j], dedup)
    ensures KeysComplete(jobs, dedup) ==> KeysComplete(jobs[id := j], dedup)
  {
  }

  lemma UpdateKeepsGraph(jobs: Jobs, id: JobId, j: Job)
    requires id in jobs && j.deps == jobs[id].deps && DepsLive(jobs) && Acyclic(jobs)
    ensures DepsLive(jobs[id := j]) && Acyclic(jobs[id := j])
  {
    var rank :| Ranked(jobs, rank);
    assert Ranked(jobs[id := j], rank);
  }

  lemma NotItsOwnDependency(jobs: Jobs, id: JobId)
    requires Acyclic(jobs) && id in jobs
    ensures id !in jobs[id].deps
  {
    var rank :| Ranked(jobs, rank);
  }

  lemma UpdateKeepsStable(jobs: Jobs, id: JobId, j: Job)
    requires id in jobs && Stable(jobs) && j.deps == jobs[id].deps
    requires (j.status.Dead() <==> jobs[id].status.Dead()) && (j.status == Done <==> jobs[id].status == Done)
    requires j.status.Waiting() ==> j.status == Verdict(jobs, j.deps)
    ensures Stable(jobs[id := j])
  {
  }

  /** Done never ends: no change below turns a finished job into an unfinished one, so a job whose
      dependencies are all done keeps them. */
  lemma UpdateKeepsReady(jobs: Jobs, id: JobId, j: Job)
    requires id in jobs && Ready(jobs) && j.deps == jobs[id].deps
    requires jobs[id].status != Done
    requires WasGiven(j) ==> forall d :: d in j.deps && d in jobs ==> d != id && jobs[d].status == Done
    ensures Ready(jobs[id := j])
  {
  }

  lemma PendingMeansReady(jobs: Jobs, id: JobId)
    requires Stable(jobs) && id in jobs && jobs[id].status == Pending
    ensures forall d :: d in jobs[id].deps && d in jobs ==> jobs[d].status == Done
  {
  }

  lemma ReadyMeansPending(jobs: Jobs, id: JobId)
    requires Ready(jobs) && id in jobs && WasGiven(jobs[id])
    ensures Verdict(jobs, jobs[id].deps) == Pending
  {
  }

  lemma UpdateKeepsHeld(jobs: Jobs, id: JobId, j: Job)
    requires id in jobs && Held(jobs) && (j.robot == "" <==> j.status.Waiting() || j.status == Cancelled)
    ensures Held(jobs[id := j])
  {
  }

  /** One job changes, dependencies apart, without becoming done or dead. */
  lemma UpdateKeepsCore(m: Memory, id: JobId, j: Job, robots: Robots)
    requires Core(m) && id in m.jobs && SameIdentity(m.jobs[id], j) && j.deps == m.jobs[id].deps
    requires m.jobs[id].status != Done && j.status != Done && !m.jobs[id].status.Dead() && !j.status.Dead()
    requires j.status.Waiting() ==> j.status == Verdict(m.jobs, j.deps)
    requires WasGiven(j) ==> forall d :: d in j.deps && d in m.jobs ==> d != id && m.jobs[d].status == Done
    requires j.robot == "" <==> j.status.Waiting() || j.status == Cancelled
    requires RobotsOk(robots) && Reserved(m.jobs[id := j], robots)
    ensures Core(m.(jobs := m.jobs[id := j], robots := robots))
  {
    hide JobsOk, KeysLive, KeysComplete, Ready, Held, Stable, Acyclic, DepsLive, Reserved, RobotsOk, Verdict;
    UpdateKeepsKeys(m.jobs, id, j, m.nextSeq, m.dedup);
    UpdateKeepsGraph(m.jobs, id, j);
    UpdateKeepsStable(m.jobs, id, j);
    UpdateKeepsReady(m.jobs, id, j);
    UpdateKeepsHeld(m.jobs, id, j);
  }

  // ---- The primitive changes ----

  function GivenJob(j: Job, r: RobotId, now: Time): Job {
    j.(status := Assigned, robot := r, attempt := j.attempt + 1, assignedAt := Millis(now))
  }

  function Give(m: Memory, id: JobId, r: RobotId, now: Time): Memory
    requires id in m.jobs && r in m.robots
  {
    var j := m.jobs[id];
    m.(jobs := m.jobs[id := GivenJob(j, r, now)],
       robots := m.robots[r := m.robots[r].(available := false)],
       log := m.log + [Given(id, r, j.attempt + 1)])
  }

  lemma GiveKeepsCore(m: Memory, id: JobId, r: RobotId, now: Time)
    requires Core(m) && id in m.jobs && m.jobs[id].status == Pending && r in m.robots && m.robots[r].available
    ensures Core(Give(m, id, r, now))
  {
    hide JobsOk, KeysLive, Ready, Held, Stable, Acyclic, DepsLive, Reserved, RobotsOk, Verdict;
    PendingMeansReady(m.jobs, id);
    NotItsOwnDependency(m.jobs, id);
    GiveKeepsReserved(m, id, r, now);
    UpdateKeepsCore(m, id, GivenJob(m.jobs[id], r, now), Give(m, id, r, now).robots);
  }

  lemma GiveKeepsReserved(m: Memory, id: JobId, r: RobotId, now: Time)
    requires Reserved(m.jobs, m.robots) && RobotsOk(m.robots) && id in m.jobs && r in m.robots && m.robots[r].available
    ensures r != "" && RobotsOk(Give(m, id, r, now).robots)
    ensures Reserved(Give(m, id, r, now).jobs, Give(m, id, r, now).robots)
  {
  }

  lemma AbandonKeepsCore(m: Memory, id: JobId)
    requires Core(m) && id in m.jobs && m.jobs[id].status.InFlight()
    ensures Core(Abandon(m, id)) && Abandon(m, id).jobs[id].status == Pending
  {
    hide JobsOk, KeysLive, Ready, Held, Stable, Acyclic, DepsLive, Reserved, RobotsOk, Verdict;
    ReadyMeansPending(m.jobs, id);
    AbandonKeepsReserved(m, id);
    UpdateKeepsCore(m, id, AbandonedJob(m.jobs, id), Abandon(m, id).robots);
  }

  lemma AbandonKeepsReserved(m: Memory, id: JobId)
    requires Reserved(m.jobs, m.robots) && RobotsOk(m.robots) && id in m.jobs
    requires Verdict(m.jobs, m.jobs[id].deps) == Pending
    ensures RobotsOk(Abandon(m, id).robots)
    ensures Reserved(m.jobs[id := AbandonedJob(m.jobs, id)], Abandon(m, id).robots)
  {
    hide Verdict;
  }

  lemma MarkUnknownKeepsCore(m: Memory, id: JobId)
    requires Core(m) && id in m.jobs && m.jobs[id].status == Assigned
    ensures Core(MarkUnknown(m, id))
  {
    hide JobsOk, KeysLive, Ready, Held, Stable, Acyclic, DepsLive, Reserved, RobotsOk, Verdict;
    NotItsOwnDependency(m.jobs, id);
    InFlightIsReady(m, id);
    MarkUnknownKeepsReserved(m, id);
    UpdateKeepsCore(m, id, m.jobs[id].(status := Unknown), m.robots);
  }

  lemma InFlightIsReady(m: Memory, id: JobId)
    requires Ready(m.jobs) && Held(m.jobs) && id in m.jobs && m.jobs[id].status.InFlight()
    ensures m.jobs[id].robot != "" && forall d :: d in m.jobs[id].deps && d in m.jobs ==> m.jobs[d].status == Done
  {
  }

  lemma MarkUnknownKeepsReserved(m: Memory, id: JobId)
    requires Reserved(m.jobs, m.robots) && id in m.jobs && m.jobs[id].status == Assigned
    ensures Reserved(m.jobs[id := m.jobs[id].(status := Unknown)], m.robots)
  {
  }

  /** The part shared by the changes that end in a refresh of every verdict. */
  lemma RefreshMakesCore(m: Memory)
    requires QueueOk(m.jobs, m.nextSeq) && RobotsOk(m.robots) && Reserved(m.jobs, m.robots) && KeysLive(m.jobs, m.dedup)
    ensures Core(m.(jobs := Refreshed(m.jobs)))
  {
    hide Reserved, RobotsOk, KeysLive, KeysComplete, Stable, Refreshed, QueueOk;
    RefreshKeepsQueue(m.jobs, m.nextSeq);
    ReverdictKeepsRest(m.jobs, Refreshed(m.jobs), m.robots, m.dedup);
  }

  /** One job changes, dependencies apart; afterwards every verdict is recomputed. */
  lemma UpdateThenRefresh(m: Memory, id: JobId, j: Job, robots: Robots)
    requires Core(m) && id in m.jobs && SameIdentity(m.jobs[id], j) && j.deps == m.jobs[id].deps
      && m.jobs[id].status != Done
    requires WasGiven(j) ==> forall d :: d in j.deps && d in m.jobs ==> d != id && m.jobs[d].status == Done
    requires j.robot == "" <==> j.status.Waiting() || j.status == Cancelled
    requires RobotsOk(robots) && Reserved(m.jobs[id := j], robots)
    ensures Core(m.(jobs := Refreshed(m.jobs[id := j]), robots := robots))
  {
    hide JobsOk, KeysLive, KeysComplete, Ready, Held, Stable, Acyclic, DepsLive, Reserved, RobotsOk, Refreshed;
    UpdateKeepsKeys(m.jobs, id, j, m.nextSeq, m.dedup);
    UpdateKeepsGraph(m.jobs, id, j);
    UpdateKeepsReady(m.jobs, id, j);
    UpdateKeepsHeld(m.jobs, id, j);
    RefreshMakesCore(m.(jobs := m.jobs[id := j], robots := robots));
  }

  lemma FinishKeepsCore(m: Memory, id: JobId, success: bool, now: Time)
    requires Core(m) && id in m.jobs && m.jobs[id].status.InFlight()
    ensures m.jobs[id].robot in m.robots && Core(Finish(m, id, success, now))
  {
    hide JobsOk, KeysLive, Ready, Held, Stable, Acyclic, DepsLive, Reserved, RobotsOk, Refreshed, Freed;
    NotItsOwnDependency(m.jobs, id);
    InFlightIsReady(m, id);
    FinishKeepsReserved(m, id, success, now);
    UpdateThenRefresh(m, id, EndedJob(m.jobs[id], success, now), Finish(m, id, success, now).robots);
  }

  lemma FinishKeepsReserved(m: Memory, id: JobId, success: bool, now: Time)
    requires Reserved(m.jobs, m.robots) && RobotsOk(m.robots) && id in m.jobs && m.jobs[id].status.InFlight()
    ensures m.jobs[id].robot in m.robots
    ensures Reserved(m.jobs[id := EndedJob(m.jobs[id], success, now)], Finish(m, id, success, now).robots)
    ensures RobotsOk(Finish(m, id, success, now).robots)
  {
  }

  lemma CancelKeepsCore(m: Memory, id: JobId, now: Time)
    requires Core(m) && id in m.jobs && m.jobs[id].status.Waiting()
    ensures Core(m.(jobs := Refreshed(m.jobs[id := CancelledJob(m.jobs[id], now)])))
  {
    hide JobsOk, KeysLive, Ready, Held, Stable, Acyclic, DepsLive, Reserved, RobotsOk, Refreshed;
    WaitingKeepsReserved(m, id, CancelledJob(m.jobs[id], now));
    UpdateThenRefresh(m, id, CancelledJob(m.jobs[id], now), m.robots);
  }

  lemma WaitingKeepsReserved(m: Memory, id: JobId, j: Job)
    requires Reserved(m.jobs, m.robots) && id in m.jobs && !j.status.InFlight()
    ensures Reserved(m.jobs[id := j], m.robots)
  {
  }

  /** A retry may rewire the graph: the search before it is what keeps the graph acyclic. */
  lemma RetryKeepsCore(m: Memory, id: JobId, j: Job, now: Time)
    requires Core(m) && id in m.jobs && (m.jobs[id].status == Failed || m.jobs[id].status == Cancelled)
    requires DepsKnown(m.jobs, j.deps) && !FromRoots(m.jobs, j.deps, id)
    ensures Core(Resubmitted(m, id, j, now))
  {
    hide JobsOk, KeysLive, KeysComplete, Ready, Held, Stable, Acyclic, DepsLive, Reserved, RobotsOk, Refreshed, Verdict;
    var j' := RetriedJob(m, id, j, now);
    UpdateKeepsKeys(m.jobs, id, j', m.nextSeq, m.dedup);
    RetryKeepsGraph(m.jobs, id, j');
    RetryKeepsReady(m, id, j, now);
    UpdateKeepsHeld(m.jobs, id, j');
    WaitingKeepsReserved(m, id, j');
    RefreshMakesCore(m.(jobs := m.jobs[id := j']));
  }

  lemma RetryKeepsGraph(jobs: Jobs, id: JobId, j: Job)
    requires DepsLive(jobs) && Acyclic(jobs) && id in jobs && DepsKnown(jobs, j.deps) && !FromRoots(jobs, j.deps, id)
    ensures DepsLive(jobs[id := j]) && Acyclic(jobs[id := j])
  {
    hide Acyclic;
    forall d | d in j.deps ensures !Reaches(jobs, d, id) {
      assert d in j.deps && Reaches(jobs, d, id) ==> FromRoots(jobs, j.deps, id);
    }
    RewiringKeepsAcyclic(jobs, id, j);
  }

  lemma RetryKeepsReady(m: Memory, id: JobId, j: Job, now: Time)
    requires Ready(m.jobs) && id in m.jobs && m.jobs[id].status != Done
    ensures RetriedJob(m, id, j, now).status.Waiting() && Ready(m.jobs[id := RetriedJob(m, id, j, now)])
  {
    VerdictWaits(m.jobs, j.deps);
    hide Verdict;
  }

  lemma InsertKeepsCore(m: Memory, j: Job, now: Time)
    requires Core(m) && AddError(m.jobs, j).None? && j.robot == ""
    ensures Core(Inserted(m, Stored(m, j, now)))
  {
    hide JobsOk, KeysLive, KeysComplete, Ready, Held, Stable, Acyclic, DepsLive, Reserved, RobotsOk, Verdict, ShapeOk,
      Blank;
    var j' := Stored(m, j, now);
    VerdictWaits(m.jobs, j.deps);
    InsertKeepsGraph(m.jobs, j');
    InsertKeepsStable(m.jobs, j');
    InsertKeepsRest(m, j');
  }

  lemma InsertKeepsRest(m: Memory, j: Job)
    requires JobsOk(m.jobs, m.nextSeq) && Ready(m.jobs) && Held(m.jobs) && Reserved(m.jobs, m.robots)
      && KeysLive(m.jobs, m.dedup)
    requires DepsLive(m.jobs) && j.id !in m.jobs && j.seqNo == m.nextSeq + 1 && j.status.Waiting() && j.robot == ""
    ensures JobsOk(m.jobs[j.id := j], m.nextSeq + 1) && Ready(m.jobs[j.id := j]) && Held(m.jobs[j.id := j])
    ensures Reserved(m.jobs[j.id := j], m.robots) && KeysLive(m.jobs[j.id := j], Inserted(m, j).dedup)
  {
    hide Ready, DepsLive, Reserved;
    InsertKeepsReady(m.jobs, j);
    InsertKeepsReserved(m, j);
  }

  lemma InsertKeepsReserved(m: Memory, j: Job)
    requires Reserved(m.jobs, m.robots) && j.id !in m.jobs && j.status.Waiting()
    ensures Reserved(m.jobs[j.id := j], m.robots)
  {
  }

  lemma InsertKeepsReady(jobs: Jobs, j: Job)
    requires Ready(jobs) && DepsLive(jobs) && j.id !in jobs && j.status.Waiting()
    ensures Ready(jobs[j.id := j])
  {
  }

  lemma InsertKeepsGraph(jobs: Jobs, j: Job)
    requires Acyclic(jobs) && DepsLive(jobs) && j.id !in jobs && DepsKnown(jobs, j.deps)
    ensures Acyclic(jobs[j.id := j]) && DepsLive(jobs[j.id := j])
  {
    var rank: map<JobId, nat> :| Ranked(jobs, rank);
    assert Ranked(jobs[j.id := j], rank[j.id := Above(rank)]);
  }

  lemma InsertKeepsStable(jobs: Jobs, j: Job)
    requires Stable(jobs) && DepsLive(jobs) && j.id !in jobs && DepsKnown(jobs, j.deps)
      && j.status == Verdict(jobs, j.deps)
    ensures Stable(jobs[j.id := j])
  {
  }

  /** A change of the registry alone. */
  lemma RobotsKeepCore(m: Memory, robots: Robots)
    requires Core(m) && RobotsOk(robots)
    requires forall id :: id in m.jobs && m.jobs[id].status.InFlight() ==> m.jobs[id].robot in robots
    requires forall id :: id in m.jobs && m.jobs[id].status == Assigned ==>
      m.jobs[id].robot in robots && !robots[m.jobs[id].robot].available
    ensures Core(m.(robots := robots))
  {
    hide QueueOk, KeysLive, Stable, RobotsOk;
  }

  /** Removing jobs no remaining job depends on. */
  lemma ArchiveKeepsCore(m: Memory, ids: set<JobId>, dedup: map<Key, JobId>)
    requires Core(m)
    requires forall id, d :: id in m.jobs && id !in ids && d in m.jobs[id].deps ==> d !in ids
    requires forall k :: k in dedup ==> k in m.dedup && dedup[k] == m.dedup[k] && dedup[k] !in ids
    ensures Core(m.(jobs := m.jobs - ids, dedup := dedup))
  {
    hide Verdict, Acyclic;
    ArchiveKeepsVerdicts(m.jobs, ids);
    ArchiveKeepsGraph(m.jobs, ids);
    var jobs := m.jobs - ids;
    hide DepsLive;
    assert Stable(jobs);
    assert JobsOk(jobs, m.nextSeq) && Ready(jobs) && Held(jobs);
    assert Reserved(jobs, m.robots) && KeysLive(jobs, dedup);
  }

  lemma ArchiveKeepsGraph(jobs: Jobs, ids: set<JobId>)
    requires DepsLive(jobs) && Acyclic(jobs)
    requires forall id, d :: id in jobs && id !in ids && d in jobs[id].deps ==> d !in ids
    ensures DepsLive(jobs - ids) && Acyclic(jobs - ids)
  {
    var rank :| Ranked(jobs, rank);
    assert Ranked(jobs - ids, rank);
  }

  lemma ArchiveKeepsVerdicts(jobs: Jobs, ids: set<JobId>)
    requires forall id, d :: id in jobs && id !in ids && d in jobs[id].deps ==> d !in ids
    ensures forall id :: id in jobs && id !in ids ==> Verdict(jobs - ids, jobs[id].deps) == Verdict(jobs, jobs[id].deps)
  {
  }
}
