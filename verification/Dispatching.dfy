/** One scheduling pass: jobs in dispatch order, each offered to its best robot, with every write
    allowed to fail. */
module Dispatching {
  import opened Base
  import opened Model
  import opened Blocking
  import opened Ordering
  import opened Operations
  import opened Invariants
  import opened Routing
  import opened Storage

  /** A pass under way: memory, store, the assignments made, and every state of the store on the way. */
  datatype Pass = Pass(mem: Memory, disk: Disk, out: seq<Assignment>, trail: seq<Disk>)

  ghost function PendingSet(jobs: Jobs): set<JobId> {
    set id | id in jobs && jobs[id].status == Pending
  }

  /** One job of the pass. The robot is saved first; only then does the job become assigned, and
      only a job that was saved as well is kept so: any failure puts everything back. */
  ghost function Offer(p: Pass, fails: Faults, id: JobId, now: Time): Pass {
    if id !in p.mem.jobs then p
    else
      var best := Best(p.mem, p.mem.jobs[id], now);
      if best.None? || best.value !in p.mem.robots then p
      else OfferTo(p, fails, id, best.value, now)
  }

  ghost function OfferTo(p: Pass, fails: Faults, id: JobId, r: RobotId, now: Time): Pass
    requires id in p.mem.jobs && r in p.mem.robots
  {
    var reserved := SaveRobot(p.disk, fails, p.mem.robots[r].(available := false));
    if fails(p.disk.writes) then p.(disk := reserved, trail := p.trail + [reserved])
    else
      var given := Give(p.mem, id, r, now);
      var saved := SaveJob(reserved, fails, given.jobs[id]);
      if !fails(reserved.writes) then
        Pass(given, saved, p.out + [Assignment(id, r)], p.trail + [reserved, saved])
      else
        var undone := SaveRobot(saved, fails, p.mem.robots[r]);
        p.(disk := undone, trail := p.trail + [reserved, saved, undone])
  }

  ghost function OfferAll(p: Pass, fails: Faults, ids: seq<JobId>, now: Time): Pass
    decreases |ids|
  {
    if ids == [] then p else OfferAll(Offer(p, fails, ids[0], now), fails, ids[1..], now)
  }

  ghost function Dispatch(m: Memory, disk: Disk, fails: Faults, now: Time): Pass {
    OfferAll(Pass(m, disk, [], []), fails, Queue(m.jobs, ByPriority, PendingSet(m.jobs)), now)
  }

  lemma {:induction false} OfferInTurn(p: Pass, fails: Faults, a: seq<JobId>, b: seq<JobId>, now: Time)
    ensures OfferAll(p, fails, a + b, now) == OfferAll(OfferAll(p, fails, a, now), fails, b, now)
    decreases |a|
  {
    hide Offer;
    if a == [] {
      assert a + b == b;
    } else {
      assert (a + b)[0] == a[0] && (a + b)[1..] == a[1..] + b;
      OfferInTurn(Offer(p, fails, a[0], now), fails, a[1..], b, now);
    }
  }

  // ---- A crash at any point ----

  /** No job is stored as assigned without its robot being stored as unavailable. */
  ghost predicate CrashSafe(d: Disk) {
    forall id :: id in d.jobs && d.jobs[id].status == Assigned ==>
      d.jobs[id].robot in d.robots && !d.robots[d.jobs[id].robot].available
  }

  /** What the store holds as assigned is what memory holds. */
  ghost predicate Mirrors(jobs: Jobs, d: Disk) {
    forall id :: id in d.jobs && d.jobs[id].status == Assigned ==> id in jobs && jobs[id] == d.jobs[id]
  }

  ghost predicate SafeTrail(trail: seq<Disk>) {
    forall i :: 0 <= i < |trail| ==> CrashSafe(trail[i])
  }

  ghost predicate Durable(jobs: Jobs, d: Disk, a: Assignment) {
    && a.job in jobs && a.job in d.jobs && d.jobs[a.job] == jobs[a.job]
    && d.jobs[a.job].status == Assigned && d.jobs[a.job].robot == a.robot
  }

  ghost predicate AllDurable(jobs: Jobs, d: Disk, out: seq<Assignment>) {
    forall i :: 0 <= i < |out| ==> Durable(jobs, d, out[i])
  }

  /** A crash now, or at any earlier point of the pass, leaves a store without an orphaned
      assignment, and every assignment returned so far is durable. */
  ghost predicate Follows(p: Pass) {
    CrashSafe(p.disk) && Mirrors(p.mem.jobs, p.disk) && SafeTrail(p.trail) && AllDurable(p.mem.jobs, p.disk, p.out)
  }

  lemma OfferStaysSafe(p: Pass, fails: Faults, id: JobId, now: Time)
    requires Follows(p) && Core(p.mem) && (id in p.mem.jobs ==> p.mem.jobs[id].status == Pending)
    ensures Follows(Offer(p, fails, id, now)) && Core(Offer(p, fails, id, now).mem)
  {
    if id in p.mem.jobs {
      BestIs(p.mem, p.mem.jobs[id], now);
      var best := Best(p.mem, p.mem.jobs[id], now);
      hide Best, QueueOk, KeysLive, Stable;
      if best.Some? {
        assert Eligible(p.mem, p.mem.robots[best.value], p.mem.jobs[id], now);
        assert p.mem.robots[best.value].available;
        hide Follows, Reserved, RobotsOk, OfferTo;
        OfferToStaysSafe(p, fails, id, best.value, now);
      }
    }
  }

  lemma OfferToStaysSafe(p: Pass, fails: Faults, id: JobId, r: RobotId, now: Time)
    requires Follows(p) && Core(p.mem) && id in p.mem.jobs && p.mem.jobs[id].status == Pending
    requires r in p.mem.robots && p.mem.robots[r].available
    ensures Follows(OfferTo(p, fails, id, r, now)) && Core(OfferTo(p, fails, id, r, now).mem)
  {
    hide Core, CrashSafe, Durable, Mirrors, SafeTrail, AllDurable, QueueOk, Stable, RobotsOk, Reserved, KeysLive;
    GiveKeepsCore(p.mem, id, r, now);
    StoredAssignmentsAvoid(p, id, r);
    NamesOf(p.mem, id, r);
    var reserved := SaveRobot(p.disk, fails, p.mem.robots[r].(available := false));
    ReserveStaysSafe(p.disk, p.mem.robots[r], fails);
    TrailGoesOn(p.trail, reserved);
    SameJobsSameStory(p, reserved);
    if !fails(p.disk.writes) {
      var given := Give(p.mem, id, r, now);
      var saved := SaveJob(reserved, fails, given.jobs[id]);
      AssignStaysSafe(reserved, given.jobs[id], fails);
      TrailGoesOn(p.trail + [reserved], saved);
      assert p.trail + [reserved, saved] == p.trail + [reserved] + [saved];
      if fails(reserved.writes) {
        var undone := SaveRobot(saved, fails, p.mem.robots[r]);
        ReleaseStaysSafe(saved, p.mem.robots[r], fails);
        TrailGoesOn(p.trail + [reserved, saved], undone);
        assert p.trail + [reserved, saved, undone] == p.trail + [reserved, saved] + [undone];
        SameJobsSameStory(p, undone);
      } else {
        AssignmentIsDurable(p, saved, given, id, r);
      }
    }
  }

  lemma TrailGoesOn(trail: seq<Disk>, d: Disk)
    requires SafeTrail(trail) && CrashSafe(d)
    ensures SafeTrail(trail + [d])
  {
    hide CrashSafe;
  }

  lemma SameJobsSameStory(p: Pass, d: Disk)
    requires Follows(p) && d.jobs == p.disk.jobs
    ensures Mirrors(p.mem.jobs, d) && AllDurable(p.mem.jobs, d, p.out)
  {
    hide CrashSafe;
  }

  lemma AssignmentIsDurable(p: Pass, saved: Disk, given: Memory, id: JobId, r: RobotId)
    requires Follows(p) && id in p.mem.jobs && p.mem.jobs[id].status == Pending
    requires given.jobs.Keys == p.mem.jobs.Keys && given.jobs == p.mem.jobs[id := given.jobs[id]]
    requires given.jobs[id].status == Assigned && given.jobs[id].robot == r
      && saved.jobs == p.disk.jobs[id := given.jobs[id]]
    ensures Mirrors(given.jobs, saved) && AllDurable(given.jobs, saved, p.out + [Assignment(id, r)])
  {
  }

  lemma NamesOf(m: Memory, id: JobId, r: RobotId)
    requires Core(m) && id in m.jobs && r in m.robots
    ensures m.jobs[id].id == id && m.robots[r].id == r
  {
  }

  /** No stored assignment is on a robot that is available in memory, and none is of this job. */
  lemma StoredAssignmentsAvoid(p: Pass, id: JobId, r: RobotId)
    requires Follows(p) && Core(p.mem) && id in p.mem.jobs && p.mem.jobs[id].status == Pending
    requires r in p.mem.robots && p.mem.robots[r].available
    ensures forall x :: x in p.disk.jobs && p.disk.jobs[x].status == Assigned ==> p.disk.jobs[x].robot != r && x != id
  {
    hide QueueOk, KeysLive, Stable, CrashSafe, Durable;
  }

  lemma ReserveStaysSafe(d: Disk, r: Robot, fails: Faults)
    requires CrashSafe(d)
    ensures CrashSafe(SaveRobot(d, fails, r.(available := false)))
    ensures var d' := SaveRobot(d, fails, r.(available := false));
      !fails(d.writes) ==> r.id in d'.robots && !d'.robots[r.id].available
  {
  }

  lemma AssignStaysSafe(d: Disk, j: Job, fails: Faults)
    requires CrashSafe(d) && j.status == Assigned && j.robot in d.robots && !d.robots[j.robot].available
    ensures CrashSafe(SaveJob(d, fails, j))
  {
  }

  lemma ReleaseStaysSafe(d: Disk, r: Robot, fails: Faults)
    requires CrashSafe(d) && forall id :: id in d.jobs && d.jobs[id].status == Assigned ==> d.jobs[id].robot != r.id
    ensures CrashSafe(SaveRobot(d, fails, r))
  {
  }
}
