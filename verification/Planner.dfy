/** The time estimates: a list scheduler over the unfinished jobs. */
module Planner {
  import opened Base
  import opened Model
  import opened Graph
  import opened Ordering
  import opened Operations
  import opened Invariants
  import opened Routing

  datatype Basis = ObservedTool | ObservedAll | Default
  datatype Obstacle = NoRobotWithTool | NoRobotAvailable | NoDuration | DependencyWillNotFinish | OutcomeUnknown

  datatype Estimate = Estimate(
    status: Status, estimated: bool, reason: Option<Obstacle>, robot: RobotId,
    start: int, end: int, duration: int, basis: Option<Basis>, overdue: bool)

  type Estimates = map<JobId, Estimate>

  /** When each robot can take its next job. */
  type Slots = map<RobotId, int>

  datatype DurationModel = DurationModel(byTool: map<string, nat>, all: nat, def: Duration)

  /** The expected duration in milliseconds, and how it was obtained. */
  function ForTool(d: DurationModel, tool: string): Option<(nat, Basis)> {
    if tool in d.byTool then Some((d.byTool[tool], ObservedTool))
    else if d.all > 0 then Some((d.all, ObservedAll))
    else if d.def > 0 then Some((Millis(d.def), Default))
    else None
  }

  function Blank(s: Status): Estimate { Estimate(s, false, None, "", 0, 0, 0, None, false) }

  predicate Settled(e: Estimate) { e.estimated || e.reason.Some? }

  function Max(a: int, b: int): int { if a < b then b else a }

  // ---- What a plan must satisfy ----

  predicate Unfinished(s: Status) { s.Assigned? || s.Unknown? || s.Pending? || s.Blocked? }

  predicate Queued(s: Status) { s.Pending? || s.Blocked? }

  /** The dependency `d` will never end, as far as the plan knows. */
  predicate WillNotFinish(jobs: Jobs, plan: Estimates, d: JobId) {
    && d in jobs && jobs[d].status != Done
    && (jobs[d].status.Dead() || jobs[d].status == Status.Unknown
      || (d in plan && !plan[d].estimated && plan[d].reason.Some?))
  }

  /** The dependency `d` does not hold a job back before `start`. */
  predicate EndsBy(jobs: Jobs, plan: Estimates, d: JobId, start: int) {
    d in jobs && jobs[d].status != Done ==> d in plan && plan[d].estimated && plan[d].end <= start
  }

  predicate HasEnd(jobs: Jobs, plan: Estimates, d: JobId) {
    d in jobs && jobs[d].status != Done ==> d in plan && plan[d].estimated
  }

  /** The job under way on a robot. */
  predicate AssignedOk(j: Job, d: DurationModel, now: int, e: Estimate) {
    match ForTool(d, j.tool)
    case None => e == Blank(j.status).(reason := Some(NoDuration))
    case Some((ms, basis)) =>
      e == Estimate(j.status, true, None, j.robot, j.assignedAt, Max(j.assignedAt + ms, now), ms, Some(basis),
        j.assignedAt + ms < now)
  }

  /** Robots that can take work in the plan: busy with a job, or available and heard from. */
  ghost predicate CanWork(m: Memory, r: RobotId, now: Time) {
    r in m.robots && (Operations.Busy(m.jobs, r) || (m.robots[r].available && HeardFrom(m.cfg, m.robots[r], now)))
  }

  /** A queued job that was laid out in time, or the reason it was not. */
  ghost predicate QueuedOk(m: Memory, d: DurationModel, now: Time, plan: Estimates, j: Job, e: Estimate) {
    && e.status == j.status && (e.estimated <==> e.reason.None?)
    && (e.estimated ==>
          && CanWork(m, e.robot, now) && CarriesTool(m.robots[e.robot], j)
          && ForTool(d, j.tool).Some? && e.duration == ForTool(d, j.tool).value.0
            && e.basis == Some(ForTool(d, j.tool).value.1)
          && e.start >= Millis(now) && e.end == e.start + e.duration && !e.overdue
          && forall x :: x in j.deps ==> EndsBy(m.jobs, plan, x, e.start))
    && (!e.estimated ==> e == Estimate.Estimate(j.status, false, e.reason, "", 0, 0, 0, None, false))
    && (e.reason == Some(DependencyWillNotFinish) <==> exists x :: x in j.deps && WillNotFinish(m.jobs, plan, x))
    && (e.reason != Some(DependencyWillNotFinish) ==> forall x :: x in j.deps ==> HasEnd(m.jobs, plan, x))
    && (e.reason == Some(NoDuration) ==> ForTool(d, j.tool).None?)
    && (e.reason == Some(NoRobotWithTool) || e.reason == Some(NoRobotAvailable) ==> ForTool(d, j.tool).Some?)
    && (e.reason == Some(NoRobotWithTool) ==> forall r :: r in m.robots ==> !CarriesTool(m.robots[r], j))
    && (e.reason == Some(NoRobotAvailable) ==> exists r :: r in m.robots && CarriesTool(m.robots[r], j))
    && (e.reason == Some(NoRobotAvailable) && Millis(now) > 0 ==> forall r :: CanWork(m, r, now) ==>
      !CarriesTool(m.robots[r], j))
    && e.reason != Some(OutcomeUnknown)
  }

  ghost predicate EntryOk(m: Memory, d: DurationModel, now: Time, plan: Estimates, id: JobId)
    requires id in plan && id in m.jobs
  {
    var j, e := m.jobs[id], plan[id];
    match j.status
    case Assigned => AssignedOk(j, d, Millis(now), e)
    case Unknown => e == Blank(j.status).(reason := Some(OutcomeUnknown))
    case _ => QueuedOk(m, d, now, plan, j, e)
  }

  /** Two estimated jobs of one robot never overlap. */
  ghost predicate NoOverlap(plan: Estimates) {
    forall a, b :: a in plan && b in plan && a != b && plan[a].estimated && plan[b].estimated
      && plan[a].robot == plan[b].robot
      ==> plan[a].end <= plan[b].start || plan[b].end <= plan[a].start
  }

  /** A feasible schedule of exactly the unfinished jobs. */
  ghost predicate Feasible(m: Memory, d: DurationModel, now: Time, plan: Estimates) {
    && (forall id :: id in plan <==> id in m.jobs && Unfinished(m.jobs[id].status))
    && (forall id :: id in plan ==> EntryOk(m, d, now, plan, id))
    && NoOverlap(plan)
  }

  // ---- What an estimate says, in the fields of the job, its robot and what was observed ----

  /** Nothing is known of how long jobs with this tool take. */
  predicate Unmeasured(d: DurationModel, tool: string) { tool !in d.byTool && d.all == 0 && d.def <= 0 }

  /** The mean of the tool, if there is one; else the mean of all tools; else the default. */
  predicate Lasts(d: DurationModel, tool: string, e: Estimate) {
    if tool in d.byTool then e.duration == d.byTool[tool] && e.basis == Some(ObservedTool)
    else if d.all > 0 then e.duration == d.all && e.basis == Some(ObservedAll)
    else d.def > 0 && e.duration == Millis(d.def) && e.basis == Some(Default)
  }

  /** A job under way has its robot until it has lasted as long as expected, or until now if that is over. */
  predicate EndsAsExpected(j: Job, now: Time, e: Estimate) {
    && e.robot == j.robot && e.start == j.assignedAt
    && j.assignedAt + e.duration <= e.end && Millis(now) <= e.end
    && (e.end == j.assignedAt + e.duration || e.end == Millis(now))
    && (e.overdue <==> j.assignedAt + e.duration < Millis(now))
  }

  /** The robot has work, or waits for some and was heard from recently enough. */
  ghost predicate AtHand(m: Memory, r: RobotId, now: Time) {
    && r in m.robots
    && ((exists id :: id in m.jobs && m.jobs[id].robot == r && m.jobs[id].status == Assigned)
      || (m.robots[r].available && Recent(m.cfg, m.robots[r], now)))
  }

  /** The dependency is live and not done, and nobody knows when it ends. */
  ghost predicate Endless(m: Memory, plan: Estimates, x: JobId) {
    && x in m.jobs
    && (m.jobs[x].status in {Failed, Unreachable, Status.Cancelled, Status.Unknown}
      || (m.jobs[x].status != Done && x in plan && !plan[x].estimated && plan[x].reason.Some?))
  }

  /** A queued job starts on a robot with its tool, not before now and not before its dependencies end; or the
      reason says what is missing. */
  ghost predicate QueuedSays(m: Memory, d: DurationModel, now: Time, plan: Estimates, j: Job, e: Estimate) {
    && (e.estimated ==>
          && AtHand(m, e.robot, now) && HasTool(m.robots[e.robot], j)
          && Millis(now) <= e.start && e.end == e.start + e.duration && !e.overdue
          && forall x :: x in j.deps && x in m.jobs && m.jobs[x].status != Done ==>
               x in plan && plan[x].estimated && plan[x].end <= e.start)
    && (e.reason == Some(DependencyWillNotFinish) <==> exists x :: x in j.deps && Endless(m, plan, x))
    && (e.reason == Some(NoRobotWithTool) ==> forall r :: r in m.robots ==> !HasTool(m.robots[r], j))
    && (e.reason == Some(NoRobotAvailable) ==>
          && (exists r :: r in m.robots && HasTool(m.robots[r], j))
          && (Millis(now) > 0 ==> forall r :: AtHand(m, r, now) ==> !HasTool(m.robots[r], j)))
  }

  ghost predicate EstimateSays(m: Memory, d: DurationModel, now: Time, plan: Estimates, j: Job, e: Estimate) {
    && e.status == j.status && (e.estimated <==> e.reason.None?)
    && (e.estimated ==> Lasts(d, j.tool, e))
    && (e.reason == Some(NoDuration) ==> Unmeasured(d, j.tool))
    && (e.reason == Some(OutcomeUnknown) <==> j.status == Status.Unknown)
    && (j.status == Assigned ==>
          && (e.estimated ==> EndsAsExpected(j, now, e)) && (!e.estimated ==> e.reason == Some(NoDuration))
          && (e.reason == Some(NoDuration) <==> Unmeasured(d, j.tool)))
    && (j.status == Pending || j.status == Blocked ==> QueuedSays(m, d, now, plan, j, e))
  }

  ghost predicate EstimatesSay(m: Memory, d: DurationModel, now: Time, plan: Estimates) {
    && (forall id :: id in plan <==>
          id in m.jobs && (m.jobs[id].status in {Assigned, Status.Unknown, Pending, Blocked}))
    && forall id :: id in plan ==> EstimateSays(m, d, now, plan, m.jobs[id], plan[id])
  }

  /** Every entry of a plan says what it should, without the functions that plans are defined by. */
  lemma PlansSayWhatIsExpected(m: Memory, d: DurationModel, now: Time, plan: Estimates)
    requires Feasible(m, d, now, plan)
    ensures EstimatesSay(m, d, now, plan)
  {
    hide EntryOk, EstimateSays, NoOverlap;
    forall id | id in plan ensures EstimateSays(m, d, now, plan, m.jobs[id], plan[id]) {
      EntrySaysWhatIsExpected(m, d, now, plan, id);
    }
  }

  lemma EntrySaysWhatIsExpected(m: Memory, d: DurationModel, now: Time, plan: Estimates, id: JobId)
    requires id in plan && id in m.jobs && Unfinished(m.jobs[id].status) && EntryOk(m, d, now, plan, id)
    ensures EstimateSays(m, d, now, plan, m.jobs[id], plan[id])
  {
    hide QueuedSays, QueuedOk, EndsBy, HasEnd, WillNotFinish, Operations.Busy, HeardFrom;
    var j, e := m.jobs[id], plan[id];
    if Queued(j.status) {
      QueuedSaysDuration(m, d, now, plan, j, e);
      QueuedSaysRest(m, d, now, plan, j, e);
    }
  }

  lemma QueuedSaysDuration(m: Memory, d: DurationModel, now: Time, plan: Estimates, j: Job, e: Estimate)
    requires QueuedOk(m, d, now, plan, j, e)
    ensures e.status == j.status && (e.estimated <==> e.reason.None?) && e.reason != Some(OutcomeUnknown)
    ensures (e.estimated ==> Lasts(d, j.tool, e)) && (e.reason == Some(NoDuration) ==> Unmeasured(d, j.tool))
  {
    hide EndsBy, HasEnd, WillNotFinish, CanWork;
  }

  lemma QueuedSaysRest(m: Memory, d: DurationModel, now: Time, plan: Estimates, j: Job, e: Estimate)
    requires QueuedOk(m, d, now, plan, j, e)
    ensures QueuedSays(m, d, now, plan, j, e)
  {
    forall r ensures CanWork(m, r, now) <==> AtHand(m, r, now) { CanWorkIsAtHand(m, r, now); }
    assert forall r :: r in m.robots ==> (HasTool(m.robots[r], j) <==> CarriesTool(m.robots[r], j));
    assert forall x :: x in j.deps ==> (Endless(m, plan, x) <==> WillNotFinish(m.jobs, plan, x));
    hide CanWork, AtHand, HasTool, CarriesTool, ForTool;
  }

  lemma CanWorkIsAtHand(m: Memory, r: RobotId, now: Time)
    ensures CanWork(m, r, now) <==> AtHand(m, r, now)
  {
  }

  // ---- The plan under construction ----

  ghost predicate EntryPartly(m: Memory, d: DurationModel, now: Time, plan: Estimates, id: JobId)
    requires id in plan && id in m.jobs
  {
    if Queued(m.jobs[id].status) && !Settled(plan[id]) then plan[id] == Blank(m.jobs[id].status)
    else EntryOk(m, d, now, plan, id)
  }

  /** Robots take their next job after all they already have, and never in the past. */
  ghost predicate SlotsOk(m: Memory, now: Time, plan: Estimates, free: Slots) {
    && (forall r :: r in free ==> free[r] >= Millis(now) && CanWork(m, r, now))
    && (Millis(now) > 0 ==> forall r :: CanWork(m, r, now) ==> r in free)
    && forall id :: id in plan && plan[id].estimated && plan[id].robot in free ==> plan[id].end <= free[plan[id].robot]
  }

  ghost predicate Partial(m: Memory, d: DurationModel, now: Time, plan: Estimates, free: Slots) {
    && (forall id :: id in plan ==> id in m.jobs && Unfinished(m.jobs[id].status) && EntryPartly(m, d, now, plan, id))
    && NoOverlap(plan) && SlotsOk(m, now, plan, free)
  }

  // ---- Robots ----

  /** `r` can start the job at `start`, no other robot with the tool can start it sooner, and among
      those that can start it then none is preferred. */
  ghost predicate BestSlot(m: Memory, j: Job, free: Slots, ready: int, r: RobotId) {
    && r in free && r in m.robots && CarriesTool(m.robots[r], j)
    && forall q :: q in free && q in m.robots && q != r && CarriesTool(m.robots[q], j) ==>
      Sooner(m, j, free, ready, r, q)
  }

  predicate Sooner(m: Memory, j: Job, free: Slots, ready: int, r: RobotId, q: RobotId)
    requires r in free && q in free && r in m.robots && q in m.robots
  {
    Max(free[r], ready) < Max(free[q], ready)
    || (Max(free[r], ready) == Max(free[q], ready) && Closer(m.cfg, j, m.robots[r], m.robots[q]))
  }

  /** The scan for a robot, in any order; whatever the order there is one answer. */
  method PickRobot(m: Memory, j: Job, free: Slots, ready: int) returns (best: Option<RobotId>, toolExists: bool)
    requires NamesAgree(m.robots)
    ensures best.Some? ==> BestSlot(m, j, free, ready, best.value)
    ensures best.Some? ==> EarliestSlot(m, j, free, ready, best.value, Max(free[best.value], ready))
    ensures best.None? ==> forall r :: r in m.robots && CarriesTool(m.robots[r], j) ==> r !in free
    ensures toolExists <==> exists r :: r in m.robots && CarriesTool(m.robots[r], j)
  {
    hide Sooner, CarriesTool;
    best, toolExists := None, false;
    var todo := m.robots.Keys;
    while todo != {}
      invariant todo <= m.robots.Keys
      invariant toolExists <==> exists r :: r in m.robots && r !in todo && CarriesTool(m.robots[r], j)
      invariant best.Some? ==>
        best.value in free && best.value in m.robots && best.value !in todo && CarriesTool(m.robots[best.value], j)
      invariant best.Some? ==> forall q ::
        q in free && q in m.robots && q !in todo && q != best.value && CarriesTool(m.robots[q], j)
        ==> Sooner(m, j, free, ready, best.value, q)
      invariant best.None? ==> forall r :: r in m.robots && r !in todo && CarriesTool(m.robots[r], j) ==> r !in free
    {
      var r :| r in todo;
      todo := todo - {r};
      if CarriesTool(m.robots[r], j) {
        toolExists := true;
        if r in free {
          if best.None? {
            best := Some(r);
          } else {
            forall q | q in free && q in m.robots
              ensures Sooner(m, j, free, ready, r, best.value) && Sooner(m, j, free, ready, best.value, q) ==>
                Sooner(m, j, free, ready, r, q)
            {
              SoonerOrders(m, j, free, ready, r, best.value, q);
            }
            SoonerOrders(m, j, free, ready, r, best.value, r);
            if Sooner(m, j, free, ready, r, best.value) {
              best := Some(r);
            }
          }
        }
      }
    }
    if best.Some? { BestSlotIsEarliest(m, j, free, ready, best.value); }
  }

  /** The robot has the tool and takes the job at `start`, when the job is ready and the robot free; no robot
      with the tool can start it sooner, and none that could start it then is nearer. */
  ghost predicate EarliestSlot(m: Memory, j: Job, free: Slots, ready: int, r: RobotId, start: int) {
    && r in free && r in m.robots && HasTool(m.robots[r], j)
    && ready <= start && free[r] <= start && (start == ready || start == free[r])
    && forall q :: q in free && q in m.robots && q != r && HasTool(m.robots[q], j) ==>
         && (ready < start ==> start <= free[q])
         && (free[q] <= start ==> Nearer(m.cfg, j, m.robots[r], m.robots[q]))
  }

  lemma BestSlotIsEarliest(m: Memory, j: Job, free: Slots, ready: int, r: RobotId)
    requires BestSlot(m, j, free, ready, r)
    ensures EarliestSlot(m, j, free, ready, r, Max(free[r], ready))
  {
    hide Closer, Nearer;
    forall q | q in free && q in m.robots
      ensures Closer(m.cfg, j, m.robots[r], m.robots[q]) <==> Nearer(m.cfg, j, m.robots[r], m.robots[q])
    {
      CloserIsNearer(m.cfg, j, m.robots[r], m.robots[q]);
    }
  }

  lemma SoonerOrders(m: Memory, j: Job, free: Slots, ready: int, a: RobotId, b: RobotId, c: RobotId)
    requires NamesAgree(m.robots) && {a, b, c} <= free.Keys && {a, b, c} <= m.robots.Keys
    ensures a != b ==> Sooner(m, j, free, ready, a, b) || Sooner(m, j, free, ready, b, a)
    ensures Sooner(m, j, free, ready, a, b) ==> !Sooner(m, j, free, ready, b, a)
    ensures Sooner(m, j, free, ready, a, b) && Sooner(m, j, free, ready, b, c) ==> Sooner(m, j, free, ready, a, c)
  {
    hide Closer, Prefers;
    PreferencesOrder(m.cfg, j, m.robots[a], m.robots[b], m.robots[c]);
  }

  lemma BestSlotIsUnique(m: Memory, j: Job, free: Slots, ready: int, a: RobotId, b: RobotId)
    requires NamesAgree(m.robots) && BestSlot(m, j, free, ready, a) && BestSlot(m, j, free, ready, b)
    ensures a == b
  {
    hide Sooner;
    SoonerOrders(m, j, free, ready, a, b, a);
  }

  // ---- Dependencies ----

  datatype Readiness = DeadEnd | NotYet | From(ready: int)

  /** Dependency `d` may still be given an end. */
  predicate Awaits(jobs: Jobs, plan: Estimates, d: JobId) {
    && d in jobs && jobs[d].status != Done && !jobs[d].status.Dead() && jobs[d].status != Status.Unknown
    && (d in plan ==> !Settled(plan[d]))
  }

  /** When the last of the dependencies ends. */
  function LastEnd(jobs: Jobs, plan: Estimates, deps: seq<JobId>): int {
    if deps == [] then 0
    else
      var d, before := deps[|deps| - 1], LastEnd(jobs, plan, deps[..|deps| - 1]);
      if d in jobs && jobs[d].status != Done && d in plan && plan[d].estimated then Max(before, plan[d].end) else before
  }

  method DepReady(m: Memory, plan: Estimates, deps: seq<JobId>) returns (r: Readiness)
    ensures r.From? ==> r.ready == LastEnd(m.jobs, plan, deps)
    ensures r.DeadEnd? <==> exists x :: x in deps && WillNotFinish(m.jobs, plan, x)
    ensures r.From? ==> forall x :: x in deps ==> EndsBy(m.jobs, plan, x, r.ready)
    ensures r.NotYet? ==> exists x :: x in deps && Awaits(m.jobs, plan, x)
  {
    var ready, known := 0, true;
    for i := 0 to |deps|
      invariant forall k :: 0 <= k < i ==> !WillNotFinish(m.jobs, plan, deps[k])
      invariant known ==> forall k :: 0 <= k < i ==> EndsBy(m.jobs, plan, deps[k], ready)
      invariant ready == LastEnd(m.jobs, plan, deps[..i])
      invariant !known ==> exists k :: 0 <= k < i && Awaits(m.jobs, plan, deps[k])
    {
      var d := deps[i];
      assert deps[..i + 1][..i] == deps[..i];
      if d in m.jobs && m.jobs[d].status != Done {
        if m.jobs[d].status.Dead() || m.jobs[d].status == Status.Unknown {
          assert d in deps && WillNotFinish(m.jobs, plan, d);
          return DeadEnd;
        }
        if d !in plan || !Settled(plan[d]) {
          assert Awaits(m.jobs, plan, d);
          known := false;
        } else if !plan[d].estimated {
          assert d in deps && WillNotFinish(m.jobs, plan, d);
          return DeadEnd;
        } else if plan[d].end > ready {
          ready := plan[d].end;
        }
      }
    }
    assert deps[..|deps|] == deps;
    r := if known then From(ready) else NotYet;
  }

  // ---- Laying out one queued job ----

  function Given(j: Job, ms: nat, basis: Basis, r: RobotId, start: int): Estimate {
    Estimate(j.status, true, None, r, start, start + ms, ms, Some(basis), false)
  }

  function Refused(j: Job, why: Obstacle): Estimate { Blank(j.status).(reason := Some(why)) }

  /** The plan so far, and when each robot is free again. */
  datatype Layout = Layout(plan: Estimates, free: Slots)

  /** One queued job is laid out: refused when a dependency will never end, left for a later round while
      one may still be given an end, and otherwise given the best slot, if its duration is known and
      there is one. */
  ghost function Lay(m: Memory, d: DurationModel, l: Layout, id: JobId): Layout {
    if id !in l.plan || id !in m.jobs || Settled(l.plan[id]) then l
    else
      var j := m.jobs[id];
      if exists x :: x in j.deps && WillNotFinish(m.jobs, l.plan, x) then Refusing(l, j, id, DependencyWillNotFinish)
      else if exists x :: x in j.deps && Awaits(m.jobs, l.plan, x) then l
      else if ForTool(d, j.tool).None? then Refusing(l, j, id, NoDuration)
      else
        var ready := LastEnd(m.jobs, l.plan, j.deps);
        if exists r :: BestSlot(m, j, l.free, ready, r) then
          var r :| BestSlot(m, j, l.free, ready, r);
          Giving(l, j, id, ForTool(d, j.tool).value, r, ready)
        else Refusing(l, j, id, if exists r :: r in m.robots && CarriesTool(m.robots[r], j) then NoRobotAvailable
          else NoRobotWithTool)
  }

  function Refusing(l: Layout, j: Job, id: JobId, why: Obstacle): Layout { l.(plan := l.plan[id := Refused(j, why)]) }

  function Giving(l: Layout, j: Job, id: JobId, known: (nat, Basis), r: RobotId, ready: int): Layout
    requires r in l.free
  {
    var e := Given(j, known.0, known.1, r, Max(l.free[r], ready));
    Layout(l.plan[id := e], l.free[r := e.end])
  }

  /** One round over the jobs of `ids`, in their order. */
  ghost function LayAll(m: Memory, d: DurationModel, l: Layout, ids: seq<JobId>): Layout {
    if ids == [] then l else Lay(m, d, LayAll(m, d, l, ids[..|ids| - 1]), ids[|ids| - 1])
  }

  ghost function AfterRounds(m: Memory, d: DurationModel, l: Layout, ids: seq<JobId>, n: nat): Layout {
    if n == 0 then l else LayAll(m, d, AfterRounds(m, d, l, ids, n - 1), ids)
  }

  /** After `n` rounds the plan is `plan`, and one more round changes nothing. */
  ghost predicate SettlesAfter(m: Memory, d: DurationModel, l: Layout, ids: seq<JobId>, n: nat, plan: Estimates) {
    AfterRounds(m, d, l, ids, n).plan == plan && AfterRounds(m, d, l, ids, n + 1) == AfterRounds(m, d, l, ids, n)
  }

  /** There is only one place where the rounds can stop. */
  lemma OnePlaceToStop(m: Memory, d: DurationModel, l: Layout, ids: seq<JobId>, a: nat, b: nat, p: Estimates,
    q: Estimates)
    requires SettlesAfter(m, d, l, ids, a, p) && SettlesAfter(m, d, l, ids, b, q)
    ensures p == q
  {
    if a <= b { StaysSettled(m, d, l, ids, a, b - a); } else { StaysSettled(m, d, l, ids, b, a - b); }
  }

  lemma {:induction false} StaysSettled(m: Memory, d: DurationModel, l: Layout, ids: seq<JobId>, a: nat, more: nat)
    requires AfterRounds(m, d, l, ids, a + 1) == AfterRounds(m, d, l, ids, a)
    ensures AfterRounds(m, d, l, ids, a + more) == AfterRounds(m, d, l, ids, a)
  {
    hide LayAll;
    if more > 0 { StaysSettled(m, d, l, ids, a, more - 1); }
  }

  /** One queued job is settled, or waits for a dependency that is not settled yet. */
  method PlanOne(m: Memory, d: DurationModel, now: Time, plan: Estimates, free: Slots, id: JobId)
    returns (plan': Estimates, free': Slots)
    requires Core(m) && Partial(m, d, now, plan, free)
    requires id in plan && id in m.jobs && Queued(m.jobs[id].status) && !Settled(plan[id])
    ensures Layout(plan', free') == Lay(m, d, Layout(plan, free), id)
    ensures Partial(m, d, now, plan', free') && plan'.Keys == plan.Keys
      && forall x :: x in plan && x != id ==> plan'[x] == plan[x]
    ensures !Settled(plan'[id]) ==>
      plan' == plan && free' == free && exists x :: x in m.jobs[id].deps && Awaits(m.jobs, plan, x)
  {
    hide Core, Partial, WillNotFinish, EndsBy, HasEnd, Awaits, CarriesTool, BestSlot, QueuedOk, ForTool, LastEnd;
    plan', free' := plan, free;
    var j := m.jobs[id];
    var r := DepReady(m, plan, j.deps);
    match r {
      case NotYet =>
      case DeadEnd =>
        DeadEndFits(m, d, now, plan, j);
        SettleFits(m, d, now, plan, free, id, Refused(j, DependencyWillNotFinish));
        plan' := plan[id := Refused(j, DependencyWillNotFinish)];
      case From(ready) =>
        NobodyAwaited(m.jobs, plan, j.deps, ready);
        var known := ForTool(d, j.tool);
        if known.None? {
          NoDurationFits(m, d, now, plan, j, ready);
          SettleFits(m, d, now, plan, free, id, Refused(j, NoDuration));
          plan' := plan[id := Refused(j, NoDuration)];
        } else {
          plan', free' := PlaceOne(m, d, now, plan, free, id, ready);
        }
    }
  }

  /** A job that is ready gets the best slot, or the reason there is none. */
  method PlaceOne(m: Memory, d: DurationModel, now: Time, plan: Estimates, free: Slots, id: JobId, ready: int)
    returns (plan': Estimates, free': Slots)
    requires Core(m) && Partial(m, d, now, plan, free)
    requires id in plan && id in m.jobs && Queued(m.jobs[id].status) && !Settled(plan[id])
      && ForTool(d, m.jobs[id].tool).Some?
    requires forall x :: x in m.jobs[id].deps ==>
      EndsBy(m.jobs, plan, x, ready) && !WillNotFinish(m.jobs, plan, x) && !Awaits(m.jobs, plan, x)
    requires ready == LastEnd(m.jobs, plan, m.jobs[id].deps)
    ensures Layout(plan', free') == Lay(m, d, Layout(plan, free), id)
    ensures Partial(m, d, now, plan', free') && plan'.Keys == plan.Keys && Settled(plan'[id])
      && forall x :: x in plan && x != id ==> plan'[x] == plan[x]
  {
    hide Core, Partial, WillNotFinish, EndsBy, HasEnd, Awaits, CarriesTool, BestSlot, QueuedOk, ForTool, LastEnd;
    plan', free' := plan, free;
    var j := m.jobs[id];
    var known := ForTool(d, j.tool);
    NamesInCore(m);
    var best, toolExists := PickRobot(m, j, free, ready);
    if best.None? {
      NoSlotAtAll(m, j, free, ready);
      var why := if toolExists then NoRobotAvailable else NoRobotWithTool;
      NoRobotFits(m, d, now, plan, free, j, ready, why);
      SettleFits(m, d, now, plan, free, id, Refused(j, why));
      plan' := plan[id := Refused(j, why)];
    } else {
      OnlyThisSlot(m, j, free, ready, best.value);
      var e := Given(j, known.value.0, known.value.1, best.value, Max(free[best.value], ready));
      EstimateFits(m, d, now, plan, free, j, e, ready);
      SettleFits(m, d, now, plan, free, id, e);
      plan', free' := plan[id := e], free[best.value := e.end];
    }
  }

  lemma NobodyAwaited(jobs: Jobs, plan: Estimates, deps: seq<JobId>, ready: int)
    requires forall x :: x in deps ==> EndsBy(jobs, plan, x, ready)
    ensures forall x :: x in deps ==> !Awaits(jobs, plan, x)
  {
  }

  lemma NoSlotAtAll(m: Memory, j: Job, free: Slots, ready: int)
    requires forall r :: r in m.robots && CarriesTool(m.robots[r], j) ==> r !in free
    ensures forall r :: !BestSlot(m, j, free, ready, r)
  {
    hide CarriesTool;
  }

  lemma OnlyThisSlot(m: Memory, j: Job, free: Slots, ready: int, r: RobotId)
    requires NamesAgree(m.robots) && BestSlot(m, j, free, ready, r)
    ensures r in free && r in m.robots && CarriesTool(m.robots[r], j)
    ensures forall q :: BestSlot(m, j, free, ready, q) ==> q == r
  {
    hide CarriesTool, Sooner;
    forall q | BestSlot(m, j, free, ready, q) ensures q == r {
      BestSlotIsUnique(m, j, free, ready, q, r);
    }
  }

  lemma NamesInCore(m: Memory)
    requires Core(m)
    ensures NamesAgree(m.robots)
  {
  }

  lemma DeadEndFits(m: Memory, d: DurationModel, now: Time, plan: Estimates, j: Job)
    requires exists x :: x in j.deps && WillNotFinish(m.jobs, plan, x)
    ensures QueuedOk(m, d, now, plan, j, Refused(j, DependencyWillNotFinish))
  {
    hide WillNotFinish, EndsBy, HasEnd;
  }

  lemma NoDurationFits(m: Memory, d: DurationModel, now: Time, plan: Estimates, j: Job, ready: int)
    requires forall x :: x in j.deps ==> EndsBy(m.jobs, plan, x, ready) && !WillNotFinish(m.jobs, plan, x)
    requires ForTool(d, j.tool).None?
    ensures QueuedOk(m, d, now, plan, j, Refused(j, NoDuration))
  {
    hide WillNotFinish;
  }

  lemma NoRobotFits(m: Memory, d: DurationModel, now: Time, plan: Estimates, free: Slots, j: Job, ready: int,
    why: Obstacle)
    requires ForTool(d, j.tool).Some? && Partial(m, d, now, plan, free)
    requires forall r :: r in m.robots && CarriesTool(m.robots[r], j) ==> r !in free
    requires forall x :: x in j.deps ==> EndsBy(m.jobs, plan, x, ready) && !WillNotFinish(m.jobs, plan, x)
    requires why == if exists r :: r in m.robots && CarriesTool(m.robots[r], j) then NoRobotAvailable
      else NoRobotWithTool
    ensures QueuedOk(m, d, now, plan, j, Refused(j, why))
  {
    hide WillNotFinish, CarriesTool, ForTool, EntryPartly, NoOverlap;
  }

  lemma EstimateFits(m: Memory, d: DurationModel, now: Time, plan: Estimates, free: Slots, j: Job, e: Estimate,
    ready: int)
    requires forall x :: x in j.deps ==> EndsBy(m.jobs, plan, x, ready) && !WillNotFinish(m.jobs, plan, x)
    requires Partial(m, d, now, plan, free) && e.robot in free && e.robot in m.robots
      && CarriesTool(m.robots[e.robot], j)
    requires ForTool(d, j.tool).Some?
    requires e == Given(j, ForTool(d, j.tool).value.0, ForTool(d, j.tool).value.1, e.robot, Max(free[e.robot], ready))
    ensures QueuedOk(m, d, now, plan, j, e)
  {
  }

  /** A settled entry joins the plan: what was settled before stays as it was, and the robot, if any,
      is taken until the end of the new entry. */
  lemma SettleFits(m: Memory, d: DurationModel, now: Time, plan: Estimates, free: Slots, id: JobId, e: Estimate)
    requires Core(m) && Partial(m, d, now, plan, free)
    requires id in plan && id in m.jobs && Queued(m.jobs[id].status) && !Settled(plan[id])
    requires QueuedOk(m, d, now, plan, m.jobs[id], e)
    requires e.estimated ==> e.robot in free && e.start >= free[e.robot]
    ensures Partial(m, d, now, plan[id := e], if e.estimated then free[e.robot := e.end] else free)
  {
    hide Core, QueuedOk, EntryPartly, NoOverlap, SlotsOk, CanWork;
    EntriesStay(m, d, now, plan, free, id, e);
    ItselfFits(m, d, now, plan, id, e);
    RobotStaysInOrder(m, d, now, plan, free, id, e);
  }

  lemma ItselfFits(m: Memory, d: DurationModel, now: Time, plan: Estimates, id: JobId, e: Estimate)
    requires Core(m) && id in m.jobs && Queued(m.jobs[id].status) && QueuedOk(m, d, now, plan, m.jobs[id], e)
    ensures EntryPartly(m, d, now, plan[id := e], id)
      && (e.estimated ==> e.end >= e.start >= Millis(now) && CanWork(m, e.robot, now))
  {
    DepsAreOthers(m, id);
    hide Core, CanWork, ForTool, CarriesTool;
    forall x | x in m.jobs[id].deps
      ensures WillNotFinish(m.jobs, plan, x) <==> WillNotFinish(m.jobs, plan[id := e], x)
      ensures EndsBy(m.jobs, plan, x, e.start) <==> EndsBy(m.jobs, plan[id := e], x, e.start)
      ensures HasEnd(m.jobs, plan, x) <==> HasEnd(m.jobs, plan[id := e], x)
    {
    }
    hide WillNotFinish, EndsBy, HasEnd;
  }

  lemma DepsAreOthers(m: Memory, id: JobId)
    requires Core(m) && id in m.jobs
    ensures id !in m.jobs[id].deps
  {
    NotItsOwnDependency(m.jobs, id);
  }

  lemma EntriesStay(m: Memory, d: DurationModel, now: Time, plan: Estimates, free: Slots, id: JobId, e: Estimate)
    requires Partial(m, d, now, plan, free) && id in plan && id in m.jobs && Queued(m.jobs[id].status)
      && !Settled(plan[id])
    ensures forall x :: x in plan && x != id ==>
      x in m.jobs && Unfinished(m.jobs[x].status) && EntryPartly(m, d, now, plan[id := e], x)
  {
    forall x | x in plan && x != id
      ensures x in m.jobs && Unfinished(m.jobs[x].status) && EntryPartly(m, d, now, plan[id := e], x) {
      hide QueuedOk, NoOverlap, SlotsOk;
      if Queued(m.jobs[x].status) && Settled(plan[x]) {
        assert QueuedOk(m, d, now, plan, m.jobs[x], plan[x]);
        EntryStays(m, d, now, plan, id, e, m.jobs[x], plan[x]);
      }
    }
  }

  lemma EntryStays(m: Memory, d: DurationModel, now: Time, plan: Estimates, id: JobId, e: Estimate, j: Job, f: Estimate)
    requires id in plan && id in m.jobs && Queued(m.jobs[id].status) && !Settled(plan[id])
      && QueuedOk(m, d, now, plan, j, f)
    ensures QueuedOk(m, d, now, plan[id := e], j, f)
  {
  }

  lemma RobotStaysInOrder(m: Memory, d: DurationModel, now: Time, plan: Estimates, free: Slots, id: JobId, e: Estimate)
    requires NoOverlap(plan) && SlotsOk(m, now, plan, free) && id in plan && !Settled(plan[id])
    requires e.estimated ==>
      e.robot in free && e.start >= free[e.robot] && e.end >= e.start >= Millis(now) && CanWork(m, e.robot, now)
    ensures var free' := if e.estimated then free[e.robot := e.end] else free;
      NoOverlap(plan[id := e]) && SlotsOk(m, now, plan[id := e], free')
  {
    hide CanWork;
  }

  // ---- All the queued jobs ----

  ghost function Unsettled(plan: Estimates): set<JobId> { set id | id in plan && !Settled(plan[id]) }

  predicate Stuck(jobs: Jobs, plan: Estimates, id: JobId) {
    id in jobs && Queued(jobs[id].status) && id in plan && !Settled(plan[id])
  }

  /** The rounds over the queued jobs, in dispatch order, until one settles nothing. */
  method PlanQueued(m: Memory, d: DurationModel, now: Time, plan: Estimates, open: Slots, waiting: seq<JobId>)
    returns (plan': Estimates)
    requires Core(m) && Partial(m, d, now, plan, open)
    requires forall id :: id in plan <==> id in m.jobs && Unfinished(m.jobs[id].status)
    requires forall id :: id in waiting <==> id in m.jobs && Queued(m.jobs[id].status)
    ensures plan'.Keys == plan.Keys && Feasible(m, d, now, plan')
    ensures forall id :: id in plan && Settled(plan[id]) ==> plan'[id] == plan[id]
    ensures exists n :: SettlesAfter(m, d, Layout(plan, open), waiting, n, plan')
  {
    hide Core, Partial, Feasible, Awaits, LayAll;
    plan' := plan;
    var free := open;
    var progress := true;
    ghost var n := 0;
    while progress
      invariant Partial(m, d, now, plan', free) && plan'.Keys == plan.Keys
      invariant forall id :: id in plan && Settled(plan[id]) ==> plan'[id] == plan[id]
      invariant Layout(plan', free) == AfterRounds(m, d, Layout(plan, open), waiting, n)
      invariant !progress ==> LayAll(m, d, Layout(plan', free), waiting) == Layout(plan', free)
      invariant !progress ==> forall id :: id in waiting ==>
        !Stuck(m.jobs, plan', id) || exists x :: x in m.jobs[id].deps && Awaits(m.jobs, plan', x)
      decreases |Unsettled(plan')|, progress
    {
      plan', free, progress := Round(m, d, now, plan', free, waiting);
      n := n + 1;
    }
    NobodyIsStuck(m, d, now, plan', free);
    AllSettled(m, d, now, plan', free);
    assert SettlesAfter(m, d, Layout(plan, open), waiting, n, plan');
  }

  method Round(m: Memory, d: DurationModel, now: Time, plan: Estimates, free: Slots, waiting: seq<JobId>)
    returns (plan': Estimates, free': Slots, progress: bool)
    requires Core(m) && Partial(m, d, now, plan, free)
    requires forall id :: id in waiting ==> id in plan && id in m.jobs && Queued(m.jobs[id].status)
    ensures Layout(plan', free') == LayAll(m, d, Layout(plan, free), waiting)
    ensures Partial(m, d, now, plan', free') && plan'.Keys == plan.Keys
    ensures forall id :: id in plan && Settled(plan[id]) ==> plan'[id] == plan[id]
    ensures if progress then |Unsettled(plan')| < |Unsettled(plan)| else plan' == plan && free' == free
    ensures !progress ==> forall id :: id in waiting ==>
      !Stuck(m.jobs, plan', id) || exists x :: x in m.jobs[id].deps && Awaits(m.jobs, plan', x)
  {
    hide Core, Partial, Awaits, Lay;
    plan', free', progress := plan, free, false;
    for i := 0 to |waiting|
      invariant Partial(m, d, now, plan', free') && plan'.Keys == plan.Keys
      invariant forall id :: id in plan && Settled(plan[id]) ==> plan'[id] == plan[id]
      invariant Layout(plan', free') == LayAll(m, d, Layout(plan, free), waiting[..i])
      invariant if progress then Unsettled(plan') < Unsettled(plan) else plan' == plan && free' == free
      invariant !progress ==> forall k :: 0 <= k < i ==>
        !Stuck(m.jobs, plan', waiting[k]) || exists x :: x in m.jobs[waiting[k]].deps && Awaits(m.jobs, plan', x)
    {
      var id := waiting[i];
      assert id in waiting && waiting[..i + 1][..i] == waiting[..i];
      ghost var before := Layout(plan', free');
      if Settled(plan'[id]) {
        AlreadyLaid(m, d, before, id);
      } else {
        plan', free' := PlanOne(m, d, now, plan', free', id);
        if Settled(plan'[id]) {
          progress := true;
          assert id in Unsettled(before.plan) && id !in Unsettled(plan') && Unsettled(plan') <= Unsettled(before.plan);
        }
      }
    }
    assert waiting[..|waiting|] == waiting;
    if progress { Graph.ProperSubsetIsSmaller(Unsettled(plan'), Unsettled(plan)); }
  }

  lemma AlreadyLaid(m: Memory, d: DurationModel, l: Layout, id: JobId)
    requires id in l.plan && Settled(l.plan[id])
    ensures Lay(m, d, l, id) == l
  {
  }

  /** A queued job of least rank that is not settled would have had nothing to wait for. */
  lemma NobodyIsStuck(m: Memory, d: DurationModel, now: Time, plan: Estimates, free: Slots)
    requires Core(m) && Partial(m, d, now, plan, free)
    requires forall id :: id in plan <==> id in m.jobs && Unfinished(m.jobs[id].status)
    requires forall id :: id in m.jobs && Stuck(m.jobs, plan, id) ==>
      exists x :: x in m.jobs[id].deps && Awaits(m.jobs, plan, x)
    ensures forall id :: id in m.jobs ==> !Stuck(m.jobs, plan, id)
  {
    var rank: map<JobId, nat> :| Ranked(m.jobs, rank);
    forall id | id in m.jobs ensures !Stuck(m.jobs, plan, id) {
      hide Core, Partial, Ranked;
      NotStuck(m, d, now, plan, free, rank, id);
    }
  }

  lemma {:induction false} NotStuck(m: Memory, d: DurationModel, now: Time, plan: Estimates, free: Slots,
    rank: map<JobId, nat>, id: JobId)
    requires Partial(m, d, now, plan, free) && Ranked(m.jobs, rank) && id in m.jobs
    requires forall x :: x in plan <==> x in m.jobs && Unfinished(m.jobs[x].status)
    requires forall x :: x in m.jobs && Stuck(m.jobs, plan, x) ==>
      exists y :: y in m.jobs[x].deps && Awaits(m.jobs, plan, y)
    ensures !Stuck(m.jobs, plan, id)
    decreases rank[id]
  {
    hide QueuedOk, NoOverlap, SlotsOk, ForTool;
    if Stuck(m.jobs, plan, id) {
      var x :| x in m.jobs[id].deps && Awaits(m.jobs, plan, x);
      NotStuck(m, d, now, plan, free, rank, x);
    }
  }

  lemma AllSettled(m: Memory, d: DurationModel, now: Time, plan: Estimates, free: Slots)
    requires Partial(m, d, now, plan, free)
    requires forall id :: id in plan <==> id in m.jobs && Unfinished(m.jobs[id].status)
    requires forall id :: id in m.jobs ==> !Stuck(m.jobs, plan, id)
    ensures Feasible(m, d, now, plan)
  {
    hide EntryOk, NoOverlap, SlotsOk;
  }

  // ---- The whole plan ----

  /** What the jobs under way leave of the robots' time. */
  ghost predicate Underway(now: Time, plan: Estimates, free: Slots, taken: set<RobotId>) {
    && free.Keys <= taken && (Millis(now) > 0 ==> taken <= free.Keys)
    && (forall r :: r in free ==> free[r] >= Millis(now))
    && forall id :: id in plan && plan[id].estimated && plan[id].robot in free ==> plan[id].end <= free[plan[id].robot]
  }

  function SlotAt(slots: Slots, r: RobotId): Option<int> { if r in slots then Some(slots[r]) else None }

  /** When the robot of a job under way is free: when the job ends, now if nobody knows, and never if it
      ends at or before the epoch. */
  function FreeAfter(e: Estimate, now: Time): Option<int> {
    if !e.estimated then Some(Millis(now)) else if e.end > 0 then Some(e.end) else None
  }

  predicate OnRobot(jobs: Jobs, id: JobId, r: RobotId) { id in jobs && jobs[id].status == Assigned
    && jobs[id].robot == r }

  /** Where the layout starts: a busy robot is free when the job it has ends, any other robot that can work now. */
  ghost predicate OpenSlots(m: Memory, now: Time, plan: Estimates, open: Slots) {
    && (forall id, r :: OnRobot(m.jobs, id, r) ==> id in plan && SlotAt(open, r) == FreeAfter(plan[id], now))
    && forall r :: !Operations.Busy(m.jobs, r) ==> SlotAt(open, r) == SlotAt(IdleSlots(m, now, {}), r)
  }

  lemma OnlyOneThere(m: Memory)
    requires Core(m)
    ensures forall a :: a in m.jobs && m.jobs[a].status == Assigned ==> m.jobs[a].robot in m.robots
    ensures forall a, b ::
      a in m.jobs && b in m.jobs && m.jobs[a].status == Assigned && m.jobs[b].status == Assigned && a != b
      ==> m.jobs[a].robot != m.jobs[b].robot
  {
  }

  /** The jobs the robots have, in submission order. */
  method PlanAssigned(m: Memory, d: DurationModel, now: Time, given: seq<JobId>)
    returns (plan: Estimates, free: Slots, taken: set<RobotId>)
    requires Core(m) && (forall i, k :: 0 <= i < k < |given| ==> given[i] != given[k])
    requires forall id :: id in given <==> id in m.jobs && m.jobs[id].status == Assigned
    ensures forall id :: id in plan <==> id in given
    ensures forall id :: id in plan ==> AssignedOk(m.jobs[id], d, Millis(now), plan[id])
    ensures forall r :: r in taken <==> Operations.Busy(m.jobs, r)
    ensures Underway(now, plan, free, taken)
    ensures forall id :: id in plan ==> SlotAt(free, m.jobs[id].robot) == FreeAfter(plan[id], now)
  {
    hide Core, ForTool, Underway, AssignedOk, Millis, SoFar, FreeAfter;
    OnlyOneThere(m);
    plan, free, taken := map[], map[], {};
    NothingUnderway(now);
    assert SoFar(m, d, now, plan, free, taken, given[..0]) by { NobodySoFar(m, d, now, given); }
    for i := 0 to |given|
      invariant SoFar(m, d, now, plan, free, taken, given[..i]) && Underway(now, plan, free, taken)
    {
      assert given[i] in given;
      NextIsFree(m, d, now, plan, free, taken, given, i);
      ghost var plan0, free0, taken0 := plan, free, taken;
      plan, free, taken := PlanGiven(m, d, now, plan, free, taken, given[i]);
      OneFurther(m, d, now, plan0, free0, taken0, plan, free, taken, given, i);
    }
    assert given[..|given|] == given;
    AllSoFar(m, d, now, plan, free, taken, given);
  }

  /** The jobs of `done` have their entries, and their robots are taken. */
  ghost predicate SoFar(m: Memory, d: DurationModel, now: Time, plan: Estimates, free: Slots, taken: set<RobotId>,
    done: seq<JobId>) {
    && (forall id :: id in plan <==> id in done)
    && (forall id :: id in plan ==>
      id in m.jobs && AssignedOk(m.jobs[id], d, Millis(now), plan[id]) && m.jobs[id].robot in taken)
    && (forall id :: id in plan ==> SlotAt(free, m.jobs[id].robot) == FreeAfter(plan[id], now))
    && forall r :: r in taken ==> exists id :: id in plan && id in m.jobs && m.jobs[id].robot == r
  }

  lemma NobodySoFar(m: Memory, d: DurationModel, now: Time, given: seq<JobId>)
    ensures SoFar(m, d, now, map[], map[], {}, given[..0])
  {
  }

  lemma NextIsFree(m: Memory, d: DurationModel, now: Time, plan: Estimates, free: Slots, taken: set<RobotId>,
    given: seq<JobId>, i: nat)
    requires i < |given| && SoFar(m, d, now, plan, free, taken, given[..i]) && given[i] in m.jobs
      && forall k :: 0 <= k < i ==> given[k] != given[i]
    requires forall id :: id in given && id in m.jobs && id != given[i] ==> m.jobs[id].robot != m.jobs[given[i]].robot
    ensures given[i] !in plan && m.jobs[given[i]].robot !in taken
    ensures forall x :: x in plan ==>
      x in m.jobs && AssignedOk(m.jobs[x], d, Millis(now), plan[x]) && m.jobs[x].robot in taken
  {
    hide AssignedOk, FreeAfter;
    assert forall x :: x in given[..i] ==> x in given;
  }

  lemma OneFurther(m: Memory, d: DurationModel, now: Time, plan: Estimates, free: Slots, taken: set<RobotId>,
    plan': Estimates, free': Slots, taken': set<RobotId>, given: seq<JobId>, i: nat)
    requires i < |given| && SoFar(m, d, now, plan, free, taken, given[..i]) && given[i] in m.jobs
      && m.jobs[given[i]].robot !in taken
    requires forall r :: r in taken ==> SlotAt(free', r) == SlotAt(free, r)
    requires plan'.Keys == plan.Keys + {given[i]}
      && (forall x :: x in plan ==> plan'[x] == plan[x])
      && AssignedOk(m.jobs[given[i]], d, Millis(now), plan'[given[i]])
    requires taken' == taken + {m.jobs[given[i]].robot}
      && SlotAt(free', m.jobs[given[i]].robot) == FreeAfter(plan'[given[i]], now)
    ensures SoFar(m, d, now, plan', free', taken', given[..i + 1])
  {
    hide AssignedOk, FreeAfter, SlotAt;
    assert given[..i + 1] == given[..i] + [given[i]];
    forall r | r in taken' ensures exists id :: id in plan' && id in m.jobs && m.jobs[id].robot == r {
      if r in taken {
        var x :| x in plan && x in m.jobs && m.jobs[x].robot == r;
        assert x in plan';
      } else {
        assert given[i] in plan';
      }
    }
  }

  lemma AllSoFar(m: Memory, d: DurationModel, now: Time, plan: Estimates, free: Slots, taken: set<RobotId>,
    given: seq<JobId>)
    requires SoFar(m, d, now, plan, free, taken, given)
    requires forall id :: id in given <==> id in m.jobs && m.jobs[id].status == Assigned
    ensures forall id :: id in plan <==> id in given
    ensures forall id :: id in plan ==> AssignedOk(m.jobs[id], d, Millis(now), plan[id])
    ensures forall r :: r in taken <==> Operations.Busy(m.jobs, r)
    ensures forall id :: id in plan ==> SlotAt(free, m.jobs[id].robot) == FreeAfter(plan[id], now)
  {
    hide AssignedOk, FreeAfter;
  }

  method PlanGiven(m: Memory, d: DurationModel, now: Time, plan: Estimates, free: Slots, taken: set<RobotId>, id: JobId)
    returns (plan': Estimates, free': Slots, taken': set<RobotId>)
    requires id in m.jobs && m.jobs[id].status == Assigned && m.jobs[id].robot in m.robots && id !in plan
      && m.jobs[id].robot !in taken
    requires Underway(now, plan, free, taken)
      && forall x :: x in plan ==>
      x in m.jobs && AssignedOk(m.jobs[x], d, Millis(now), plan[x]) && m.jobs[x].robot in taken
    ensures plan'.Keys == plan.Keys + {id} && (forall x :: x in plan ==> plan'[x] == plan[x])
      && AssignedOk(m.jobs[id], d, Millis(now), plan'[id])
    ensures taken' == taken + {m.jobs[id].robot} && Underway(now, plan', free', taken')
    ensures (forall r :: r in taken ==> SlotAt(free', r) == SlotAt(free, r))
      && SlotAt(free', m.jobs[id].robot) == FreeAfter(plan'[id], now)
  {
    hide Underway, ForTool;
    var j := m.jobs[id];
    var known := ForTool(d, j.tool);
    if known.None? {
      plan', free', taken' := plan[id := Refused(j, NoDuration)], free, taken;
      if j.robot in m.robots {
        free', taken' := free[j.robot := Millis(now)], taken + {j.robot};
      }
    } else {
      var due := j.assignedAt + known.value.0;
      var end := Max(due, Millis(now));
      plan' := plan[id := Estimate.Estimate(j.status, true, None, j.robot, j.assignedAt, end, known.value.0,
        Some(known.value.1), due < Millis(now))];
      free', taken' := free, taken;
      if j.robot in m.robots {
        taken' := taken + {j.robot};
        if end > if j.robot in free then free[j.robot] else 0 {
          free' := free[j.robot := end];
        }
      }
    }
    FreeAreTaken(now, plan, free, taken);
    OneMoreUnderway(now, plan, free, taken, id, plan'[id], j.robot, free');
  }

  lemma FreeAreTaken(now: Time, plan: Estimates, free: Slots, taken: set<RobotId>)
    requires Underway(now, plan, free, taken)
    ensures free.Keys <= taken
  {
  }

  lemma NothingUnderway(now: Time)
    ensures Underway(now, map[], map[], {})
  {
  }

  /** One more robot is busy until the end of its job. */
  lemma OneMoreUnderway(now: Time, plan: Estimates, free: Slots, taken: set<RobotId>, id: JobId, e: Estimate,
    r: RobotId, free': Slots)
    requires Underway(now, plan, free, taken) && id !in plan && r !in taken
    requires e.estimated ==> e.robot == r && e.end >= Millis(now)
    requires if e.estimated && e.end <= 0 then free' == free
      else free' == free[r := if e.estimated then e.end else Millis(now)]
    requires forall x :: x in plan && plan[x].estimated ==> plan[x].robot in taken
    ensures Underway(now, plan[id := e], free', taken + {r})
  {
  }

  /** One entry per job under way or lost, blank entries for the queued ones. */
  ghost predicate Drafted(m: Memory, d: DurationModel, now: Time, plan: Estimates) {
    && (forall id :: id in plan <==> id in m.jobs && Unfinished(m.jobs[id].status))
    && forall id :: id in plan ==> DraftOk(m.jobs[id], d, now, plan[id])
  }

  predicate DraftOk(j: Job, d: DurationModel, now: Time, e: Estimate) {
    match j.status
    case Assigned => AssignedOk(j, d, Millis(now), e)
    case Unknown => e == Refused(j, OutcomeUnknown)
    case _ => e == Blank(j.status)
  }

  function IdleSlots(m: Memory, now: Time, taken: set<RobotId>): Slots {
    map r | r in m.robots && r !in taken && m.robots[r].available && HeardFrom(m.cfg, m.robots[r], now) :: Millis(now)
  }

  /** The plan: the jobs under way, those whose outcome is unknown, and the queued ones in dispatch order. */
  method Plan(m: Memory, d: DurationModel, now: Time) returns (plan: Estimates, order: seq<JobId>)
    requires Core(m)
    ensures Feasible(m, d, now, plan) && LaidOut(m, d, now, plan) && EstimatesSay(m, d, now, plan)
    ensures (forall id :: id in order <==> id in plan) && Distinct(order)
    ensures exists lost ::
      order == Queue(m.jobs, BySubmission, AtWork(m.jobs)) + lost + Queue(m.jobs, ByPriority, AllQueued(m.jobs))
  {
    hide Core, Feasible, OpenSlots, Partial, SlotsOk, Unfinished, Queued, DraftOk, Drafted, Queue, AtWork, AllQueued,
      SettlesAfter, EstimatesSay;
    var draft, free := Draft(m, d, now);
    var waiting;
    waiting, order := InOrder(m);
    DraftKeys(m, d, now, draft);
    DraftFits(m, d, now, draft, free);
    plan := PlanQueued(m, d, now, draft, free, waiting);
    OpenSlotsStay(m, d, now, draft, plan, free);
    PlansSayWhatIsExpected(m, d, now, plan);
    assert InRounds(m, d, now, free, plan);
  }

  /** The plan comes from rounds over the queued jobs in dispatch order, starting from the slots `open`. */
  ghost predicate InRounds(m: Memory, d: DurationModel, now: Time, open: Slots, plan: Estimates) {
    exists draft, n :: Drafted(m, d, now, draft) && SettlesAfter(m, d, Layout(draft, open),
      Queue(m.jobs, ByPriority, AllQueued(m.jobs)), n, plan)
  }

  ghost predicate LaidOut(m: Memory, d: DurationModel, now: Time, plan: Estimates) {
    exists open :: OpenSlots(m, now, plan, open) && InRounds(m, d, now, open, plan)
  }

  /** When the last of the estimated jobs ends. */
  method Drain(plan: Estimates, order: seq<JobId>) returns (drain: int)
    requires forall id :: id in order <==> id in plan
    ensures drain >= 0 && forall id :: id in plan && plan[id].estimated ==> plan[id].end <= drain
    ensures drain > 0 ==> exists id :: id in plan && plan[id].estimated && plan[id].end == drain
  {
    drain := 0;
    for i := 0 to |order|
      invariant drain >= 0 && forall k :: 0 <= k < i && plan[order[k]].estimated ==> plan[order[k]].end <= drain
      invariant drain > 0 ==> exists id :: id in plan && plan[id].estimated && plan[id].end == drain
    {
      if plan[order[i]].estimated && plan[order[i]].end > drain {
        drain := plan[order[i]].end;
      }
    }
  }

  /** Whatever the order in which jobs and robots are walked, there is one plan. */
  lemma PlanIsUnique(m: Memory, d: DurationModel, now: Time, p: Estimates, q: Estimates)
    requires Feasible(m, d, now, p) && LaidOut(m, d, now, p)
    requires Feasible(m, d, now, q) && LaidOut(m, d, now, q)
    ensures p == q
  {
    hide Feasible, OpenSlots, Drafted, SettlesAfter;
    var openP :| OpenSlots(m, now, p, openP) && InRounds(m, d, now, openP, p);
    var openQ :| OpenSlots(m, now, q, openQ) && InRounds(m, d, now, openQ, q);
    var a, i :| Drafted(m, d, now, a)
      && SettlesAfter(m, d, Layout(a, openP), Queue(m.jobs, ByPriority, AllQueued(m.jobs)), i, p);
    var b, k :| Drafted(m, d, now, b)
      && SettlesAfter(m, d, Layout(b, openQ), Queue(m.jobs, ByPriority, AllQueued(m.jobs)), k, q);
    DraftIsUnique(m, d, now, a, b);
    OpenIsUnique(m, d, now, p, q, openP, openQ);
    OnePlaceToStop(m, d, Layout(a, openP), Queue(m.jobs, ByPriority, AllQueued(m.jobs)), i, k, p, q);
  }

  lemma DraftIsUnique(m: Memory, d: DurationModel, now: Time, a: Estimates, b: Estimates)
    requires Drafted(m, d, now, a) && Drafted(m, d, now, b)
    ensures a == b
  {
    hide ForTool;
    forall id | id in a ensures a[id] == b[id] {
    }
  }

  lemma OpenIsUnique(m: Memory, d: DurationModel, now: Time, p: Estimates, q: Estimates, openP: Slots, openQ: Slots)
    requires Feasible(m, d, now, p) && OpenSlots(m, now, p, openP) && Feasible(m, d, now, q)
      && OpenSlots(m, now, q, openQ)
    ensures openP == openQ
  {
    hide Feasible, AssignedOk, FreeAfter, IdleSlots;
    forall r ensures SlotAt(openP, r) == SlotAt(openQ, r) {
      if Operations.Busy(m.jobs, r) {
        var id :| id in m.jobs && m.jobs[id].status == Assigned && m.jobs[id].robot == r;
        assert OnRobot(m.jobs, id, r);
        AssignedEntry(m, d, now, p, id);
        AssignedEntry(m, d, now, q, id);
        OneAssignedEntry(m.jobs[id], d, Millis(now), p[id], q[id]);
      }
    }
    SameSlots(openP, openQ);
  }

  lemma SameSlots(a: Slots, b: Slots)
    requires forall r :: SlotAt(a, r) == SlotAt(b, r)
    ensures a == b
  {
    forall r ensures r in a <==> r in b { assert SlotAt(a, r) == SlotAt(b, r); }
    forall r | r in a ensures a[r] == b[r] { assert SlotAt(a, r) == SlotAt(b, r); }
  }

  lemma AssignedEntry(m: Memory, d: DurationModel, now: Time, plan: Estimates, id: JobId)
    requires Feasible(m, d, now, plan) && id in m.jobs && m.jobs[id].status == Assigned
    ensures id in plan && AssignedOk(m.jobs[id], d, Millis(now), plan[id])
  {
    hide NoOverlap, QueuedOk, ForTool, AssignedOk;
  }

  lemma OneAssignedEntry(j: Job, d: DurationModel, now: int, a: Estimate, b: Estimate)
    requires AssignedOk(j, d, now, a) && AssignedOk(j, d, now, b)
    ensures a == b
  {
  }

  lemma DraftKeys(m: Memory, d: DurationModel, now: Time, draft: Estimates)
    requires Drafted(m, d, now, draft)
    ensures forall id :: id in draft <==> id in m.jobs && Unfinished(m.jobs[id].status)
  {
  }

  /** The results before anything is laid out, and when the robots are free. */
  method Draft(m: Memory, d: DurationModel, now: Time) returns (draft: Estimates, open: Slots)
    requires Core(m)
    ensures Drafted(m, d, now, draft) && OpenSlots(m, now, draft, open) && SlotsOk(m, now, draft, open)
  {
    hide Core, OpenSlots, SlotsOk, Underway, AssignedOk, IdleSlots, Drafted, WithTheRest;
    SeqsInCore(m);
    var given := Sorted(m.jobs, BySubmission, AtWork(m.jobs));
    QueueHasNoRepeats(m.jobs, BySubmission, AtWork(m.jobs), given);
    var underway, free, taken := PlanAssigned(m, d, now, given);
    open := free + IdleSlots(m, now, taken);
    draft := WithTheRest(m.jobs, underway);
    TheRestFits(m, d, now, underway);
    SlotsFit(m, d, now, underway, draft, free, taken);
  }

  function WithTheRest(jobs: Jobs, underway: Estimates): Estimates {
    underway
    + (map id | id in jobs && jobs[id].status == Status.Unknown :: Refused(jobs[id], OutcomeUnknown))
    + (map id | id in jobs && Queued(jobs[id].status) :: Blank(jobs[id].status))
  }

  lemma TheRestFits(m: Memory, d: DurationModel, now: Time, underway: Estimates)
    requires forall id :: id in underway <==> id in m.jobs && m.jobs[id].status == Assigned
    requires forall id :: id in underway ==> AssignedOk(m.jobs[id], d, Millis(now), underway[id])
    ensures Drafted(m, d, now, WithTheRest(m.jobs, underway))
    ensures forall id :: id in underway ==>
      id in WithTheRest(m.jobs, underway) && WithTheRest(m.jobs, underway)[id] == underway[id]
  {
    hide DraftOk, AssignedOk, Refused, Blank;
    var draft := WithTheRest(m.jobs, underway);
    assert forall id :: id in underway ==> draft[id] == underway[id];
    forall id | id in draft ensures DraftOk(m.jobs[id], d, now, draft[id]) {
      RestIsOk(m.jobs[id], d, now, draft[id]);
    }
  }

  lemma RestIsOk(j: Job, d: DurationModel, now: Time, e: Estimate)
    requires match j.status case Assigned => AssignedOk(j, d, Millis(now), e) case Unknown => e ==
      Refused(j, OutcomeUnknown) case _ => e == Blank(j.status)
    ensures DraftOk(j, d, now, e)
  {
    hide AssignedOk;
  }

  /** The order of the results: jobs under way, lost ones in any order, queued ones in dispatch order. */
  method InOrder(m: Memory) returns (waiting: seq<JobId>, order: seq<JobId>)
    requires Core(m)
    ensures waiting == Queue(m.jobs, ByPriority, AllQueued(m.jobs)) && forall id :: id in waiting <==>
      id in m.jobs && Queued(m.jobs[id].status)
    ensures forall id :: id in order <==> id in m.jobs && Unfinished(m.jobs[id].status)
    ensures Distinct(order)
    ensures exists lost ::
      order == Queue(m.jobs, BySubmission, AtWork(m.jobs)) + lost + Queue(m.jobs, ByPriority, AllQueued(m.jobs))
  {
    hide Core, Ahead, Queue;
    SeqsInCore(m);
    var given := Sorted(m.jobs, BySubmission, AtWork(m.jobs));
    QueueHasNoRepeats(m.jobs, BySubmission, AtWork(m.jobs), given);
    var lost := Listed(set id | id in m.jobs && m.jobs[id].status == Status.Unknown);
    waiting := Sorted(m.jobs, ByPriority, AllQueued(m.jobs));
    QueueHasNoRepeats(m.jobs, ByPriority, AllQueued(m.jobs), waiting);
    order := given + lost + waiting;
    NoneTwice(given, lost);
    NoneTwice(given + lost, waiting);
  }

  function AtWork(jobs: Jobs): set<JobId> { set id | id in jobs && jobs[id].status == Assigned }

  function AllQueued(jobs: Jobs): set<JobId> { set id | id in jobs && Queued(jobs[id].status) }

  lemma NoneTwice(p: seq<JobId>, q: seq<JobId>)
    requires (forall i, k :: 0 <= i < k < |p| ==> p[i] != p[k]) && (forall i, k :: 0 <= i < k < |q| ==> q[i] != q[k])
    requires forall x :: x in p ==> x !in q
    ensures var pq := p + q; forall i, k :: 0 <= i < k < |pq| ==> pq[i] != pq[k]
  {
    var pq := p + q;
    forall i, k | 0 <= i < k < |pq| ensures pq[i] != pq[k] {
      if i < |p| <= k { assert pq[i] in p && pq[k] in q; }
    }
  }

  method Listed(s: set<JobId>) returns (q: seq<JobId>)
    ensures (forall id :: id in q <==> id in s) && forall i, k :: 0 <= i < k < |q| ==> q[i] != q[k]
  {
    q := [];
    var rest := s;
    while rest != {}
      invariant rest <= s && (forall id :: id in q <==> id in s - rest)
        && forall i, k :: 0 <= i < k < |q| ==> q[i] != q[k]
    {
      var id :| id in rest;
      assert forall x :: x in q + [id] <==> x in q || x == id;
      q, rest := q + [id], rest - {id};
    }
  }

  lemma SeqsInCore(m: Memory)
    requires Core(m)
    ensures SeqsDistinct(m.jobs)
  {
  }

  /** Only the jobs under way have an estimate so far, each on its own robot. */
  ghost predicate OnlyUnderway(m: Memory, draft: Estimates, taken: set<RobotId>) {
    forall id :: id in draft && draft[id].estimated ==>
      id in m.jobs && m.jobs[id].status == Assigned && draft[id].robot == m.jobs[id].robot && m.jobs[id].robot in taken
  }

  lemma DraftIsOnlyUnderway(m: Memory, d: DurationModel, now: Time, draft: Estimates, taken: set<RobotId>)
    requires Drafted(m, d, now, draft) && forall r :: r in taken <==> Operations.Busy(m.jobs, r)
    ensures OnlyUnderway(m, draft, taken)
  {
  }

  lemma SlotsFit(m: Memory, d: DurationModel, now: Time, underway: Estimates, draft: Estimates, free: Slots,
    taken: set<RobotId>)
    requires Core(m) && Drafted(m, d, now, draft) && Underway(now, underway, free, taken)
    requires forall id :: id in underway <==> id in m.jobs && m.jobs[id].status == Assigned
    requires forall id :: id in underway ==>
      id in draft && draft[id] == underway[id] && SlotAt(free, m.jobs[id].robot) == FreeAfter(underway[id], now)
    requires forall r :: r in taken <==> Operations.Busy(m.jobs, r)
    ensures OpenSlots(m, now, draft, free + IdleSlots(m, now, taken))
      && SlotsOk(m, now, draft, free + IdleSlots(m, now, taken))
  {
    hide Core, Drafted, Underway, OpenSlots, SlotsOk, FreeAfter;
    BusyRobotsAreKnown(m);
    DraftIsOnlyUnderway(m, d, now, draft, taken);
    FreeAreTaken(now, underway, free, taken);
    OpenFits(m, now, underway, draft, free, taken);
    SlotsFitToo(m, now, underway, draft, free, taken);
  }

  lemma OpenFits(m: Memory, now: Time, underway: Estimates, draft: Estimates, free: Slots, taken: set<RobotId>)
    requires free.Keys <= taken
    requires forall id :: id in underway <==> id in m.jobs && m.jobs[id].status == Assigned
    requires forall id :: id in underway ==>
      id in draft && draft[id] == underway[id] && SlotAt(free, m.jobs[id].robot) == FreeAfter(underway[id], now)
    requires forall r :: r in taken <==> Operations.Busy(m.jobs, r)
    ensures OpenSlots(m, now, draft, free + IdleSlots(m, now, taken))
  {
    hide HeardFrom, FreeAfter;
    var open := free + IdleSlots(m, now, taken);
    forall id, r | OnRobot(m.jobs, id, r) ensures id in draft && SlotAt(open, r) == FreeAfter(draft[id], now) {
      assert Operations.Busy(m.jobs, r) && r in taken;
    }
  }

  lemma SlotsFitToo(m: Memory, now: Time, underway: Estimates, draft: Estimates, free: Slots, taken: set<RobotId>)
    requires Underway(now, underway, free, taken) && OnlyUnderway(m, draft, taken)
    requires forall id :: id in underway <==> id in m.jobs && m.jobs[id].status == Assigned
    requires forall id :: id in underway ==> id in draft && draft[id] == underway[id]
    requires forall r :: r in taken <==> Operations.Busy(m.jobs, r)
    requires forall r :: r in taken ==> r in m.robots
    ensures SlotsOk(m, now, draft, free + IdleSlots(m, now, taken))
  {
    hide HeardFrom, Operations.Busy;
  }

  lemma BusyRobotsAreKnown(m: Memory)
    requires Core(m)
    ensures forall r :: Operations.Busy(m.jobs, r) ==> r in m.robots
  {
  }

  lemma DraftFits(m: Memory, d: DurationModel, now: Time, draft: Estimates, open: Slots)
    requires Core(m) && Drafted(m, d, now, draft) && SlotsOk(m, now, draft, open)
    ensures Partial(m, d, now, draft, open)
  {
    hide Core, SlotsOk, EntryPartly, DraftOk, NoOverlap;
    forall id | id in draft
      ensures EntryPartly(m, d, now, draft, id) && (Queued(m.jobs[id].status) ==> !Settled(draft[id])) {
      DraftEntryFits(m, d, now, draft, id);
    }
    forall a, b | a in draft && b in draft && a != b && draft[a].estimated && draft[b].estimated
      ensures draft[a].robot != draft[b].robot {
      TwoUnderway(m, d, now, draft, a, b);
    }
    NobodyMeets(draft);
  }

  lemma DraftEntryFits(m: Memory, d: DurationModel, now: Time, draft: Estimates, id: JobId)
    requires id in draft && id in m.jobs && Unfinished(m.jobs[id].status) && DraftOk(m.jobs[id], d, now, draft[id])
    ensures EntryPartly(m, d, now, draft, id) && (Queued(m.jobs[id].status) ==> !Settled(draft[id]))
  {
    hide QueuedOk, ForTool;
  }

  lemma TwoUnderway(m: Memory, d: DurationModel, now: Time, draft: Estimates, a: JobId, b: JobId)
    requires Core(m) && {a, b} <= draft.Keys && {a, b} <= m.jobs.Keys && a != b && draft[a].estimated
      && draft[b].estimated
    requires DraftOk(m.jobs[a], d, now, draft[a]) && DraftOk(m.jobs[b], d, now, draft[b])
    ensures draft[a].robot != draft[b].robot
  {
    hide Core, ForTool;
    OnlyOneThere(m);
  }

  lemma NobodyMeets(plan: Estimates)
    requires forall a, b :: a in plan && b in plan && a != b && plan[a].estimated && plan[b].estimated ==>
      plan[a].robot != plan[b].robot
    ensures NoOverlap(plan)
  {
  }

  lemma OpenSlotsStay(m: Memory, d: DurationModel, now: Time, draft: Estimates, plan: Estimates, open: Slots)
    requires Drafted(m, d, now, draft) && OpenSlots(m, now, draft, open) && plan.Keys == draft.Keys
    requires forall id :: id in draft && Settled(draft[id]) ==> plan[id] == draft[id]
    ensures OpenSlots(m, now, plan, open)
  {
    hide ForTool, FreeAfter, IdleSlots, SlotAt;
    forall id, r | OnRobot(m.jobs, id, r) ensures id in plan && plan[id] == draft[id] {
      assert Settled(draft[id]);
    }
  }
}
