/** Why a pending job has no robot now: the read-only view of what a pass would leave in the queue. */
module Waiting {
  import opened Base
  import opened Model
  import opened Graph
  import opened Ordering
  import opened Operations
  import opened Invariants
  import opened Routing
  import opened Storage
  import opened Dispatching
  import opened Matching

  datatype Reason = NoRobots | NoRobotWithTool | RobotsBusy | RobotsStale | ForItsTurn | ToolUnconfirmed

  datatype WaitingJob = WaitingJob(job: JobId, priority: int, tool: string, reason: Reason)

  ghost predicate SomeCarries(m: Memory, j: Job) { exists r :: r in m.robots && CarriesTool(m.robots[r], j) }

  ghost predicate SomeIdle(m: Memory, j: Job) {
    exists r :: r in m.robots && CarriesTool(m.robots[r], j) && m.robots[r].available
  }

  ghost predicate SomeConfirmed(m: Memory, j: Job, now: Time) {
    exists r :: r in m.robots && CarriesTool(m.robots[r], j) && m.robots[r].available
      && ToolConfirmed(m, m.robots[r], j, now)
  }

  ghost predicate SomeEligible(m: Memory, j: Job, now: Time) {
    exists r :: r in m.robots && Eligible(m, m.robots[r], j, now)
  }

  /** Each reason names the first thing that is missing. */
  ghost predicate Explains(m: Memory, j: Job, now: Time, reason: Reason) {
    match reason
    case NoRobots => m.robots == map[]
    case NoRobotWithTool => m.robots != map[] && !SomeCarries(m, j)
    case RobotsBusy => SomeCarries(m, j) && !SomeIdle(m, j)
    case ToolUnconfirmed => SomeIdle(m, j) && !SomeConfirmed(m, j, now)
    case RobotsStale => SomeConfirmed(m, j, now) && !SomeEligible(m, j, now)
    case ForItsTurn => SomeEligible(m, j, now)
  }

  /** What each reason says of the robots there are. */
  ghost predicate SaysWhy(m: Memory, j: Job, now: Time, reason: Reason) {
    match reason
    case NoRobots => m.robots.Keys == {}
    case NoRobotWithTool => m.robots.Keys != {} && forall r :: r in m.robots ==> !HasTool(m.robots[r], j)
    case RobotsBusy =>
      && (exists r :: r in m.robots && HasTool(m.robots[r], j))
      && forall r :: r in m.robots && HasTool(m.robots[r], j) ==> !m.robots[r].available
    case ToolUnconfirmed =>
      && (exists r :: r in m.robots && HasTool(m.robots[r], j) && m.robots[r].available)
      && forall r :: r in m.robots && HasTool(m.robots[r], j) && m.robots[r].available ==>
           !SeenWith(m, m.robots[r], j, now)
    case RobotsStale =>
      && (exists r ::
            r in m.robots && HasTool(m.robots[r], j) && m.robots[r].available && SeenWith(m, m.robots[r], j, now))
      && forall r ::
           r in m.robots && HasTool(m.robots[r], j) && m.robots[r].available && SeenWith(m, m.robots[r], j, now) ==>
             !Recent(m.cfg, m.robots[r], now)
    case ForItsTurn => exists r :: r in m.robots && Suits(m, m.robots[r], j, now)
  }

  lemma ReasonsSayWhy(m: Memory, j: Job, now: Time, reason: Reason)
    requires Explains(m, j, now, reason)
    ensures SaysWhy(m, j, now, reason)
  {
    forall r | r in m.robots
      ensures Suits(m, m.robots[r], j, now) <==> Eligible(m, m.robots[r], j, now)
      ensures SeenWith(m, m.robots[r], j, now) <==> ToolConfirmed(m, m.robots[r], j, now)
      ensures Recent(m.cfg, m.robots[r], now) <==> HeardFrom(m.cfg, m.robots[r], now)
      ensures HasTool(m.robots[r], j) <==> CarriesTool(m.robots[r], j)
    {
      SuitsMeansEligible(m, m.robots[r], j, now);
    }
    hide Suits, SeenWith, ToolConfirmed, Recent, HeardFrom, HasTool, CarriesTool;
  }

  /** Exactly one reason explains a wait. */
  lemma ReasonIsUnique(m: Memory, j: Job, now: Time, a: Reason, b: Reason)
    requires Explains(m, j, now, a) && Explains(m, j, now, b)
    ensures a == b
  {
  }

  method WaitReason(m: Memory, j: Job, now: Time) returns (reason: Reason)
    ensures Explains(m, j, now, reason) && SaysWhy(m, j, now, reason)
  {
    hide SaysWhy;
    reason := FirstMissing(m, j, now);
    ReasonsSayWhy(m, j, now, reason);
  }

  method FirstMissing(m: Memory, j: Job, now: Time) returns (reason: Reason)
    ensures Explains(m, j, now, reason)
  {
    hide ToolConfirmed, HeardFrom, CarriesTool;
    if m.robots == map[] {
      return NoRobots;
    }
    var withTool, available, unconfirmed := 0, 0, 0;
    var todo := m.robots.Keys;
    while todo != {}
      invariant todo <= m.robots.Keys && 0 <= unconfirmed <= available <= withTool
      invariant withTool == 0 <==> forall r :: r in m.robots && r !in todo ==> !CarriesTool(m.robots[r], j)
      invariant available == 0 <==>
        forall r :: r in m.robots && r !in todo && CarriesTool(m.robots[r], j) ==> !m.robots[r].available
      invariant unconfirmed == available <==>
        forall r :: r in m.robots && r !in todo && CarriesTool(m.robots[r], j) && m.robots[r].available ==>
          !ToolConfirmed(m, m.robots[r], j, now)
      invariant forall r :: r in m.robots && r !in todo ==> !Eligible(m, m.robots[r], j, now)
    {
      var r :| r in todo;
      todo := todo - {r};
      if CarriesTool(m.robots[r], j) {
        withTool := withTool + 1;
        if m.robots[r].available {
          available := available + 1;
          if !ToolConfirmed(m, m.robots[r], j, now) {
            unconfirmed := unconfirmed + 1;
          }
        }
        if Eligible(m, m.robots[r], j, now) {
          return ForItsTurn;
        }
      }
    }
    reason := if withTool == 0 then NoRobotWithTool
              else if available == 0 then RobotsBusy
              else if unconfirmed == available then ToolUnconfirmed
              else RobotsStale;
  }

  /** Every pending job in dispatch order, with its reason. */
  method WaitingJobs(m: Memory, now: Time) returns (out: seq<WaitingJob>)
    requires SeqsDistinct(m.jobs)
    ensures |out| == |DispatchQueue(m)|
    ensures forall i :: 0 <= i < |out| ==>
      && out[i].job == DispatchQueue(m)[i] && out[i].job in m.jobs
      && out[i].priority == m.jobs[out[i].job].priority && out[i].tool == m.jobs[out[i].job].tool
      && Explains(m, m.jobs[out[i].job], now, out[i].reason) && SaysWhy(m, m.jobs[out[i].job], now, out[i].reason)
    ensures forall id :: id in m.jobs && m.jobs[id].status == Pending <==>
      exists i :: 0 <= i < |out| && out[i].job == id
    ensures forall i, k :: 0 <= i < k < |out| ==> GoesBefore(m.jobs[out[i].job], m.jobs[out[k].job])
  {
    hide Explains, SaysWhy, GoesBefore;
    var q := Sorted(m.jobs, ByPriority, set id | id in m.jobs && m.jobs[id].status == Pending);
    assert q == DispatchQueue(m);
    out := [];
    for i := 0 to |q|
      invariant |out| == i
      invariant forall k :: 0 <= k < i ==>
        && out[k].job == q[k] && out[k].job in m.jobs
        && out[k].priority == m.jobs[out[k].job].priority && out[k].tool == m.jobs[out[k].job].tool
        && Explains(m, m.jobs[out[k].job], now, out[k].reason) && SaysWhy(m, m.jobs[out[k].job], now, out[k].reason)
    {
      assert q[i] in q;
      var j := m.jobs[q[i]];
      var reason := WaitReason(m, j, now);
      out := out + [WaitingJob(q[i], j.priority, j.tool, reason)];
    }
    forall id | id in m.jobs && m.jobs[id].status == Pending ensures exists i :: 0 <= i < |out| && out[i].job == id {
      assert id in q;
      var i :| 0 <= i < |q| && q[i] == id;
      assert out[i].job == id;
    }
    assert forall i :: 0 <= i < |q| ==> q[i] in q;
  }

  /** What a pass with healthy writes leaves pending never waits for its turn: the view agrees with
      dispatch. */
  lemma NobodyWaitsAfterAPass(m: Memory, disk: Disk, fails: Faults, now: Time, id: JobId, reason: Reason)
    requires Core(m) && forall n :: n >= disk.writes ==> !fails(n)
    ensures var m' := Dispatch(m, disk, fails, now).mem;
      id in m'.jobs && m'.jobs[id].status == Pending && Explains(m', m'.jobs[id], now, reason) ==> reason != ForItsTurn
  {
    hide Core, Dispatch, Eligible;
    PassIsTheFairMatching(m, disk, fails, now, map[]);
  }
}
