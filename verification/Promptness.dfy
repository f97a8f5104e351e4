/** No estimate wastes time: every queued job of a plan starts at once, or when something it needs ends, and
    on a robot that none of the others could have replaced. */
module Promptness {
  import opened Base
  import opened Model
  import opened Ordering
  import opened Operations
  import opened Invariants
  import opened Routing
  import opened Planner
  import Workings

  /** The plan has `x` end at `t`. */
  predicate EndsAt(plan: Estimates, x: JobId, t: int) { x in plan && plan[x].estimated && plan[x].end == t }

  predicate KeepsUntil(plan: Estimates, x: JobId, r: RobotId, t: int) { EndsAt(plan, x, t) && plan[x].robot == r }

  /** It starts now, or when a dependency ends, or when the job before it on its robot ends. */
  ghost predicate StartsInTime(plan: Estimates, id: JobId, j: Job, now: Time, e: Estimate) {
    || e.start == Millis(now)
    || (exists x :: x in j.deps && EndsAt(plan, x, e.start))
    || exists x :: x != id && KeepsUntil(plan, x, e.robot, e.start)
  }

  /** All its dependencies end before it starts: it waits for a robot. */
  ghost predicate WaitsForRobot(plan: Estimates, j: Job, now: Time, e: Estimate) {
    Millis(now) < e.start && forall x :: x in j.deps && x in plan && plan[x].estimated ==> plan[x].end < e.start
  }

  /** `q` is no better a robot than the one chosen: it works until the start at least when the job waits for a
      robot, and it works beyond it or is not nearer. */
  ghost predicate NoBetter(m: Memory, plan: Estimates, j: Job, now: Time, e: Estimate, q: RobotId)
    requires e.robot in m.robots && q in m.robots
  {
    && (WaitsForRobot(plan, j, now, e) ==> exists x, t :: KeepsUntil(plan, x, q, t) && e.start <= t)
    && (Nearer(m.cfg, j, m.robots[e.robot], m.robots[q]) || exists x, t :: KeepsUntil(plan, x, q, t) && e.start < t)
  }

  ghost predicate Prompt(m: Memory, now: Time, plan: Estimates, id: JobId)
    requires id in plan && id in m.jobs
  {
    var j, e := m.jobs[id], plan[id];
    && StartsInTime(plan, id, j, now, e) && e.robot in m.robots
    && forall q :: AtHand(m, q, now) && q != e.robot && HasTool(m.robots[q], j) ==>
         NoBetter(m, plan, j, now, e, q)
  }

  /** All the queued jobs that have an estimate. */
  ghost predicate AllPrompt(m: Memory, now: Time, plan: Estimates) {
    forall id :: id in plan && id in m.jobs && m.jobs[id].status in {Pending, Blocked} && plan[id].estimated ==>
      Prompt(m, now, plan, id)
  }

  // ---- What the layout keeps ----

  /** A robot is free now, or when a job of the plan ends on it. */
  ghost predicate FreeFor(now: Time, l: Layout) {
    forall r :: r in l.free ==> l.free[r] == Millis(now) || exists x :: KeepsUntil(l.plan, x, r, l.free[r])
  }

  ghost predicate EveryoneIn(m: Memory, now: Time, l: Layout) {
    && (forall r :: AtHand(m, r, now) ==> r in l.free)
    && (forall r :: r in l.free ==> Millis(now) <= l.free[r])
    && forall id :: id in l.plan ==> id in m.jobs && m.jobs[id].status != Done
  }

  ghost predicate WellLaid(m: Memory, now: Time, l: Layout) {
    FreeFor(now, l) && EveryoneIn(m, now, l) && AllPrompt(m, now, l.plan)
  }

  /** The plan lost no estimate. */
  ghost predicate Grows(plan: Estimates, plan': Estimates) {
    plan'.Keys == plan.Keys && forall x :: x in plan && plan[x].estimated ==> plan'[x] == plan[x]
  }

  lemma {:induction false} LastEndIs(jobs: Jobs, plan: Estimates, deps: seq<JobId>)
    requires forall x :: x in plan ==> x in jobs && jobs[x].status != Done
    ensures var t := LastEnd(jobs, plan, deps);
      && 0 <= t && (t == 0 || exists x :: x in deps && EndsAt(plan, x, t))
      && forall x :: x in deps && x in plan && plan[x].estimated ==> plan[x].end <= t
    decreases |deps|
  {
    if deps != [] {
      var d, before := deps[|deps| - 1], deps[..|deps| - 1];
      LastEndIs(jobs, plan, before);
      var t := LastEnd(jobs, plan, deps);
      assert d in deps && forall x :: x in deps <==> x in before || x == d;
      if t != 0 && t == LastEnd(jobs, plan, before) {
        var x :| x in before && EndsAt(plan, x, t);
        assert x in deps;
      } else if t != 0 {
        assert EndsAt(plan, d, t);
      }
    }
  }

  /** A job laid out in the best slot starts in time, on a robot that none could replace. */
  lemma SlotIsInTime(m: Memory, now: Time, l: Layout, id: JobId, r: RobotId, e: Estimate)
    requires FreeFor(now, l) && EveryoneIn(m, now, l) && id in l.plan && !l.plan[id].estimated && r in l.free
      && Millis(now) > 0
    requires e.robot == r && e.start == Max(l.free[r], LastEnd(m.jobs, l.plan, m.jobs[id].deps))
    ensures StartsInTime(l.plan, id, m.jobs[id], now, e)
  {
    hide AtHand, LastEnd;
    LastEndIs(m.jobs, l.plan, m.jobs[id].deps);
  }

  lemma SlotHasNoBetter(m: Memory, now: Time, l: Layout, id: JobId, r: RobotId, e: Estimate, q: RobotId)
    requires FreeFor(now, l) && EveryoneIn(m, now, l) && id in l.plan && Millis(now) > 0
    requires EarliestSlot(m, m.jobs[id], l.free, LastEnd(m.jobs, l.plan, m.jobs[id].deps), r, e.start) && e.robot == r
    requires q in l.free && q in m.robots && q != r && HasTool(m.robots[q], m.jobs[id])
    ensures NoBetter(m, l.plan, m.jobs[id], now, e, q)
  {
    hide AtHand, LastEnd, Nearer;
    LastEndIs(m.jobs, l.plan, m.jobs[id].deps);
    if l.free[q] != Millis(now) {
      var x :| KeepsUntil(l.plan, x, q, l.free[q]);
    }
  }

  lemma BestSlotIsPrompt(m: Memory, now: Time, l: Layout, id: JobId, r: RobotId, ms: nat, basis: Basis)
    requires WellLaid(m, now, l) && id in l.plan && !l.plan[id].estimated && Millis(now) > 0
    requires var j := m.jobs[id]; BestSlot(m, j, l.free, LastEnd(m.jobs, l.plan, j.deps), r)
    ensures var j := m.jobs[id];
      var e := Planner.Given(j, ms, basis, r, Max(l.free[r], LastEnd(m.jobs, l.plan, j.deps)));
      StartsInTime(l.plan, id, j, now, e) && e.robot in m.robots && forall q ::
        AtHand(m, q, now) && q != r && HasTool(m.robots[q], j) ==>
          NoBetter(m, l.plan, j, now, e, q)
  {
    var j := m.jobs[id];
    var ready := LastEnd(m.jobs, l.plan, j.deps);
    var e := Planner.Given(j, ms, basis, r, Max(l.free[r], ready));
    BestSlotIsEarliest(m, j, l.free, ready, r);
    SlotIsInTime(m, now, l, id, r, e);
    hide BestSlot, AllPrompt, AtHand, LastEnd, NoBetter, StartsInTime;
    forall q | AtHand(m, q, now) && q != r && HasTool(m.robots[q], j)
      ensures NoBetter(m, l.plan, j, now, e, q)
    {
      SlotHasNoBetter(m, now, l, id, r, e, q);
    }
  }

  lemma GrowingKeepsPrompt(m: Memory, now: Time, plan: Estimates, plan': Estimates, id: JobId)
    requires Grows(plan, plan') && id in plan && id in m.jobs && plan[id].estimated && Prompt(m, now, plan, id)
    ensures Prompt(m, now, plan', id)
  {
    hide Nearer, StartsInTime, NoBetter;
    InTimeStays(plan, plan', id, m.jobs[id], now, plan[id]);
    forall q | q in m.robots && NoBetter(m, plan, m.jobs[id], now, plan[id], q)
      ensures NoBetter(m, plan', m.jobs[id], now, plan[id], q)
    {
      NoBetterStays(m, plan, plan', m.jobs[id], now, plan[id], q);
    }
  }

  lemma InTimeStays(plan: Estimates, plan': Estimates, id: JobId, j: Job, now: Time, e: Estimate)
    requires Grows(plan, plan') && StartsInTime(plan, id, j, now, e)
    ensures StartsInTime(plan', id, j, now, e)
  {
    if x :| x in j.deps && EndsAt(plan, x, e.start) { assert EndsAt(plan', x, e.start); }
    if x :| x != id && KeepsUntil(plan, x, e.robot, e.start) { assert KeepsUntil(plan', x, e.robot, e.start); }
  }

  lemma NoBetterStays(m: Memory, plan: Estimates, plan': Estimates, j: Job, now: Time, e: Estimate, q: RobotId)
    requires e.robot in m.robots && q in m.robots && Grows(plan, plan') && NoBetter(m, plan, j, now, e, q)
    ensures NoBetter(m, plan', j, now, e, q)
  {
    hide Nearer;
    assert WaitsForRobot(plan', j, now, e) ==> WaitsForRobot(plan, j, now, e);
    if x, t :| KeepsUntil(plan, x, q, t) && e.start <= t { assert KeepsUntil(plan', x, q, t); }
    if x, t :| KeepsUntil(plan, x, q, t) && e.start < t { assert KeepsUntil(plan', x, q, t); }
  }

  // ---- The whole plan ----

  lemma LayKeepsWell(m: Memory, d: DurationModel, now: Time, l: Layout, id: JobId)
    requires WellLaid(m, now, l) && Millis(now) > 0
    requires id in m.jobs && m.jobs[id].status in {Pending, Blocked}
    ensures WellLaid(m, now, Lay(m, d, l, id)) && Grows(l.plan, Lay(m, d, l, id).plan)
  {
    hide WellLaid, BestSlot, ForTool, LastEnd, Lay;
    var j, l' := m.jobs[id], Lay(m, d, l, id);
    LayCases(m, d, l, id);
    if l' != l {
      var ready := LastEnd(m.jobs, l.plan, j.deps);
      if why :| l' == Refusing(l, j, id, why) {
        RefusingKeepsWell(m, now, l, id, why);
      } else {
        var r, known :| Gave(m, l, id, l', r, known);
        GivingKeepsWell(m, now, l, id, r, known);
      }
    }
  }

  ghost predicate Gave(m: Memory, l: Layout, id: JobId, l': Layout, r: RobotId, known: (nat, Basis))
    requires id in m.jobs
  {
    var ready := LastEnd(m.jobs, l.plan, m.jobs[id].deps);
    r in l.free && BestSlot(m, m.jobs[id], l.free, ready, r) && l' == Giving(l, m.jobs[id], id, known, r, ready)
  }

  /** The layout of one job refuses it, gives it a best slot, or does nothing. */
  lemma LayCases(m: Memory, d: DurationModel, l: Layout, id: JobId)
    requires id in m.jobs
    ensures var l' := Lay(m, d, l, id);
      l' == l || (id in l.plan && !l.plan[id].estimated
        && ((exists why :: l' == Refusing(l, m.jobs[id], id, why)) || exists r, known :: Gave(m, l, id, l', r, known)))
  {
    hide ForTool, LastEnd, WillNotFinish, Awaits, CarriesTool, Sooner;
    var j, l' := m.jobs[id], Lay(m, d, l, id);
    var ready := LastEnd(m.jobs, l.plan, j.deps);
    if l' != l && ForTool(d, j.tool).Some? && exists r :: BestSlot(m, j, l.free, ready, r) {
      if forall why :: l' != Refusing(l, j, id, why) {
        var r :| BestSlot(m, j, l.free, ready, r) && l' == Giving(l, j, id, ForTool(d, j.tool).value, r, ready);
        var known := ForTool(d, j.tool).value;
        assert Gave(m, l, id, l', r, known);
      }
    }
  }

  lemma RefusingKeepsWell(m: Memory, now: Time, l: Layout, id: JobId, why: Obstacle)
    requires WellLaid(m, now, l) && id in l.plan && id in m.jobs && !l.plan[id].estimated
    ensures WellLaid(m, now, Refusing(l, m.jobs[id], id, why))
  {
    hide Prompt;
    var l' := Refusing(l, m.jobs[id], id, why);
    assert Grows(l.plan, l'.plan);
    forall x | x in l.plan && x in m.jobs && l.plan[x].estimated && Prompt(m, now, l.plan, x)
      ensures Prompt(m, now, l'.plan, x)
    {
      GrowingKeepsPrompt(m, now, l.plan, l'.plan, x);
    }
    FreeForStays(now, l, l', "");
  }

  lemma FreeForStays(now: Time, l: Layout, l': Layout, r: RobotId)
    requires FreeFor(now, l) && Grows(l.plan, l'.plan) && l'.free.Keys == l.free.Keys
    requires forall q :: q in l.free && q != r ==> l'.free[q] == l.free[q]
    requires r in l.free ==> l'.free[r] == l.free[r] || exists x :: KeepsUntil(l'.plan, x, r, l'.free[r])
    ensures FreeFor(now, l')
  {
    forall q | q in l.free && l'.free[q] == l.free[q]
      ensures l'.free[q] == Millis(now) || exists x :: KeepsUntil(l'.plan, x, q, l'.free[q])
    {
      if l.free[q] != Millis(now) {
        var x :| KeepsUntil(l.plan, x, q, l.free[q]);
        assert KeepsUntil(l'.plan, x, q, l'.free[q]);
      }
    }
  }

  lemma GivingKeepsWell(m: Memory, now: Time, l: Layout, id: JobId, r: RobotId, known: (nat, Basis))
    requires WellLaid(m, now, l) && id in l.plan && id in m.jobs && !l.plan[id].estimated && Millis(now) > 0
    requires BestSlot(m, m.jobs[id], l.free, LastEnd(m.jobs, l.plan, m.jobs[id].deps), r)
    ensures WellLaid(m, now, Giving(l, m.jobs[id], id, known, r, LastEnd(m.jobs, l.plan, m.jobs[id].deps)))
  {
    var ready := LastEnd(m.jobs, l.plan, m.jobs[id].deps);
    var l' := Giving(l, m.jobs[id], id, known, r, ready);
    assert Grows(l.plan, l'.plan);
    assert KeepsUntil(l'.plan, id, r, l'.free[r]);
    FreeForStays(now, l, l', r);
    GivenIsPrompt(m, now, l, id, r, known);
    hide Prompt, BestSlot, AtHand;
    forall x | x in l.plan && x in m.jobs && l.plan[x].estimated && Prompt(m, now, l.plan, x)
      ensures Prompt(m, now, l'.plan, x)
    {
      GrowingKeepsPrompt(m, now, l.plan, l'.plan, x);
    }
    hide LastEnd, FreeFor;
  }

  lemma GivenIsPrompt(m: Memory, now: Time, l: Layout, id: JobId, r: RobotId, known: (nat, Basis))
    requires WellLaid(m, now, l) && id in l.plan && id in m.jobs && !l.plan[id].estimated && Millis(now) > 0
    requires r in l.free && BestSlot(m, m.jobs[id], l.free, LastEnd(m.jobs, l.plan, m.jobs[id].deps), r)
    ensures Prompt(m, now, Giving(l, m.jobs[id], id, known, r, LastEnd(m.jobs, l.plan, m.jobs[id].deps)).plan, id)
  {
    hide NoBetter, StartsInTime, BestSlot, LastEnd;
    var j := m.jobs[id];
    var ready := LastEnd(m.jobs, l.plan, j.deps);
    var l' := Giving(l, j, id, known, r, ready);
    var e := l'.plan[id];
    BestSlotIsPrompt(m, now, l, id, r, known.0, known.1);
    assert Grows(l.plan, l'.plan);
    InTimeStays(l.plan, l'.plan, id, j, now, e);
    forall q | q in m.robots && NoBetter(m, l.plan, j, now, e, q) ensures NoBetter(m, l'.plan, j, now, e, q) {
      NoBetterStays(m, l.plan, l'.plan, j, now, e, q);
    }
  }

  lemma {:induction false} LayAllKeepsWell(m: Memory, d: DurationModel, now: Time, l: Layout, ids: seq<JobId>)
    requires WellLaid(m, now, l) && Millis(now) > 0
    requires forall id :: id in ids ==> id in m.jobs && m.jobs[id].status in {Pending, Blocked}
    ensures WellLaid(m, now, LayAll(m, d, l, ids))
    decreases |ids|
  {
    hide WellLaid, Lay;
    if ids != [] {
      LayAllKeepsWell(m, d, now, l, ids[..|ids| - 1]);
      LayKeepsWell(m, d, now, LayAll(m, d, l, ids[..|ids| - 1]), ids[|ids| - 1]);
    }
  }

  lemma {:induction false} RoundsKeepWell(m: Memory, d: DurationModel, now: Time, l: Layout, ids: seq<JobId>, n: nat)
    requires WellLaid(m, now, l) && Millis(now) > 0
    requires forall id :: id in ids ==> id in m.jobs && m.jobs[id].status in {Pending, Blocked}
    ensures WellLaid(m, now, AfterRounds(m, d, l, ids, n))
  {
    hide WellLaid, LayAll;
    if n > 0 {
      RoundsKeepWell(m, d, now, l, ids, n - 1);
      LayAllKeepsWell(m, d, now, AfterRounds(m, d, l, ids, n - 1), ids);
    }
  }

  /** Before anything is laid out, robots are free now or when the job they have ends. */
  lemma DraftIsWellLaid(m: Memory, d: DurationModel, now: Time, plan: Estimates, draft: Estimates, open: Slots)
    requires Core(m) && Feasible(m, d, now, plan) && OpenSlots(m, now, plan, open) && Drafted(m, d, now, draft)
    requires Millis(now) > 0
    ensures WellLaid(m, now, Layout(draft, open))
  {
    hide Core, Feasible, OpenSlots, Drafted, AtHand, AllPrompt;
    NothingIsLaid(m, d, now, draft);
    forall r | r in open ensures Millis(now) <= open[r]
      && (open[r] == Millis(now) || exists x :: KeepsUntil(draft, x, r, open[r])) {
      OpenWhen(m, d, now, plan, draft, open, r);
    }
    forall r | AtHand(m, r, now) ensures r in open {
      OpenToAll(m, d, now, plan, draft, open, r);
    }
    hide KeepsUntil;
  }

  lemma NothingIsLaid(m: Memory, d: DurationModel, now: Time, draft: Estimates)
    requires Drafted(m, d, now, draft)
    ensures AllPrompt(m, now, draft) && forall id :: id in draft ==> id in m.jobs && m.jobs[id].status != Done
  {
    hide Prompt, ForTool;
  }

  /** A job under way has the same entry in the draft as in the plan. */
  lemma DraftTells(m: Memory, d: DurationModel, now: Time, plan: Estimates, draft: Estimates, id: JobId)
    requires Feasible(m, d, now, plan) && Drafted(m, d, now, draft) && id in m.jobs && m.jobs[id].status == Assigned
    ensures id in draft && id in plan && draft[id] == plan[id]
    ensures draft[id].estimated ==> draft[id].robot == m.jobs[id].robot && Millis(now) <= draft[id].end
  {
    AssignedEntry(m, d, now, plan, id);
    hide Feasible, ForTool;
    OneAssignedEntry(m.jobs[id], d, Millis(now), plan[id], draft[id]);
  }

  lemma OpenWhen(m: Memory, d: DurationModel, now: Time, plan: Estimates, draft: Estimates, open: Slots, r: RobotId)
    requires Feasible(m, d, now, plan) && OpenSlots(m, now, plan, open) && Drafted(m, d, now, draft)
    requires r in open && Millis(now) > 0
    ensures Millis(now) <= open[r] && (open[r] == Millis(now) || exists x :: KeepsUntil(draft, x, r, open[r]))
  {
    hide Feasible, Drafted, HeardFrom;
    assert SlotAt(open, r) == Some(open[r]);
    if Operations.Busy(m.jobs, r) {
      var id :| id in m.jobs && m.jobs[id].robot == r && m.jobs[id].status == Assigned;
      DraftTells(m, d, now, plan, draft, id);
      assert OnRobot(m.jobs, id, r);
      if draft[id].estimated { assert KeepsUntil(draft, id, r, open[r]); }
    }
  }

  lemma OpenToAll(m: Memory, d: DurationModel, now: Time, plan: Estimates, draft: Estimates, open: Slots, r: RobotId)
    requires Feasible(m, d, now, plan) && OpenSlots(m, now, plan, open) && Drafted(m, d, now, draft)
    requires AtHand(m, r, now) && Millis(now) > 0
    ensures r in open
  {
    hide Feasible, Drafted;
    if Operations.Busy(m.jobs, r) {
      var id :| id in m.jobs && m.jobs[id].robot == r && m.jobs[id].status == Assigned;
      DraftTells(m, d, now, plan, draft, id);
      assert OnRobot(m.jobs, id, r);
    } else {
      assert SlotAt(open, r) == SlotAt(IdleSlots(m, now, {}), r);
    }
  }

  /** No estimate wastes time. */
  lemma NoTimeIsWasted(m: Memory, d: DurationModel, now: Time, plan: Estimates)
    requires Core(m) && Feasible(m, d, now, plan) && LaidOut(m, d, now, plan) && Millis(now) > 0
    ensures AllPrompt(m, now, plan)
  {
    hide Core, Feasible, OpenSlots, Drafted, AllPrompt, FreeFor, EveryoneIn;
    var open :| OpenSlots(m, now, plan, open) && InRounds(m, d, now, open, plan);
    var draft, n :| Drafted(m, d, now, draft)
      && SettlesAfter(m, d, Layout(draft, open), Queue(m.jobs, ByPriority, AllQueued(m.jobs)), n, plan);
    DraftIsWellLaid(m, d, now, plan, draft, open);
    Workings.QueueOfSet(m, ByPriority, AllQueued(m.jobs));
    RoundsKeepWell(m, d, now, Layout(draft, open), Queue(m.jobs, ByPriority, AllQueued(m.jobs)), n);
  }
}
