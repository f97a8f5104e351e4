/** What callers are promised, said in the fields of jobs, robots and settings only: none of this names the
    functions the engine is specified by. */
module Promises {
  import opened Base
  import opened Model
  import opened Graph
  import opened Blocking
  import opened Ordering
  import opened Operations
  import opened Invariants
  import opened Lives
  import opened Moves
  import opened Archiving
  import opened Routing
  import opened Storage
  import opened Dispatching
  import opened Workings
  import opened Runs

  /** Milliseconds are whole ones, rounded down. */
  lemma MillisAreWhole(t: Time)
    ensures Millis(t) * 1_000_000 <= t < (Millis(t) + 1) * 1_000_000
  {
  }

  // ---- A pass of the dispatcher ----

  ghost function RobotsOf(out: seq<Assignment>): set<RobotId> { set i | 0 <= i < |out| :: out[i].robot }

  ghost function JobsIn(out: seq<Assignment>): set<JobId> { set i | 0 <= i < |out| :: out[i].job }

  /** Each job got its first choice among the robots that the jobs before it had left. */
  ghost predicate ChoicesMade(m: Memory, now: Time, out: seq<Assignment>) {
    forall i :: 0 <= i < |out| ==>
      && out[i].job in m.jobs && m.jobs[out[i].job].status == Pending
      && FirstChoice(m, m.jobs[out[i].job], now, out[i].robot, RobotsOf(out[..i]))
  }

  /** The jobs given out are on their robots, with their next attempt, from this instant; others stay. */
  ghost predicate JobsHandedOut(jobs: Jobs, jobs': Jobs, now: Time, out: seq<Assignment>) {
    && jobs'.Keys == jobs.Keys
    && (forall i :: 0 <= i < |out| && out[i].job in jobs ==>
          jobs'[out[i].job] == jobs[out[i].job].(
            status := Assigned, robot := out[i].robot, attempt := jobs[out[i].job].attempt + 1,
            assignedAt := Millis(now)))
    && forall id :: id in jobs && id !in JobsIn(out) ==> jobs'[id] == jobs[id]
  }

  ghost predicate RobotsHandedOut(robots: Robots, robots': Robots, out: seq<Assignment>) {
    && robots'.Keys == robots.Keys
    && forall r :: r in robots ==>
         robots'[r] == if r in RobotsOf(out) then robots[r].(available := false) else robots[r]
  }

  ghost predicate HandedOut(m: Memory, m': Memory, now: Time, out: seq<Assignment>) {
    && m'.cfg == m.cfg && m'.seen == m.seen && ChoicesMade(m, now, out)
    && JobsHandedOut(m.jobs, m'.jobs, now, out) && RobotsHandedOut(m.robots, m'.robots, out)
  }

  /** Higher priorities first, and older submissions first among equals. */
  ghost predicate InOrder(jobs: Jobs, out: seq<Assignment>) {
    forall i, k :: 0 <= i < k < |out| ==>
      out[i].job in jobs && out[k].job in jobs && GoesBefore(jobs[out[i].job], jobs[out[k].job])
  }

  /** What a pass promises its caller. */
  lemma DispatchHandsOut(m: Memory, disk: Disk, fails: Faults, now: Time)
    requires Core(m)
    ensures var p := Dispatch(m, disk, fails, now); HandedOut(m, p.mem, now, p.out) && InOrder(m.jobs, p.out)
  {
    hide HandedOut, InOrder, Core;
    QueueOfSet(m, ByPriority, PendingSet(m.jobs));
    NamesAgreeInCore(m);
    NothingHandedOut(m, now);
    var q := Queue(m.jobs, ByPriority, PendingSet(m.jobs));
    QueueGoesInOrder(m.jobs, q);
    PassHandsOut(m, Pass(m, disk, [], []), fails, q, now);
  }

  lemma NothingHandedOut(m: Memory, now: Time)
    ensures HandedOut(m, m, now, []) && InOrder(m.jobs, [])
  {
  }

  lemma QueueGoesInOrder(jobs: Jobs, q: seq<JobId>)
    requires IsQueue(jobs, ByPriority, PendingSet(jobs), q)
    ensures forall i :: 0 <= i < |q| ==> q[i] in jobs && jobs[q[i]].status == Pending
    ensures forall i, k :: 0 <= i < k < |q| ==> GoesBefore(jobs[q[i]], jobs[q[k]])
  {
    forall i | 0 <= i < |q| ensures q[i] in jobs && jobs[q[i]].status == Pending { assert q[i] in q; }
  }

  lemma {:induction false} PassHandsOut(m: Memory, p: Pass, fails: Faults, ids: seq<JobId>, now: Time)
    requires NamesAgree(m.robots) && HandedOut(m, p.mem, now, p.out) && InOrder(m.jobs, p.out) && Distinct(ids)
    requires forall i :: 0 <= i < |ids| ==> ids[i] in m.jobs && m.jobs[ids[i]].status == Pending
    requires forall i :: 0 <= i < |ids| ==> ids[i] !in JobsIn(p.out)
    requires forall i, k :: 0 <= i < k < |ids| ==> GoesBefore(m.jobs[ids[i]], m.jobs[ids[k]])
    requires forall i :: 0 <= i < |p.out| ==> p.out[i].job in m.jobs
    requires forall i, k :: 0 <= i < |p.out| && 0 <= k < |ids| ==> GoesBefore(m.jobs[p.out[i].job], m.jobs[ids[k]])
    ensures var p' := OfferAll(p, fails, ids, now); HandedOut(m, p'.mem, now, p'.out) && InOrder(m.jobs, p'.out)
    decreases |ids|
  {
    hide HandedOut, Offer, GoesBefore, NamesAgree;
    if ids != [] {
      var p1, rest := Offer(p, fails, ids[0], now), ids[1..];
      OfferHandsOut(m, p, fails, ids[0], now);
      assert forall i :: 0 <= i < |rest| ==> rest[i] == ids[i + 1];
      PassHandsOut(m, p1, fails, rest, now);
    }
  }

  lemma OfferHandsOut(m: Memory, p: Pass, fails: Faults, id: JobId, now: Time)
    requires NamesAgree(m.robots) && HandedOut(m, p.mem, now, p.out)
    requires id in m.jobs && m.jobs[id].status == Pending && id !in JobsIn(p.out)
    ensures var p' := Offer(p, fails, id, now);
      && HandedOut(m, p'.mem, now, p'.out)
      && (p'.out == p.out || exists r :: p'.out == p.out + [Assignment(id, r)])
  {
    hide FirstChoice, NobodySuits, Best, IsBest, Give, OfferTo, ChoicesMade;
    BestIs(p.mem, p.mem.jobs[id], now);
    var best := Best(p.mem, p.mem.jobs[id], now);
    BestIsFirstChoice(p.mem, p.mem.jobs[id], now, best);
    if best.Some? && best.value in p.mem.robots {
      OfferToOutcome(p, fails, id, best.value, now);
      ChoiceOfTheRest(m, p.mem, m.jobs[id], now, best.value, RobotsOf(p.out));
      OneMoreHandedOut(m, p.mem, now, p.out, id, best.value);
    }
  }

  lemma OfferToOutcome(p: Pass, fails: Faults, id: JobId, r: RobotId, now: Time)
    requires id in p.mem.jobs && r in p.mem.robots
    ensures var p' := OfferTo(p, fails, id, r, now);
      || (p'.mem == p.mem && p'.out == p.out)
      || (p'.mem == Give(p.mem, id, r, now) && p'.out == p.out + [Assignment(id, r)])
  {
    hide Give;
  }

  /** The robots given out are not available, and the others are as they were. */
  lemma ChoiceOfTheRest(m: Memory, m1: Memory, j: Job, now: Time, r: RobotId, taken: set<RobotId>)
    requires m1.cfg == m.cfg && m1.seen == m.seen && m1.robots.Keys == m.robots.Keys && FirstChoice(m1, j, now, r, {})
    requires forall q :: q in m.robots ==>
      m1.robots[q] == if q in taken then m.robots[q].(available := false) else m.robots[q]
    ensures FirstChoice(m, j, now, r, taken)
  {
    hide Nearer;
  }

  lemma OneMoreHandedOut(m: Memory, m1: Memory, now: Time, out: seq<Assignment>, id: JobId, r: RobotId)
    requires HandedOut(m, m1, now, out) && id in m.jobs && m.jobs[id].status == Pending && id !in JobsIn(out)
    requires id in m1.jobs && r in m1.robots && r in m.robots && FirstChoice(m, m.jobs[id], now, r, RobotsOf(out))
    ensures HandedOut(m, Give(m1, id, r, now), now, out + [Assignment(id, r)])
  {
    hide FirstChoice, JobsHandedOut, RobotsHandedOut, ChoicesMade;
    OneMoreListed(out, id, r);
    OneMoreChoice(m, now, out, id, r);
    OneMoreJobOut(m.jobs, m1.jobs, now, out, id, r);
    OneMoreRobotOut(m.robots, m1.robots, out, id, r);
  }

  lemma OneMoreListed(out: seq<Assignment>, id: JobId, r: RobotId)
    ensures var out' := out + [Assignment(id, r)];
      JobsIn(out') == JobsIn(out) + {id} && RobotsOf(out') == RobotsOf(out) + {r}
  {
    var out' := out + [Assignment(id, r)];
    assert out'[|out|] == Assignment(id, r);
    assert forall i :: 0 <= i < |out| ==> out'[i] == out[i];
  }

  lemma OneMoreChoice(m: Memory, now: Time, out: seq<Assignment>, id: JobId, r: RobotId)
    requires ChoicesMade(m, now, out) && id in m.jobs && m.jobs[id].status == Pending
    requires FirstChoice(m, m.jobs[id], now, r, RobotsOf(out))
    ensures ChoicesMade(m, now, out + [Assignment(id, r)])
  {
    hide FirstChoice, RobotsOf;
    var out' := out + [Assignment(id, r)];
    assert forall i :: 0 <= i <= |out| ==> out'[..i] == out[..i];
    assert out[..|out|] == out;
  }

  lemma OneMoreJobOut(jobs: Jobs, jobs1: Jobs, now: Time, out: seq<Assignment>, id: JobId, r: RobotId)
    requires JobsHandedOut(jobs, jobs1, now, out) && id in jobs && id !in JobsIn(out)
    requires JobsIn(out + [Assignment(id, r)]) == JobsIn(out) + {id}
    ensures JobsHandedOut(jobs, jobs1[id := GivenJob(jobs1[id], r, now)], now, out + [Assignment(id, r)])
  {
    assert forall i :: 0 <= i < |out| ==> out[i].job in JobsIn(out);
    hide JobsIn;
  }

  lemma OneMoreRobotOut(robots: Robots, robots1: Robots, out: seq<Assignment>, id: JobId, r: RobotId)
    requires RobotsHandedOut(robots, robots1, out) && r in robots
    requires RobotsOf(out + [Assignment(id, r)]) == RobotsOf(out) + {r}
    ensures RobotsHandedOut(robots, robots1[r := robots1[r].(available := false)], out + [Assignment(id, r)])
  {
    hide RobotsOf;
  }

  // ---- Submissions ----

  /** What is wrong with a submission by itself: no name, or a dependency that has none, is the job itself
      or is named twice. */
  predicate IllFormed(id: JobId, deps: seq<JobId>) {
    || Blank(id)
    || (exists i :: 0 <= i < |deps| && (Blank(deps[i]) || deps[i] == id))
    || exists i, k :: 0 <= i < k < |deps| && deps[i] == deps[k]
  }

  predicate NamesStrangers(jobs: Jobs, deps: seq<JobId>) { exists i :: 0 <= i < |deps| && deps[i] !in jobs }

  /** The record holds what was submitted, and the times and attempts of a new job. */
  predicate AsSubmitted(stored: Job, j: Job, now: Time) {
    && stored.id == j.id && stored.key == j.key && stored.priority == j.priority
    && stored.tool == j.tool && stored.location == j.location && stored.deps == j.deps && stored.robot == j.robot
    && stored.attempt == 0 && stored.submittedAt == Millis(now) && stored.assignedAt == 0 && stored.completedAt == 0
    && stored.status.Waiting()
  }

  /** The answer to a new submission, and what it does. */
  ghost predicate AddPromise(m: Memory, j: Job, now: Time, saved: bool, m': Memory, r: Outcome<Job>) {
    && (r == Err(InvalidJob) <==> IllFormed(j.id, j.deps))
    && (r == Err(JobExists) <==> !IllFormed(j.id, j.deps) && j.id in m.jobs)
    && (r == Err(UnknownDep) <==> !IllFormed(j.id, j.deps) && j.id !in m.jobs && NamesStrangers(m.jobs, j.deps))
    && (r == Err(StoreFailed) <==>
          !IllFormed(j.id, j.deps) && j.id !in m.jobs && !NamesStrangers(m.jobs, j.deps) && !saved)
    && (r.Ok? <==> !IllFormed(j.id, j.deps) && j.id !in m.jobs && !NamesStrangers(m.jobs, j.deps) && saved)
    && (r.Err? ==> m'.jobs == m.jobs && m'.robots == m.robots && m'.dedup == m.dedup)
    && (r.Ok? ==>
          && j.id in m'.jobs && m'.jobs[j.id] == r.value && AsSubmitted(r.value, j, now)
          && (forall id :: id in m.jobs ==> m.jobs[id].seqNo < r.value.seqNo)
          && m'.jobs == m.jobs[j.id := r.value] && m'.robots == m.robots
          && m'.dedup == if j.key == "" then m.dedup else m.dedup[j.key := j.id])
  }

  lemma AddKeepsPromise(m: Memory, j: Job, now: Time, saved: bool)
    requires Core(m)
    ensures AddPromise(m, j, now, saved, Add(m, j, now, saved), AddResult(m, j, now, saved))
  {
    hide Stable, Reserved, RobotsOk, KeysLive, Blank, DepsLive, Acyclic, Ready, Held, SeqsDistinct, Verdict;
    VerdictWaits(m.jobs, j.deps);
    ShapeIsWellFormed(j.id, j.deps);
    hide ShapeOk, IllFormed;
  }

  lemma ShapeIsWellFormed(id: JobId, deps: seq<JobId>)
    ensures IllFormed(id, deps) <==> Blank(id) || !ShapeOk(id, deps)
  {
    hide Blank;
  }

  /** A retried job has what was submitted now, and remains who it was. */
  predicate AsResubmitted(stored: Job, before: Job, j: Job, now: Time) {
    && stored.id == before.id && stored.key == before.key && stored.seqNo == before.seqNo
    && stored.attempt == before.attempt
    && stored.priority == j.priority && stored.tool == j.tool && stored.location == j.location && stored.deps == j.deps
    && stored.robot == "" && stored.submittedAt == Millis(now) && stored.assignedAt == 0 && stored.completedAt == 0
    && stored.status.Waiting()
  }

  /** Every other job keeps all its fields; only the verdict of a waiting one may be another. */
  ghost predicate OthersKeep(jobs: Jobs, jobs': Jobs, id: JobId) {
    && jobs'.Keys == jobs.Keys
    && forall x :: x in jobs && x != id ==>
         && jobs'[x] == jobs[x].(status := jobs'[x].status)
         && (jobs'[x].status == jobs[x].status || (jobs[x].status.Waiting() && jobs'[x].status.Waiting()))
  }

  /** Some dependency is the job, or depends on it through others. */
  ghost predicate TurnsBack(jobs: Jobs, deps: seq<JobId>, id: JobId) {
    exists i :: 0 <= i < |deps| && (deps[i] == id || Reaches(jobs, deps[i], id))
  }

  /** Resubmitting the key of a live job: nothing happens unless that job failed or was cancelled; then its
      dependencies are checked, and it is submitted again in place. */
  ghost predicate RetryPromise(m: Memory, j: Job, now: Time, m': Memory, r: Outcome<(Job, Submitted)>)
    requires j.key in m.dedup && m.dedup[j.key] in m.jobs
  {
    var id := m.dedup[j.key];
    var over := m.jobs[id].status == Failed || m.jobs[id].status == Cancelled;
    var shaped := !exists i, k :: 0 <= i < k < |j.deps| && j.deps[i] == j.deps[k];
    var named := forall i :: 0 <= i < |j.deps| ==> !Blank(j.deps[i]) && j.deps[i] != id;
    && (r.Ok? && r.value.1 != SubmitRetried ==> !over && r == Ok((m.jobs[id], SubmitDuplicate)))
    && (!over ==> r == Ok((m.jobs[id], SubmitDuplicate)) && m' == m)
    && (r == Err(UnknownDep) <==> over && shaped && named && NamesStrangers(m.jobs, j.deps))
    && (r == Err(InvalidJob) <==>
          over && !(shaped && named && (NamesStrangers(m.jobs, j.deps) || !TurnsBack(m.jobs, j.deps, id))))
    && (r.Err? ==> m' == m && (r.error == UnknownDep || r.error == InvalidJob))
    && (r.Ok? && over ==>
          && id in m'.jobs && r == Ok((m'.jobs[id], SubmitRetried)) && AsResubmitted(m'.jobs[id], m.jobs[id], j, now)
          && OthersKeep(m.jobs, m'.jobs, id) && m'.robots == m.robots && m'.dedup == m.dedup)
  }

  lemma RetryKeepsPromise(m: Memory, j: Job, now: Time, saved: bool, r: Outcome<(Job, Submitted)>)
    requires Core(m) && KeysLive(m.jobs, m.dedup) && j.key != "" && j.key in m.dedup
    requires var m' := Submit(m, j, now, saved); match SubmissionOf(m, j)
      case NewJob => false
      case Duplicate => r == Ok((m.jobs[m.dedup[j.key]], SubmitDuplicate))
      case Refused(e) => r == Err(e)
      case Retry => m.dedup[j.key] in m'.jobs && r == Ok((m'.jobs[m.dedup[j.key]], SubmitRetried))
    ensures RetryPromise(m, j, now, Submit(m, j, now, saved), r)
  {
    hide Stable, Reserved, RobotsOk, KeysLive, Blank, DepsLive, Acyclic, Ready, Held, SeqsDistinct, Verdict, Refreshed,
      OthersKeep, TurnsBack, ShapeOk, FromRoots, AsResubmitted;
    var id := m.dedup[j.key];
    assert id in m.jobs by { KeyNamesJob(m, j.key); }
    JobNames(m);
    ShapeOfRetry(id, j.deps);
    RootsTurnBack(m.jobs, j.deps, id);
    if SubmissionOf(m, j).Retry? {
      RetriedAsSubmitted(m, id, j, now);
    }
  }

  lemma KeyNamesJob(m: Memory, k: Key)
    requires KeysLive(m.jobs, m.dedup) && k in m.dedup
    ensures m.dedup[k] in m.jobs
  {
  }

  lemma ShapeOfRetry(id: JobId, deps: seq<JobId>)
    ensures ShapeOk(id, deps) <==>
      && (!exists i, k :: 0 <= i < k < |deps| && deps[i] == deps[k])
      && forall i :: 0 <= i < |deps| ==> !Blank(deps[i]) && deps[i] != id
  {
    hide Blank;
  }

  lemma RootsTurnBack(jobs: Jobs, deps: seq<JobId>, id: JobId)
    ensures FromRoots(jobs, deps, id) <==> TurnsBack(jobs, deps, id)
  {
    hide Reaches;
    ReachesItself(jobs, id);
    if FromRoots(jobs, deps, id) {
      var r :| r in deps && Reaches(jobs, r, id);
      var i :| 0 <= i < |deps| && deps[i] == r;
    }
  }

  lemma RetriedAsSubmitted(m: Memory, id: JobId, j: Job, now: Time)
    requires id in m.jobs
    ensures var m' := Resubmitted(m, id, j, now);
      id in m'.jobs && AsResubmitted(m'.jobs[id], m.jobs[id], j, now) && OthersKeep(m.jobs, m'.jobs, id)
  {
    VerdictWaits(m.jobs, j.deps);
    hide Verdict;
  }

  // ---- Reports ----

  predicate UnderWay(m: Memory, id: JobId) {
    id in m.jobs && (m.jobs[id].status == Assigned || m.jobs[id].status == Status.Unknown)
  }

  /** The report is about the present assignment, as far as it says. */
  predicate AboutPresent(m: Memory, id: JobId, robot: RobotId, attempt: int) {
    UnderWay(m, id) && m.jobs[id].robot == robot && (attempt == 0 || attempt == m.jobs[id].attempt)
  }

  predicate ReportAnswer(m: Memory, id: JobId, robot: RobotId, attempt: int, wrong: Option<Error>) {
    var own := UnderWay(m, id) && m.jobs[id].robot == robot;
    && (wrong == Some(UnknownJob) <==> id !in m.jobs)
    && (wrong == Some(JobNotAssigned) <==> id in m.jobs && !UnderWay(m, id))
    && (wrong == Some(RobotMismatch) <==> UnderWay(m, id) && !own)
    && (wrong == Some(AttemptMismatch) <==> own && !AboutPresent(m, id, robot, attempt))
    && (wrong == Some(UnknownRobot) <==> AboutPresent(m, id, robot, attempt) && robot !in m.robots)
    && (wrong == None <==> AboutPresent(m, id, robot, attempt) && robot in m.robots)
  }

  /** A report changes the engine if and only if it is about the present assignment of a job in flight. */
  lemma ReportsAreChecked(m: Memory, id: JobId, success: bool, robot: RobotId, attempt: int, now: Time)
    ensures Complete(m, id, success, robot, attempt, now) != m <==>
      AboutPresent(m, id, robot, attempt) && robot in m.robots
    ensures ReportAnswer(m, id, robot, attempt, CompleteError(m, id, robot, attempt))
  {
    hide Refreshed, Freed;
    if CompleteError(m, id, robot, attempt).None? {
      assert |Finish(m, id, success, now).log| == |m.log| + 1;
    }
  }

  /** What is over in the present chapter is an attempt before the present one, if the job is in flight. */
  lemma {:induction false} OverIsEarlier(log: History, id: JobId, e: Entry)
    requires LifeOf(log, id).Life? && e in Chapter(log, id) && (e.Abandoned? || e.Finished?)
    ensures var l := LifeOf(log, id); 1 <= e.attempt <= l.attempt && (l.phase.Busy() ==> e.attempt < l.attempt)
  {
    hide LifeOf, Chapter, Advance;
    assert log != [] by { EmptyChapter(id); }
    var before, last := log[..|log| - 1], log[|log| - 1];
    assert log == before + [last];
    AppendLife(before, last, id);
    AttemptsReadInOrder(before, id);
    if !About(last, id) {
      OverIsEarlier(before, id, e);
    } else {
      assert !last.Created?;
      OneStepOn(LifeOf(before, id), last);
      if e in Chapter(before, id) { OverIsEarlier(before, id, e); }
      BusyHasAttempt(Chapter(before, id), LifeOf(before, id), id);
    }
  }

  lemma EmptyChapter(id: JobId)
    ensures Chapter([], id) == []
  {
  }

  lemma BusyHasAttempt(h: History, l: Life, id: JobId)
    requires l.Life? && WordsOk(h, l, id)
    ensures l.phase.Busy() ==> l.attempt >= 1
  {
  }

  /** One event and the attempts that are over. */
  lemma OneStepOn(l: Life, e: Entry)
    requires !e.Created? && !e.Joined? && Advance(l, e).Life?
    ensures l.Life? && l.attempt <= Advance(l, e).attempt
    ensures Advance(l, e).phase.Busy() ==> l.phase.Busy() || l.attempt < Advance(l, e).attempt
    ensures e.Abandoned? || e.Finished? ==>
      l.phase.Busy() && e.attempt == l.attempt == Advance(l, e).attempt && !Advance(l, e).phase.Busy()
  {
  }

  /** The late report of an attempt that was abandoned, or was reported before, changes nothing. */
  lemma LateReportsAreRefused(m: Memory, id: JobId, e: Entry, success: bool, robot: RobotId, now: Time)
    requires Recountable(m) && id in m.jobs && e in Chapter(m.log, id) && (e.Abandoned? || e.Finished?)
    ensures Complete(m, id, success, robot, e.attempt, now) == m
  {
    hide Recountable, Chapter, LifeOf, Complete, Sound;
    RecountableIsSound(m);
    LifeOfSound(m, id);
    OverIsEarlier(m.log, id, e);
    ReportsAreChecked(m, id, success, robot, e.attempt, now);
  }

  lemma LifeOfSound(m: Memory, id: JobId)
    requires Sound(m) && id in m.jobs
    ensures var l := LifeOf(m.log, id);
      l.Life? && l.attempt == m.jobs[id].attempt && (UnderWay(m, id) ==> l.phase.Busy())
  {
    hide Steady, LifeOf;
    LifeAt(m, id);
  }

  // ---- Giving work back, and withdrawing it ----

  /** The job is pending again, everything else about it is as it was, and its robot is held. */
  ghost predicate BackInQueue(m: Memory, m': Memory, id: JobId) {
    && id in m.jobs && m'.jobs == m.jobs[id := m.jobs[id].(status := Pending, robot := "", assignedAt := 0)]
    && m'.stopReq == m.stopReq - {id} && m'.robots.Keys == m.robots.Keys
    && forall r :: r in m.robots ==>
         m'.robots[r] ==
         if r == m.jobs[id].robot then m.robots[r].(available := false, selfReported := true) else m.robots[r]
  }

  lemma AbandonPutsBack(m: Memory, id: JobId)
    requires Core(m) && UnderWay(m, id)
    ensures BackInQueue(m, Abandon(m, id), id)
  {
    ReadyMeansPending(m.jobs, id);
    hide Core, Verdict;
  }

  predicate RequeueAnswer(m: Memory, id: JobId, robot: RobotId, wrong: Option<Error>) {
    && (wrong == Some(UnknownJob) <==> id !in m.jobs)
    && (wrong == Some(JobFinished) <==>
          id in m.jobs && m.jobs[id].status in {Status.Done, Status.Failed, Status.Cancelled})
    && (wrong == Some(RobotMismatch) <==> UnderWay(m, id) && robot != "" && m.jobs[id].robot != robot)
    && (wrong.Some? ==> wrong.value in {UnknownJob, JobFinished, RobotMismatch})
  }

  lemma RequeueKeepsPromise(m: Memory, id: JobId, robot: RobotId)
    requires Core(m)
    ensures RequeueAnswer(m, id, robot, RequeueError(m, id, robot))
    ensures var m' := Requeue(m, id, robot);
      if UnderWay(m, id) && (robot == "" || m.jobs[id].robot == robot) then BackInQueue(m, m', id) else m' == m
  {
    hide Core, Abandon, BackInQueue;
    if UnderWay(m, id) { AbandonPutsBack(m, id); }
  }

  /** The open request is for the very assignment the job has now. */
  predicate RequestFits(m: Memory, id: JobId) {
    && id in m.jobs && id in m.stopReq
    && m.stopReq[id].robot == m.jobs[id].robot && m.stopReq[id].attempt == m.jobs[id].attempt
  }

  predicate AckAnswer(m: Memory, robot: RobotId, id: JobId, wrong: Option<Error>) {
    && (wrong == Some(ReplanOff) <==> !m.cfg.replan.enabled)
    && (wrong == Some(UnknownJob) <==> m.cfg.replan.enabled && id !in m.jobs)
    && (wrong == Some(RobotMismatch) <==>
          m.cfg.replan.enabled && id in m.jobs && m.jobs[id].robot != "" && m.jobs[id].robot != robot)
    && (wrong == None <==>
          m.cfg.replan.enabled && UnderWay(m, id) && m.jobs[id].robot == robot && RequestFits(m, id))
    && (wrong.Some? ==> wrong.value in {ReplanOff, UnknownJob, RobotMismatch, NoStopRequest})
  }

  lemma AckKeepsPromise(m: Memory, robot: RobotId, id: JobId)
    requires Core(m)
    ensures AckAnswer(m, robot, id, AckError(m, robot, id))
    ensures var m' := AckStop(m, robot, id);
      if AckError(m, robot, id).None? then BackInQueue(m, m', id) else m' == m
  {
    assert id in m.jobs && UnderWay(m, id) ==> m.jobs[id].robot != "";
    hide Core, Abandon, BackInQueue;
    if UnderWay(m, id) { AbandonPutsBack(m, id); }
  }

  /** A robot is declared gone: it is held, and all that it holds is pending again, oldest first. */
  ghost predicate ReplanPromise(m: Memory, robot: RobotId, m': Memory, r: Outcome<seq<JobId>>) {
    && (r == Err(ReplanOff) <==> !m.cfg.replan.enabled)
    && (r == Err(UnknownRobot) <==> m.cfg.replan.enabled && robot !in m.robots)
    && (r.Ok? <==> m.cfg.replan.enabled && robot in m.robots)
    && (r.Err? ==> m' == m)
    && (r.Ok? ==>
          && Distinct(r.value) && (forall id :: id in r.value <==> UnderWay(m, id) && m.jobs[id].robot == robot)
          && (forall i, k :: 0 <= i < k < |r.value| ==>
                && r.value[i] in m.jobs && r.value[k] in m.jobs
                && m.jobs[r.value[i]].seqNo < m.jobs[r.value[k]].seqNo)
          && m'.jobs.Keys == m.jobs.Keys
          && (forall id :: id in m.jobs ==>
                m'.jobs[id] ==
                if id in r.value then m.jobs[id].(status := Pending, robot := "", assignedAt := 0) else m.jobs[id])
          && m'.robots == m.robots[robot := m.robots[robot].(available := false, selfReported := true)])
  }

  lemma ReplanKeepsPromise(m: Memory, robot: RobotId, r: Outcome<seq<JobId>>)
    requires Core(m)
    requires r == if ReplanError(m, robot).Some? then Err(ReplanError(m, robot).value)
      else Ok(JobsOfRobot(m.jobs, robot, true))
    ensures ReplanPromise(m, robot, ReplanRobot(m, robot), r)
  {
    hide Core, AbandonAll, JobsOfRobot, HeldBack;
    if ReplanError(m, robot).None? {
      HeldInOrder(m, robot);
      HoldingGivesBack(m, robot);
    }
    hide ReplanRobot;
  }

  lemma HoldingGivesBack(m: Memory, robot: RobotId)
    requires Core(m) && ReplanError(m, robot).None?
    ensures var ids := JobsOfRobot(m.jobs, robot, true); var m' := ReplanRobot(m, robot);
      && m'.jobs.Keys == m.jobs.Keys
      && (forall id :: id in m.jobs ==>
            m'.jobs[id] ==
            if id in ids then m.jobs[id].(status := Pending, robot := "", assignedAt := 0) else m.jobs[id])
      && m'.robots == m.robots[robot := m.robots[robot].(available := false, selfReported := true)]
  {
    hide Core, AbandonAll, JobsOfRobot;
    HeldInOrder(m, robot);
    ReplanGivesBackEverything(m, robot);
    OnlyOneIsHeld(m, robot, JobsOfRobot(m.jobs, robot, true));
  }

  lemma HeldInOrder(m: Memory, robot: RobotId)
    requires Core(m)
    ensures var ids := JobsOfRobot(m.jobs, robot, true);
      && Distinct(ids) && (forall id :: id in ids <==> UnderWay(m, id) && m.jobs[id].robot == robot)
      && forall i, k :: 0 <= i < k < |ids| ==>
           ids[i] in m.jobs && ids[k] in m.jobs && m.jobs[ids[i]].seqNo < m.jobs[ids[k]].seqNo
  {
    hide Core;
    QueueOfSet(m, BySubmission, HeldSet(m.jobs, robot, true));
  }

  lemma OnlyOneIsHeld(m: Memory, robot: RobotId, ids: seq<JobId>)
    requires robot in m.robots && Distinct(ids)
    requires forall id :: id in ids ==> UnderWay(m, id) && m.jobs[id].robot == robot
    ensures var m' := AbandonAll(m.(robots := HeldBack(m.robots, robot)), ids);
      && m'.jobs.Keys == m.jobs.Keys
      && m'.robots == m.robots[robot := m.robots[robot].(available := false, selfReported := true)]
  {
    hide AbandonAll;
    var m1 := m.(robots := HeldBack(m.robots, robot));
    assert forall i :: 0 <= i < |ids| ==> ids[i] in ids;
    AbandonAllOnOne(m1, ids, robot);
    AbandonAllLeavesOthers(m1, ids);
  }

  predicate CancelAnswer(m: Memory, id: JobId, wrong: Option<Error>) {
    && (wrong == Some(UnknownJob) <==> id !in m.jobs)
    && (wrong == Some(JobInFlight) <==> UnderWay(m, id))
    && (wrong == Some(JobFinished) <==>
          id in m.jobs && (m.jobs[id].status == Status.Done || m.jobs[id].status == Status.Failed))
    && (wrong == None <==> id in m.jobs && (m.jobs[id].status.Waiting() || m.jobs[id].status == Status.Cancelled))
  }

  lemma CancelKeepsPromise(m: Memory, id: JobId, now: Time)
    requires Core(m)
    ensures CancelAnswer(m, id, CancelError(m, id))
    ensures var m' := Cancel(m, id, now);
      if id in m.jobs && m.jobs[id].status.Waiting() then
        && OthersKeep(m.jobs, m'.jobs, id)
        && m'.jobs[id] == m.jobs[id].(status := Status.Cancelled, completedAt := Millis(now))
        && m'.robots == m.robots && m'.dedup == m.dedup && m'.stopReq == m.stopReq
      else m' == m
  {
    hide Core, OthersKeep, Refreshed;
    if id in m.jobs && m.jobs[id].status.Waiting() {
      WaitingNamesNoRobot(m, id);
      RefreshKeepsOthers(m.jobs, id, CancelledJob(m.jobs[id], now));
    }
  }

  lemma WaitingNamesNoRobot(m: Memory, id: JobId)
    requires Core(m) && id in m.jobs && m.jobs[id].status.Waiting()
    ensures m.jobs[id].robot == ""
  {
    hide JobsOk, Ready, Acyclic, DepsLive, Stable, KeysLive, RobotsOk, Reserved;
  }

  lemma RefreshKeepsOthers(jobs: Jobs, id: JobId, j: Job)
    requires id in jobs && !j.status.Waiting()
    ensures OthersKeep(jobs, Refreshed(jobs[id := j]), id) && Refreshed(jobs[id := j])[id] == j
  {
    hide Verdict;
  }

  ghost predicate RemoveAnswer(m: Memory, robot: RobotId, deleted: bool, wrong: Option<Error>) {
    var held := exists id :: UnderWay(m, id) && m.jobs[id].robot == robot;
    && (wrong == Some(UnknownRobot) <==> robot !in m.robots)
    && (wrong == Some(RobotBusy) <==> robot in m.robots && held)
    && (wrong == Some(StoreFailed) <==> robot in m.robots && !held && !deleted)
    && (wrong == None <==> robot in m.robots && !held && deleted)
  }

  lemma RemoveKeepsPromise(m: Memory, robot: RobotId, deleted: bool)
    ensures RemoveAnswer(m, robot, deleted, RemoveError(m, robot, deleted))
  {
    assert HeldInFlight(m.jobs, robot) <==> exists id :: UnderWay(m, id) && m.jobs[id].robot == robot by {
      if id :| UnderWay(m, id) && m.jobs[id].robot == robot { assert m.jobs[id].status.InFlight(); }
      if id :| id in m.jobs && m.jobs[id].robot == robot && m.jobs[id].status.InFlight() { assert UnderWay(m, id); }
    }
    hide HeldInFlight, UnderWay;
  }

  // ---- Registrations ----

  ghost predicate Working(jobs: Jobs, robot: RobotId) {
    exists id :: id in jobs && jobs[id].status == Assigned && jobs[id].robot == robot
  }

  /** What a robot is known as after it registers or is heard from. What it says about its availability is
      believed unless it has an assigned job; a fault it reports during one is remembered, and gives that
      job back when faults do. */
  ghost predicate UpsertPromise(m: Memory, d: Declaration, given: bool, now: Time, m': Memory) {
    && d.id in m'.robots && m'.robots == m.robots[d.id := m'.robots[d.id]] && m'.jobs.Keys == m.jobs.Keys
    && Declared(m'.robots[d.id], d, now)
    && (d.id !in m.robots ==>
          var r' := m'.robots[d.id];
          r'.id == d.id && r'.available == d.available && r'.load == d.load && !r'.selfReported && m'.jobs == m.jobs)
    && (d.id in m.robots ==> HeardAgain(m, d, given, m'.robots[d.id]))
    && forall id :: id in m.jobs ==>
         var fault := d.id in m.robots && given && !d.available && m.cfg.replan.enabled && m.cfg.replan.onFault
           && m.jobs[id].status == Assigned && m.jobs[id].robot == d.id;
         m'.jobs[id] ==
         if fault then m.jobs[id].(status := Pending, robot := "", assignedAt := 0) else m.jobs[id]
  }

  predicate Declared(r: Robot, d: Declaration, now: Time) {
    r.location == d.location && r.tool == d.tool && r.stopCapable == d.stopCapable && r.heartbeat == Some(now)
  }

  ghost predicate HeardAgain(m: Memory, d: Declaration, given: bool, r': Robot)
    requires d.id in m.robots
  {
    var r, believed := m.robots[d.id], given && !Working(m.jobs, d.id);
    && r'.id == r.id && r'.load == r.load && r'.available == (if believed then d.available else r.available)
    && r'.selfReported == if believed then !d.available else r.selfReported || (given && !d.available)
  }

  lemma UpsertKeepsPromise(m: Memory, d: Declaration, given: bool, now: Time)
    requires Core(m)
    ensures UpsertPromise(m, d, given, now, Upsert(m, d, given, now))
  {
    hide Core, Upsert, RobotAfter, FaultsOn, Declared, HeardAgain;
    if d.id in m.robots {
      HeartbeatsRespectReservations(m, d, given, now);
      HeardAsDeclared(m, d, given, now);
      forall id | id in m.jobs
        ensures FaultsOn(m, d, given, id) <==>
          given && !d.available && m.cfg.replan.enabled && m.cfg.replan.onFault
          && m.jobs[id].status == Assigned && m.jobs[id].robot == d.id {
        FaultIs(m, d, given, id);
      }
    } else {
      FirstHeard(m, d, given, now);
    }
  }

  lemma FaultIs(m: Memory, d: Declaration, given: bool, id: JobId)
    requires id in m.jobs
    ensures FaultsOn(m, d, given, id) <==>
      given && !d.available && m.cfg.replan.enabled && m.cfg.replan.onFault
      && m.jobs[id].status == Assigned && m.jobs[id].robot == d.id
  {
  }

  lemma HeardAsDeclared(m: Memory, d: Declaration, given: bool, now: Time)
    requires d.id in m.robots
    ensures Declared(RobotAfter(m, d, given, now), d, now) && HeardAgain(m, d, given, RobotAfter(m, d, given, now))
  {
    assert Operations.Busy(m.jobs, d.id) <==> Working(m.jobs, d.id);
    hide Operations.Busy, Working;
  }

  lemma FirstHeard(m: Memory, d: Declaration, given: bool, now: Time)
    requires d.id !in m.robots
    ensures UpsertPromise(m, d, given, now, Upsert(m, d, given, now))
  {
    hide HeardAgain;
  }

  /** What the store keeps of a robot is all but what it declares about itself with every heartbeat. */
  lemma KeptIsTheRest(r: Robot)
    ensures var k := Storage.Kept(r);
      && k.id == r.id && k.location == r.location && k.tool == r.tool && k.available == r.available
      && k.load == r.load && k.heartbeat == r.heartbeat && !k.stopCapable && !k.selfReported
  {
  }

  // ---- The sweep ----

  /** The robot was heard from within the timeout, by a clock that is not far ahead, or never. */
  predicate InTouch(r: Robot, timeout: Duration, now: Time) {
    r.heartbeat.None? || (now - r.heartbeat.value < timeout && r.heartbeat.value - now <= MINUTE)
  }

  ghost predicate Reported(r: SweepResult, id: JobId) { id in r.unknown || id in r.requeued || id in r.stopRequested }

  ghost predicate OnRegistered(m: Memory, id: JobId) {
    id in m.jobs && m.jobs[id].status == Assigned && m.jobs[id].robot in m.robots
  }

  /** The robot is in touch: the job stays on it, and no stop is asked for any more. */
  ghost predicate Spared(m: Memory, m': Memory, r: SweepResult, id: JobId)
    requires id in m.jobs
  {
    id in m'.jobs && m'.jobs[id] == m.jobs[id] && id !in m'.stopReq && !Reported(r, id)
  }

  /** The robot is silent and gives up its job at once: it cannot confirm a stop, or was asked in vain and
      that is allowed. */
  ghost predicate TakenAway(m: Memory, m': Memory, r: SweepResult, id: JobId)
    requires id in m.jobs
  {
    && id in m'.jobs && m'.jobs[id] == m.jobs[id].(status := Pending, robot := "", assignedAt := 0)
    && id in r.requeued && id !in r.unknown && id !in r.stopRequested && id !in m'.stopReq
  }

  ghost predicate GivenUp(m: Memory, m': Memory, r: SweepResult, id: JobId)
    requires id in m.jobs
  {
    && id in m'.jobs && m'.jobs[id] == m.jobs[id].(status := Status.Unknown)
    && id in r.unknown && id !in r.requeued && id !in r.stopRequested
  }

  /** The robot is asked to stop, and has until the deadline to confirm. */
  ghost predicate AskedToStop(m: Memory, m': Memory, r: SweepResult, id: JobId, now: Time)
    requires id in m.jobs
  {
    var timeout := if m.cfg.replan.stopAckTimeout > 0 then m.cfg.replan.stopAckTimeout else DEFAULT_STOP_ACK_TIMEOUT;
    && id in m'.jobs && m'.jobs[id] == m.jobs[id]
    && id in r.stopRequested && id !in r.unknown && id !in r.requeued && id in m'.stopReq
    && m'.stopReq[id] == StopRequest(m.jobs[id].robot, m.jobs[id].attempt, now, now + timeout, false)
  }

  ghost predicate LeftAlone(m: Memory, m': Memory, r: SweepResult, id: JobId)
    requires id in m.jobs
  {
    && id in m'.jobs && m'.jobs[id] == m.jobs[id] && !Reported(r, id)
    && (id in m.stopReq <==> id in m'.stopReq) && (id in m.stopReq ==> m'.stopReq[id] == m.stopReq[id])
  }

  /** What the sweep does with each job, by what is known of its robot. */
  ghost predicate SweptOne(m: Memory, timeout: Duration, now: Time, m': Memory, r: SweepResult, id: JobId)
    requires id in m.jobs
  {
    if !OnRegistered(m, id) then LeftAlone(m, m', r, id)
    else
      var robot := m.robots[m.jobs[id].robot];
      if InTouch(robot, timeout, now) then Spared(m, m', r, id)
      else if !(m.cfg.replan.enabled && m.cfg.replan.onStale) then GivenUp(m, m', r, id)
      else if !robot.stopCapable then TakenAway(m, m', r, id)
      else if !RequestFits(m, id) then AskedToStop(m, m', r, id, now)
      else if now < m.stopReq[id].timeoutAt then LeftAlone(m, m', r, id)
      else if m.cfg.replan.allowUnconfirmed then TakenAway(m, m', r, id)
      else GivenUp(m, m', r, id)
  }

  ghost predicate SweepPromise(m: Memory, timeout: Duration, now: Time, m': Memory, r: SweepResult) {
    && m'.jobs.Keys == m.jobs.Keys && (forall id :: Reported(r, id) ==> id in m.jobs)
    && forall id :: id in m.jobs ==> SweptOne(m, timeout, now, m', r, id)
  }

  lemma SweepKeepsPromise(m: Memory, timeout: Duration, now: Time)
    requires Core(m)
    ensures SweepPromise(m, timeout, now, Sweep(m, timeout, now), SweepReport(m, timeout, now))
  {
    hide Core, Sweep, SweepReport, SweptOne;
    SweepDoesWhatItReports(m, timeout, now);
    var m', r := Sweep(m, timeout, now), SweepReport(m, timeout, now);
    forall id ensures Reported(r, id) ==> id in m.jobs
      ensures id in m.jobs ==> SweptOne(m, timeout, now, m', r, id)
    {
      WhatIsReported(m, timeout, now, id);
      if id in m.jobs {
        WhatIsRequested(m, timeout, now, id);
        SweptAsReported(m, timeout, now, m', r, id);
      }
    }
  }

  /** The sweep takes the robot for silent. */
  ghost predicate Silenced(m: Memory, timeout: Duration, now: Time, id: JobId) {
    OnRegistered(m, id) && !InTouch(m.robots[m.jobs[id].robot], timeout, now)
  }

  lemma WhoIsSilenced(m: Memory, timeout: Duration, now: Time, id: JobId)
    requires Core(m)
    ensures id in Stale(m, timeout, now) <==> Silenced(m, timeout, now, id)
    ensures id in BackSet(m, timeout, now) <==> OnRegistered(m, id) && !Silenced(m, timeout, now, id)
    ensures Distinct(Stale(m, timeout, now)) && forall x :: x in Stale(m, timeout, now) ==> x in m.jobs
  {
    QueueOfSet(m, BySubmission, StaleSet(m, timeout, now));
    hide Core, Queue;
  }

  lemma WhatIsReported(m: Memory, timeout: Duration, now: Time, id: JobId)
    requires Core(m)
    ensures var r := SweepReport(m, timeout, now); var m1 := Withdrawals(m, timeout, now);
      && (Reported(r, id) ==> Silenced(m, timeout, now, id))
      && (Silenced(m, timeout, now, id) ==>
            if ReplansSilent(m.cfg) then
              && (id in r.unknown <==> StopDecision(m1, id, now) == CallUnknown)
              && (id in r.requeued <==> StopDecision(m1, id, now) == SendBack)
              && (id in r.stopRequested <==> StopDecision(m1, id, now) == AskNow)
            else id in r.unknown && id !in r.requeued && id !in r.stopRequested)
  {
    WhoIsSilenced(m, timeout, now, id);
    hide Core, Stale, Deciding, StopDecision, Silenced, BackSet;
  }

  function RequestAt(m: Memory, id: JobId): Option<StopRequest> {
    if id in m.stopReq then Some(m.stopReq[id]) else None
  }

  lemma {:induction false} RequestAfterAll(m: Memory, ids: seq<JobId>, now: Time, id: JobId)
    requires Distinct(ids) && id in m.jobs && forall x :: x in ids ==> x in m.jobs
    ensures RequestAt(DecideAll(m, ids, now), id) == RequestAt(if id in ids then Decide(m, id, now) else m, id)
    decreases |ids|
  {
    hide Decide;
    if ids != [] {
      var m1, rest := Decide(m, ids[0], now), ids[1..];
      assert forall x :: x in rest ==> x in ids;
      assert ids[0] !in rest;
      assert id in ids <==> id == ids[0] || id in rest;
      DecisionsAreLocal(m, ids[0], id, now);
      if id != ids[0] { SameDecision(m, m1, id, now); }
      RequestAfterAll(m1, rest, now, id);
    }
  }

  lemma DecisionsAreLocal(m: Memory, id: JobId, x: JobId, now: Time)
    requires id in m.jobs && x in m.jobs
    ensures var m1 := Decide(m, id, now);
      && m1.jobs == m.jobs && m1.robots == m.robots && m1.cfg == m.cfg
      && (x != id ==> RequestAt(m1, x) == RequestAt(m, x))
  {
    hide AckTimeout, RequestFits;
  }

  lemma SameDecision(m: Memory, m1: Memory, x: JobId, now: Time)
    requires x in m.jobs && m1.jobs == m.jobs && m1.robots == m.robots && m1.cfg == m.cfg
    requires RequestAt(m1, x) == RequestAt(m, x)
    ensures RequestAt(Decide(m1, x, now), x) == RequestAt(Decide(m, x, now), x)
  {
    hide AckTimeout;
  }

  lemma {:induction false} RequestAfterAbandon(m: Memory, ids: seq<JobId>, id: JobId)
    requires forall x :: x in ids ==> x in m.jobs
    ensures RequestAt(AbandonAll(m, ids), id) == if id in ids then None else RequestAt(m, id)
    decreases |ids|
  {
    hide Verdict;
    if ids != [] {
      assert forall x :: x in ids <==> x == ids[0] || x in ids[1..];
      RequestAfterAbandon(Abandon(m, ids[0]), ids[1..], id);
    }
  }

  lemma {:induction false} RequestAfterMark(m: Memory, ids: seq<JobId>, id: JobId)
    ensures RequestAt(MarkAllUnknown(m, ids), id) == RequestAt(m, id)
    decreases |ids|
  {
    if ids != [] {
      RequestAfterMark(if ids[0] in m.jobs then MarkUnknown(m, ids[0]) else m, ids[1..], id);
    }
  }

  /** The stop request of a job after the sweep. */
  lemma WhatIsRequested(m: Memory, timeout: Duration, now: Time, id: JobId)
    requires Core(m) && id in m.jobs
    ensures var r, m' := SweepReport(m, timeout, now), Sweep(m, timeout, now);
      var m1 := Withdrawals(m, timeout, now);
      RequestAt(m', id) ==
        if id in r.requeued then None
        else if ReplansSilent(m.cfg) && Silenced(m, timeout, now, id) then RequestAt(Decide(m1, id, now), id)
        else if OnRegistered(m, id) && !Silenced(m, timeout, now, id) then None
        else RequestAt(m, id)
  {
    WhoIsSilenced(m, timeout, now, id);
    hide Core, Stale, Silenced, BackSet, OnRegistered, Decide, DecideAll, AbandonAll, MarkAllUnknown;
    var r, m1, stale := SweepReport(m, timeout, now), Withdrawals(m, timeout, now), Stale(m, timeout, now);
    if ReplansSilent(m.cfg) {
      var m2 := DecideAll(m1, stale, now);
      RequestAfterAll(m1, stale, now, id);
      DecidingKeepsJobs(m1, stale, now);
      RequestAfterAbandon(m2, r.requeued, id);
      RequestAfterMark(AbandonAll(m2, r.requeued), r.unknown, id);
    } else {
      RequestAfterMark(m1, stale, id);
    }
  }

  lemma {:induction false} DecidingKeepsJobs(m: Memory, ids: seq<JobId>, now: Time)
    ensures DecideAll(m, ids, now).jobs == m.jobs
    decreases |ids|
  {
    if ids != [] {
      DecidingKeepsJobs(if ids[0] in m.jobs then Decide(m, ids[0], now) else m, ids[1..], now);
    }
  }

  lemma SweptAsReported(m: Memory, timeout: Duration, now: Time, m': Memory, r: SweepResult, id: JobId)
    requires id in m.jobs && id in m'.jobs
    requires id in r.requeued ==> m'.jobs[id] == m.jobs[id].(status := Pending, robot := "", assignedAt := 0)
    requires id in r.unknown ==> m'.jobs[id] == m.jobs[id].(status := Status.Unknown)
    requires id !in r.requeued && id !in r.unknown ==> m'.jobs[id] == m.jobs[id]
    requires Reported(r, id) ==> Silenced(m, timeout, now, id)
    requires var m1 := Withdrawals(m, timeout, now);
      && (Silenced(m, timeout, now, id) ==>
            if ReplansSilent(m.cfg) then
              && (id in r.unknown <==> StopDecision(m1, id, now) == CallUnknown)
              && (id in r.requeued <==> StopDecision(m1, id, now) == SendBack)
              && (id in r.stopRequested <==> StopDecision(m1, id, now) == AskNow)
            else id in r.unknown && id !in r.requeued && id !in r.stopRequested)
      && RequestAt(m', id) ==
           if id in r.requeued then None
           else if ReplansSilent(m.cfg) && Silenced(m, timeout, now, id) then RequestAt(Decide(m1, id, now), id)
           else if OnRegistered(m, id) && !Silenced(m, timeout, now, id) then None
           else RequestAt(m, id)
    ensures SweptOne(m, timeout, now, m', r, id)
  {
    if Silenced(m, timeout, now, id) {
      SilencedKeepsRequest(m, timeout, now, id);
    }
    hide IsSilent, BackSet;
  }

  lemma SilencedKeepsRequest(m: Memory, timeout: Duration, now: Time, id: JobId)
    requires Silenced(m, timeout, now, id)
    ensures RequestAt(Withdrawals(m, timeout, now), id) == RequestAt(m, id)
  {
  }

  // ---- The archive and tool answers ----

  predicate LongFinished(j: Job, after: Duration, now: Time) {
    && (j.status == Status.Done || j.status == Status.Failed || j.status == Status.Cancelled)
    && 0 < j.completedAt && Millis(after) <= Millis(now) - j.completedAt
  }

  /** Jobs that ended long enough ago, with everything that depends on them. */
  ghost predicate MayLeave(m: Memory, now: Time, ids: set<JobId>) {
    && (forall id :: id in ids ==> id in m.jobs && LongFinished(m.jobs[id], m.cfg.archiveAfter, now))
    && forall x, d :: x in m.jobs && d in m.jobs[x].deps && d in ids ==> x in ids
  }

  /** The jobs that leave are all that may; their keys are free again, and nothing else changes. */
  ghost predicate ArchivePromise(m: Memory, now: Time, can: bool, saved: bool, m': Memory, r: Outcome<set<JobId>>) {
    var on := can && m.cfg.archiveAfter > 0;
    && (r.Err? <==> on && !saved && exists ids :: ids != {} && MayLeave(m, now, ids))
    && (r.Err? ==> m' == m && r.error == StoreFailed)
    && (r.Ok? ==>
          && (!on ==> r.value == {}) && MayLeave(m, now, r.value)
          && (on ==> forall ids :: MayLeave(m, now, ids) ==> ids <= r.value)
          && m'.robots == m.robots && m'.jobs == m.jobs - r.value && m'.stopReq == m.stopReq - r.value
          && (forall k :: k in m'.dedup <==> k in m.dedup && m.dedup[k] !in r.value)
          && forall k :: k in m'.dedup ==> m'.dedup[k] == m.dedup[k])
  }

  lemma MayLeaveIsCanGo(m: Memory, now: Time, ids: set<JobId>)
    ensures MayLeave(m, now, ids) <==> CanGo(m.jobs, Cutoff(m.cfg, now), ids)
  {
  }

  lemma ArchiveKeepsPromise(m: Memory, now: Time, can: bool, saved: bool, m': Memory, r: Outcome<set<JobId>>)
    requires KeysLive(m.jobs, m.dedup)
    requires var ids := Departing(m.jobs, Cutoff(m.cfg, now)); var off := !can || m.cfg.archiveAfter <= 0 || ids == {};
      && r == (if off then Ok({}) else if saved then Ok(ids) else Err(StoreFailed))
      && m' == if off || !saved then m else WithoutJobs(m, ids)
    ensures ArchivePromise(m, now, can, saved, m', r)
  {
    hide MayLeave, CanGo, Departing;
    var ids := Departing(m.jobs, Cutoff(m.cfg, now));
    forall s: set<JobId> ensures MayLeave(m, now, s) ==> s <= ids {
      MayLeaveIsCanGo(m, now, s);
      DepartingIsLargest(m.jobs, Cutoff(m.cfg, now), s);
    }
    DepartingIsLargest(m.jobs, Cutoff(m.cfg, now), ids);
    MayLeaveIsCanGo(m, now, ids);
    NothingMayLeave(m, now);
    KeysLeaveWithTheirJobs(m, ids);
    hide Cutoff, KeysLive, WithoutJobs;
  }

  lemma NothingMayLeave(m: Memory, now: Time)
    ensures MayLeave(m, now, {})
  {
  }

  lemma KeysLeaveWithTheirJobs(m: Memory, ids: set<JobId>)
    requires KeysLive(m.jobs, m.dedup)
    ensures var m' := WithoutJobs(m, ids);
      && (forall k :: k in m'.dedup <==> k in m.dedup && m.dedup[k] !in ids)
      && (forall k :: k in m'.dedup ==> m'.dedup[k] == m.dedup[k])
      && m'.robots == m.robots && m'.jobs == m.jobs - ids && m'.stopReq == m.stopReq - ids
  {
  }

  /** A robot that was asked is believed to carry what it answered just now, or nothing when it stayed
      silent; robots that left are forgotten. */
  ghost predicate ToolsPromise(m: Memory, asked: set<RobotId>, answers: map<RobotId, string>, now: Time, m': Memory) {
    && m'.(seen := m.seen) == m
    && (!m.cfg.toolCheck.enabled ==> m'.seen == m.seen)
    && (m.cfg.toolCheck.enabled ==>
          && (forall r :: r in m'.seen <==> if r in asked then r in answers else r in m.seen && r in m.robots)
          && forall r :: r in m'.seen ==>
               m'.seen[r] == if r in answers then ToolSeen(answers[r], now) else m.seen[r])
  }

  lemma ToolsKeepPromise(m: Memory, asked: set<RobotId>, answers: map<RobotId, string>, now: Time)
    requires answers.Keys <= asked
    ensures ToolsPromise(m, asked, answers, now, RecordTools(m, asked, answers, now))
  {
    assert forall r :: r in asked && r in answers ==> r in m.seen.Keys + asked;
  }
}
