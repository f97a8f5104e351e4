/** What each operation writes to the store. */
module Writing {
  import opened Base
  import opened Model
  import opened Graph
  import opened Blocking
  import opened Operations
  import opened Invariants
  import opened Archiving
  import opened Moves
  import opened Routing
  import opened Storage
  import opened Dispatching
  import opened Workings

  /** Whatever writes fail, the store goes on holding the jobs memory holds, under their keys and
      numbers; if it agreed with memory altogether and no write fails meanwhile, it agrees afterwards. */
  ghost predicate Through(b: Backend, m: Memory, d: Disk, m': Memory, d': Disk) {
    && d.writes <= d'.writes
    && (SameRecords(m.jobs, d.jobs) ==> SameRecords(m'.jobs, d'.jobs))
    && (Agrees(m.jobs, m.robots, d, b.forgets) && Healthy(b.fails, d.writes, d'.writes) ==>
      Agrees(m'.jobs, m'.robots, d', b.forgets))
  }

  /** Everything was written in one transaction: the jobs `own` and, unless `quiet`, jobs whose verdict
      may have changed with them. */
  ghost predicate OneBatch(b: Backend, d: Disk, m': Memory, d': Disk, own: set<JobId>, quiet: bool) {
    exists js, rs :: InOneBatch(b, d, m', d', js, rs) && own <= js && (quiet ==> js == own)
  }

  ghost predicate InOneBatch(b: Backend, d: Disk, m': Memory, d': Disk, js: set<JobId>, rs: set<RobotId>) {
    js <= m'.jobs.Keys && rs <= m'.robots.Keys && d' == Committed(b.fails, d, m'.jobs, m'.robots, js, rs)
  }

  function AfterAdd(b: Backend, m: Memory, j: Job, stored: Job, d: Disk): Disk {
    if AddError(m.jobs, j).Some? then d else SaveJob(d, b.fails, stored)
  }

  /** A retried job is written first, by itself; then, one by one, the jobs whose verdict changes. */
  ghost predicate AfterRetry(b: Backend, m: Memory, id: JobId, j: Job, now: Time, d: Disk, d': Disk)
    requires id in m.jobs
  {
    var retried := RetriedJob(m, id, j, now);
    Stable(m.jobs[id := retried]) ==> d' == SaveJob(d, b.fails, retried)
  }

  /** A heartbeat declares a fault in the middle of a job, and such faults give work back. */
  ghost predicate FaultGivesWorkBack(m: Memory, r: Declaration, given: bool) {
    r.id in m.robots && given && Operations.Busy(m.jobs, r.id) && !r.available && m.cfg.replan.enabled
      && m.cfg.replan.onFault
  }

  /** What an operation on memory `m` and store `d` may leave in the store: the exact contents where
      the writes follow from the operation, and what a failed write may cost where the order of the
      writes is open. A batch is one transaction only in a store that has them. */
  ghost predicate Writes(b: Backend, m: Memory, d: Disk, op: Operation, d': Disk)
    requires KeysLive(m.jobs, m.dedup)
  {
    var m' := Apply(m, op);
    && Through(b, m, d, m', d')
    && match op
       case AddJob(j, now, saved) => saved == !b.fails(d.writes) && d' == AfterAdd(b, m, j, Stored(m, j, now), d)
       case SubmitJob(j, now, saved) =>
         && saved == !b.fails(d.writes)
         && (match SubmissionOf(m, j)
             case NewJob => d' == AfterAdd(b, m, j, Stored(m, j, now), d)
             case Retry => AfterRetry(b, m, m.dedup[j.key], j, now, d, d')
             case _ => d' == d)
       case UpsertRobot(r, given, now) =>
         !FaultGivesWorkBack(m, r, given) ==> r.id in m'.robots && d' == SaveRobot(d, b.fails, m'.robots[r.id])
       case DispatchOnce(disk, fails, now) => disk == d && fails == b.fails && d' == Dispatch(m, d, b.fails, now).disk
       case CompleteJob(id, success, robot, attempt, now) =>
         if CompleteError(m, id, robot, attempt).Some? then d' == d
         else b.batches ==> OneBatch(b, d, m', d', {id}, Stable(m.jobs[id := EndedJob(m.jobs[id], success, now)]))
       case CancelJob(id, now) =>
         if CancelError(m, id).Some? || m.jobs[id].status == Cancelled then d' == d
         else b.batches ==> OneBatch(b, d, m', d', {id}, Stable(m.jobs[id := CancelledJob(m.jobs[id], now)]))
       case RequeueJob(id, robot) =>
         if RequeueError(m, id, robot).Some? || m.jobs[id].status.Waiting() then d' == d
         else b.batches ==> OneBatch(b, d, m', d', {id}, true)
       case Acknowledge(robot, id) => if AckError(m, robot, id).Some? then d' == d else b.batches ==>
         OneBatch(b, d, m', d', {id}, true)
       case ReplanFor(robot) =>
         if ReplanError(m, robot).Some? then d' == d else b.batches ==>
           OneBatch(b, d, m', d', HeldSet(m.jobs, robot, true), true)
       case DetectStale(_, _) => true
       case RemoveRobot(robot, saved) =>
         && saved == (!b.forgets || !b.fails(d.writes))
         && d' == (if robot !in m.robots || HeldInFlight(m.jobs, robot) || !b.forgets then d
                   else Tried(if saved then d.(robots := d.robots - {robot}) else d))
       case ArchiveOld(now, saved) =>
         var ids := Departing(m.jobs, Cutoff(m.cfg, now));
         && saved == (b.archives && !b.fails(d.writes))
         && d' == (if !b.archives || m.cfg.archiveAfter <= 0 || ids == {} then d
           else Tried(if saved then WithoutLive(d, ids) else d))
       case _ => d' == d
  }

  /** An operation written in one transaction is atomic: wherever it stops, the store agrees with memory
      as it was before or as it is afterwards. */
  lemma OneBatchIsAtomic(b: Backend, m: Memory, d: Disk, m': Memory, d': Disk, own: set<JobId>, quiet: bool)
    requires Agrees(m.jobs, m.robots, d, b.forgets) && Through(b, m, d, m', d') && OneBatch(b, d, m', d', own, quiet)
    ensures d'.writes == d.writes + 1
    ensures Agrees(m.jobs, m.robots, d', b.forgets) || Agrees(m'.jobs, m'.robots, d', b.forgets)
  {
    var js, rs :| InOneBatch(b, d, m', d', js, rs);
    hide *;
    OneCommitIsAtomic(b, m, d, m', d', js, rs);
  }

  lemma OneCommitIsAtomic(b: Backend, m: Memory, d: Disk, m': Memory, d': Disk, js: set<JobId>, rs: set<RobotId>)
    requires Agrees(m.jobs, m.robots, d, b.forgets) && Through(b, m, d, m', d') && InOneBatch(b, d, m', d', js, rs)
    ensures d'.writes == d.writes + 1
    ensures Agrees(m.jobs, m.robots, d', b.forgets) || Agrees(m'.jobs, m'.robots, d', b.forgets)
  {
    hide WithAll, Agrees, SameRecords, Picked;
    TriedAgrees(m.jobs, m.robots, d, b.forgets);
    AllCounted(d, Picked(m'.jobs, js), Picked(m'.robots, rs));
  }

  lemma AllCounted(d: Disk, js: Jobs, rs: Robots)
    ensures WithAll(d, js, rs).writes == d.writes
  {
  }

  /** A failed write is only counted. */
  lemma TriedAgrees(jobs: Jobs, robots: Robots, d: Disk, exact: bool)
    ensures Agrees(jobs, robots, d, exact) ==> Agrees(jobs, robots, Tried(d), exact)
  {
    hide JobsAgree, RobotsAgree, RecordsNamed;
  }

  // ---- Agreement after a write ----

  /** A pass without failed writes leaves the store in agreement. */
  lemma {:induction false} PassAgrees(p: Pass, fails: Faults, ids: seq<JobId>, now: Time, exact: bool)
    requires Named(p.mem.jobs, p.mem.robots)
    ensures var p' := OfferAll(p, fails, ids, now);
      && p'.disk.writes >= p.disk.writes
      && (Agrees(p.mem.jobs, p.mem.robots, p.disk, exact) && Healthy(fails, p.disk.writes, p'.disk.writes) ==>
        Agrees(p'.mem.jobs, p'.mem.robots, p'.disk, exact))
    decreases |ids|
  {
    if ids != [] {
      OfferAgrees(p, fails, ids[0], now, exact);
      var p1 := Offer(p, fails, ids[0], now);
      hide Offer, Agrees, SameRecords, Named;
      PassAgrees(p1, fails, ids[1..], now, exact);
      var p' := OfferAll(p1, fails, ids[1..], now);
      if Healthy(fails, p.disk.writes, p'.disk.writes) {
        assert Healthy(fails, p.disk.writes, p1.disk.writes) && Healthy(fails, p1.disk.writes, p'.disk.writes);
      }
    }
  }

  lemma OfferAgrees(p: Pass, fails: Faults, id: JobId, now: Time, exact: bool)
    requires Named(p.mem.jobs, p.mem.robots)
    ensures var p' := Offer(p, fails, id, now);
      && p'.disk.writes >= p.disk.writes && Named(p'.mem.jobs, p'.mem.robots)
      && (Agrees(p.mem.jobs, p.mem.robots, p.disk, exact) && Healthy(fails, p.disk.writes, p'.disk.writes) ==>
        Agrees(p'.mem.jobs, p'.mem.robots, p'.disk, exact))
  {
    hide Best, OfferTo, Agrees, SameRecords, Named, Healthy;
    if id in p.mem.jobs {
      var best := Best(p.mem, p.mem.jobs[id], now);
      if best.Some? && best.value in p.mem.robots {
        OfferToAgrees(p, fails, id, best.value, now, exact);
      }
    }
  }

  lemma OfferToAgrees(p: Pass, fails: Faults, id: JobId, r: RobotId, now: Time, exact: bool)
    requires Named(p.mem.jobs, p.mem.robots) && id in p.mem.jobs && r in p.mem.robots
    ensures var p' := OfferTo(p, fails, id, r, now);
      && p'.disk.writes >= p.disk.writes && Named(p'.mem.jobs, p'.mem.robots)
      && (Agrees(p.mem.jobs, p.mem.robots, p.disk, exact) && Healthy(fails, p.disk.writes, p'.disk.writes) ==>
        Agrees(p'.mem.jobs, p'.mem.robots, p'.disk, exact))
  {
    hide Agrees, SameRecords;
    var p' := OfferTo(p, fails, id, r, now);
    if Healthy(fails, p.disk.writes, p'.disk.writes) {
      assert !fails(p.disk.writes) && !fails(p.disk.writes + 1);
      GivenAgrees(p.mem, p.disk, fails, id, r, now, exact);
    }
  }

  /** A pass never brings the store a job it did not hold. */
  lemma {:induction false} PassKeepsRecords(p: Pass, fails: Faults, ids: seq<JobId>, now: Time)
    requires Named(p.mem.jobs, p.mem.robots)
    ensures var p' := OfferAll(p, fails, ids, now);
      SameRecords(p.mem.jobs, p.disk.jobs) ==> SameRecords(p'.mem.jobs, p'.disk.jobs)
    decreases |ids|
  {
    if ids != [] {
      var p1 := Offer(p, fails, ids[0], now);
      OfferKeepsRecords(p, fails, ids[0], now);
      hide Offer, Named, SameRecords;
      PassKeepsRecords(p1, fails, ids[1..], now);
    }
  }

  lemma OfferKeepsRecords(p: Pass, fails: Faults, id: JobId, now: Time)
    requires Named(p.mem.jobs, p.mem.robots)
    ensures var p' := Offer(p, fails, id, now);
      && Named(p'.mem.jobs, p'.mem.robots)
      && (SameRecords(p.mem.jobs, p.disk.jobs) ==> SameRecords(p'.mem.jobs, p'.disk.jobs))
  {
    hide Best, OfferTo, Named, SameRecords;
    if id in p.mem.jobs {
      var best := Best(p.mem, p.mem.jobs[id], now);
      if best.Some? && best.value in p.mem.robots {
        OfferToKeepsRecords(p, fails, id, best.value, now);
      }
    }
  }

  lemma OfferToKeepsRecords(p: Pass, fails: Faults, id: JobId, r: RobotId, now: Time)
    requires Named(p.mem.jobs, p.mem.robots) && id in p.mem.jobs && r in p.mem.robots
    ensures var p' := OfferTo(p, fails, id, r, now);
      && Named(p'.mem.jobs, p'.mem.robots)
      && (SameRecords(p.mem.jobs, p.disk.jobs) ==> SameRecords(p'.mem.jobs, p'.disk.jobs))
  {
    hide SameRecords;
    SavedJobKeepsRecords(p.mem.jobs, Give(p.mem, id, r, now).jobs, p.disk.jobs, id);
  }

  lemma SavedJobKeepsRecords(jobs: Jobs, jobs': Jobs, stored: Jobs, id: JobId)
    requires id in jobs && id in jobs' && jobs' == jobs[id := jobs'[id]] && SameIdentity(jobs[id], jobs'[id])
    ensures SameRecords(jobs, stored) ==> SameRecords(jobs', stored[id := jobs'[id]])
  {
  }

  lemma GivenAgrees(m: Memory, d: Disk, fails: Faults, id: JobId, r: RobotId, now: Time, exact: bool)
    requires Named(m.jobs, m.robots) && id in m.jobs && r in m.robots && !fails(d.writes) && !fails(d.writes + 1)
    ensures var m' := Give(m, id, r, now);
      var d' := SaveJob(SaveRobot(d, fails, m.robots[r].(available := false)), fails, m'.jobs[id]);
      Agrees(m.jobs, m.robots, d, exact) ==> Agrees(m'.jobs, m'.robots, d', exact)
  {
    var m' := Give(m, id, r, now);
    var d1 := SaveRobot(d, fails, m.robots[r].(available := false));
    RobotSavedAgrees(m.jobs, m.robots, m'.robots, d, fails, r, exact);
    JobSavedAgrees(m.jobs, m'.jobs, m'.robots, d1, fails, id, exact);
  }

  lemma RobotSavedAgrees(jobs: Jobs, robots: Robots, robots': Robots, d: Disk, fails: Faults, r: RobotId, exact: bool)
    requires r in robots' && robots' == robots[r := robots'[r]] && robots'[r].id == r && r != "" && !fails(d.writes)
    ensures Agrees(jobs, robots, d, exact) ==> Agrees(jobs, robots', SaveRobot(d, fails, robots'[r]), exact)
  {
    hide JobsAgree;
  }

  lemma JobSavedAgrees(jobs: Jobs, jobs': Jobs, robots: Robots, d: Disk, fails: Faults, id: JobId, exact: bool)
    requires id in jobs' && jobs' == jobs[id := jobs'[id]] && jobs'[id].id == id && !fails(d.writes)
    ensures Agrees(jobs, robots, d, exact) ==> Agrees(jobs', robots, SaveJob(d, fails, jobs'[id]), exact)
  {
    hide RobotsAgree, RecordsNamed;
  }

  lemma WasOneBatch(b: Backend, d: Disk, m': Memory, d': Disk, js: set<JobId>, rs: set<RobotId>, own: set<JobId>,
    quiet: bool)
    requires js <= m'.jobs.Keys && rs <= m'.robots.Keys && d' == Committed(b.fails, d, m'.jobs, m'.robots, js, rs)
      && own <= js && (quiet ==> js == own)
    ensures OneBatch(b, d, m', d', own, quiet)
  {
    assert InOneBatch(b, d, m', d', js, rs);
  }

  lemma BatchedJobsAgree(jobs: Jobs, disk: Disk, js: set<JobId>, rs: Robots)
    requires js <= jobs.Keys
    ensures JobsAgree(jobs, disk.jobs, {} + js) ==> JobsAgree(jobs, WithAll(disk, Picked(jobs, js), rs).jobs, {} + {})
  {
  }

  lemma BatchKeepsRecords(jobs: Jobs, disk: Disk, js: set<JobId>, rs: Robots)
    requires js <= jobs.Keys
    ensures SameRecords(jobs, disk.jobs) ==> SameRecords(jobs, WithAll(disk, Picked(jobs, js), rs).jobs)
  {
  }

  lemma BatchedRobotsAgree(robots: Robots, disk: Disk, exact: bool, js: Jobs, rs: set<RobotId>, lr: set<RobotId>)
    requires rs <= robots.Keys && forall r :: r in rs ==> robots[r].id == r && r != ""
    ensures RobotsAgree(robots, disk.robots, lr + rs, exact) && RecordsNamed(disk.robots) ==>
      var stored := WithAll(disk, js, Picked(robots, rs)).robots;
        RobotsAgree(robots, stored, lr + {}, exact) && RecordsNamed(stored)
  {
  }


  // ---- How the methods of the engine meet it ----

  /** A step that changes neither memory nor store, as a refused operation does. */
  ghost predicate Idles(b: Backend, m: Memory, d: Disk, op: Operation)
    requires KeysLive(m.jobs, m.dedup)
  {
    Apply(m, op) == m && Writes(b, m, d, op, d) && Through(b, m, d, m, d)
  }

  lemma AddSteps(b: Backend, m: Memory, d: Disk, j: Job, now: Time)
    requires KeysLive(m.jobs, m.dedup)
    ensures var op := Operation.AddJob(j, now, !b.fails(d.writes));
      && Apply(m, op) == Add(m, j, now, !b.fails(d.writes))
      && (AddError(m.jobs, j).Some? ==> Idles(b, m, d, op))
      && forall d' ::
         AddError(m.jobs, j).None? && Through(b, m, d, Apply(m, op), d')
         && d' == SaveJob(d, b.fails, Stored(m, j, now))
         ==> Writes(b, m, d, op, d')
  {
    hide Add, AddError, Stored, Agrees, SameRecords;
    assert AddError(m.jobs, j).Some? ==>
      Add(m, j, now, !b.fails(d.writes)) == m by { hide *; AddRefused(m, j, now, !b.fails(d.writes)); }
  }

  lemma AddRefused(m: Memory, j: Job, now: Time, saved: bool)
    ensures AddError(m.jobs, j).Some? ==> Add(m, j, now, saved) == m
  {
  }

  lemma SubmitSteps(b: Backend, m: Memory, d: Disk, j: Job, now: Time)
    requires KeysLive(m.jobs, m.dedup)
    ensures var op := Operation.SubmitJob(j, now, !b.fails(d.writes)); var s := SubmissionOf(m, j);
      && Apply(m, op) == Submit(m, j, now, !b.fails(d.writes))
      && ((s.Duplicate? || s.Refused? || (s.NewJob? && AddError(m.jobs, j).Some?)) ==> Idles(b, m, d, op))
      && (forall d' ::
         s.NewJob? && AddError(m.jobs, j).None? && Through(b, m, d, Apply(m, op), d')
         && d' == SaveJob(d, b.fails, Stored(m, j, now))
         ==> Writes(b, m, d, op, d'))
      && forall d' ::
         s.Retry? && Through(b, m, d, Apply(m, op), d')
         && AfterRetry(b, m, m.dedup[j.key], j, now, d, d')
         ==> Writes(b, m, d, op, d')
  {
    hide Add, AddError, Stored, Agrees, SameRecords, SubmissionOf, AfterRetry, Resubmitted;
    AddRefused(m, j, now, !b.fails(d.writes));
  }

  lemma UpsertSteps(b: Backend, m: Memory, d: Disk, r: Declaration, given: bool, now: Time)
    requires KeysLive(m.jobs, m.dedup) && r.id != ""
    ensures var op := Operation.UpsertRobot(r, given, now); var m' := Upsert(m, r, given, now);
      && Allowed(m, op) && Apply(m, op) == m'
      && forall d' ::
         Through(b, m, d, m', d')
         && (!FaultGivesWorkBack(m, r, given) ==> r.id in m'.robots && d' == SaveRobot(d, b.fails, m'.robots[r.id]))
         ==> Writes(b, m, d, op, d')
  {
    hide Upsert, Agrees, SameRecords, FaultGivesWorkBack;
  }

  lemma CompleteSteps(b: Backend, m: Memory, d: Disk, id: JobId, success: bool, robot: RobotId, attempt: int, now: Time)
    requires KeysLive(m.jobs, m.dedup)
    ensures var op := Operation.CompleteJob(id, success, robot, attempt, now);
      var e := CompleteError(m, id, robot, attempt);
      && Apply(m, op) == Complete(m, id, success, robot, attempt, now) && (e.Some? ==> Idles(b, m, d, op))
      && forall d' ::
         e.None? && Through(b, m, d, Apply(m, op), d')
         && (b.batches ==>
               OneBatch(b, d, Apply(m, op), d', {id}, Stable(m.jobs[id := EndedJob(m.jobs[id], success, now)])))
         ==> Writes(b, m, d, op, d')
  {
    hide Agrees, SameRecords, Finish, OneBatch, Stable;
  }

  lemma CancelSteps(b: Backend, m: Memory, d: Disk, id: JobId, now: Time)
    requires KeysLive(m.jobs, m.dedup)
    ensures var op := Operation.CancelJob(id, now);
      var off := CancelError(m, id).Some? || m.jobs[id].status == Cancelled;
      && Apply(m, op) == Cancel(m, id, now) && (off ==> Idles(b, m, d, op))
      && forall d' ::
         !off && Through(b, m, d, Apply(m, op), d')
         && (b.batches ==> OneBatch(b, d, Apply(m, op), d', {id}, Stable(m.jobs[id := CancelledJob(m.jobs[id], now)])))
         ==> Writes(b, m, d, op, d')
  {
    hide Agrees, SameRecords, Refreshed, OneBatch, Stable;
  }

  lemma RequeueSteps(b: Backend, m: Memory, d: Disk, id: JobId, robot: RobotId)
    requires KeysLive(m.jobs, m.dedup)
    ensures var op := Operation.RequeueJob(id, robot);
      var off := RequeueError(m, id, robot).Some? || m.jobs[id].status.Waiting();
      && Apply(m, op) == Requeue(m, id, robot) && (off ==> Idles(b, m, d, op))
      && forall d' ::
         !off && Through(b, m, d, Apply(m, op), d')
         && (b.batches ==> OneBatch(b, d, Apply(m, op), d', {id}, true))
         ==> Writes(b, m, d, op, d')
  {
    hide Agrees, SameRecords, Abandon, OneBatch;
  }

  lemma AckSteps(b: Backend, m: Memory, d: Disk, robot: RobotId, id: JobId)
    requires KeysLive(m.jobs, m.dedup)
    ensures var op := Operation.Acknowledge(robot, id); var off := AckError(m, robot, id).Some?;
      && Apply(m, op) == AckStop(m, robot, id) && (off ==> Idles(b, m, d, op))
      && forall d' ::
         !off && Through(b, m, d, Apply(m, op), d')
         && (b.batches ==> OneBatch(b, d, Apply(m, op), d', {id}, true))
         ==> Writes(b, m, d, op, d')
  {
    hide Agrees, SameRecords, Abandon, OneBatch;
  }

  lemma ReplanSteps(b: Backend, m: Memory, d: Disk, robot: RobotId)
    requires KeysLive(m.jobs, m.dedup)
    ensures var op := Operation.ReplanFor(robot); var off := ReplanError(m, robot).Some?;
      && Apply(m, op) == ReplanRobot(m, robot) && (off ==> Idles(b, m, d, op))
      && forall d' ::
         !off && Through(b, m, d, Apply(m, op), d')
         && (b.batches ==> OneBatch(b, d, Apply(m, op), d', HeldSet(m.jobs, robot, true), true))
         ==> Writes(b, m, d, op, d')
  {
    hide Agrees, SameRecords, AbandonAll, OneBatch;
  }

  lemma SweepSteps(b: Backend, m: Memory, d: Disk, timeout: Duration, now: Time)
    requires KeysLive(m.jobs, m.dedup)
    ensures var op := Operation.DetectStale(timeout, now);
      && Apply(m, op) == Sweep(m, timeout, now)
      && forall d' :: Through(b, m, d, Apply(m, op), d') ==> Writes(b, m, d, op, d')
  {
    hide Agrees, SameRecords, Sweep;
  }

  lemma DispatchSteps(b: Backend, m: Memory, d: Disk, now: Time)
    requires KeysLive(m.jobs, m.dedup)
    ensures var op := Operation.DispatchOnce(d, b.fails, now); var p := Dispatch(m, d, b.fails, now);
      Apply(m, op) == p.mem && forall d' :: Through(b, m, d, p.mem, d') && d' == p.disk ==> Writes(b, m, d, op, d')
  {
    hide Agrees, SameRecords, Dispatch;
  }

  lemma RemoveSteps(b: Backend, m: Memory, d: Disk, robot: RobotId)
    requires KeysLive(m.jobs, m.dedup)
    ensures var saved := !b.forgets || !b.fails(d.writes); var op := Operation.RemoveRobot(robot, saved);
      var off := robot !in m.robots || HeldInFlight(m.jobs, robot);
      && Apply(m, op) == Remove(m, robot, saved) && (off ==> Idles(b, m, d, op))
      && forall d' ::
         !off && Through(b, m, d, Apply(m, op), d')
         && d' == (if !b.forgets then d else Tried(if saved then d.(robots := d.robots - {robot}) else d))
         ==> Writes(b, m, d, op, d')
  {
    hide Agrees, SameRecords, HeldInFlight;
  }

  lemma ArchiveSteps(b: Backend, m: Memory, d: Disk, now: Time)
    requires KeysLive(m.jobs, m.dedup)
    ensures var saved := b.archives && !b.fails(d.writes); var op := Operation.ArchiveOld(now, saved);
      var ids := Departing(m.jobs, Cutoff(m.cfg, now));
      && Apply(m, op) == ArchiveFinished(m, now, saved)
      && (!b.archives || m.cfg.archiveAfter <= 0 || ids == {} ==> Idles(b, m, d, op))
      && forall d' ::
         b.archives && m.cfg.archiveAfter > 0 && ids != {} && Through(b, m, d, Apply(m, op), d')
         && d' == Tried(if saved then WithoutLive(d, ids) else d)
         ==> Writes(b, m, d, op, d')
  {
    hide Agrees, SameRecords, Departing, WithoutJobs;
    NobodyLeaves(m);
  }

  lemma NobodyLeaves(m: Memory)
    ensures WithoutJobs(m, {}) == m
  {
    var m' := WithoutJobs(m, {});
    assert m'.jobs == m.jobs && m'.stopReq == m.stopReq && m'.dedup == m.dedup;
  }

  lemma QuietSteps(b: Backend, m: Memory, d: Disk, op: Operation)
    requires KeysLive(m.jobs, m.dedup) && (op.SetConfig? || op.ConfirmTools?)
    ensures Apply(m, op).jobs == m.jobs && Apply(m, op).robots == m.robots && Writes(b, m, d, op, d)
  {
    hide Agrees, SameRecords;
  }
}
