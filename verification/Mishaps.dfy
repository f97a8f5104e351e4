/** Runs that go wrong, one step at a time: what a restart after a failed write can break, and a stop
    request that is listed but no longer accepted. */
module Mishaps {
  import opened Base
  import opened Model
  import opened Graph
  import opened Blocking
  import opened Ordering
  import opened Operations
  import opened Invariants
  import opened Lives
  import opened Moves
  import opened Routing
  import opened Storage
  import opened Dispatching
  import opened Workings
  import opened Writing
  import opened Restarting
  import opened Runs

  // ---- Runs, step by step ----

  /** Some careful run ends with this memory and this store. */
  ghost predicate At(b: Backend, m: Memory, d: Disk) {
    exists steps :: EndsAt(b, steps, m, d)
  }

  ghost predicate EndsAt(b: Backend, steps: seq<Step>, m: Memory, d: Disk) {
    Legal(b, START, steps) && Careful(b, START, steps) && Run(b, START, steps).mem == m
      && Run(b, START, steps).disk == d
  }

  lemma AtStart(b: Backend)
    ensures At(b, START.mem, START.disk)
  {
    assert EndsAt(b, [], START.mem, START.disk);
  }

  lemma {:induction false} OneMoreStep(b: Backend, w: World, steps: seq<Step>, s: Step)
    requires Legal(b, w, steps) && Possible(b, Run(b, w, steps), s)
    ensures Legal(b, w, steps + [s]) && Run(b, w, steps + [s]) == Next(b, Run(b, w, steps), s)
    ensures Careful(b, w, steps) && (s.op.Reload? ==> Unharmed(b, Run(b, w, steps))) ==> Careful(b, w, steps + [s])
    ensures Mended(b, w, steps) && FindsSound(Run(b, w, steps), s) ==> Mended(b, w, steps + [s])
    decreases |steps|
  {
    hide Writes, Loads, Allowed, Apply, Unharmed, Agrees, KeysLive, FindsSound;
    if steps == [] {
      assert ([] + [s])[0] == s && ([] + [s])[1..] == [];
    } else {
      assert (steps + [s])[0] == steps[0] && (steps + [s])[1..] == steps[1..] + [s];
      OneMoreStep(b, Next(b, w, steps[0]), steps[1..], s);
    }
  }

  lemma Onward(b: Backend, m: Memory, d: Disk, op: Operation, d': Disk)
    requires At(b, m, d) && !op.Reload? && KeysLive(m.jobs, m.dedup) && Allowed(m, op) && Writes(b, m, d, op, d')
    ensures At(b, Apply(m, op), d')
  {
    hide KeysLive, Allowed, Writes, Apply, Legal, Careful, Run, Agrees;
    var steps :| EndsAt(b, steps, m, d);
    OneMoreStep(b, START, steps, Step(op, d'));
    assert EndsAt(b, steps + [Step(op, d')], Apply(m, op), d');
  }

  lemma RestartIsPossible(b: Backend, m: Memory, d: Disk, op: Operation)
    requires KeysLive(m.jobs, m.dedup) && Loads(m, d, op) && StoreSound(d)
    ensures forall since :: var w := World(m, d, since);
      Possible(b, w, Step(op, d)) && FindsSound(w, Step(op, d)) && MemoryAfter(w, Step(op, d)) == Loaded(m.log, d, op)
  {
    hide StoreSound, KeysFound, Returning;
  }

  /** A restart from sound records, whatever the store missed. */
  lemma Restarts(b: Backend, m: Memory, d: Disk, op: Operation)
    requires At(b, m, d) && KeysLive(m.jobs, m.dedup) && Loads(m, d, op) && StoreSound(d)
    ensures Attainable(Loaded(m.log, d, op))
  {
    hide KeysLive, KeysFound, Returning, StoreSound, Legal, Careful, Mended, Recalled, Run, Agrees, Upheld, FindsSound;
    RestartIsPossible(b, m, d, op);
    var steps :| EndsAt(b, steps, m, d);
    StartIsUpheld(b);
    CarefulIsRecalled(b, START, steps);
    RecalledIsMended(b, START, steps);
    OneMoreStep(b, START, steps, Step(op, d));
    assert Attains(b, steps + [Step(op, d)], Loaded(m.log, d, op));
  }

  // ---- Steps of single operations ----

  /** One job changes, and its record is tried. */
  lemma JobWriteGoesThrough(b: Backend, m: Memory, d: Disk, m': Memory, id: JobId)
    requires Named(m.jobs, m.robots) && id in m'.jobs && m'.jobs == m.jobs[id := m'.jobs[id]] && m'.jobs[id].id == id
      && m'.robots == m.robots
    requires b.fails(d.writes) ==> id in m.jobs && SameIdentity(m.jobs[id], m'.jobs[id])
    ensures Through(b, m, d, m', SaveJob(d, b.fails, m'.jobs[id]))
  {
    hide Agrees;
    if !b.fails(d.writes) { JobSavedAgrees(m.jobs, m'.jobs, m.robots, d, b.fails, id, b.forgets); }
  }

  lemma SubmitsNew(b: Backend, m: Memory, d: Disk, j: Job, now: Time)
    requires At(b, m, d) && KeysLive(m.jobs, m.dedup) && Named(m.jobs, m.robots) && !b.fails(d.writes)
    requires SubmissionOf(m, j) == NewJob && AddError(m.jobs, j).None? && j.robot == ""
    ensures At(b, Inserted(m, Stored(m, j, now)), SaveJob(d, b.fails, Stored(m, j, now)))
  {
    hide At, KeysLive, Writes, Through, Verdict, AddError, Named;
    SubmitSteps(b, m, d, j, now);
    JobWriteGoesThrough(b, m, d, Inserted(m, Stored(m, j, now)), j.id);
    Onward(b, m, d, Operation.SubmitJob(j, now, true), SaveJob(d, b.fails, Stored(m, j, now)));
  }

  /** A failed or cancelled job is submitted again, and no verdict of another changes. */
  lemma Retries(b: Backend, m: Memory, d: Disk, id: JobId, j: Job, now: Time)
    requires At(b, m, d) && KeysLive(m.jobs, m.dedup) && Named(m.jobs, m.robots) && j.robot == ""
    requires SubmissionOf(m, j) == Submission.Retry && m.dedup[j.key] == id
    requires var jobs' := m.jobs[id := RetriedJob(m, id, j, now)]; Acyclic(jobs') && Stable(jobs')
    ensures At(b, m.(jobs := m.jobs[id := RetriedJob(m, id, j, now)], log := m.log + [Entry.Retried(id)]),
      SaveJob(d, b.fails, RetriedJob(m, id, j, now)))
  {
    hide At, Writes, Through, Verdict, Named, FromRoots, Acyclic, Stable;
    var m' := m.(jobs := m.jobs[id := RetriedJob(m, id, j, now)], log := m.log + [Entry.Retried(id)]);
    NothingToRefresh(m'.jobs);
    SubmitSteps(b, m, d, j, now);
    NamedJob(m, id);
    JobWriteGoesThrough(b, m, d, m', id);
    assert Submit(m, j, now, !b.fails(d.writes)) == m';
    assert AfterRetry(b, m, id, j, now, d, SaveJob(d, b.fails, m'.jobs[id]));
    Onward(b, m, d, Operation.SubmitJob(j, now, !b.fails(d.writes)), SaveJob(d, b.fails, RetriedJob(m, id, j, now)));
  }

  lemma NamedJob(m: Memory, id: JobId)
    requires Named(m.jobs, m.robots) && id in m.jobs
    ensures m.jobs[id].id == id
  {
  }

  lemma NothingToRefresh(jobs: Jobs)
    requires Acyclic(jobs) && Stable(jobs)
    ensures Refreshed(jobs) == jobs
  {
    hide Refreshed, Stable, Acyclic;
    StableIsRefreshed(jobs, jobs);
  }

  lemma Registers(b: Backend, m: Memory, d: Disk, r: Declaration, now: Time)
    requires At(b, m, d) && KeysLive(m.jobs, m.dedup) && r.id != "" && r.id !in m.robots && !b.fails(d.writes)
    ensures At(b, Joining(m, FirstSeen(r, now)), SaveRobot(d, b.fails, FirstSeen(r, now)))
  {
    hide At, KeysLive, Writes, Agrees;
    var m', seen := Joining(m, FirstSeen(r, now)), FirstSeen(r, now);
    RobotSavedAgrees(m.jobs, m.robots, m'.robots, d, b.fails, r.id, b.forgets);
    UpsertSteps(b, m, d, r, true, now);
    Onward(b, m, d, Operation.UpsertRobot(r, true, now), SaveRobot(d, b.fails, seen));
  }

  /** The only pending job goes to the only robot. */
  lemma Dispatches(b: Backend, m: Memory, d: Disk, id: JobId, r: RobotId, now: Time)
    requires At(b, m, d) && KeysLive(m.jobs, m.dedup) && Named(m.jobs, m.robots)
    requires PendingSet(m.jobs) == {id} && m.robots.Keys == {r} && Eligible(m, m.robots[r], m.jobs[id], now)
    requires !b.fails(d.writes) && !b.fails(d.writes + 1)
    ensures At(b, Give(m, id, r, now),
      SaveJob(SaveRobot(d, b.fails, m.robots[r].(available := false)), b.fails, GivenJob(m.jobs[id], r, now)))
  {
    hide At, KeysLive, Writes, Agrees, SameRecords, OfferAll, Queue, Named, SaveJob, SaveRobot, GivenJob;
    var d' := SaveJob(SaveRobot(d, b.fails, m.robots[r].(available := false)), b.fails, GivenJob(m.jobs[id], r, now));
    assert id in PendingSet(m.jobs);
    NamedRobots(m);
    OneOffer(m, d, b.fails, id, r, now);
    TwoWrites(d, b.fails, m.robots[r].(available := false), GivenJob(m.jobs[id], r, now));
    GivenAgrees(m, d, b.fails, id, r, now, b.forgets);
    PassKeepsRecords(Pass(m, d, [], []), b.fails, Queue(m.jobs, ByPriority, PendingSet(m.jobs)), now);
    assert SameRecords(m.jobs, d.jobs) ==> SameRecords(Give(m, id, r, now).jobs, d'.jobs);
    DispatchSteps(b, m, d, now);
    Onward(b, m, d, Operation.DispatchOnce(d, b.fails, now), d');
  }

  lemma NamedRobots(m: Memory)
    requires Named(m.jobs, m.robots)
    ensures NamesAgree(m.robots)
  {
  }

  lemma TwoWrites(d: Disk, fails: Faults, r: Robot, j: Job)
    ensures SaveJob(SaveRobot(d, fails, r), fails, j).writes == d.writes + 2
  {
  }

  lemma OneOffer(m: Memory, d: Disk, fails: Faults, id: JobId, r: RobotId, now: Time)
    requires NamesAgree(m.robots) && PendingSet(m.jobs) == {id} && id in m.jobs && m.robots.Keys == {r}
    requires Eligible(m, m.robots[r], m.jobs[id], now) && !fails(d.writes) && !fails(d.writes + 1)
    ensures var p := Dispatch(m, d, fails, now);
      p.mem == Give(m, id, r, now)
        && p.disk == SaveJob(SaveRobot(d, fails, m.robots[r].(available := false)), fails, GivenJob(m.jobs[id], r, now))
  {
    hide Eligible, Prefers, GivenJob;
    assert IsQueue(m.jobs, ByPriority, {id}, [id]);
    QueueIs(m.jobs, ByPriority, {id}, [id]);
    BestIs(m, m.jobs[id], now);
    assert IsBest(m, m.jobs[id], now, Some(r));
    BestIsUnique(m, m.jobs[id], now, Best(m, m.jobs[id], now), Some(r));
    hide Queue, Best, OfferTo, SaveJob, SaveRobot;
    var p := Pass(m, d, [], []);
    assert [id][1..] == [];
    assert OfferAll(p, fails, [id], now) == OfferAll(Offer(p, fails, id, now), fails, [], now) ==
      OfferTo(p, fails, id, r, now);
    OneOfferIs(p, fails, id, r, now);
  }

  lemma OneOfferIs(p: Pass, fails: Faults, id: JobId, r: RobotId, now: Time)
    requires id in p.mem.jobs && r in p.mem.robots && !fails(p.disk.writes) && !fails(p.disk.writes + 1)
    ensures var m := p.mem; var p' := OfferTo(p, fails, id, r, now);
      p'.mem == Give(m, id, r, now)
        && p'.disk == SaveJob(SaveRobot(p.disk, fails, m.robots[r].(available := false)), fails,
        GivenJob(m.jobs[id], r, now))
  {
    hide GivenJob;
  }

  /** The report of the only assigned job, in one transaction; no verdict changes. */
  lemma Reports(b: Backend, m: Memory, d: Disk, id: JobId, r: RobotId, success: bool, now: Time)
    requires At(b, m, d) && KeysLive(m.jobs, m.dedup) && Named(m.jobs, m.robots) && b.batches
    requires id in m.jobs && m.jobs[id].status == Assigned && m.jobs[id].robot == r && r in m.robots
      && !m.robots[r].selfReported
    requires forall x :: x in m.jobs && x != id ==> m.jobs[x].status != Assigned
    requires var jobs' := m.jobs[id := EndedJob(m.jobs[id], success, now)]; Acyclic(jobs') && Stable(jobs')
    ensures var m' := AfterReport(m, id, r, success, now);
      At(b, m', Committed(b.fails, d, m'.jobs, m'.robots, {id}, {r}))
  {
    hide At, KeysLive, Writes, Named, Acyclic, Stable, Committed, Agrees;
    var m' := AfterReport(m, id, r, success, now);
    NothingToRefresh(m'.jobs);
    NobodyIsBusy(m'.jobs, r);
    CompleteSteps(b, m, d, id, success, r, 0, now);
    NamedOne(m, id, r);
    assert Finish(m, id, success, now) == m';
    CommitGoesThrough(b, m, d, m', id, r);
    WasOneBatch(b, d, m', Committed(b.fails, d, m'.jobs, m'.robots, {id}, {r}), {id}, {r}, {id}, true);
    Onward(b, m, d, Operation.CompleteJob(id, success, r, 0, now),
      Committed(b.fails, d, m'.jobs, m'.robots, {id}, {r}));
  }

  function AfterReport(m: Memory, id: JobId, r: RobotId, success: bool, now: Time): Memory
    requires id in m.jobs && r in m.robots
  {
    m.(jobs := m.jobs[id := EndedJob(m.jobs[id], success, now)],
      robots := m.robots[r := m.robots[r].(load := m.robots[r].load + 1, available := true)],
       log := m.log + [Finished(id, r, m.jobs[id].attempt, success)])
  }

  lemma NobodyIsBusy(jobs: Jobs, r: RobotId)
    requires forall x :: x in jobs ==> jobs[x].status != Assigned
    ensures !Operations.Busy(jobs, r)
  {
  }

  lemma NamedOne(m: Memory, id: JobId, r: RobotId)
    requires Named(m.jobs, m.robots) && id in m.jobs && r in m.robots
    ensures m.jobs[id].id == id && m.robots[r].id == r && r != ""
  {
  }

  lemma CommitGoesThrough(b: Backend, m: Memory, d: Disk, m': Memory, id: JobId, r: RobotId)
    requires id in m.jobs && id in m'.jobs && m'.jobs == m.jobs[id := m'.jobs[id]] && m'.jobs[id].id == id
    requires SameIdentity(m.jobs[id], m'.jobs[id])
    requires r in m'.robots && m'.robots == m.robots[r := m'.robots[r]] && m'.robots[r].id == r && r != ""
    ensures Through(b, m, d, m', Committed(b.fails, d, m'.jobs, m'.robots, {id}, {r}))
  {
    hide JobsAgree, RobotsAgree, RecordsNamed, Agrees, SameRecords, WithAll;
    SameRecordsAfter(m.jobs, m'.jobs, d, id);
    BatchKeepsRecords(m'.jobs, d, {id}, Picked(m'.robots, {r}));
    var js, rs := Picked(m'.jobs, {id}), Picked(m'.robots, {r});
    TwoLate(m, d, m', id, r, b.forgets);
    AllCounted(d, js, rs);
    BatchedJobsAgree(m'.jobs, d, {id}, rs);
    BatchedRobotsAgree(m'.robots, d, b.forgets, js, {r}, {});
    NoneLate(m'.jobs, m'.robots, WithAll(d, js, rs), b.forgets);
  }

  lemma SameRecordsAfter(jobs: Jobs, jobs': Jobs, d: Disk, id: JobId)
    requires id in jobs && id in jobs' && jobs' == jobs[id := jobs'[id]] && SameIdentity(jobs[id], jobs'[id])
    ensures SameRecords(jobs, d.jobs) ==> SameRecords(jobs', d.jobs)
  {
  }

  lemma TwoLate(m: Memory, d: Disk, m': Memory, id: JobId, r: RobotId, exact: bool)
    requires id in m'.jobs && m'.jobs == m.jobs[id := m'.jobs[id]] && r in m'.robots
      && m'.robots == m.robots[r := m'.robots[r]]
    ensures Agrees(m.jobs, m.robots, d, exact) ==>
      JobsAgree(m'.jobs, d.jobs, {} + {id}) && RobotsAgree(m'.robots, d.robots, {} + {r}, exact)
        && RecordsNamed(d.robots)
  {
  }

  lemma NoneLate(jobs: Jobs, robots: Robots, d: Disk, exact: bool)
    ensures
      JobsAgree(jobs, d.jobs, {} + {}) && RobotsAgree(robots, d.robots, {} + {}, exact) && RecordsNamed(d.robots)
      ==> Agrees(jobs, robots, Tried(d), exact)
  {
  }

  /** A waiting job is cancelled in one transaction, and no verdict of another changes. */
  lemma Cancels(b: Backend, m: Memory, d: Disk, id: JobId, now: Time)
    requires At(b, m, d) && KeysLive(m.jobs, m.dedup) && Named(m.jobs, m.robots) && b.batches && !b.fails(d.writes)
    requires id in m.jobs && m.jobs[id].status.Waiting()
    requires var jobs' := m.jobs[id := CancelledJob(m.jobs[id], now)]; Acyclic(jobs') && Stable(jobs')
    ensures At(b, m.(jobs := m.jobs[id := CancelledJob(m.jobs[id], now)], log := m.log + [Withdrawn(id)]),
      SaveJob(d, b.fails, CancelledJob(m.jobs[id], now)))
  {
    hide At, KeysLive, Writes, Through, Named, Acyclic, Stable, Committed;
    var m' := m.(jobs := m.jobs[id := CancelledJob(m.jobs[id], now)], log := m.log + [Withdrawn(id)]);
    NothingToRefresh(m'.jobs);
    CancelSteps(b, m, d, id, now);
    NamedJob(m, id);
    JobWriteGoesThrough(b, m, d, m', id);
    CommitOfOne(b.fails, d, m'.jobs, m'.robots, id);
    WasOneBatch(b, d, m', SaveJob(d, b.fails, m'.jobs[id]), {id}, {}, {id}, true);
    Onward(b, m, d, Operation.CancelJob(id, now), SaveJob(d, b.fails, m'.jobs[id]));
  }

  lemma CommitOfOne(fails: Faults, d: Disk, jobs: Jobs, robots: Robots, id: JobId)
    requires id in jobs && jobs[id].id == id
    ensures Committed(fails, d, jobs, robots, {id}, {}) == SaveJob(d, fails, jobs[id])
  {
    hide WithAll;
    assert Picked(jobs, {id}).Keys == {id} && Picked(robots, {}).Keys == {};
    OneRecord(d, Picked(jobs, {id}), jobs[id]);
  }

  lemma OneRecord(d: Disk, js: Jobs, j: Job)
    requires js.Keys == {j.id} && js[j.id] == j
    ensures forall rs: Robots :: rs.Keys == {} ==> WithAll(d, js, rs) == WithJob(d, j)
  {
    assert d.jobs + js == d.jobs[j.id := j];
    forall rs: Robots | rs.Keys == {} ensures WithAll(d, js, rs) == WithJob(d, j) {
      assert WithAll(d, js, rs).robots == d.robots;
    }
  }

  // ---- A lost retry makes a cycle ----

  /** The fourth write fails. */
  const FOURTH_FAILS: Backend := Backend(n => n == 3, true, true, true)

  function Plain(id: JobId, deps: seq<JobId>,
    key: Key): Job { Job(id, 0, "", "", deps, Pending, "", key, 0, 0, 0, 0, 0) }

  const B_NEW: Job := Plain("b", [], "kb").(seqNo := 1)
  const A_NEW: Job := Plain("a", ["b"], "ka").(status := Blocked, seqNo := 2)
  const A_OFF: Job := A_NEW.(status := Cancelled)
  const A_AGAIN: Job := A_NEW.(deps := [], status := Pending)
  const B_OFF: Job := B_NEW.(status := Cancelled)
  const B_AGAIN: Job := B_NEW.(deps := ["a"], status := Blocked)
  const KEYS: map<Key, JobId> := map["kb" := "b", "ka" := "a"]

  /** A submission whose write fails leaves no job, but it spends a sequence number. */
  lemma AFailedSubmissionSpendsANumber()
    ensures var j := Plain("a", [], "");
      AddError(EMPTY.jobs, j).None? && Add(EMPTY, j, 0, false) == EMPTY.(nextSeq := 1)
        && Add(EMPTY, j, 0, false) != EMPTY
  {
    ShortNamesAreNotBlank();
  }

  function Holding(a: Job, b: Job): Jobs { map["b" := b, "a" := a] }

  function Remembering(a: Job, b: Job,
    log: History): Memory { Memory(Holding(a, b), map[], 2, KEYS, map[], OFF, map[], log) }

  const TWO_JOBS: Memory := Remembering(A_NEW, B_NEW, [Created("b"), Created("a")])
  const A_LEFT: Memory := Remembering(A_OFF, B_NEW, TWO_JOBS.log + [Withdrawn("a")])
  const A_BACK: Memory := Remembering(A_AGAIN, B_NEW, A_LEFT.log + [Entry.Retried("a")])
  const B_LEFT: Memory := Remembering(A_AGAIN, B_OFF, A_BACK.log + [Withdrawn("b")])
  const B_BACK: Memory := Remembering(A_AGAIN, B_AGAIN, B_LEFT.log + [Entry.Retried("b")])

  lemma ShortNamesAreNotBlank()
    ensures !Blank("a") && !Blank("b") && !Blank("r")
  {
    assert !Space("a"[0]) && !Space("b"[0]) && !Space("r"[0]);
  }

  lemma TwoJobsAreSubmitted()
    ensures At(FOURTH_FAILS, TWO_JOBS, Disk(Holding(A_NEW, B_NEW), map[], map[], 2))
  {
    hide At;
    ShortNamesAreNotBlank();
    AtStart(FOURTH_FAILS);
    var j, m1 := Plain("b", [], "kb"),
      Memory(map["b" := B_NEW], map[], 1, map["kb" := "b"], map[], OFF, map[], [Created("b")]);
    SubmitsNew(FOURTH_FAILS, START.mem, START.disk, j, 0);
    assert Stored(START.mem, j, 0) == B_NEW && Inserted(START.mem, B_NEW) == m1;
    assert SaveJob(START.disk, FOURTH_FAILS.fails, B_NEW) == Disk(map["b" := B_NEW], map[], map[], 1);
    SecondSubmission(m1, Disk(map["b" := B_NEW], map[], map[], 1));
  }

  lemma SecondSubmission(m: Memory, d: Disk)
    requires At(FOURTH_FAILS, m, d) && d == Disk(map["b" := B_NEW], map[], map[], 1)
    requires m == Memory(map["b" := B_NEW], map[], 1, map["kb" := "b"], map[], OFF, map[], [Created("b")])
    ensures At(FOURTH_FAILS, TWO_JOBS, Disk(Holding(A_NEW, B_NEW), map[], map[], 2))
  {
    hide At;
    var j := Plain("a", ["b"], "ka");
    ShortNamesAreNotBlank();
    SubmitsNew(FOURTH_FAILS, m, d, j, 0);
    assert "b" in ["b"];
    assert Stored(m, j, 0) == A_NEW;
    assert Inserted(m, A_NEW) == TWO_JOBS;
    assert SaveJob(d, FOURTH_FAILS.fails, A_NEW) == Disk(Holding(A_NEW, B_NEW), map[], map[], 2);
  }

  lemma RememberingFacts(a: Job, b: Job, log: History)
    requires a.id == "a" && b.id == "b" && a.key == "ka" && b.key == "kb"
    ensures var m := Remembering(a, b, log); Named(m.jobs, m.robots) && KeysLive(m.jobs, m.dedup)
  {
  }

  lemma OneWayIsAcyclic(a: Job, b: Job)
    requires (a.deps == [] && (b.deps == [] || b.deps == ["a"])) || (a.deps == ["b"] && b.deps == [])
    ensures Acyclic(Holding(a, b))
  {
    assert Ranked(Holding(a, b), if a.deps == [] then map["a" := 0, "b" := 1] else map["b" := 0, "a" := 1]);
  }

  function TwoRecords(a: Job, b: Job, writes: nat): Disk { Disk(Holding(a, b), map[], map[], writes) }

  lemma AIsCancelled()
    requires At(FOURTH_FAILS, TWO_JOBS, TwoRecords(A_NEW, B_NEW, 2))
    ensures At(FOURTH_FAILS, A_LEFT, TwoRecords(A_OFF, B_NEW, 3))
  {
    hide At, Acyclic, Named, KeysLive;
    RememberingFacts(A_NEW, B_NEW, TWO_JOBS.log);
    OneWayIsAcyclic(A_OFF, B_NEW);
    assert TWO_JOBS.jobs["a" := A_OFF] == Holding(A_OFF, B_NEW);
    assert Verdict(Holding(A_OFF, B_NEW), []) == Pending;
    Cancels(FOURTH_FAILS, TWO_JOBS, TwoRecords(A_NEW, B_NEW, 2), "a", 0);
    assert SaveJob(TwoRecords(A_NEW, B_NEW, 2), FOURTH_FAILS.fails, A_OFF) == TwoRecords(A_OFF, B_NEW, 3);
  }

  /** The write of this retry is the one that fails. */
  lemma AIsSubmittedAgain()
    requires At(FOURTH_FAILS, A_LEFT, TwoRecords(A_OFF, B_NEW, 3))
    ensures At(FOURTH_FAILS, A_BACK, TwoRecords(A_OFF, B_NEW, 4))
  {
    hide At, Acyclic, Named, KeysLive;
    RememberingFacts(A_OFF, B_NEW, A_LEFT.log);
    OneWayIsAcyclic(A_AGAIN, B_NEW);
    var j := Plain("a", [], "ka");
    NoRootsReachNothing(A_LEFT.jobs, "a");
    assert Verdict(A_LEFT.jobs, []) == Pending;
    assert RetriedJob(A_LEFT, "a", j, 0) == A_AGAIN && A_LEFT.jobs["a" := A_AGAIN] == Holding(A_AGAIN, B_NEW);
    assert Verdict(Holding(A_AGAIN, B_NEW), []) == Pending;
    Retries(FOURTH_FAILS, A_LEFT, TwoRecords(A_OFF, B_NEW, 3), "a", j, 0);
    assert SaveJob(TwoRecords(A_OFF, B_NEW, 3), FOURTH_FAILS.fails, A_AGAIN) == TwoRecords(A_OFF, B_NEW, 4);
  }

  lemma NoRootsReachNothing(jobs: Jobs, id: JobId)
    ensures !FromRoots(jobs, [], id) && ShapeOk(id, []) && DepsKnown(jobs, [])
  {
  }

  lemma BIsCancelled()
    requires At(FOURTH_FAILS, A_BACK, TwoRecords(A_OFF, B_NEW, 4))
    ensures At(FOURTH_FAILS, B_LEFT, TwoRecords(A_OFF, B_OFF, 5))
  {
    hide At, Acyclic, Named, KeysLive;
    RememberingFacts(A_AGAIN, B_NEW, A_BACK.log);
    OneWayIsAcyclic(A_AGAIN, B_OFF);
    assert A_BACK.jobs["b" := B_OFF] == Holding(A_AGAIN, B_OFF);
    assert Verdict(Holding(A_AGAIN, B_OFF), []) == Pending;
    Cancels(FOURTH_FAILS, A_BACK, TwoRecords(A_OFF, B_NEW, 4), "b", 0);
    assert SaveJob(TwoRecords(A_OFF, B_NEW, 4), FOURTH_FAILS.fails, B_OFF) == TwoRecords(A_OFF, B_OFF, 5);
  }

  lemma BIsSubmittedAgain()
    requires At(FOURTH_FAILS, B_LEFT, TwoRecords(A_OFF, B_OFF, 5))
    ensures At(FOURTH_FAILS, B_BACK, TwoRecords(A_OFF, B_AGAIN, 6))
  {
    hide At, Acyclic, Named, KeysLive, SubmissionOf, Stable, Verdict;
    RememberingFacts(A_AGAIN, B_OFF, B_LEFT.log);
    OneWayIsAcyclic(A_AGAIN, B_AGAIN);
    BRetryIsBlocked();
    Retries(FOURTH_FAILS, B_LEFT, TwoRecords(A_OFF, B_OFF, 5), "b", Plain("b", ["a"], "kb"), 0);
    assert SaveJob(TwoRecords(A_OFF, B_OFF, 5), FOURTH_FAILS.fails, B_AGAIN) == TwoRecords(A_OFF, B_AGAIN, 6);
  }

  lemma BRetryIsBlocked()
    ensures var j := Plain("b", ["a"], "kb");
      && KeysLive(B_LEFT.jobs, B_LEFT.dedup) && SubmissionOf(B_LEFT, j) == Submission.Retry
        && RetriedJob(B_LEFT, "b", j, 0) == B_AGAIN
      && B_LEFT.jobs["b" := B_AGAIN] == Holding(A_AGAIN, B_AGAIN) && Stable(Holding(A_AGAIN, B_AGAIN))
  {
    ADoesNotReachB();
    AHoldsBBack(B_OFF);
    AHoldsBBack(B_AGAIN);
    hide FromRoots, ShapeOk, Verdict, DepsKnown;
  }

  lemma AHoldsBBack(b: Job)
    ensures Verdict(Holding(A_AGAIN, b), ["a"]) == Blocked && Verdict(Holding(A_AGAIN, b), []) == Pending
  {
    assert "a" in ["a"];
  }

  /** In memory the first job depends on nothing any more, so the second may depend on it. */
  lemma ADoesNotReachB()
    ensures !FromRoots(B_LEFT.jobs, ["a"], "b") && ShapeOk("b", ["a"]) && DepsKnown(B_LEFT.jobs, ["a"])
  {
    ShortNamesAreNotBlank();
    assert Closed(B_LEFT.jobs, {"a"});
    if Reaches(B_LEFT.jobs, "a", "b") {
      var p :| PathBetween(B_LEFT.jobs, p, "a", "b");
      ClosedHoldsPath(B_LEFT.jobs, {"a"}, p);
    }
  }

  /** The store holds the first job as it was before its retry, and the second as it is after its own:
      each depends on the other. */
  lemma TheStoreHoldsACycle()
    ensures NoCycle(B_BACK.jobs) && !NoCycle(Holding(A_OFF, B_AGAIN))
  {
    OneWayIsAcyclic(A_AGAIN, B_AGAIN);
    AcyclicMeansNoCycle(B_BACK.jobs);
    var jobs := Holding(A_OFF, B_AGAIN);
    assert PathBetween(jobs, ["b", "a"], "b", "a");
    assert "b" in jobs["a"].deps && Reaches(jobs, "b", "a");
  }

  /** Memory follows the order of the two retries; the store misses the first one, and a restart loads
      a cycle that memory never had. */
  lemma ALostRetryMakesACycle()
    ensures exists m: Memory, d: Disk, op: Operation ::
      && At(FOURTH_FAILS, m, d) && !Agrees(m.jobs, m.robots, d, true) && Loads(m, d, op)
      && NoCycle(m.jobs) && !NoCycle(Loaded(m.log, d, op).jobs) && !Core(Loaded(m.log, d, op))
  {
    TwoJobsAreSubmitted();
    AIsCancelled();
    AIsSubmittedAgain();
    BIsCancelled();
    BIsSubmittedAgain();
    TheStoreHoldsACycle();
    var d, op := TwoRecords(A_OFF, B_AGAIN, 6), Operation.Reload(3, KEYS, OFF, []);
    CycleLoads(op, d);
  }

  lemma CycleLoads(op: Operation, d: Disk)
    requires d == TwoRecords(A_OFF, B_AGAIN, 6) && op == Operation.Reload(3, KEYS, OFF, []) && !NoCycle(d.jobs)
    ensures Loads(B_BACK, d, op) && !Agrees(B_BACK.jobs, B_BACK.robots, d, true) && !Core(Loaded(B_BACK.log, d, op))
  {
    hide NoCycle, Core, DepsLive, Ready, Held, Stable, RobotsOk, Reserved, SeqsDistinct;
    assert "a" in d.jobs && d.jobs["a"] != B_BACK.jobs["a"];
    StartIsSoundIffStoreIs(B_BACK, d, op);
  }

  // ---- A lost report shares a robot ----

  /** The fifth write fails. */
  const FIFTH_FAILS: Backend := Backend(n => n == 4, true, true, true)

  function Bot(capable: bool, available: bool,
    load: int): Robot { Robot("r", "", "", available, load, capable, false, Some(0)) }

  function Alone(j: Job): Jobs { map["a" := j] }

  function Both(a: Job, b: Job): Jobs { map["a" := a, "b" := b] }

  function With(jobs: Jobs, r: Robot, nextSeq: int,
    log: History): Memory { Memory(jobs, map["r" := r], nextSeq, map[], map[], OFF, map[], log) }

  function Stores(jobs: Jobs, r: Robot, writes: nat): Disk { Disk(jobs, map["r" := Storage.Kept(r)], map[], writes) }

  const A_WAITS: Job := Plain("a", [], "").(seqNo := 1)
  const A_RUNS: Job := A_WAITS.(status := Assigned, robot := "r", attempt := 1)
  const A_ENDED: Job := A_RUNS.(status := Done)
  const B_WAITS: Job := Plain("b", [], "").(seqNo := 2)
  const B_RUNS: Job := B_WAITS.(status := Assigned, robot := "r", attempt := 1)

  const FIRST_RUNS: Memory :=
    With(Alone(A_RUNS), Bot(false, false, 0), 1, [Joined("r", 0), Created("a"), Given("a", "r", 1)])
  const FIRST_ENDED: Memory :=
    With(Alone(A_ENDED), Bot(false, true, 1), 1, FIRST_RUNS.log + [Finished("a", "r", 1, true)])
  const SECOND_WAITS: Memory := With(Both(A_ENDED, B_WAITS), Bot(false, true, 1), 2, FIRST_ENDED.log + [Created("b")])
  const SECOND_RUNS: Memory :=
    With(Both(A_ENDED, B_RUNS), Bot(false, false, 1), 2, SECOND_WAITS.log + [Given("b", "r", 1)])

  lemma RobotJoins()
    ensures At(FIFTH_FAILS, With(map[], Bot(false, true, 0), 0, [Joined("r", 0)]),
      Stores(map[], Bot(false, true, 0), 1))
  {
    hide At;
    AtStart(FIFTH_FAILS);
    Registers(FIFTH_FAILS, START.mem, START.disk, Declaration("r", "", "", true, 0, false), 0);
    assert Joining(START.mem, Bot(false, true, 0)) == With(map[], Bot(false, true, 0), 0, [Joined("r", 0)]);
    assert SaveRobot(START.disk, FIFTH_FAILS.fails, Bot(false, true, 0)) == Stores(map[], Bot(false, true, 0), 1);
  }

  lemma FirstIsSubmitted()
    requires At(FIFTH_FAILS, With(map[], Bot(false, true, 0), 0, [Joined("r", 0)]),
      Stores(map[], Bot(false, true, 0), 1))
    ensures At(FIFTH_FAILS, With(Alone(A_WAITS), Bot(false, true, 0), 1, [Joined("r", 0), Created("a")]),
      Stores(Alone(A_WAITS), Bot(false, true, 0), 2))
  {
    hide At;
    var m, d := With(map[], Bot(false, true, 0), 0, [Joined("r", 0)]), Stores(map[], Bot(false, true, 0), 1);
    ShortNamesAreNotBlank();
    SubmitsNew(FIFTH_FAILS, m, d, Plain("a", [], ""), 0);
    assert Stored(m, Plain("a", [], ""), 0) == A_WAITS;
    assert Inserted(m, A_WAITS) == With(Alone(A_WAITS), Bot(false, true, 0), 1, [Joined("r", 0), Created("a")]);
    assert SaveJob(d, FIFTH_FAILS.fails, A_WAITS) == Stores(Alone(A_WAITS), Bot(false, true, 0), 2);
  }

  lemma FirstIsGiven()
    requires At(FIFTH_FAILS, With(Alone(A_WAITS), Bot(false, true, 0), 1, [Joined("r", 0), Created("a")]),
      Stores(Alone(A_WAITS), Bot(false, true, 0), 2))
    ensures At(FIFTH_FAILS, FIRST_RUNS, Stores(Alone(A_RUNS), Bot(false, false, 0), 4))
  {
    hide At;
    var m, d := With(Alone(A_WAITS), Bot(false, true, 0), 1, [Joined("r", 0), Created("a")]),
      Stores(Alone(A_WAITS), Bot(false, true, 0), 2);
    assert PendingSet(m.jobs) == {"a"} && m.robots.Keys == {"r"};
    Dispatches(FIFTH_FAILS, m, d, "a", "r", 0);
    assert GivenJob(A_WAITS, "r", 0) == A_RUNS && Give(m, "a", "r", 0) == FIRST_RUNS;
    var d1 := SaveRobot(d, FIFTH_FAILS.fails, Bot(false, false, 0));
    assert d1 == Stores(Alone(A_WAITS), Bot(false, false, 0), 3);
    assert SaveJob(d1, FIFTH_FAILS.fails, A_RUNS) == Stores(Alone(A_RUNS), Bot(false, false, 0), 4);
  }

  /** The commit of this report is the write that fails. */
  lemma FirstReports()
    requires At(FIFTH_FAILS, FIRST_RUNS, Stores(Alone(A_RUNS), Bot(false, false, 0), 4))
    ensures At(FIFTH_FAILS, FIRST_ENDED, Stores(Alone(A_RUNS), Bot(false, false, 0), 5))
  {
    hide At;
    var d := Stores(Alone(A_RUNS), Bot(false, false, 0), 4);
    assert FIRST_RUNS.jobs["a" := A_ENDED] == Alone(A_ENDED);
    assert Ranked(Alone(A_ENDED), map["a" := 0]);
    Reports(FIFTH_FAILS, FIRST_RUNS, d, "a", "r", true, 0);
    assert AfterReport(FIRST_RUNS, "a", "r", true, 0) == FIRST_ENDED;
    assert Committed(FIFTH_FAILS.fails, d, FIRST_ENDED.jobs, FIRST_ENDED.robots, {"a"}, {"r"}) == Tried(d);
  }

  lemma SecondIsSubmitted()
    requires At(FIFTH_FAILS, FIRST_ENDED, Stores(Alone(A_RUNS), Bot(false, false, 0), 5))
    ensures At(FIFTH_FAILS, SECOND_WAITS, Stores(Both(A_RUNS, B_WAITS), Bot(false, false, 0), 6))
  {
    hide At;
    var d := Stores(Alone(A_RUNS), Bot(false, false, 0), 5);
    ShortNamesAreNotBlank();
    SubmitsNew(FIFTH_FAILS, FIRST_ENDED, d, Plain("b", [], ""), 0);
    assert Stored(FIRST_ENDED, Plain("b", [], ""), 0) == B_WAITS && Inserted(FIRST_ENDED, B_WAITS) == SECOND_WAITS;
    assert SaveJob(d, FIFTH_FAILS.fails, B_WAITS) == Stores(Both(A_RUNS, B_WAITS), Bot(false, false, 0), 6);
  }

  lemma SecondFits()
    ensures KeysLive(SECOND_WAITS.jobs, SECOND_WAITS.dedup) && Named(SECOND_WAITS.jobs, SECOND_WAITS.robots)
    ensures PendingSet(SECOND_WAITS.jobs) == {"b"} && SECOND_WAITS.robots.Keys == {"r"}
    ensures Eligible(SECOND_WAITS, SECOND_WAITS.robots["r"], SECOND_WAITS.jobs["b"], 0)
    ensures GivenJob(SECOND_WAITS.jobs["b"], "r", 0) == B_RUNS && Give(SECOND_WAITS, "b", "r", 0) == SECOND_RUNS
  {
    assert PendingSet(SECOND_WAITS.jobs) == {"b"};
  }

  lemma SecondIsGiven()
    requires At(FIFTH_FAILS, SECOND_WAITS, Stores(Both(A_RUNS, B_WAITS), Bot(false, false, 0), 6))
    ensures At(FIFTH_FAILS, SECOND_RUNS, Stores(Both(A_RUNS, B_RUNS), Bot(false, false, 1), 8))
  {
    hide At, Give, GivenJob, PendingSet, KeysLive, Named, Eligible;
    var d := Stores(Both(A_RUNS, B_WAITS), Bot(false, false, 0), 6);
    SecondFits();
    Dispatches(FIFTH_FAILS, SECOND_WAITS, d, "b", "r", 0);
    var d1 := SaveRobot(d, FIFTH_FAILS.fails, Bot(false, false, 1));
    assert d1 == Stores(Both(A_RUNS, B_WAITS), Bot(false, false, 1), 7);
    assert SaveJob(d1, FIFTH_FAILS.fails, B_RUNS) == Stores(Both(A_RUNS, B_RUNS), Bot(false, false, 1), 8);
  }

  ghost predicate Shared(jobs: Jobs) {
    exists x, y :: x in jobs && y in jobs && x != y && jobs[x].status == Assigned && jobs[y].status == Assigned
      && jobs[x].robot == jobs[y].robot
  }

  /** The store misses the end of the first job and gets the start of the second: after a restart both
      are assigned on one robot. */
  lemma ALostReportSharesARobot()
    ensures exists m: Memory, d: Disk, op: Operation ::
      && At(FIFTH_FAILS, m, d) && !Agrees(m.jobs, m.robots, d, true) && Loads(m, d, op)
      && !Shared(m.jobs) && Shared(Loaded(m.log, d, op).jobs) && !Core(Loaded(m.log, d, op))
  {
    RobotJoins();
    FirstIsSubmitted();
    FirstIsGiven();
    FirstReports();
    SecondIsSubmitted();
    SecondIsGiven();
    SharedLoads(Stores(Both(A_RUNS, B_RUNS), Bot(false, false, 1), 8), Operation.Reload(3, map[], OFF, []));
  }

  lemma SharedLoads(d: Disk, op: Operation)
    requires d == Stores(Both(A_RUNS, B_RUNS), Bot(false, false, 1), 8) && op == Operation.Reload(3, map[], OFF, [])
    ensures Loads(SECOND_RUNS, d, op) && !Agrees(SECOND_RUNS.jobs, SECOND_RUNS.robots, d, true)
    ensures !Shared(SECOND_RUNS.jobs) && Shared(d.jobs) && !Core(Loaded(SECOND_RUNS.log, d, op))
  {
    hide StoreSound, Core, Shared, RobotsAgree, RecordsNamed;
    assert "a" in d.jobs && d.jobs["a"] != SECOND_RUNS.jobs["a"];
    TwoRun(A_RUNS, B_RUNS);
    OneRuns(A_ENDED, B_RUNS);
    SharedIsUnsound(d);
    StartIsSoundIffStoreIs(SECOND_RUNS, d, op);
  }

  lemma TwoRun(a: Job, b: Job)
    requires a.status == Assigned && b.status == Assigned && a.robot == b.robot
    ensures Shared(Both(a, b))
  {
    assert "a" in Both(a, b) && "b" in Both(a, b) && "a" != "b";
  }

  lemma OneRuns(a: Job, b: Job)
    requires a.status != Assigned
    ensures !Shared(Both(a, b))
  {
  }

  lemma SharedIsUnsound(d: Disk)
    requires Shared(d.jobs)
    ensures !StoreSound(d)
  {
    hide DepsLive, NoCycle, Ready, Held, Stable, RobotsOk, SeqsDistinct;
  }

  // ---- A lost report is reported again ----

  /** The store misses the end of a job. Its records are sound all the same; a restart from them brings the
      finished job back, its robot's report of the same attempt is accepted again, and the history then
      holds two completions of one attempt. */
  lemma ALostReportIsCountedTwice()
    ensures exists m: Memory, d: Disk, op: Operation ::
      && At(FIFTH_FAILS, m, d) && "a" in m.jobs && m.jobs["a"].status == Done && Sound(m) && Loads(m, d, op)
      && var m' := Loaded(m.log, d, op);
         && Attainable(m') && !Accounted(m') && "a" in m'.jobs && m'.jobs["a"].status == Assigned
         && Finished("a", "r", 1, true) in Chapter(m'.log, "a") && CompleteError(m', "a", "r", 1).None?
         && var m'' := Complete(m', "a", true, "r", 1, 0);
            Completions(Chapter(m''.log, "a")) == 2 && "a" in m''.jobs && m''.jobs["a"].attempt == 1
  {
    RobotJoins();
    FirstIsSubmitted();
    FirstIsGiven();
    FirstReports();
    var d, op := Stores(Alone(A_RUNS), Bot(false, false, 0), 5), Operation.Reload(2, map[], OFF, []);
    hide At, Sound, Attainable, Accounted, Loads, Chapter, Complete, Completions;
    FirstLoads(d, op);
    FirstWasSound(d);
    Restarts(FIFTH_FAILS, FIRST_ENDED, d, op);
    FirstIsForgotten(d, op);
    FirstReportsAgain(d, op);
  }

  lemma FirstLoads(d: Disk, op: Operation)
    requires d == Stores(Alone(A_RUNS), Bot(false, false, 0), 5) && op == Operation.Reload(2, map[], OFF, [])
    ensures Loads(FIRST_ENDED, d, op) && StoreSound(d) && KeysLive(FIRST_ENDED.jobs, FIRST_ENDED.dedup)
  {
    hide StoreSound;
    OneJobIsSound(d);
  }

  lemma OneJobIsSound(d: Disk)
    requires d.jobs == Alone(A_RUNS) && d.robots == map["r" := Storage.Kept(Bot(false, false, 0))]
    ensures StoreSound(d)
  {
    AloneIsAcyclic(A_RUNS);
    AcyclicMeansNoCycle(d.jobs);
    hide NoCycle, Acyclic, RobotsOk, SeqsDistinct, DepsLive, Ready, Held, Stable;
    OneJobIsAQueue(A_RUNS);
    OneRobotIsOk(d);
  }

  lemma OneJobIsAQueue(j: Job)
    requires j.deps == [] && j.status == Assigned && j.robot != ""
    ensures SeqsDistinct(Alone(j)) && DepsLive(Alone(j)) && Ready(Alone(j)) && Held(Alone(j)) && Stable(Alone(j))
  {
    hide Verdict;
  }

  lemma OneRobotIsOk(d: Disk)
    requires d.robots == map["r" := Storage.Kept(Bot(false, false, 0))]
    ensures RobotsOk(d.robots) && "r" in d.robots && !d.robots["r"].available
  {
  }

  lemma FirstWasSound(d: Disk)
    requires At(FIFTH_FAILS, FIRST_ENDED, d)
    ensures Sound(FIRST_ENDED)
  {
    hide Sound, Legal, Careful, Recalled, Run;
    var steps :| EndsAt(FIFTH_FAILS, steps, FIRST_ENDED, d);
    assert Arrives(FIFTH_FAILS, steps, FIRST_ENDED);
    ReachableIsRecountable(FIRST_ENDED);
    RecountableIsSound(FIRST_ENDED);
  }

  lemma FirstIsForgotten(d: Disk, op: Operation)
    requires d == Stores(Alone(A_RUNS), Bot(false, false, 0), 5) && op == Operation.Reload(2, map[], OFF, [])
    requires Sound(FIRST_ENDED) && Loads(FIRST_ENDED, d, op)
    ensures !Accounted(Loaded(FIRST_ENDED.log, d, op))
  {
    hide Steady, Accounted, Loads;
    AccountsSurviveIffStoriesAgree(FIRST_ENDED, d, op);
    assert "a" in d.jobs && !SameStory(FIRST_ENDED.jobs["a"], d.jobs["a"]);
  }

  lemma FirstReportsAgain(d: Disk, op: Operation)
    requires d == Stores(Alone(A_RUNS), Bot(false, false, 0), 5) && op == Operation.Reload(2, map[], OFF, [])
    ensures var m := Loaded(FIRST_ENDED.log, d, op);
      && "a" in m.jobs && m.jobs["a"].status == Assigned && CompleteError(m, "a", "r", 1).None?
      && Finished("a", "r", 1, true) in Chapter(m.log, "a")
      && var m' := Complete(m, "a", true, "r", 1, 0);
        Completions(Chapter(m'.log, "a")) == 2 && "a" in m'.jobs && m'.jobs["a"].attempt == 1
  {
    var g, f := Given("a", "r", 1), Finished("a", "r", 1, true);
    var m := Loaded(FIRST_ENDED.log, d, op);
    assert m.log == [Joined("r", 0), Created("a")] + [g] + [f];
    ChapterOfFirst(g, f);
    assert Complete(m, "a", true, "r", 1, 0) == Finish(m, "a", true, 0);
    RefreshedLives(m.jobs, "a", A_ENDED);
    hide Refreshed, Chapter, Completions;
    assert Finish(m, "a", true, 0).log == m.log + [f];
  }

  lemma ChapterOfFirst(g: Entry, f: Entry)
    requires g == Given("a", "r", 1) && f == Finished("a", "r", 1, true)
    ensures var log := [Joined("r", 0), Created("a")] + [g] + [f];
      Chapter(log, "a") == [g, f] && Chapter(log + [f], "a") == [g, f, f] && Completions([g, f, f]) == 2
  {
    hide Chapter, Completions;
    var born := [Joined("r", 0)];
    AppendLife(born, Created("a"), "a");
    assert born + [Created("a")] == [Joined("r", 0), Created("a")];
    AppendLife([Joined("r", 0), Created("a")], g, "a");
    AppendLife([Joined("r", 0), Created("a")] + [g], f, "a");
    AppendLife([Joined("r", 0), Created("a")] + [g] + [f], f, "a");
    NothingEndedYet("a");
    AppendCounts([], g);
    AppendCounts([g], f);
    AppendCounts([g, f], f);
    assert [] + [g] == [g] && [g] + [f] == [g, f] && [g, f] + [f] == [g, f, f];
  }

  // ---- A stop request that is listed but not accepted ----

  const HEALTHY: Backend := Backend(n => false, true, true, true)

  /** Silent robots give their work back once they confirmed a stop. */
  const REPLANS: Config := OFF.(replan := Replan(true, true, false, 0, false))

  function Waiting(attempt: int): Job { Plain("a", [], "k").(seqNo := 1, attempt := attempt) }

  function Running(attempt: int): Job { Waiting(attempt).(status := Assigned, robot := "r", attempt := attempt) }

  function Asked(at: Time): StopRequest { StopRequest("r", 1, at, at + DEFAULT_STOP_ACK_TIMEOUT, false) }

  /** The state of the engine when it has this job, this robot and these requests. */
  ghost predicate Watching(m: Memory, j: Job, r: Robot, requests: map<JobId, StopRequest>) {
    m.jobs == Alone(j) && m.robots == map["r" := r] && m.nextSeq == 1 && m.dedup == map["k" := "a"]
      && m.stopReq == requests && m.cfg == REPLANS && m.seen == map[]
  }

  ghost predicate Sees(j: Job, r: Robot, requests: map<JobId, StopRequest>) {
    exists m, d :: At(HEALTHY, m, d) && Watching(m, j, r, requests)
  }

  lemma WatchingFacts(m: Memory, j: Job, r: Robot, requests: map<JobId, StopRequest>)
    requires Watching(m, j, r, requests) && j.id == "a" && j.key == "k" && j.deps == [] && r.id == "r"
    ensures KeysLive(m.jobs, m.dedup) && Named(m.jobs, m.robots) && Acyclic(m.jobs)
    ensures m.robots.Keys == {"r"} && (j.status == Pending ==> PendingSet(m.jobs) == {"a"})
  {
    assert Ranked(m.jobs, map["a" := 0]);
  }

  lemma JobOfCapableRobot()
    ensures Sees(Waiting(0), Bot(true, true, 0), map[])
  {
    hide At;
    AtStart(HEALTHY);
    var m1 := EMPTY.(cfg := REPLANS);
    QuietSteps(HEALTHY, EMPTY, START.disk, Operation.SetConfig(REPLANS));
    Onward(HEALTHY, EMPTY, START.disk, Operation.SetConfig(REPLANS), START.disk);
    assert At(HEALTHY, m1, START.disk);
    Registers(HEALTHY, m1, START.disk, Declaration("r", "", "", true, 0, true), 0);
    var m2, d2 := Joining(m1, Bot(true, true, 0)), SaveRobot(START.disk, HEALTHY.fails, Bot(true, true, 0));
    JobForCapableRobot(m2, d2);
  }

  lemma JobForCapableRobot(m: Memory, d: Disk)
    requires At(HEALTHY, m, d) && m == Joining(EMPTY.(cfg := REPLANS), Bot(true, true, 0))
    ensures Sees(Waiting(0), Bot(true, true, 0), map[])
  {
    hide At;
    ShortNamesAreNotBlank();
    SubmitsNew(HEALTHY, m, d, Plain("a", [], "k"), 0);
    assert Stored(m, Plain("a", [], "k"), 0) == Waiting(0);
    assert Watching(Inserted(m, Waiting(0)), Waiting(0), Bot(true, true, 0), map[]);
  }

  lemma JobIsGiven(attempt: int, load: int, requests: map<JobId, StopRequest>)
    requires Sees(Waiting(attempt), Bot(true, true, load), requests)
    ensures Sees(Running(attempt + 1), Bot(true, false, load), requests)
  {
    hide At, Named, KeysLive, PendingSet, Acyclic;
    var m, d :| At(HEALTHY, m, d) && Watching(m, Waiting(attempt), Bot(true, true, load), requests);
    WatchingFacts(m, Waiting(attempt), Bot(true, true, load), requests);
    Dispatches(HEALTHY, m, d, "a", "r", 0);
    assert GivenJob(Waiting(attempt), "r", 0) == Running(attempt + 1);
    assert Watching(Give(m, "a", "r", 0), Running(attempt + 1), Bot(true, false, load), requests);
  }

  /** The robot falls silent and is asked to stop. */
  lemma RobotIsAsked()
    requires Sees(Running(1), Bot(true, false, 0), map[])
    ensures Sees(Running(1), Bot(true, false, 0), map["a" := Asked(2)])
  {
    hide At, Named, KeysLive, Acyclic, Agrees;
    var m, d :| At(HEALTHY, m, d) && Watching(m, Running(1), Bot(true, false, 0), map[]);
    WatchingFacts(m, Running(1), Bot(true, false, 0), map[]);
    OneIsAsked(m);
    SweepSteps(HEALTHY, m, d, 1, 2);
    Onward(HEALTHY, m, d, Operation.DetectStale(1, 2), d);
    assert Watching(AskedNow(m, "a", 2), Running(1), Bot(true, false, 0), map["a" := Asked(2)]);
  }

  lemma OneIsAsked(m: Memory)
    requires Watching(m, Running(1), Bot(true, false, 0), map[])
    ensures Sweep(m, 1, 2) == AskedNow(m, "a", 2)
  {
    assert StaleSet(m, 1, 2) == {"a"} && BackSet(m, 1, 2) == {};
    assert IsQueue(m.jobs, BySubmission, {"a"}, ["a"]);
    QueueIs(m.jobs, BySubmission, {"a"}, ["a"]);
    hide Queue;
    assert Withdrawals(m, 1, 2) == m;
    assert ["a"][1..] == [];
    assert StopDecision(m, "a", 2) == AskNow;
  }

  /** The robot reports a failure after all. */
  lemma JobFails(requests: map<JobId, StopRequest>)
    requires Sees(Running(1), Bot(true, false, 0), requests)
    ensures Sees(Running(1).(status := Failed), Bot(true, true, 1), requests)
  {
    hide At, Named, KeysLive, Acyclic, Committed;
    var m, d :| At(HEALTHY, m, d) && Watching(m, Running(1), Bot(true, false, 0), requests);
    WatchingFacts(m, Running(1), Bot(true, false, 0), requests);
    var ended := Running(1).(status := Failed);
    assert m.jobs["a" := ended] == Alone(ended) && EndedJob(Running(1), false, 0) == ended;
    AloneIsAcyclic(ended);
    Reports(HEALTHY, m, d, "a", "r", false, 0);
    assert Watching(AfterReport(m, "a", "r", false, 0), ended, Bot(true, true, 1), requests);
  }

  lemma AloneIsAcyclic(j: Job)
    requires j.deps == []
    ensures Acyclic(Alone(j))
  {
    assert Ranked(Alone(j), map["a" := 0]);
  }

  /** The failed job is submitted again under its key; its old request stays listed. */
  lemma JobIsRetried(requests: map<JobId, StopRequest>)
    requires Sees(Running(1).(status := Failed), Bot(true, true, 1), requests)
    ensures Sees(Waiting(1), Bot(true, true, 1), requests)
  {
    hide At, Named, KeysLive, Acyclic, FromRoots;
    var failed := Running(1).(status := Failed);
    var m, d :| At(HEALTHY, m, d) && Watching(m, failed, Bot(true, true, 1), requests);
    WatchingFacts(m, failed, Bot(true, true, 1), requests);
    var j := Plain("a", [], "k");
    NoRootsReachNothing(m.jobs, "a");
    assert Verdict(m.jobs, []) == Pending && Verdict(Alone(Waiting(1)), []) == Pending;
    assert RetriedJob(m, "a", j, 0) == Waiting(1) && m.jobs["a" := Waiting(1)] == Alone(Waiting(1));
    AloneIsAcyclic(Waiting(1));
    Retries(HEALTHY, m, d, "a", j, 0);
    assert Watching(m.(jobs := Alone(Waiting(1)), log := m.log + [Entry.Retried("a")]), Waiting(1), Bot(true, true, 1),
      requests);
  }

  /** A reachable state in which a request is listed for the robot that runs the job, and the robot's
      confirmation is refused: the request was made for an earlier attempt. */
  lemma AListedRequestMayBeStale()
    ensures exists m, d ::
      && At(HEALTHY, m, d) && Listed(m, "r", "a") && m.stopReq["a"].attempt == 1 && m.jobs["a"].attempt == 2
      && AckError(m, "r", "a") == Option.Some(NoStopRequest)
  {
    hide Sees;
    JobOfCapableRobot();
    JobIsGiven(0, 0, map[]);
    RobotIsAsked();
    JobFails(map["a" := Asked(2)]);
    JobIsRetried(map["a" := Asked(2)]);
    JobIsGiven(1, 1, map["a" := Asked(2)]);
    StaleRequest();
  }

  lemma StaleRequest()
    requires Sees(Running(2), Bot(true, false, 1), map["a" := Asked(2)])
    ensures exists m, d ::
      && At(HEALTHY, m, d) && Listed(m, "r", "a") && m.stopReq["a"].attempt == 1 && m.jobs["a"].attempt == 2
      && AckError(m, "r", "a") == Option.Some(NoStopRequest)
  {
    hide At;
    var m, d :| At(HEALTHY, m, d) && Watching(m, Running(2), Bot(true, false, 1), map["a" := Asked(2)]);
  }
}
