/** What holds in every state the engine can reach, whatever the sequence of operations, the order in
    which maps are walked, and the writes that fail; and what a restart after a failed write may break. */
module Runs {
  import opened Base
  import opened Model
  import opened Graph
  import opened Blocking
  import opened Ordering
  import opened Operations
  import opened Invariants
  import opened Lives
  import opened Moves
  import opened Archiving
  import opened Routing
  import opened Dispatching
  import opened Storage
  import opened Workings
  import opened Writing
  import opened Restarting

  /** Memory, the store, and the number of writes the store had seen when the two last agreed. */
  datatype World = World(mem: Memory, disk: Disk, since: nat)

  /** One operation, and the store it leaves. */
  datatype Step = Step(op: Operation, disk: Disk)

  const START: World := World(EMPTY, Disk(map[], map[], map[], 0), 0)

  ghost predicate Possible(b: Backend, w: World, s: Step) {
    && KeysLive(w.mem.jobs, w.mem.dedup)
    && if s.op.Reload? then Loads(w.mem, w.disk, s.op) && s.disk == w.disk
       else Allowed(w.mem, s.op) && Writes(b, w.mem, w.disk, s.op, s.disk)
  }

  /** A restart loads the store; every other operation works on memory. */
  ghost function MemoryAfter(w: World, s: Step): Memory
    requires KeysLive(w.mem.jobs, w.mem.dedup)
  {
    if s.op.Reload? then Loaded(w.mem.log, w.disk, s.op) else Apply(w.mem, s.op)
  }

  ghost function Next(b: Backend, w: World, s: Step): World
    requires KeysLive(w.mem.jobs, w.mem.dedup)
  {
    var m' := MemoryAfter(w, s);
    World(m', s.disk, if Agrees(m'.jobs, m'.robots, s.disk, b.forgets) then s.disk.writes else w.since)
  }

  /** Any sequence of operations and restarts, with the writes failing that `b` says. */
  ghost predicate Legal(b: Backend, w: World, steps: seq<Step>)
    decreases |steps|
  {
    steps == [] || (Possible(b, w, steps[0]) && Legal(b, Next(b, w, steps[0]), steps[1..]))
  }

  ghost function Run(b: Backend, w: World, steps: seq<Step>): World
    requires Legal(b, w, steps)
    decreases |steps|
  {
    if steps == [] then w else Run(b, Next(b, w, steps[0]), steps[1..])
  }

  /** No write has failed since the store last agreed with memory. */
  ghost predicate Unharmed(b: Backend, w: World) { Healthy(b.fails, w.since, w.disk.writes) }

  // ---- Which restarts a run makes ----

  /** The engine is only restarted while no write has failed since the store last agreed. */
  ghost predicate Careful(b: Backend, w: World, steps: seq<Step>)
    requires Legal(b, w, steps)
    decreases |steps|
  {
    steps == [] || ((steps[0].op.Reload? ==> Unharmed(b, w)) && Careful(b, Next(b, w, steps[0]), steps[1..]))
  }

  ghost predicate FindsSound(w: World, s: Step) { s.op.Reload? ==> StoreSound(w.disk) }

  /** The engine is only restarted from stores that hold sound records, lost writes or not. */
  ghost predicate Mended(b: Backend, w: World, steps: seq<Step>)
    requires Legal(b, w, steps)
    decreases |steps|
  {
    steps == [] || (FindsSound(w, steps[0]) && Mended(b, Next(b, w, steps[0]), steps[1..]))
  }

  ghost predicate FindsStory(w: World, s: Step) { s.op.Reload? ==> StoreSound(w.disk) && TellsTheSame(w.mem, w.disk) }

  /** The engine is only restarted from sound records that tell of attempts and loads what memory tells. */
  ghost predicate Recalled(b: Backend, w: World, steps: seq<Step>)
    requires Legal(b, w, steps)
    decreases |steps|
  {
    steps == [] || (FindsStory(w, steps[0]) && Recalled(b, Next(b, w, steps[0]), steps[1..]))
  }

  /** A state the engine can be in when each of its restarts found sound records. */
  ghost predicate Attainable(m: Memory) {
    exists b, steps :: Attains(b, steps, m)
  }

  ghost predicate Attains(b: Backend, steps: seq<Step>, m: Memory) {
    Legal(b, START, steps) && Mended(b, START, steps) && Run(b, START, steps).mem == m
  }

  /** A state the engine can be in when each of its restarts also found the story of memory. */
  ghost predicate Recountable(m: Memory) {
    exists b, steps :: Recounts(b, steps, m)
  }

  ghost predicate Recounts(b: Backend, steps: seq<Step>, m: Memory) {
    Legal(b, START, steps) && Recalled(b, START, steps) && Run(b, START, steps).mem == m
  }

  /** A state the engine can be in when, after a failed write, it goes on without a restart until the
      store agrees again. */
  ghost predicate Reachable(m: Memory) {
    exists b, steps :: Arrives(b, steps, m)
  }

  ghost predicate Arrives(b: Backend, steps: seq<Step>, m: Memory) {
    Legal(b, START, steps) && Careful(b, START, steps) && Run(b, START, steps).mem == m
  }

  // ---- One step ----

  lemma OperationKeeps(m: Memory, op: Operation)
    requires Steady(m) && Allowed(m, op)
    ensures KeysLive(m.jobs, m.dedup) && Keeps(m, Apply(m, op))
  {
    var mvs := OperationIsMoves(m, op);
    hide Keeps, Apply, Core;
    AllKeep(m, mvs);
  }

  lemma PossibleHasKeys(b: Backend, w: World, s: Step)
    requires Possible(b, w, s)
    ensures KeysLive(w.mem.jobs, w.mem.dedup)
  {
  }

  lemma SteadyIsCore(m: Memory)
    requires Steady(m)
    ensures Core(m)
  {
  }

  /** Only a restart can leave the engine unsteady, and only by loading records that are not sound. */
  lemma StepKeepsSteady(b: Backend, w: World, s: Step)
    requires Steady(w.mem) && Possible(b, w, s)
    ensures KeysLive(w.mem.jobs, w.mem.dedup) && (Steady(Next(b, w, s).mem) <==> FindsSound(w, s))
    ensures !s.op.Reload? && Accounted(w.mem) ==> Accounted(Next(b, w, s).mem)
  {
    hide Steady, Accounted, StoreSound, Agrees, Apply, Writes, Loads, Allowed;
    if s.op.Reload? {
      StartIsSteadyIffStoreIsSound(w.mem, w.disk, s.op);
    } else {
      OperationKeeps(w.mem, s.op);
    }
  }

  lemma WritesGoThrough(b: Backend, m: Memory, d: Disk, op: Operation, d': Disk)
    requires KeysLive(m.jobs, m.dedup) && Writes(b, m, d, op, d')
    ensures Through(b, m, d, Apply(m, op), d')
  {
  }

  /** Whatever fails, the store goes on holding the jobs of memory, under their keys and numbers. */
  lemma StepKeepsRecords(b: Backend, w: World, s: Step)
    requires Possible(b, w, s) && SameRecords(w.mem.jobs, w.disk.jobs)
    ensures SameRecords(Next(b, w, s).mem.jobs, Next(b, w, s).disk.jobs)
  {
    hide Agrees, Apply, Allowed, Loads, KeysLive;
    if !s.op.Reload? {
      WritesGoThrough(b, w.mem, w.disk, s.op, s.disk);
    }
    hide Writes;
  }

  // ---- Which restarts keep memory consistent ----

  /** Memory is consistent all along the run, and so are its stop requests. */
  ghost predicate AlwaysSteady(b: Backend, w: World, steps: seq<Step>)
    requires Legal(b, w, steps)
    decreases |steps|
  {
    Steady(w.mem) && (steps == [] || AlwaysSteady(b, Next(b, w, steps[0]), steps[1..]))
  }

  /** A run keeps memory consistent all along if and only if every restart in it finds sound records:
      no operation ever breaks anything, whatever writes fail. */
  lemma {:induction false} OnlyRestartsCanHarm(b: Backend, w: World, steps: seq<Step>)
    requires Steady(w.mem) && Legal(b, w, steps)
    ensures Mended(b, w, steps) <==> AlwaysSteady(b, w, steps)
    ensures Mended(b, w, steps) ==> Steady(Run(b, w, steps).mem)
    decreases |steps|
  {
    hide Steady, Possible, Next, FindsSound;
    if steps != [] {
      StepKeepsSteady(b, w, steps[0]);
      if Steady(Next(b, w, steps[0]).mem) {
        OnlyRestartsCanHarm(b, Next(b, w, steps[0]), steps[1..]);
      }
    }
  }

  lemma EmptyIsSound()
    ensures Sound(EMPTY)
  {
    EmptyIsCore();
  }

  lemma AttainableIsSteady(m: Memory)
    requires Attainable(m)
    ensures Steady(m)
  {
    EmptyIsSound();
    hide Steady, Legal, Mended, Run;
    var b, steps :| Attains(b, steps, m);
    OnlyRestartsCanHarm(b, START, steps);
  }

  lemma AttainableIsCore(m: Memory)
    requires Attainable(m)
    ensures Core(m)
  {
    AttainableIsSteady(m);
    hide Core;
  }

  // ---- Which restarts keep the accounts ----

  /** The counters agree with the history all along the run. */
  ghost predicate AlwaysSound(b: Backend, w: World, steps: seq<Step>)
    requires Legal(b, w, steps)
    decreases |steps|
  {
    Sound(w.mem) && (steps == [] || AlwaysSound(b, Next(b, w, steps[0]), steps[1..]))
  }

  /** The counters of a run agree with its history all along if and only if every restart in it finds
      sound records that tell what memory tells. */
  lemma {:induction false} OnlyRestartsCanForget(b: Backend, w: World, steps: seq<Step>)
    requires Sound(w.mem) && SameRecords(w.mem.jobs, w.disk.jobs) && Legal(b, w, steps)
    ensures Recalled(b, w, steps) <==> AlwaysSound(b, w, steps)
    ensures Recalled(b, w, steps) ==> Sound(Run(b, w, steps).mem)
    decreases |steps|
  {
    hide Sound, Possible, Next, FindsStory, SameRecords;
    if steps != [] {
      StepKeepsRecords(b, w, steps[0]);
      StepKeepsAccounts(b, w, steps[0]);
      if Sound(Next(b, w, steps[0]).mem) {
        OnlyRestartsCanForget(b, Next(b, w, steps[0]), steps[1..]);
      }
    }
  }

  lemma StepKeepsAccounts(b: Backend, w: World, s: Step)
    requires Sound(w.mem) && SameRecords(w.mem.jobs, w.disk.jobs) && Possible(b, w, s)
    ensures KeysLive(w.mem.jobs, w.mem.dedup) && (Sound(Next(b, w, s).mem) <==> FindsStory(w, s))
  {
    hide Steady, Accounted, StoreSound, TellsTheSame, Agrees, Apply, Writes, Loads, Allowed;
    StepKeepsSteady(b, w, s);
    if s.op.Reload? {
      AccountsSurviveIffStoriesAgree(w.mem, w.disk, s.op);
    }
  }

  lemma RecountableIsSound(m: Memory)
    requires Recountable(m)
    ensures Sound(m)
  {
    EmptyIsSound();
    hide Sound, Legal, Recalled, Run;
    var b, steps :| Recounts(b, steps, m);
    OnlyRestartsCanForget(b, START, steps);
  }

  lemma {:induction false} RecalledIsMended(b: Backend, w: World, steps: seq<Step>)
    requires Legal(b, w, steps) && Recalled(b, w, steps)
    ensures Mended(b, w, steps)
    decreases |steps|
  {
    hide Possible, Next, StoreSound, TellsTheSame;
    if steps != [] {
      PossibleHasKeys(b, w, steps[0]);
      RecalledIsMended(b, Next(b, w, steps[0]), steps[1..]);
    }
  }

  lemma RecountableIsAttainable(m: Memory)
    requires Recountable(m)
    ensures Attainable(m)
  {
    hide Legal, Recalled, Mended, Run;
    var b, steps :| Recounts(b, steps, m);
    RecalledIsMended(b, START, steps);
    assert Attains(b, steps, m);
  }

  // ---- A condition on the writes alone ----

  /** What a careful run keeps: memory is sound, and the store agrees with it if and only if no write has
      failed since it last did. */
  ghost predicate Upheld(b: Backend, w: World) {
    && Sound(w.mem) && w.since <= w.disk.writes
    && (Agrees(w.mem.jobs, w.mem.robots, w.disk, b.forgets) ==> w.since == w.disk.writes)
    && (Unharmed(b, w) ==> Agrees(w.mem.jobs, w.mem.robots, w.disk, b.forgets))
  }

  lemma StepKeeps(b: Backend, w: World, s: Step)
    requires Upheld(b, w) && Possible(b, w, s) && (s.op.Reload? ==> Unharmed(b, w))
    ensures KeysLive(w.mem.jobs, w.mem.dedup) && Upheld(b, Next(b, w, s))
    ensures Allowed(w.mem, s.op) && Next(b, w, s).mem == Apply(w.mem, s.op)
  {
    hide Steady, Accounted, Agrees, SameRecords, Apply, Allowed, Loads;
    if s.op.Reload? {
      SteadyCounts(w.mem);
      AgreeingStartIsReload(w.mem, w.disk, s.op, b.forgets);
    } else {
      WritesGoThrough(b, w.mem, w.disk, s.op, s.disk);
      hide Writes;
    }
    OperationKeeps(w.mem, s.op);
  }

  lemma SteadyCounts(m: Memory)
    requires Steady(m)
    ensures JobsOk(m.jobs, m.nextSeq)
  {
  }

  lemma {:induction false} RunKeeps(b: Backend, w: World, steps: seq<Step>)
    requires Upheld(b, w) && Legal(b, w, steps) && Careful(b, w, steps)
    ensures Upheld(b, Run(b, w, steps))
    decreases |steps|
  {
    hide Upheld, Possible, Next, Unharmed;
    if steps != [] {
      StepKeeps(b, w, steps[0]);
      RunKeeps(b, Next(b, w, steps[0]), steps[1..]);
    }
  }

  lemma StartIsUpheld(b: Backend)
    ensures Upheld(b, START)
  {
    EmptyIsSound();
    hide Sound;
  }

  /** The store agrees with memory if and only if no write has failed since it last did; then, and
      whenever it agrees, a restart gives a sound engine with the same jobs. */
  lemma StoreAgreesUnlessAWriteFailed(b: Backend, steps: seq<Step>)
    requires Legal(b, START, steps) && Careful(b, START, steps)
    ensures var w := Run(b, START, steps); Agrees(w.mem.jobs, w.mem.robots, w.disk, b.forgets) <==> Unharmed(b, w)
    ensures var w := Run(b, START, steps);
      forall op: Operation :: op.Reload? && Unharmed(b, w) && Loads(w.mem, w.disk, op) ==>
        Sound(Loaded(w.mem.log, w.disk, op)) && Loaded(w.mem.log, w.disk, op).jobs == w.mem.jobs && StoreSound(w.disk)
  {
    hide Legal, Careful, Run, Steady, Accounted, Agrees, Loads, StoreSound;
    StartIsUpheld(b);
    RunKeeps(b, START, steps);
    var w := Run(b, START, steps);
    forall op: Operation | op.Reload? && Unharmed(b, w) && Loads(w.mem, w.disk, op)
      ensures Sound(Loaded(w.mem.log, w.disk, op)) && Loaded(w.mem.log, w.disk, op).jobs == w.mem.jobs
        && StoreSound(w.disk)
    {
      CleanStart(w.mem, w.disk, op, b.forgets);
    }
  }

  lemma CleanStart(m: Memory, d: Disk, op: Operation, exact: bool)
    requires Steady(m) && Agrees(m.jobs, m.robots, d, exact) && Loads(m, d, op)
    ensures Keeps(m, Loaded(m.log, d, op)) && Loaded(m.log, d, op).jobs == m.jobs && StoreSound(d)
  {
    hide Steady, Accounted, StoreSound, Loads;
    SteadyCounts(m);
    SteadyKeys(m);
    AgreeingStartIsReload(m, d, op, exact);
    OperationKeeps(m, op);
    StartIsSteadyIffStoreIsSound(m, d, op);
  }

  lemma SteadyKeys(m: Memory)
    requires Steady(m)
    ensures KeysLive(m.jobs, m.dedup)
  {
  }

  /** While no write has failed since the store last agreed, it tells what memory tells. */
  lemma {:induction false} CarefulIsRecalled(b: Backend, w: World, steps: seq<Step>)
    requires Upheld(b, w) && Legal(b, w, steps) && Careful(b, w, steps)
    ensures Recalled(b, w, steps)
    decreases |steps|
  {
    hide Upheld, Possible, Next, Unharmed, FindsStory;
    if steps != [] {
      StepKeeps(b, w, steps[0]);
      CarefulFindsStory(b, w, steps[0]);
      CarefulIsRecalled(b, Next(b, w, steps[0]), steps[1..]);
    }
  }

  lemma CarefulFindsStory(b: Backend, w: World, s: Step)
    requires Upheld(b, w) && Possible(b, w, s) && (s.op.Reload? ==> Unharmed(b, w))
    ensures FindsStory(w, s)
  {
    hide Steady, Accounted, Agrees, StoreSound, Loads, TellsTheSame, Writes, Allowed;
    if s.op.Reload? {
      CleanStart(w.mem, w.disk, s.op, b.forgets);
      AgreeingStoriesAgree(w.mem, w.disk, b.forgets);
    }
  }

  lemma ReachableIsRecountable(m: Memory)
    requires Reachable(m)
    ensures Recountable(m)
  {
    hide Legal, Careful, Recalled, Run, Upheld;
    var b, steps :| Arrives(b, steps, m);
    StartIsUpheld(b);
    CarefulIsRecalled(b, START, steps);
    assert Recounts(b, steps, m);
  }

  // ---- The store knows every job ----

  lemma {:induction false} RunKeepsRecords(b: Backend, w: World, steps: seq<Step>)
    requires Legal(b, w, steps) && SameRecords(w.mem.jobs, w.disk.jobs)
    ensures SameRecords(Run(b, w, steps).mem.jobs, Run(b, w, steps).disk.jobs)
    decreases |steps|
  {
    hide Possible, Next, SameRecords;
    if steps != [] {
      PossibleHasKeys(b, w, steps[0]);
      StepKeepsRecords(b, w, steps[0]);
      RunKeepsRecords(b, Next(b, w, steps[0]), steps[1..]);
    }
  }

  /** In every run, whatever writes fail and wherever it restarts, the store holds exactly the jobs of
      memory, under the same keys and numbers; and while restarts find sound records the numbers differ. */
  lemma StoreKnowsEveryJob(b: Backend, steps: seq<Step>)
    requires Legal(b, START, steps)
    ensures SameRecords(Run(b, START, steps).mem.jobs, Run(b, START, steps).disk.jobs)
    ensures Mended(b, START, steps) ==> SeqsDistinct(Run(b, START, steps).disk.jobs)
  {
    hide Legal, Mended, Run, Steady;
    EmptyIsSound();
    RunKeepsRecords(b, START, steps);
    OnlyRestartsCanHarm(b, START, steps);
    if Mended(b, START, steps) {
      SteadyCounts(Run(b, START, steps).mem);
      SameNumbers(Run(b, START, steps).mem.jobs, Run(b, START, steps).disk.jobs);
    }
  }

  lemma SameNumbers(jobs: Jobs, stored: Jobs)
    requires SameRecords(jobs, stored) && SeqsDistinct(jobs)
    ensures SeqsDistinct(stored)
  {
  }

  // ---- The theorems, said plainly ----

  /** Dependencies never dangle and never form a cycle, although retries rewire them. */
  lemma GraphIsAlwaysSound(m: Memory)
    requires Attainable(m)
    ensures DepsLive(m.jobs) && NoCycle(m.jobs)
  {
    AttainableIsCore(m);
    hide NoCycle, Acyclic;
    AcyclicMeansNoCycle(m.jobs);
  }

  /** The stored verdict of every waiting job is the true one, also after the operations that never
      recompute verdicts: pending when all dependencies are done, unreachable when a chain of waiting
      jobs leads to a failed or cancelled one, blocked otherwise. */
  lemma VerdictsAreAlwaysTrue(m: Memory, id: JobId)
    requires Attainable(m) && id in m.jobs && m.jobs[id].status.Waiting()
    ensures m.jobs[id].status == Verdict(m.jobs, m.jobs[id].deps)
    ensures m.jobs[id].status == Pending <==>
      forall d :: d in m.jobs[id].deps ==> d in m.jobs && m.jobs[d].status == Done
    ensures m.jobs[id].status == Unreachable <==> Doomed(m.jobs, id)
  {
    AttainableIsCore(m);
    StableMeaning(m, id);
  }

  lemma StableMeaning(m: Memory, id: JobId)
    requires Core(m) && id in m.jobs && m.jobs[id].status.Waiting()
    ensures m.jobs[id].status == Verdict(m.jobs, m.jobs[id].deps)
    ensures m.jobs[id].status == Pending <==>
      forall d :: d in m.jobs[id].deps ==> d in m.jobs && m.jobs[d].status == Done
    ensures m.jobs[id].status == Unreachable <==> Doomed(m.jobs, id)
  {
    assert Reverdict(m.jobs, m.jobs);
    StableIsRefreshed(m.jobs, m.jobs);
    assert forall d :: d in m.jobs[id].deps ==> d in m.jobs;
    hide Reserved, KeysLive, RobotsOk, Refreshed, Doomed, Acyclic, JobsOk;
    RefreshedMeaning(m.jobs, id);
  }

  /** No job is given out before its dependencies are done, and they stay done. */
  lemma WorkOnlyStartsWhenReady(m: Memory, id: JobId, d: JobId)
    requires Attainable(m) && id in m.jobs
      && (m.jobs[id].status.InFlight() || m.jobs[id].status == Done || m.jobs[id].status == Failed)
    requires d in m.jobs[id].deps
    ensures d in m.jobs && m.jobs[d].status == Done
  {
    AttainableIsCore(m);
  }

  /** One assigned job at most on a robot; that robot is registered and not available; a robot that
      reported itself unavailable is not available. */
  lemma RobotsAreNeverShared(m: Memory)
    requires Attainable(m)
    ensures forall a, b ::
      a in m.jobs && b in m.jobs && m.jobs[a].status == Assigned && m.jobs[b].status == Assigned
      && m.jobs[a].robot == m.jobs[b].robot
      ==> a == b
    ensures forall a :: a in m.jobs && m.jobs[a].status == Assigned ==>
      m.jobs[a].robot in m.robots && !m.robots[m.jobs[a].robot].available
    ensures forall r :: r in m.robots && m.robots[r].selfReported ==> !m.robots[r].available
  {
    AttainableIsCore(m);
  }

  /** Attempts are conserved and read in order over the whole life of a job, and the load of a robot
      counts the reports it made. */
  lemma AttemptsAreAccountedFor(m: Memory, id: JobId)
    requires Recountable(m) && id in m.jobs
    ensures var h := Chapter(m.log, id);
      m.jobs[id].attempt == Completions(h) + Losses(h) + (if m.jobs[id].status.InFlight() then 1 else 0)
    ensures forall k :: 1 <= k <= m.jobs[id].attempt ==> Proper(Word(Chapter(m.log, id), k), id, k)
    ensures forall k :: k < 1 || k > m.jobs[id].attempt ==> Word(Chapter(m.log, id), k) == []
  {
    RecountableIsSound(m);
    LifeAt(m, id);
    AttemptsAreConserved(m.log, id);
    AttemptsReadInOrder(m.log, id);
    hide Sound, Proper, Word, LifeOf, Chapter;
  }

  lemma LoadsCountReports(m: Memory, r: RobotId)
    requires Recountable(m) && r in m.robots
    ensures m.robots[r].load == LoadOf(m.log, r)
  {
    RecountableIsSound(m);
  }

  /** A confirmed stop only ever takes back the assignment its request was made for: the request is
      part of the job's present life and names its present robot and attempt. */
  lemma AckTakesBackTheAskedAssignment(m: Memory, robot: RobotId, id: JobId)
    requires Attainable(m) && AckError(m, robot, id).None?
    ensures m.jobs[id].robot == robot && m.jobs[id].status.InFlight()
    ensures Asked(id, robot, m.jobs[id].attempt, m.stopReq[id].at, m.stopReq[id].timeoutAt) in Chapter(m.log, id)
    ensures AckStop(m, robot, id).jobs[id].status == Pending
  {
    hide Core, Chapter, AckStop, RequestsOk;
    AttainableIsSteady(m);
    AcceptedWasAsked(m, robot, id);
    AcknowledgedIsPending(m, robot, id);
  }

  lemma AcceptedWasAsked(m: Memory, robot: RobotId, id: JobId)
    requires Core(m) && RequestsOk(m) && AckError(m, robot, id).None?
    ensures m.jobs[id].robot == robot
    ensures Asked(id, robot, m.jobs[id].attempt, m.stopReq[id].at, m.stopReq[id].timeoutAt) in Chapter(m.log, id)
  {
    hide JobsOk, KeysLive, Ready, Stable, Acyclic, DepsLive, Reserved, RobotsOk, Chapter;
  }

  lemma AcknowledgedIsPending(m: Memory, robot: RobotId, id: JobId)
    requires Core(m) && AckError(m, robot, id).None?
    ensures id in AckStop(m, robot, id).jobs && AckStop(m, robot, id).jobs[id].status == Pending
  {
    hide Core, Verdict;
    AbandonKeepsCore(m, id);
  }

  /** The list of open requests names every request a confirmation of which would be accepted; a
      listed one is accepted if and only if it was made for the present attempt (a job can fail, be
      submitted again and come back to the same robot while its old request is still listed). */
  lemma ListedRequestsAreAcceptedIfFresh(m: Memory, robot: RobotId, id: JobId)
    requires Core(m) && m.cfg.replan.enabled
    ensures AckError(m, robot, id).None? <==> Listed(m, robot, id) && m.stopReq[id].attempt == m.jobs[id].attempt
  {
    hide QueueOk, Stable, KeysLive;
    assert id in m.jobs && m.jobs[id].status.InFlight() ==> m.jobs[id].robot != "";
  }

  predicate Listed(m: Memory, robot: RobotId, id: JobId) {
    id in m.stopReq && id in m.jobs && m.jobs[id].status.InFlight() && m.jobs[id].robot == m.stopReq[id].robot == robot
  }

  // ---- Keys ----

  /** Keyed jobs enter through SubmitJob only. */
  ghost predicate KeyedBySubmission(steps: seq<Step>) {
    forall i :: 0 <= i < |steps| && steps[i].op.AddJob? ==> steps[i].op.j.key == ""
  }

  lemma {:induction false} MovesKeepKeys(m: Memory, mvs: seq<Move>)
    requires Core(m) && CanAll(m, mvs) && Keyless(mvs) && KeysComplete(m.jobs, m.dedup)
    ensures KeysComplete(DoAll(m, mvs).jobs, DoAll(m, mvs).dedup)
    decreases |mvs|
  {
    hide Core, KeysComplete, Do, Can;
    if mvs != [] {
      MoveKeepsCore(m, mvs[0]);
      MoveKeepsKeys(m, mvs[0]);
      assert forall i :: 0 <= i < |mvs[1..]| ==> mvs[1..][i] == mvs[i + 1];
      MovesKeepKeys(Do(m, mvs[0]), mvs[1..]);
    }
  }

  lemma OperationKeepsKeys(m: Memory, op: Operation)
    requires Core(m) && Allowed(m, op) && KeysComplete(m.jobs, m.dedup) && (op.AddJob? ==> op.j.key == "")
    ensures KeysLive(m.jobs, m.dedup) && KeysComplete(Apply(m, op).jobs, Apply(m, op).dedup)
  {
    var mvs := OperationIsMoves(m, op);
    hide KeysComplete, Stable, Reserved, RobotsOk, QueueOk, Verdict, Refreshed, FromRoots, CanAll, DoAll;
    if op.AddJob? {
      AddKeepsKeys(m, op.j, op.now, op.saved);
    } else if op.SubmitJob? {
      SubmitKeepsKeys(m, op.j, op.now, op.saved);
    } else if op.Reload? {
      OneKeyIndex(m.jobs, m.dedup, op.dedup);
      JoiningKeepsJobs(RestartedWith(m, op.nextSeq, op.dedup, op.cfg), op.back);
    } else {
      hide Apply;
      MovesKeepKeys(m, mvs);
    }
  }

  lemma AddKeepsKeys(m: Memory, j: Job, now: Time, saved: bool)
    requires KeysComplete(m.jobs, m.dedup) && (j.key == "" || j.key !in m.dedup)
    ensures KeysComplete(Add(m, j, now, saved).jobs, Add(m, j, now, saved).dedup)
  {
  }

  lemma SubmitKeepsKeys(m: Memory, j: Job, now: Time, saved: bool)
    requires KeysLive(m.jobs, m.dedup) && KeysComplete(m.jobs, m.dedup)
    ensures KeysComplete(Submit(m, j, now, saved).jobs, Submit(m, j, now, saved).dedup)
  {
    hide KeysComplete, Verdict, ShapeOk, Blank, FromRoots, Refreshed;
    match SubmissionOf(m, j)
    case NewJob => AddKeepsKeys(m, j, now, saved);
    case Retry => RefreshKeepsKeys(m, m.dedup[j.key], RetriedJob(m, m.dedup[j.key], j, now));
    case _ =>
  }

  /** The keys of memory, and that the store knows its jobs. */
  ghost predicate Keyed(w: World) {
    Steady(w.mem) && KeysComplete(w.mem.jobs, w.mem.dedup) && SameRecords(w.mem.jobs, w.disk.jobs)
  }

  lemma {:induction false} RunKeepsKeys(b: Backend, w: World, steps: seq<Step>)
    requires Keyed(w) && Legal(b, w, steps) && Mended(b, w, steps) && KeyedBySubmission(steps)
    ensures Keyed(Run(b, w, steps))
    decreases |steps|
  {
    hide Keyed, Possible, Next, FindsSound;
    if steps != [] {
      PossibleHasKeys(b, w, steps[0]);
      StepKeepsKeys(b, w, steps[0]);
      assert forall i :: 0 <= i < |steps[1..]| ==> steps[1..][i] == steps[i + 1];
      RunKeepsKeys(b, Next(b, w, steps[0]), steps[1..]);
    }
  }

  lemma StepKeepsKeys(b: Backend, w: World, s: Step)
    requires Keyed(w) && Possible(b, w, s) && FindsSound(w, s) && (s.op.AddJob? ==> s.op.j.key == "")
    ensures Keyed(Next(b, w, s))
  {
    hide Steady, KeysComplete, SameRecords, Apply, Agrees, Writes, Loads, Allowed, FindsSound;
    SteadyIsCore(w.mem);
    StepKeepsSteady(b, w, s);
    StepKeepsRecords(b, w, s);
    if s.op.Reload? {
      KeysSurvive(w.mem, w.disk, s.op);
    } else {
      OperationKeepsKeys(w.mem, s.op);
    }
  }

  /** A start rebuilds the very index memory had, whatever writes the store missed. */
  lemma KeysSurvive(m: Memory, d: Disk, op: Operation)
    requires KeysLive(m.jobs, m.dedup) && KeysComplete(m.jobs, m.dedup) && SameRecords(m.jobs, d.jobs)
      && Loads(m, d, op)
    ensures op.dedup == m.dedup && KeysComplete(d.jobs, op.dedup)
  {
    hide Returning;
    OneKeyIndex(d.jobs, m.dedup, op.dedup);
  }

  /** Each key belongs to one live job at most, and the index maps it to exactly that job. */
  lemma KeysIdentifyJobs(b: Backend, steps: seq<Step>, m: Memory)
    requires Attains(b, steps, m) && KeyedBySubmission(steps)
    ensures forall k :: k in m.dedup ==> k != "" && m.dedup[k] in m.jobs && m.jobs[m.dedup[k]].key == k
    ensures forall id :: id in m.jobs && m.jobs[id].key != "" ==>
      m.jobs[id].key in m.dedup && m.dedup[m.jobs[id].key] == id
  {
    hide *;
    KeysAfterRun(b, steps, m);
    KeysSaidPlainly(m);
  }

  lemma KeysAfterRun(b: Backend, steps: seq<Step>, m: Memory)
    requires Attains(b, steps, m) && KeyedBySubmission(steps)
    ensures Core(m) && KeysComplete(m.jobs, m.dedup)
  {
    EmptyIsCore();
    EmptyIsSound();
    hide Core, KeysComplete, Run, Legal, Mended;
    RunKeepsKeys(b, START, steps);
  }

  lemma KeysSaidPlainly(m: Memory)
    requires Core(m) && KeysComplete(m.jobs, m.dedup)
    ensures forall k :: k in m.dedup ==> k != "" && m.dedup[k] in m.jobs && m.jobs[m.dedup[k]].key == k
    ensures forall id :: id in m.jobs && m.jobs[id].key != "" ==>
      m.jobs[id].key in m.dedup && m.dedup[m.jobs[id].key] == id
  {
  }

  /** Resubmitting the key of a live job never makes a second job, and changes nothing at all unless
      that job failed or was cancelled. */
  lemma ResubmissionIsSafe(b: Backend, steps: seq<Step>, m: Memory, j: Job, now: Time, saved: bool, id: JobId)
    requires Attains(b, steps, m) && KeyedBySubmission(steps)
    requires id in m.jobs && j.key != "" && m.jobs[id].key == j.key
    ensures KeysLive(m.jobs, m.dedup) && SubmissionOf(m, j) != NewJob
    ensures m.jobs[id].status != Failed && m.jobs[id].status != Cancelled ==>
      SubmissionOf(m, j) == Duplicate && Submit(m, j, now, saved) == m
    ensures Submit(m, j, now, saved).jobs.Keys == m.jobs.Keys
  {
    hide *;
    KeysAfterRun(b, steps, m);
    CoreKeys(m);
    OneResubmission(m, j, now, saved, id);
  }

  lemma CoreKeys(m: Memory)
    requires Core(m)
    ensures KeysLive(m.jobs, m.dedup)
  {
  }

  lemma OneResubmission(m: Memory, j: Job, now: Time, saved: bool, id: JobId)
    requires KeysLive(m.jobs, m.dedup) && KeysComplete(m.jobs, m.dedup) && id in m.jobs && j.key != ""
      && m.jobs[id].key == j.key
    ensures SubmissionOf(m, j) != NewJob
    ensures m.jobs[id].status != Failed && m.jobs[id].status != Cancelled ==>
      SubmissionOf(m, j) == Duplicate && Submit(m, j, now, saved) == m
    ensures Submit(m, j, now, saved).jobs.Keys == m.jobs.Keys
  {
  }

  // ---- Finished jobs ----

  /** A finished job is never changed: it stays as it is until it is archived. */
  lemma MoveKeepsDone(m: Memory, mv: Move, id: JobId)
    requires Can(m, mv) && id in m.jobs && m.jobs[id].status == Done
    ensures id in Do(m, mv).jobs ==> Do(m, mv).jobs[id] == m.jobs[id]
    ensures id !in Do(m, mv).jobs ==> mv.Archive? && id in mv.ids
  {
    hide Verdict, FromRoots, ShapeOk, Blank, Refreshed, Separable, Freed, Operations.Busy, HeldInFlight, JobsOk,
      KeysLive, KeysComplete, FirstSeen, DepsKnown;
    match mv
    case Resubmit(x, j, now) => RefreshKeepsDone(m.jobs, x, RetriedJob(m, x, j, now), id);
    case End(x, success, now) => RefreshKeepsDone(m.jobs, x, EndedJob(m.jobs[x], success, now), id);
    case CallOff(x, now) => RefreshKeepsDone(m.jobs, x, CancelledJob(m.jobs[x], now), id);
    case _ =>
  }

  lemma {:induction false} MovesKeepDone(m: Memory, mvs: seq<Move>, id: JobId)
    requires CanAll(m, mvs) && Keyless(mvs) && (id in m.jobs ==> m.jobs[id].status == Done)
    ensures id in DoAll(m, mvs).jobs ==> id in m.jobs && DoAll(m, mvs).jobs[id] == m.jobs[id]
    decreases |mvs|
  {
    hide Do, Can;
    if mvs != [] {
      if id in m.jobs { MoveKeepsDone(m, mvs[0], id); } else { NobodyNew(m, mvs[0], id); }
      assert forall i :: 0 <= i < |mvs[1..]| ==> mvs[1..][i] == mvs[i + 1];
      MovesKeepDone(Do(m, mvs[0]), mvs[1..], id);
    }
  }

  lemma NobodyNew(m: Memory, mv: Move, id: JobId)
    requires Can(m, mv) && !mv.Insert? && id !in m.jobs
    ensures id !in Do(m, mv).jobs
  {
    hide FromRoots, Separable, HeldInFlight, JobsOk, KeysLive, DepsKnown;
  }

  /** No operation changes a finished job; all it can do is take it out of the queue. */
  lemma OperationKeepsDone(m: Memory, op: Operation, id: JobId)
    requires Core(m) && Allowed(m, op) && !op.Reload? && id in m.jobs && m.jobs[id].status == Done
    ensures KeysLive(m.jobs, m.dedup) && (id in Apply(m, op).jobs ==> Apply(m, op).jobs[id] == m.jobs[id])
  {
    var mvs := OperationIsMoves(m, op);
    hide Apply, Core, KeysLive, Do, Can;
    if op.AddJob? || op.SubmitJob? {
      SubmissionKeepsDone(m, op, id);
    } else {
      MovesKeepDone(m, mvs, id);
    }
  }

  lemma SubmissionKeepsDone(m: Memory, op: Operation, id: JobId)
    requires KeysLive(m.jobs, m.dedup) && (op.AddJob? || op.SubmitJob?) && id in m.jobs && m.jobs[id].status == Done
    ensures id in Apply(m, op).jobs && Apply(m, op).jobs[id] == m.jobs[id]
  {
    hide Verdict, ShapeOk, Blank, FromRoots, DepsKnown, Refreshed;
    if op.SubmitJob? && SubmissionOf(m, op.j).Retry? {
      var x := m.dedup[op.j.key];
      RefreshKeepsDone(m.jobs, x, RetriedJob(m, x, op.j, op.now), id);
    }
  }

  lemma RefreshKeepsDone(jobs: Jobs, x: JobId, j: Job, id: JobId)
    requires x in jobs && x != id && id in jobs && jobs[id].status == Done
    ensures id in Refreshed(jobs[x := j]) && Refreshed(jobs[x := j])[id] == jobs[id]
  {
  }

  // ---- The sweep and the confirmed stop ----

  /** While replanning on silence is on, the sweep takes the job of a robot that can confirm a stop
      away from it only when unconfirmed stops are allowed and this very assignment was asked for, and
      its deadline has passed since; with them disallowed no sweep takes such a job away. */
  lemma SweepRespectsConfirmedStops(m: Memory, timeout: Duration, now: Time, id: JobId)
    requires Attainable(m) && ReplansSilent(m.cfg)
    requires id in m.jobs && m.jobs[id].status == Assigned && m.jobs[id].robot in m.robots
      && m.robots[m.jobs[id].robot].stopCapable
    ensures var j := m.jobs[id]; var m' := Sweep(m, timeout, now);
      && id in m'.jobs
      && (m'.jobs[id].status == Pending ==>
            m.cfg.replan.allowUnconfirmed && exists at,
              due :: at < due <= now && Asked(id, j.robot, j.attempt, at, due) in Chapter(m.log, id))
      && (!m.cfg.replan.allowUnconfirmed ==>
        m'.jobs[id].status.InFlight() && m'.jobs[id].robot == j.robot && m'.jobs[id].attempt == j.attempt)
  {
    hide Sweep, SweepReport, Core, RequestsOk, Chapter;
    AttainableIsSteady(m);
    SweepDoesWhatItReports(m, timeout, now);
    if id in SweepReport(m, timeout, now).requeued {
      RequeuedWasAsked(m, timeout, now, id);
      assert Asked(id, m.jobs[id].robot, m.jobs[id].attempt, m.stopReq[id].at,
        m.stopReq[id].timeoutAt) in Chapter(m.log, id);
    }
  }

  lemma RequeuedWasAsked(m: Memory, timeout: Duration, now: Time, id: JobId)
    requires RequestsOk(m) && ReplansSilent(m.cfg) && id in SweepReport(m, timeout, now).requeued
    requires id in m.jobs && m.jobs[id].status == Assigned && m.jobs[id].robot in m.robots
      && m.robots[m.jobs[id].robot].stopCapable
    ensures m.cfg.replan.allowUnconfirmed && AskedFor(m, id) && m.stopReq[id].at < m.stopReq[id].timeoutAt <= now
    ensures Asking(m, id) in Chapter(m.log, id)
  {
    hide Chapter, Stale;
  }

  /** Only the jobs the report lists are changed: the requeued ones become pending, the unknown ones
      unknown, every other job is left as it was. */
  lemma SweepDoesWhatItReports(m: Memory, timeout: Duration, now: Time)
    requires Core(m)
    ensures var report := SweepReport(m, timeout, now); var m' := Sweep(m, timeout, now);
      && m'.jobs.Keys == m.jobs.Keys
      && (forall id :: id in report.requeued ==>
            && id in m.jobs && id in m'.jobs
            && m'.jobs[id] == m.jobs[id].(status := Pending, robot := "", assignedAt := 0))
      && (forall id :: id in report.unknown ==> id in m.jobs && m'.jobs[id] == m.jobs[id].(status := Status.Unknown))
      && forall id :: id in m.jobs && id !in report.requeued && id !in report.unknown ==> m'.jobs[id] == m.jobs[id]
  {
    hide Core, IsSilent, AbandonAll, MarkAllUnknown, DecideAll, Deciding, IsQueue, Leads, Distinct;
    var m1 := Withdrawals(m, timeout, now);
    var stale := Stale(m, timeout, now);
    QueueOfSet(m, BySubmission, StaleSet(m, timeout, now));
    OneMove(m, DropRequests(BackSet(m, timeout, now)));
    MoveKeepsCore(m, DropRequests(BackSet(m, timeout, now)));
    if ReplansSilent(m.cfg) {
      var back, lost := Deciding(m1, stale, now, SendBack), Deciding(m1, stale, now, CallUnknown);
      var a := DecideAllMoves(m1, stale, now);
      var m2 := DecideAll(m1, stale, now);
      CoreOfMoves(m1, a, m2);
      DecidingIsDistinct(m1, stale, now, SendBack);
      DecidingIsDistinct(m1, stale, now, CallUnknown);
      AllFromStale(m1, stale, back);
      AbandonAllMakesPending(m2, back);
      AbandonAllLeavesOthers(m2, back);
      var m3 := AbandonAll(m2, back);
      AllFromStale(m1, stale, lost);
      MarkAllEffect(m3, lost);
    } else {
      MarkAllEffect(m1, stale);
    }
  }

  lemma CoreOfMoves(m: Memory, mvs: seq<Move>, m': Memory)
    requires Core(m) && Leads(m, mvs, m')
    ensures Core(m')
    decreases |mvs|
  {
    hide Core, Do, Can;
    if mvs != [] {
      MoveKeepsCore(m, mvs[0]);
      CoreOfMoves(Do(m, mvs[0]), mvs[1..], m');
    }
  }

  lemma {:induction false} AbandonAllMakesPending(m: Memory, ids: seq<JobId>)
    requires Core(m) && Distinct(ids) && forall i :: 0 <= i < |ids| ==>
      ids[i] in m.jobs && m.jobs[ids[i]].status.InFlight()
    ensures Core(AbandonAll(m, ids))
    ensures forall id :: id in ids ==>
      && id in m.jobs && id in AbandonAll(m, ids).jobs
      && AbandonAll(m, ids).jobs[id] == m.jobs[id].(status := Pending, robot := "", assignedAt := 0)
    decreases |ids|
  {
    hide Core, Abandon;
    if ids != [] {
      var m', rest := Abandon(m, ids[0]), ids[1..];
      AbandonChangesOne(m, ids[0]);
      assert forall i :: 0 <= i < |rest| ==> rest[i] == ids[i + 1] != ids[0];
      assert forall id :: id in ids ==> id == ids[0] || (id in rest && id != ids[0]);
      AbandonAllMakesPending(m', rest);
      AbandonAllLeavesOthers(m', rest);
    }
  }

  lemma AbandonChangesOne(m: Memory, id: JobId)
    requires Core(m) && id in m.jobs && m.jobs[id].status.InFlight()
    ensures Core(Abandon(m, id)) && Abandon(m, id).jobs ==
      m.jobs[id := m.jobs[id].(status := Pending, robot := "", assignedAt := 0)]
  {
    AbandonKeepsCore(m, id);
    hide Core, Verdict;
  }

  lemma {:induction false} MarkAllEffect(m: Memory, ids: seq<JobId>)
    requires Distinct(ids) && forall i :: 0 <= i < |ids| ==> ids[i] in m.jobs
    ensures MarkAllUnknown(m, ids).jobs.Keys == m.jobs.Keys && MarkAllUnknown(m, ids).robots == m.robots
    ensures forall id :: id in m.jobs ==>
      MarkAllUnknown(m, ids).jobs[id] == if id in ids then m.jobs[id].(status := Status.Unknown) else m.jobs[id]
    decreases |ids|
  {
    if ids != [] {
      assert forall id :: id in ids <==> id == ids[0] || id in ids[1..];
      assert ids[0] !in ids[1..];
      MarkAllEffect(MarkUnknown(m, ids[0]), ids[1..]);
    }
  }

  /** An accepted report ends its own job, counts once on its own robot, and frees that robot unless it
      has another assigned job or reported itself unavailable; other jobs change in verdict only. */
  lemma ReportsEndOneJob(m: Memory, id: JobId, success: bool, robot: RobotId, attempt: int, now: Time)
    requires Core(m) && id in m.jobs && m.jobs[id].robot == robot
    requires m.jobs[id].status == Assigned || m.jobs[id].status == Status.Unknown
    requires (attempt == 0 || attempt == m.jobs[id].attempt) && robot in m.robots
    ensures var m' := Complete(m, id, success, robot, attempt, now); var r := m.robots[robot];
      && m'.jobs.Keys == m.jobs.Keys
      && m'.jobs[id] == m.jobs[id].(status := if success then Done else Failed, completedAt := Millis(now))
      && (forall x :: x in m.jobs && x != id && !m.jobs[x].status.Waiting() ==> m'.jobs[x] == m.jobs[x])
      && (forall x :: x in m.jobs && x != id && m.jobs[x].status.Waiting() ==>
            m'.jobs[x] == m.jobs[x].(status := m'.jobs[x].status)
              && m'.jobs[x].status == Verdict(m'.jobs, m.jobs[x].deps))
      && m'.robots == m.robots[robot := r.(load := r.load + 1, available := r.available
        || (!BusyElsewhere(m.jobs, id, robot) && !r.selfReported))]
  {
    hide Core, Refreshed, Verdict, Operations.Busy, BusyElsewhere, Reverdict, Stable, CompleteError, Complete;
    ReportIsTaken(m, id, success, robot, attempt, now);
    var jobs := m.jobs[id := EndedJob(m.jobs[id], success, now)];
    EndsQuietly(m, id, success, now);
    BusyAfterEnd(m.jobs, id, jobs[id], robot);
    VerdictsOnly(jobs, Refreshed(jobs));
    assert forall x :: x in m.jobs && x != id ==> jobs[x] == m.jobs[x];
  }

  lemma ReportIsTaken(m: Memory, id: JobId, success: bool, robot: RobotId, attempt: int, now: Time)
    requires id in m.jobs && m.jobs[id].robot == robot
    requires m.jobs[id].status == Assigned || m.jobs[id].status == Status.Unknown
    requires (attempt == 0 || attempt == m.jobs[id].attempt) && robot in m.robots
    ensures CompleteError(m, id, robot, attempt).None? && m.jobs[id].status.InFlight()
    ensures Complete(m, id, success, robot, attempt, now) == Finish(m, id, success, now)
  {
    hide Finish;
  }

  lemma BusyAfterEnd(jobs: Jobs, id: JobId, j: Job, robot: RobotId)
    requires id in jobs && j.status != Assigned
    ensures Operations.Busy(jobs[id := j], robot) <==> BusyElsewhere(jobs, id, robot)
  {
    var jobs' := jobs[id := j];
    if BusyElsewhere(jobs, id, robot) {
      var x :| x in jobs && x != id && jobs[x].status == Assigned && jobs[x].robot == robot;
      assert jobs'[x] == jobs[x];
    }
  }

  lemma VerdictsOnly(jobs: Jobs, jobs': Jobs)
    requires Reverdict(jobs, jobs') && Stable(jobs')
    ensures jobs'.Keys == jobs.Keys
    ensures forall x :: x in jobs && !jobs[x].status.Waiting() ==> jobs'[x] == jobs[x]
    ensures forall x :: x in jobs && jobs[x].status.Waiting() ==>
      jobs'[x] == jobs[x].(status := jobs'[x].status) && jobs'[x].status == Verdict(jobs', jobs[x].deps)
  {
  }

  ghost predicate BusyElsewhere(jobs: Jobs, id: JobId, robot: RobotId) {
    exists x :: x in jobs && x != id && jobs[x].status == Assigned && jobs[x].robot == robot
  }

  lemma EndsQuietly(m: Memory, id: JobId, success: bool, now: Time)
    requires Core(m) && id in m.jobs && m.jobs[id].status.InFlight()
    ensures var jobs := m.jobs[id := EndedJob(m.jobs[id], success, now)];
      Reverdict(jobs, Refreshed(jobs)) && Stable(Refreshed(jobs))
    ensures forall r :: r in m.robots ==> m.robots[r].id == r
  {
    UpdateKeepsGraph(m.jobs, id, EndedJob(m.jobs[id], success, now));
    RefreshedIsStable(m.jobs[id := EndedJob(m.jobs[id], success, now)]);
  }

  /** A heartbeat of a registered robot: what it declares is noted, its load is never overwritten, a
      reservation wins over the availability it declares, and no job is touched unless the robot
      faulted in the middle of one and faults give work back; then exactly its assigned job is
      pending again. */
  lemma HeartbeatsRespectReservations(m: Memory, d: Declaration, given: bool, now: Time)
    requires Core(m) && d.id in m.robots
    ensures var m' := Upsert(m, d, given, now);
      && m'.robots == m.robots[d.id := RobotAfter(m, d, given, now)] && m'.jobs.Keys == m.jobs.Keys
      && forall id :: id in m.jobs ==>
           m'.jobs[id] ==
           if !FaultsOn(m, d, given, id) then m.jobs[id]
           else m.jobs[id].(status := Pending, robot := "", assignedAt := 0)
  {
    BusyIsReserved(m, d.id);
    hide Core, Upsert, RobotAfter, FaultsOn;
    if given && Operations.Busy(m.jobs, d.id) && !d.available && m.cfg.replan.enabled && m.cfg.replan.onFault {
      FaultBeat(m, d, now);
    } else {
      QuietBeat(m, d, given, now);
    }
  }

  lemma QuietBeat(m: Memory, d: Declaration, given: bool, now: Time)
    requires d.id in m.robots && m.robots[d.id].id == d.id
    requires !(given && Operations.Busy(m.jobs, d.id) && !d.available && m.cfg.replan.enabled && m.cfg.replan.onFault)
    ensures Upsert(m, d, given, now) == m.(robots := m.robots[d.id := RobotAfter(m, d, given, now)])
    ensures forall id :: id in m.jobs ==> !FaultsOn(m, d, given, id)
  {
    hide AbandonAll, JobsOfRobot;
  }

  ghost function RobotAfter(m: Memory, d: Declaration, given: bool, now: Time): Robot
    requires d.id in m.robots
  {
    var settles, r := given && !Operations.Busy(m.jobs, d.id), m.robots[d.id];
    Robot(r.id, d.location, d.tool, if settles then d.available else r.available, r.load, d.stopCapable,
          if settles then !d.available else r.selfReported || (given && !d.available), Some(now))
  }

  /** The robot declares a fault while it has the job, and faults give work back. */
  predicate FaultsOn(m: Memory, d: Declaration, given: bool, id: JobId)
    requires id in m.jobs
  {
    given && !d.available && m.cfg.replan.enabled && m.cfg.replan.onFault && m.jobs[id].status == Assigned
      && m.jobs[id].robot == d.id
  }

  lemma FaultBeat(m: Memory, d: Declaration, now: Time)
    requires Core(m) && d.id in m.robots && !m.robots[d.id].available && m.robots[d.id].id == d.id
    requires Operations.Busy(m.jobs, d.id) && !d.available && m.cfg.replan.enabled && m.cfg.replan.onFault
    ensures var m' := Upsert(m, d, true, now);
      && m'.robots == m.robots[d.id := RobotAfter(m, d, true, now)] && m'.jobs.Keys == m.jobs.Keys
      && forall id :: id in m.jobs ==>
           m'.jobs[id] ==
           if !FaultsOn(m, d, true, id) then m.jobs[id]
           else m.jobs[id].(status := Pending, robot := "", assignedAt := 0)
  {
    hide Core, AbandonAll, JobsOfRobot;
    var m1 := m.(robots := m.robots[d.id := Heard(m.robots[d.id], d, now).(selfReported := true)]);
    ReportKeepsCore(m, m1.robots[d.id]);
    FaultGivesBack(m1, d.id);
  }

  lemma FaultGivesBack(m: Memory, robot: RobotId)
    requires Core(m) && robot in m.robots
    ensures var ids := JobsOfRobot(m.jobs, robot, false); var m' := AbandonAll(m, ids);
      && (forall id :: id in ids <==> id in m.jobs && m.jobs[id].status == Assigned && m.jobs[id].robot == robot)
      && m'.robots == (if ids == [] then m.robots else HeldBack(m.robots, robot)) && m'.jobs.Keys == m.jobs.Keys
      && forall id :: id in m.jobs ==>
        m'.jobs[id] == if id in ids then m.jobs[id].(status := Pending, robot := "", assignedAt := 0) else m.jobs[id]
  {
    hide Core, AbandonAll, Ahead;
    var ids := JobsOfRobot(m.jobs, robot, false);
    QueueOfSet(m, BySubmission, HeldSet(m.jobs, robot, false));
    assert forall id :: id in ids <==> id in HeldSet(m.jobs, robot, false);
    AbandonAllMakesPending(m, ids);
    AbandonAllLeavesOthers(m, ids);
    AbandonAllOnOne(m, ids, robot);
  }

  lemma {:induction false} AbandonAllOnOne(m: Memory, ids: seq<JobId>, robot: RobotId)
    requires Distinct(ids) && forall i :: 0 <= i < |ids| ==> ids[i] in m.jobs && m.jobs[ids[i]].robot == robot
    ensures AbandonAll(m, ids).robots == if ids == [] then m.robots else HeldBack(m.robots, robot)
    decreases |ids|
  {
    if ids != [] {
      hide AbandonedJob;
      AbandonAllOnOne(Abandon(m, ids[0]), ids[1..], robot);
    }
  }

  /** Declaring a robot failed gives back exactly the jobs it holds, and the second time none. */
  lemma ReplanGivesBackEverything(m: Memory, robot: RobotId)
    requires Core(m) && ReplanError(m, robot).None?
    ensures var m' := ReplanRobot(m, robot);
      && (forall id :: id in m.jobs && m.jobs[id].robot == robot && m.jobs[id].status.InFlight()
            ==> id in m'.jobs && m'.jobs[id] == m.jobs[id].(status := Pending, robot := "", assignedAt := 0))
      && (forall id :: id in m.jobs && !(m.jobs[id].robot == robot && m.jobs[id].status.InFlight()) ==>
        id in m'.jobs && m'.jobs[id] == m.jobs[id])
      && robot in m'.robots && !m'.robots[robot].available && m'.robots[robot].selfReported
      && JobsOfRobot(m'.jobs, robot, true) == []
  {
    hide Core, AbandonAll, Ahead;
    var ids := JobsOfRobot(m.jobs, robot, true);
    var m1 := m.(robots := HeldBack(m.robots, robot));
    BusyIsReserved(m, robot);
    QueueOfSet(m, BySubmission, HeldSet(m.jobs, robot, true));
    ReportKeepsCore(m, HeldBack(m.robots, robot)[robot]);
    assert forall id :: id in ids <==> id in HeldSet(m.jobs, robot, true);
    AbandonAllMakesPending(m1, ids);
    AbandonAllLeavesOthers(m1, ids);
    AbandonAllHolds(m1, ids, robot);
    hide JobsOfRobot;
    NoneHeldAnyMore(m.jobs, AbandonAll(m1, ids).jobs, robot);
  }

  lemma NoneHeldAnyMore(jobs: Jobs, jobs': Jobs, robot: RobotId)
    requires jobs'.Keys == jobs.Keys
    requires forall id :: id in jobs ==>
      if id in HeldSet(jobs, robot, true) then jobs'[id].status == Pending else jobs'[id] == jobs[id]
    ensures JobsOfRobot(jobs', robot, true) == []
  {
    assert HeldSet(jobs', robot, true) == {};
    assert IsQueue(jobs', BySubmission, {}, []);
    QueueIs(jobs', BySubmission, {}, []);
  }

  lemma {:induction false} AbandonAllHolds(m: Memory, ids: seq<JobId>, robot: RobotId)
    requires robot in m.robots && !m.robots[robot].available && m.robots[robot].selfReported
    ensures robot in AbandonAll(m, ids).robots && !AbandonAll(m, ids).robots[robot].available
      && AbandonAll(m, ids).robots[robot].selfReported
    decreases |ids|
  {
    if ids != [] {
      if ids[0] in m.jobs {
        AbandonAllHolds(Abandon(m, ids[0]), ids[1..], robot);
      } else {
        AbandonAllHolds(m, ids[1..], robot);
      }
    }
  }

  // ---- A crash inside a pass ----

  /** From a store equal to memory, whatever writes fail and wherever the pass stops, the store never
      holds an assigned job without its robot reserved, and every assignment returned is durable. */
  lemma {:induction false} PassIsCrashSafe(p: Dispatching.Pass, fails: Storage.Faults, ids: seq<JobId>, now: Time)
    requires Follows(p) && Core(p.mem) && Distinct(ids)
    requires forall i :: 0 <= i < |ids| ==> ids[i] in p.mem.jobs ==> p.mem.jobs[ids[i]].status == Pending
    ensures Follows(OfferAll(p, fails, ids, now))
    decreases |ids|
  {
    hide Follows, Core, Offer;
    if ids != [] {
      RestStaysPending(p, fails, ids, now);
      OfferStaysSafe(p, fails, ids[0], now);
      PassIsCrashSafe(Offer(p, fails, ids[0], now), fails, ids[1..], now);
    }
  }

  lemma RestStaysPending(p: Pass, fails: Faults, ids: seq<JobId>, now: Time)
    requires Core(p.mem) && Distinct(ids) && ids != []
    requires forall i :: 0 <= i < |ids| ==> ids[i] in p.mem.jobs ==> p.mem.jobs[ids[i]].status == Pending
    ensures var jobs := Offer(p, fails, ids[0], now).mem.jobs; var rest := ids[1..];
      forall i :: 0 <= i < |rest| ==> rest[i] in jobs ==> jobs[rest[i]].status == Pending
  {
    hide Offer, Core;
    NamesAgreeInCore(p.mem);
    OfferIsMove(p, fails, ids[0], now);
  }

  lemma NamesAgreeInCore(m: Memory)
    requires Core(m)
    ensures Routing.NamesAgree(m.robots)
  {
  }

  lemma DispatchIsCrashSafe(m: Memory, disk: Storage.Disk, fails: Storage.Faults, now: Time)
    requires Core(m) && disk.jobs == m.jobs && Storage.RobotsAgree(m.robots, disk.robots, {}, false)
    ensures var p := Dispatch(m, disk, fails, now);
      && CrashSafe(p.disk)
      && (forall i :: 0 <= i < |p.trail| ==> CrashSafe(p.trail[i]))
      && forall i :: 0 <= i < |p.out| ==>
           var a := p.out[i];
           a.job in p.disk.jobs && p.disk.jobs[a.job].status == Assigned && p.disk.jobs[a.job].robot == a.robot
           && a.job in p.mem.jobs && p.disk.jobs[a.job] == p.mem.jobs[a.job]
  {
    assert CrashSafe(disk);
    hide KeysLive, Stable, QueueOk;
    QueueOfSet(m, ByPriority, PendingSet(m.jobs));
    PassIsCrashSafe(Pass(m, disk, [], []), fails, Queue(m.jobs, ByPriority, PendingSet(m.jobs)), now);
    hide CrashSafe;
    var p := Dispatch(m, disk, fails, now);
    forall i | 0 <= i < |p.out| ensures Durable(p.mem.jobs, p.disk, p.out[i]) {
    }
  }

  /** The store has followed memory, and held sound records at every point of the pass. */
  ghost predicate FollowsSoundly(p: Pass) {
    && p.disk.jobs == p.mem.jobs && p.mem.robots.Keys <= p.disk.robots.Keys && RobotsOk(p.disk.robots)
      && CrashSafe(p.disk)
    && forall i :: 0 <= i < |p.trail| ==> StoreSound(p.trail[i])
  }

  lemma SoundBesideMemory(m: Memory, d: Disk)
    requires Core(m) && d.jobs == m.jobs && m.robots.Keys <= d.robots.Keys && RobotsOk(d.robots) && CrashSafe(d)
    ensures StoreSound(d)
  {
    AcyclicMeansNoCycle(m.jobs);
    hide NoCycle, Acyclic, DepsLive, Ready, Held, Stable, RobotsOk;
  }

  lemma OfferToStaysSound(p: Pass, fails: Faults, id: JobId, r: RobotId, now: Time)
    requires FollowsSoundly(p) && Core(p.mem) && id in p.mem.jobs && p.mem.jobs[id].status == Pending
    requires r in p.mem.robots && p.mem.robots[r].available
    ensures FollowsSoundly(OfferTo(p, fails, id, r, now)) && Core(OfferTo(p, fails, id, r, now).mem)
  {
    hide Core, CrashSafe, RobotsOk, StoreSound, SaveRobot, SaveJob, Give;
    NamesOf(p.mem, id, r);
    GiveKeepsCore(p.mem, id, r, now);
    NobodyRunsThere(p.mem, r);
    var d1 := SaveRobot(p.disk, fails, p.mem.robots[r].(available := false));
    ReserveStaysSafe(p.disk, p.mem.robots[r], fails);
    RobotRecordStaysOk(p.mem, p.disk, p.mem.robots[r].(available := false), fails);
    SoundBesideMemory(p.mem, d1);
    if !fails(p.disk.writes) {
      var given := Give(p.mem, id, r, now);
      GiveIs(p.mem, id, r, now);
      var d2 := SaveJob(d1, fails, given.jobs[id]);
      AssignStaysSafe(d1, given.jobs[id], fails);
      JobRecordIs(d1, given.jobs[id], fails);
      if fails(d1.writes) {
        SoundBesideMemory(p.mem, d2);
        var d3 := SaveRobot(d2, fails, p.mem.robots[r]);
        ReleaseStaysSafe(d2, p.mem.robots[r], fails);
        RobotRecordStaysOk(p.mem, d2, p.mem.robots[r], fails);
        SoundBesideMemory(p.mem, d3);
      } else {
        SoundBesideMemory(given, d2);
      }
    }
  }

  /** No assigned job is on a robot that is available. */
  lemma NobodyRunsThere(m: Memory, r: RobotId)
    requires Core(m) && r in m.robots && m.robots[r].available
    ensures forall x :: x in m.jobs && m.jobs[x].status == Assigned ==> m.jobs[x].robot != r
    ensures r != ""
  {
  }

  lemma RobotRecordStaysOk(m: Memory, d: Disk, r: Robot, fails: Faults)
    requires RobotsOk(d.robots) && m.robots.Keys <= d.robots.Keys && r.id in m.robots && r.id != ""
    ensures var d' := SaveRobot(d, fails, r);
      RobotsOk(d'.robots) && m.robots.Keys <= d'.robots.Keys && d'.jobs == d.jobs && d'.writes == d.writes + 1
  {
  }

  lemma GiveIs(m: Memory, id: JobId, r: RobotId, now: Time)
    requires id in m.jobs && r in m.robots && m.jobs[id].id == id
    ensures var m' := Give(m, id, r, now);
      && id in m'.jobs && m'.jobs == m.jobs[id := m'.jobs[id]] && m'.robots.Keys == m.robots.Keys
      && m'.jobs[id].id == id && m'.jobs[id].status == Assigned && m'.jobs[id].robot == r
  {
  }

  lemma JobRecordIs(d: Disk, j: Job, fails: Faults)
    ensures var d' := SaveJob(d, fails, j);
      d'.jobs == (if fails(d.writes) then d.jobs else d.jobs[j.id := j]) && d'.robots == d.robots
  {
  }

  lemma OfferStaysSound(p: Pass, fails: Faults, id: JobId, now: Time)
    requires FollowsSoundly(p) && Core(p.mem) && (id in p.mem.jobs ==> p.mem.jobs[id].status == Pending)
    ensures FollowsSoundly(Offer(p, fails, id, now)) && Core(Offer(p, fails, id, now).mem)
  {
    if id in p.mem.jobs {
      BestIs(p.mem, p.mem.jobs[id], now);
      var best := Best(p.mem, p.mem.jobs[id], now);
      hide Best, Core, FollowsSoundly, OfferTo, CarriesTool, HeardFrom, ToolConfirmed;
      if best.Some? && best.value in p.mem.robots {
        OfferToStaysSound(p, fails, id, best.value, now);
      }
    }
  }

  lemma {:induction false} PassStaysSound(p: Pass, fails: Faults, ids: seq<JobId>, now: Time)
    requires FollowsSoundly(p) && Core(p.mem) && Distinct(ids)
    requires forall i :: 0 <= i < |ids| ==> ids[i] in p.mem.jobs ==> p.mem.jobs[ids[i]].status == Pending
    ensures FollowsSoundly(OfferAll(p, fails, ids, now)) && Core(OfferAll(p, fails, ids, now).mem)
    decreases |ids|
  {
    hide FollowsSoundly, Core, Offer;
    if ids != [] {
      RestStaysPending(p, fails, ids, now);
      OfferStaysSound(p, fails, ids[0], now);
      PassStaysSound(Offer(p, fails, ids[0], now), fails, ids[1..], now);
    }
  }

  /** From a store in agreement a pass can stop after any of its writes, whatever failed before: the
      records are sound at every point, so a restart there gives a sound engine. */
  lemma DispatchCanStopAnywhere(m: Memory, disk: Disk, fails: Faults, now: Time, exact: bool)
    requires Core(m) && Agrees(m.jobs, m.robots, disk, exact)
    ensures var p := Dispatch(m, disk, fails, now);
      StoreSound(p.disk) && forall i :: 0 <= i < |p.trail| ==> StoreSound(p.trail[i])
  {
    AgreeingStoreFollows(m, disk, exact);
    QueueOfSet(m, ByPriority, PendingSet(m.jobs));
    hide Core, CrashSafe, RobotsOk, StoreSound, Agrees;
    PassStaysSound(Pass(m, disk, [], []), fails, Queue(m.jobs, ByPriority, PendingSet(m.jobs)), now);
    var p := Dispatch(m, disk, fails, now);
    SoundBesideMemory(p.mem, p.disk);
  }

  lemma AgreeingStoreFollows(m: Memory, disk: Disk, exact: bool)
    requires Core(m) && Agrees(m.jobs, m.robots, disk, exact)
    ensures FollowsSoundly(Pass(m, disk, [], []))
  {
    hide QueueOk, Stable, KeysLive;
    assert disk.jobs == m.jobs;
  }
}
