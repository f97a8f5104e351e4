/** The engine itself: one lock, so each public method is one atomic step. Its fields are changed in
    place; each method is proved to do what its operation on `Memory` says, to keep the invariant and,
    while writes succeed, to keep the store equal to memory. */
module Engines {
  import opened Base
  import opened Model
  import opened Graph
  import opened Blocking
  import opened Ordering
  import opened Operations
  import opened Invariants
  import opened Lives
  import opened Moves
  import opened Archiving
  import opened Routing
  import opened Storage
  import opened Dispatching
  import opened Workings
  import opened Writing
  import opened Restarting
  import opened Runs
  import opened Promises
  import Matching
  import Waiting
  import Planner
  import Promptness

  /** The store the engine writes through to. Every call is one write; a failed one changes nothing. */
  class Store {
    var disk: Disk
    /** Every state the store has been in. */
    ghost var trail: seq<Disk>
    const fails: Faults
    const batches: bool
    const forgets: bool
    const archives: bool

    ghost function Kind(): Backend { Backend(fails, batches, forgets, archives) }

    constructor (disk: Disk, fails: Faults, batches: bool, forgets: bool, archives: bool)
      ensures this.disk == disk && this.fails == fails && this.batches == batches && this.forgets == forgets
        && this.archives == archives
      ensures trail == []
    {
      this.disk, this.fails, this.batches, this.forgets, this.archives := disk, fails, batches, forgets, archives;
      trail := [];
    }

    method SaveJob(j: Job) returns (ok: bool)
      modifies this
      ensures disk == Storage.SaveJob(old(disk), fails, j) && ok == !fails(old(disk.writes))
      ensures trail == old(trail) + [disk]
    {
      ok := !fails(disk.writes);
      disk := Tried(if ok then WithJob(disk, j) else disk);
      trail := trail + [disk];
    }

    method SaveRobot(r: Robot) returns (ok: bool)
      modifies this
      ensures disk == Storage.SaveRobot(old(disk), fails, r) && ok == !fails(old(disk.writes))
      ensures trail == old(trail) + [disk]
    {
      ok := !fails(disk.writes);
      disk := Tried(if ok then Storage.WithRobot(disk, r) else disk);
      trail := trail + [disk];
    }

    /** Several records in one transaction: all of them or none. */
    method SaveBatch(jobs: Jobs, robots: Robots) returns (ok: bool)
      modifies this
      ensures ok == !fails(old(disk.writes))
      ensures disk == Tried(if ok then WithAll(old(disk), jobs, robots) else old(disk))
      ensures trail == old(trail) + [disk]
    {
      ok := !fails(disk.writes);
      disk := Tried(if ok then WithAll(disk, jobs, robots) else disk);
      trail := trail + [disk];
    }

    method DeleteRobot(robot: RobotId) returns (ok: bool)
      modifies this
      ensures ok == !fails(old(disk.writes))
      ensures disk == Tried(if ok then old(disk).(robots := old(disk).robots - {robot}) else old(disk))
      ensures trail == old(trail) + [disk]
    {
      ok := !fails(disk.writes);
      disk := Tried(if ok then disk.(robots := disk.robots - {robot}) else disk);
      trail := trail + [disk];
    }

    method ArchiveJobs(ids: set<JobId>) returns (ok: bool)
      modifies this
      ensures ok == !fails(old(disk.writes))
      ensures disk == Tried(if ok then WithoutLive(old(disk), ids) else old(disk))
      ensures trail == old(trail) + [disk]
    {
      ok := !fails(disk.writes);
      disk := Tried(if ok then WithoutLive(disk, ids) else disk);
      trail := trail + [disk];
    }
  }

  /** The index from robots to jobs lists at least every job that names the robot. */
  ghost predicate Indexed(jobs: Jobs, heldBy: map<RobotId, set<JobId>>) {
    forall id :: id in jobs && jobs[id].robot != "" ==> jobs[id].robot in heldBy && id in heldBy[jobs[id].robot]
  }

  /** The index after a job was stored: it lists the job under the robot it names, if any. */
  function NoteAssigned(heldBy: map<RobotId, set<JobId>>, j: Job): (noted: map<RobotId, set<JobId>>)
    ensures j.robot != "" ==> j.robot in noted && j.id in noted[j.robot]
    ensures forall r :: r in heldBy ==> r in noted && heldBy[r] <= noted[r]
  {
    if j.robot == "" then heldBy
    else heldBy[j.robot := (if j.robot in heldBy then heldBy[j.robot] else {}) + {j.id}]
  }

  /** When an operation began: whether the store then agreed with memory, whether it knew its jobs, and how
      many writes it had seen. */
  datatype Watch = Watch(synced: bool, known: bool, from: nat)

  /** If the store knew the jobs of memory when the operation began, it knows them now; if it agreed
      then and no write has failed since, it agrees now, except on the records listed. */
  ghost predicate StillAgrees(w: Watch, jobs: Jobs, robots: Robots, disk: Disk, fails: Faults, exact: bool,
    lateJobs: set<JobId>, lateRobots: set<RobotId>) {
    && (w.known ==> SameRecords(jobs, disk.jobs))
    && (w.synced && Healthy(fails, w.from, disk.writes) ==>
          JobsAgree(jobs, disk.jobs, lateJobs) && RobotsAgree(robots, disk.robots, lateRobots, exact)
            && RecordsNamed(disk.robots))
  }

  /** Each record listed was written or left as it was, and no other record was touched. */
  ghost predicate RecordByRecord(d: Disk, d': Disk, jobs: Jobs, robots: Robots, js: set<JobId>, rs: set<RobotId>)
    requires js <= jobs.Keys && rs <= robots.Keys
  {
    && (forall id :: id in d'.jobs ==>
      (id in js && d'.jobs[id] == jobs[id]) || (id in d.jobs && d'.jobs[id] == d.jobs[id]))
    && (forall id :: id in d.jobs ==> id in d'.jobs)
    && (forall r :: r in d'.robots ==>
      (r in rs && d'.robots[r] == Storage.Kept(robots[r])) || (r in d.robots && d'.robots[r] == d.robots[r]))
    && forall r :: r in d.robots ==> r in d'.robots
  }

  class Engine {
    var jobs: Jobs
    var robots: Robots
    var nextSeq: int
    var dedupIndex: map<Key, JobId>
    var heldBy: map<RobotId, set<JobId>>
    var stopReq: map<JobId, StopRequest>
    var cfg: Config
    var seen: map<RobotId, ToolSeen>
    /** What the engine announced, and the rest of the lives of its jobs. */
    var history: History
    const store: Store
    var batching: bool
    var pendingJobs: set<JobId>
    var pendingRobots: set<RobotId>

    function Mem(): Memory
      reads this`jobs, this`robots, this`nextSeq, this`dedupIndex, this`stopReq, this`cfg, this`seen, this`history
    {
      Memory(jobs, robots, nextSeq, dedupIndex, stopReq, cfg, seen, history)
    }

    ghost predicate Idle()
      reads this`batching, this`pendingJobs, this`pendingRobots
    {
      !batching && pendingJobs == {} && pendingRobots == {}
    }

    ghost predicate Valid()
      reads this
    {
      Idle() && Steady(Mem()) && Indexed(jobs, heldBy)
    }

    /** The store equals memory, up to what lives in memory only. */
    ghost predicate Synced()
      reads this`jobs, this`robots, store
    {
      Agrees(jobs, robots, store.disk, store.forgets)
    }

    ghost function Start(): Watch
      reads this`jobs, this`robots, store
    {
      Watch(Agrees(jobs, robots, store.disk, store.forgets), SameRecords(jobs, store.disk.jobs), store.disk.writes)
    }

    /** `StillAgrees`, where the records waiting in a batch count as listed. */
    ghost predicate InStep(w: Watch, lateJobs: set<JobId>, lateRobots: set<RobotId>)
      reads this`jobs, this`robots, this`pendingJobs, this`pendingRobots, store
    {
      && w.from <= store.disk.writes
      && StillAgrees(w, jobs, robots, store.disk, store.fails, store.forgets, lateJobs + pendingJobs,
        lateRobots + pendingRobots)
    }

    /** Between its first and last line an operation that began with the store in agreement, and met no
        failed write, ends with the store in agreement. */
    twostate predicate WritesThrough()
      reads this, store
    {
      Through(store.Kind(), old(Mem()), old(store.disk), Mem(), store.disk)
    }

    /** The counters go on telling what the history tells, if they did. */
    twostate predicate KeepsAccounts()
      reads this
    {
      old(Accounted(Mem())) ==> Accounted(Mem())
    }

    /** The store was written once, in one transaction: the jobs `own` and, unless `quiet`, others whose
        verdict may have changed with them. */
    twostate predicate InOneTransaction(own: set<JobId>, quiet: bool)
      reads this, store
    {
      store.trail == old(store.trail) + [store.disk]
        && OneBatch(store.Kind(), old(store.disk), Mem(), store.disk, own, quiet)
    }

    twostate predicate StoreUntouched()
      reads store
    {
      store.disk == old(store.disk) && store.trail == old(store.trail)
    }

    /** The store went through at most one new state. */
    twostate predicate WritesAtMostOnce()
      reads store
    {
      StoreUntouched() || store.trail == old(store.trail) + [store.disk]
    }

    /** What was done is a step of a run: memory and store end as `op` says. */
    twostate predicate Takes(op: Operation)
      reads this, store
    {
      && KeysLive(old(Mem()).jobs, old(Mem()).dedup) && Allowed(old(Mem()), op)
      && Mem() == Apply(old(Mem()), op) && Writes(store.Kind(), old(Mem()), old(store.disk), op, store.disk)
    }

    // ---- Starting ----

    /** A first start, on a store that holds nothing. */
    constructor (store: Store)
      requires store.disk.jobs == map[] && store.disk.robots == map[]
      ensures this.store == store && Valid() && Mem() == EMPTY && Synced()
    {
      jobs, robots, nextSeq, dedupIndex, heldBy, stopReq := map[], map[], 0, map[], map[], map[];
      cfg, seen, history, this.store := OFF, map[], [], store;
      batching, pendingJobs, pendingRobots := false, {}, {};
      new;
      EmptyIsSound();
    }

    /** A start from a store, after an engine whose memory was `m`: the stored jobs under their numbers, the
        stored robots, agreeing indexes, and a counter above every number in use. The engine is fit for
        use exactly when the records are sound, and its accounts go on exactly when they tell what `m`
        told; both are so while the store agrees with `m`. */
    constructor FromStore(store: Store, before: History, ghost m: Memory, ghost back: seq<Robot>)
      requires RecordsNamed(store.disk.robots) && forall id :: id in store.disk.jobs ==> store.disk.jobs[id].id == id
      requires Returning(m.robots, store.disk.robots, back) && before == m.log + Joins(back)
      ensures this.store == store && Idle() && Synced() && (Valid() <==> StoreSound(store.disk))
      ensures var op := Operation.Reload(nextSeq, dedupIndex, OFF.(archiveAfter := DEFAULT_ARCHIVE_AFTER), back);
        Loads(m, store.disk, op) && Mem() == Loaded(m.log, store.disk, op)
      ensures Accounted(m) && store.disk.jobs.Keys == m.jobs.Keys ==>
        (Accounted(Mem()) <==> TellsTheSame(m, store.disk))
      ensures Steady(m) && Agrees(m.jobs, m.robots, store.disk, store.forgets) ==>
        Valid() && jobs == m.jobs && (Accounted(m) ==> Accounted(Mem()))
    {
      hide Steady, Accounted, Indexed, Agrees, Returning, StoreSound, TellsTheSame, Joins;
      var held, keys, next := Rebuilt(store.disk.jobs);
      ghost var op := Operation.Reload(next, keys, OFF.(archiveAfter := DEFAULT_ARCHIVE_AFTER), back);
      StartIs(m, store.disk, op, store.forgets);
      jobs, robots := store.disk.jobs, store.disk.robots;
      stopReq, cfg, seen, history, this.store := map[], OFF.(archiveAfter := DEFAULT_ARCHIVE_AFTER), map[], before,
        store;
      batching, pendingJobs, pendingRobots := false, {}, {};
      heldBy, dedupIndex, nextSeq := held, keys, next;
    }

    // ---- Writing through ----

    method PersistJob(id: JobId, ghost lj: set<JobId>, ghost lr: set<RobotId>, ghost w: Watch) returns (ok: bool)
      requires id in jobs && jobs[id].id == id && InStep(w, lj, lr)
      modifies this`pendingJobs, store
      ensures batching ==> ok && pendingJobs == old(pendingJobs) + {id} && StoreUntouched()
      ensures !batching ==>
        pendingJobs == old(pendingJobs) && store.disk == Storage.SaveJob(old(store.disk), store.fails, jobs[id])
      ensures !batching ==> ok == !store.fails(old(store.disk.writes)) && store.trail == old(store.trail) + [store.disk]
      ensures InStep(w, lj - {id}, lr)
    {
      if batching {
        pendingJobs := pendingJobs + {id};
        ok := true;
        StillAgreesOnMore(w, jobs, robots, store.disk, store.fails, store.forgets, lj + old(pendingJobs),
          lj - {id} + pendingJobs, lr + pendingRobots, lr + pendingRobots);
      } else {
        ok := store.SaveJob(jobs[id]);
        AgreesAfterJob(w, jobs, robots, old(store.disk), store.fails, store.forgets, lj + pendingJobs,
          lr + pendingRobots, id);
        StillAgreesOnMore(w, jobs, robots, store.disk, store.fails, store.forgets, lj + pendingJobs - {id},
          lj - {id} + pendingJobs, lr + pendingRobots, lr + pendingRobots);
      }
    }

    method PersistRobot(r: RobotId, ghost lj: set<JobId>, ghost lr: set<RobotId>, ghost w: Watch) returns (ok: bool)
      requires r in robots && robots[r].id == r && r != "" && InStep(w, lj, lr)
      modifies this`pendingRobots, store
      ensures batching ==> ok && pendingRobots == old(pendingRobots) + {r} && StoreUntouched()
      ensures !batching ==>
        pendingRobots == old(pendingRobots) && store.disk == Storage.SaveRobot(old(store.disk), store.fails, robots[r])
      ensures !batching ==> ok == !store.fails(old(store.disk.writes)) && store.trail == old(store.trail) + [store.disk]
      ensures InStep(w, lj, lr - {r})
    {
      if batching {
        pendingRobots := pendingRobots + {r};
        ok := true;
        StillAgreesOnMore(w, jobs, robots, store.disk, store.fails, store.forgets, lj + pendingJobs, lj + pendingJobs,
          lr + old(pendingRobots), lr - {r} + pendingRobots);
      } else {
        ok := store.SaveRobot(robots[r]);
        AgreesAfterRobot(w, jobs, robots, old(store.disk), store.fails, store.forgets, lj + pendingJobs,
          lr + pendingRobots, r);
        StillAgreesOnMore(w, jobs, robots, store.disk, store.fails, store.forgets, lj + pendingJobs, lj + pendingJobs,
          lr + pendingRobots - {r}, lr - {r} + pendingRobots);
      }
    }

    method BeginBatch(ghost w: Watch, ghost lj: set<JobId>, ghost lr: set<RobotId>)
      requires Idle() && InStep(w, lj, lr)
      modifies this`batching
      ensures batching && pendingJobs == {} && pendingRobots == {} && InStep(w, lj, lr)
    {
      batching := true;
    }

    /** The records collected since the batch began are written with their final values: in one
        transaction when the store can, one by one otherwise. */
    method CommitBatch(ghost w: Watch, ghost lr: set<RobotId>) returns (ok: bool)
      requires batching && InStep(w, {}, lr) && Named(jobs, robots) && pendingJobs <= jobs.Keys
        && pendingRobots <= robots.Keys
      modifies this`batching, this`pendingJobs, this`pendingRobots, store
      ensures Idle() && InStep(w, {}, lr)
      ensures store.disk.writes >= old(store.disk.writes)
        && (ok <==> Healthy(store.fails, old(store.disk.writes), store.disk.writes))
      ensures RecordByRecord(old(store.disk), store.disk, jobs, robots, old(pendingJobs), old(pendingRobots))
      ensures old(pendingJobs) == {} && old(pendingRobots) == {} ==> StoreUntouched()
      ensures store.batches && (old(pendingJobs) != {} || old(pendingRobots) != {}) ==>
        store.disk == Committed(store.fails, old(store.disk), jobs, robots, old(pendingJobs), old(pendingRobots))
          && store.trail == old(store.trail) + [store.disk]
    {
      hide StillAgrees, Healthy, RecordByRecord, Storage.SaveRobot, Storage.SaveJob, Committed;
      NoteStep(w, this, {}, lr);
      var js, rs := pendingJobs, pendingRobots;
      NothingWritten(store.disk, store.fails, jobs, robots, js, rs);
      AllWritten(store.disk, store.fails, jobs, robots, js, rs);
      batching, pendingJobs, pendingRobots := false, {}, {};
      if js == {} && rs == {} {
        return true;
      }
      if store.batches {
        ok := store.SaveBatch(Picked(jobs, js), Picked(robots, rs));
        AgreesAfterBatch(w, jobs, robots, old(store.disk), store.fails, store.forgets, js, rs, lr);
      } else {
        StillAgreesOnMore(w, jobs, robots, store.disk, store.fails, store.forgets, {} + js, js + pendingJobs, lr + rs,
          lr + rs + pendingRobots);
        ok := CommitOneByOne(w, js, rs, lr);
      }
    }

    /** Every record is tried, whatever became of the ones before it. */
    method CommitOneByOne(ghost w: Watch, js: set<JobId>, rs: set<RobotId>, ghost lr: set<RobotId>) returns (ok: bool)
      requires Idle() && Named(jobs, robots) && js <= jobs.Keys && rs <= robots.Keys
      requires InStep(w, js, lr + rs)
      modifies this`pendingJobs, this`pendingRobots, store
      ensures Idle() && InStep(w, {}, lr)
      ensures store.disk.writes >= old(store.disk.writes)
        && (ok <==> Healthy(store.fails, old(store.disk.writes), store.disk.writes))
      ensures RecordByRecord(old(store.disk), store.disk, jobs, robots, js, rs)
    {
      hide StillAgrees, InStep, Healthy, RecordByRecord, Storage.SaveRobot, Storage.SaveJob;
      ok := true;
      NothingWritten(store.disk, store.fails, jobs, robots, js, rs);
      var todo := rs;
      while todo != {}
        invariant Idle() && todo <= rs && InStep(w, js, lr + todo)
        invariant store.disk.writes >= old(store.disk.writes)
          && (ok <==> Healthy(store.fails, old(store.disk.writes), store.disk.writes))
        invariant RecordByRecord(old(store.disk), store.disk, jobs, robots, js, rs)
      {
        var r :| r in todo;
        RobotWritten(old(store.disk), store.disk, store.fails, jobs, robots, js, rs, r);
        var saved := PersistRobot(r, js, lr + todo, w);
        ok := ok && saved;
        MoreLate(w, this, js, lr + todo - {r}, lr + (todo - {r}));
        todo := todo - {r};
      }
      var left := js;
      assert lr + todo == lr;
      while left != {}
        invariant Idle() && left <= js && InStep(w, left, lr)
        invariant store.disk.writes >= old(store.disk.writes)
          && (ok <==> Healthy(store.fails, old(store.disk.writes), store.disk.writes))
        invariant RecordByRecord(old(store.disk), store.disk, jobs, robots, js, rs)
      {
        var id :| id in left;
        JobWritten(old(store.disk), store.disk, store.fails, jobs, robots, js, rs, id);
        var saved := PersistJob(id, left, lr, w);
        ok := ok && saved;
        left := left - {id};
      }
    }

    // ---- Verdicts ----

    method Visit(id: JobId, ghost w: Watch) returns (changed: bool)
      requires id in jobs && Named(jobs, robots) && InStep(w, {}, {})
      modifies this`jobs, this`pendingJobs, store
      ensures id in old(jobs) && jobs == Visited(old(jobs), id) && Named(jobs, robots)
        && (changed <==> jobs != old(jobs))
      ensures InStep(w, {}, {})
        && (batching ==> store.disk == old(store.disk) && pendingJobs <= old(pendingJobs) + {id})
      ensures !batching ==> pendingJobs == old(pendingJobs)
      ensures old(pendingJobs) <= pendingJobs
        && (Stable(old(jobs)) ==> !changed && pendingJobs == old(pendingJobs) && StoreUntouched())
      ensures batching ==> store.trail == old(store.trail)
    {
      changed := false;
      if jobs[id].status.Waiting() {
        var next := ComputeStatus(jobs, jobs[id].deps);
        if next != jobs[id].status {
          jobs := jobs[id := jobs[id].(status := next)];
          changed := true;
          AgreesAfterChange(w, old(jobs), jobs, robots, store.disk, store.fails, store.forgets, {} + pendingJobs,
            {} + pendingRobots, id);
          assert {} + pendingJobs + {id} == {id} + pendingJobs;
          var _ := PersistJob(id, {id}, {}, w);
          assert {id} - {id} == {};
        }
      }
    }

    /** One pass over the jobs, in any order. */
    method OnePass(ghost w: Watch, ghost before: Jobs, ghost rank: map<JobId, nat>, ghost k: nat)
      returns (changed: bool)
      requires Settling(before, rank, jobs, k, before.Keys) && jobs.Keys == before.Keys && Named(jobs, robots)
        && InStep(w, {}, {})
      modifies this`jobs, this`pendingJobs, store
      ensures jobs.Keys == before.Keys && Settling(before, rank, jobs, k + 1, before.Keys) && Named(jobs, robots)
      ensures !changed ==> jobs == Refreshed(before)
      ensures k >= Above(rank) ==> !changed
      ensures InStep(w, {}, {})
        && (batching ==> store.disk == old(store.disk) && pendingJobs <= old(pendingJobs) + jobs.Keys)
      ensures !batching ==> pendingJobs == old(pendingJobs)
      ensures old(pendingJobs) <= pendingJobs
        && (Stable(old(jobs)) ==> !changed && jobs == old(jobs) && pendingJobs == old(pendingJobs) && StoreUntouched())
      ensures batching ==> store.trail == old(store.trail)
    {
      hide Settling, InStep, Visited, Stable;
      changed := false;
      var todo := jobs.Keys;
      while todo != {}
        invariant todo <= before.Keys && jobs.Keys == before.Keys && Settling(before, rank, jobs, k, todo)
          && Named(jobs, robots)
        invariant !changed ==> jobs == old(jobs) && forall id :: id in jobs && id !in todo ==> Visited(jobs, id) == jobs
        invariant k >= Above(rank) ==> !changed
        invariant InStep(w, {}, {})
          && (batching ==> store.disk == old(store.disk) && pendingJobs <= old(pendingJobs) + before.Keys)
        invariant !batching ==> pendingJobs == old(pendingJobs)
        invariant old(pendingJobs) <= pendingJobs
          && (Stable(old(jobs)) ==> !changed && pendingJobs == old(pendingJobs) && StoreUntouched())
        invariant batching ==> store.trail == old(store.trail)
      {
        var id :| id in todo;
        SettlingGoesOn(before, rank, jobs, k, todo, id);
        var visited := Visit(id, w);
        changed := changed || visited;
        todo := todo - {id};
      }
      SettlingNextPass(before, rank, jobs, k);
      if !changed {
        SettlingEnds(before, rank, jobs, k, todo);
      }
    }

    /** Every verdict is recomputed until nothing changes. It ends because the queue is acyclic, and it
        ends in the same place whatever the order. */
    method RefreshBlocked(ghost w: Watch)
      requires Acyclic(jobs) && Named(jobs, robots) && InStep(w, {}, {})
      modifies this`jobs, this`pendingJobs, store
      ensures Mem() == old(Mem()).(jobs := Refreshed(old(jobs)))
      ensures jobs == Refreshed(old(jobs)) && jobs.Keys == old(jobs).Keys && Named(jobs, robots)
      ensures InStep(w, {}, {})
        && (batching ==> store.disk == old(store.disk) && pendingJobs <= old(pendingJobs) + jobs.Keys)
      ensures !batching ==> pendingJobs == old(pendingJobs)
      ensures old(pendingJobs) <= pendingJobs
        && (Stable(old(jobs)) ==> pendingJobs == old(pendingJobs) && StoreUntouched())
      ensures batching ==> store.trail == old(store.trail)
    {
      ghost var rank: map<JobId, nat> :| Ranked(jobs, rank);
      SettlingBegins(jobs, rank);
      hide *;
      PassAfterPass(w, rank);
    }

    method PassAfterPass(ghost w: Watch, ghost rank: map<JobId, nat>)
      requires Ranked(jobs, rank) && Settling(jobs, rank, jobs, 0, jobs.Keys) && Named(jobs, robots)
        && InStep(w, {}, {})
      modifies this`jobs, this`pendingJobs, store
      ensures Mem() == old(Mem()).(jobs := Refreshed(old(jobs)))
      ensures jobs == Refreshed(old(jobs)) && jobs.Keys == old(jobs).Keys && Named(jobs, robots)
      ensures InStep(w, {}, {})
        && (batching ==> store.disk == old(store.disk) && pendingJobs <= old(pendingJobs) + jobs.Keys)
      ensures !batching ==> pendingJobs == old(pendingJobs)
      ensures old(pendingJobs) <= pendingJobs
        && (Stable(old(jobs)) ==> pendingJobs == old(pendingJobs) && StoreUntouched())
      ensures batching ==> store.trail == old(store.trail)
    {
      hide Settling, InStep, Refreshed, Acyclic, Ranked, Stable, Named;
      ghost var before := jobs;
      ghost var k := 0;
      var changed := true;
      while changed
        invariant jobs.Keys == before.Keys && Settling(before, rank, jobs, k, before.Keys) && Named(jobs, robots)
        invariant if changed then k <= Above(rank) else jobs == Refreshed(before)
        invariant InStep(w, {}, {})
          && (batching ==> store.disk == old(store.disk) && pendingJobs <= old(pendingJobs) + before.Keys)
        invariant !batching ==> pendingJobs == old(pendingJobs)
        invariant old(pendingJobs) <= pendingJobs
          && (Stable(before) ==> jobs == before && pendingJobs == old(pendingJobs) && StoreUntouched())
        invariant batching ==> store.trail == old(store.trail)
        decreases Above(rank) + 1 - k
      {
        changed := OnePass(w, before, rank, k);
        k := k + 1;
      }
    }

    // ---- The index from robots to jobs ----

    /** The jobs that name the robot, from the index; stale entries are dropped on the way. */
    method JobsHeldBy(robot: RobotId) returns (held: set<JobId>)
      requires Indexed(jobs, heldBy) && robot != ""
      modifies this`heldBy
      ensures Indexed(jobs, heldBy)
      ensures held == set id | id in jobs && jobs[id].robot == robot
    {
      held := {};
      if robot in heldBy {
        var listed, todo := heldBy[robot], heldBy[robot];
        while todo != {}
          invariant todo <= listed <= heldBy[robot] && heldBy == old(heldBy) && robot in heldBy
          invariant forall id :: id in heldBy[robot] && id !in todo ==>
            (id in held <==> id in jobs && jobs[id].robot == robot)
          invariant forall id :: id in held ==> id in jobs && jobs[id].robot == robot && id in listed
          invariant forall id :: id in heldBy[robot] && id !in listed ==> id !in jobs || jobs[id].robot != robot
        {
          var id :| id in todo;
          todo := todo - {id};
          if id !in jobs || jobs[id].robot != robot {
            listed := listed - {id};
          } else {
            held := held + {id};
          }
        }
        heldBy := if listed == {} then heldBy - {robot} else heldBy[robot := listed];
      }
    }

    method RobotIsBusy(robot: RobotId) returns (busy: bool)
      requires Indexed(jobs, heldBy) && robot != ""
      modifies this`heldBy
      ensures Indexed(jobs, heldBy) && busy == Operations.Busy(jobs, robot)
    {
      var held := JobsHeldBy(robot);
      busy := exists id :: id in held && jobs[id].status == Assigned;
    }

    method JobsOf(robot: RobotId, unknownToo: bool) returns (q: seq<JobId>)
      requires Indexed(jobs, heldBy) && robot != "" && SeqsDistinct(jobs)
      modifies this`heldBy
      ensures Indexed(jobs, heldBy) && q == JobsOfRobot(jobs, robot, unknownToo)
      ensures IsQueue(jobs, BySubmission, HeldSet(jobs, robot, unknownToo), q)
    {
      var held := JobsHeldBy(robot);
      var s := set id | id in held
        && (jobs[id].status == Assigned || (unknownToo && jobs[id].status == Status.Unknown));
      assert s == HeldSet(jobs, robot, unknownToo);
      q := Sorted(jobs, BySubmission, s);
    }

    // ---- Submissions ----

    method AddJob(j: Job, now: Time) returns (r: Outcome<Job>)
      requires Valid() && j.robot == ""
      modifies this, store
      ensures Valid() && KeepsAccounts() && WritesThrough()
      ensures Mem() == Add(old(Mem()), j, now, !store.fails(old(store.disk.writes)))
      ensures r == AddResult(old(Mem()), j, now, !store.fails(old(store.disk.writes)))
      ensures Takes(Operation.AddJob(j, now, !store.fails(old(store.disk.writes))))
      ensures AddPromise(old(Mem()), j, now, !store.fails(old(store.disk.writes)), Mem(), r)
      ensures r.Ok? ==> j.id in store.disk.jobs && store.disk.jobs[j.id] == r.value
      ensures AddError(old(jobs), j).Some? ==> StoreUntouched()
      ensures AddError(old(jobs), j).None? ==>
        store.disk == Storage.SaveJob(old(store.disk), store.fails, Stored(old(Mem()), j, now))
    {
      hide Steady, Accounted, Indexed, Agrees, SameRecords, Through, Add, AddError, Stored, Storage.SaveJob, Idle,
        Apply, Writes, AddPromise, Core;
      SteadyKeys(Mem());
      SteadyFacts(Mem());
      AddKeepsPromise(Mem(), j, now, !store.fails(store.disk.writes));
      AddSteps(store.Kind(), Mem(), store.disk, j, now);
      var wrong := AddProblem(jobs, j);
      if wrong.Some? {
        return Err(wrong.value);
      }
      r := Insert(j, now);
    }

    method Insert(j: Job, now: Time) returns (r: Outcome<Job>)
      requires Valid() && j.robot == "" && AddError(jobs, j).None?
      modifies this, store
      ensures Valid() && KeepsAccounts() && WritesThrough()
      ensures Mem() == Add(old(Mem()), j, now, !store.fails(old(store.disk.writes)))
      ensures r == AddResult(old(Mem()), j, now, !store.fails(old(store.disk.writes)))
      ensures store.disk == Storage.SaveJob(old(store.disk), store.fails, Stored(old(Mem()), j, now))
      ensures r.Ok? ==> j.id in store.disk.jobs && store.disk.jobs[j.id] == r.value
    {
      hide Steady, Accounted, ShapeOk, Blank, Verdict, Agrees, SameRecords, Indexed, Healthy, Storage.SaveJob;
      AddKeeps(Mem(), j, now, !store.fails(store.disk.writes));
      var status := ComputeStatus(jobs, j.deps);
      var stored := j.(seqNo := nextSeq + 1, submittedAt := Millis(now), assignedAt := 0, completedAt := 0,
        attempt := 0, status := status);
      // saved before it enters the queue: a failure leaves no job behind, though its number is spent
      var saved := store.SaveJob(stored);
      SavedIsFound(old(store.disk), store.fails, stored);
      InsertAgrees(this, old(store.disk), stored);
      if saved {
        Enter(stored);
        r := Ok(stored);
      } else {
        nextSeq := nextSeq + 1;
        r := Err(StoreFailed);
      }
    }

    /** A saved record enters the queue. */
    method Enter(stored: Job)
      requires Indexed(jobs, heldBy) && stored.id !in jobs
      modifies this`jobs, this`nextSeq, this`history, this`heldBy, this`dedupIndex
      ensures Indexed(jobs, heldBy)
      ensures Mem() == Inserted(old(Mem()), stored)
    {
      hide Indexed, NoteAssigned;
      nextSeq := nextSeq + 1;
      jobs := jobs[stored.id := stored];
      history := history + [Created(stored.id)];
      heldBy := NoteAssigned(heldBy, stored);
      IndexedWith(old(jobs), old(heldBy), jobs, heldBy, stored.id);
      dedupIndex := if stored.key != "" then dedupIndex[stored.key := stored.id] else dedupIndex;
    }

    method SubmitJob(j: Job, now: Time) returns (r: Outcome<(Job, Submitted)>)
      requires Valid() && j.robot == ""
      modifies this, store
      ensures KeysLive(old(jobs), old(dedupIndex)) && Valid() && KeepsAccounts() && WritesThrough()
      ensures Mem() == Submit(old(Mem()), j, now, !store.fails(old(store.disk.writes)))
      ensures match SubmissionOf(old(Mem()), j)
        case NewJob =>
          var added := AddResult(old(Mem()), j, now, !store.fails(old(store.disk.writes)));
          r == if added.Ok? then Ok((added.value, SubmitCreated)) else Err(added.error)
        case Duplicate => r == Ok((old(jobs)[old(dedupIndex)[j.key]], SubmitDuplicate))
        case Refused(e) => r == Err(e)
        case Retry => old(dedupIndex)[j.key] in jobs && r == Ok((jobs[old(dedupIndex)[j.key]], SubmitRetried))
      ensures if j.key == "" || j.key !in old(dedupIndex)
        then AddPromise(old(Mem()), j, now, !store.fails(old(store.disk.writes)), Mem(), JobAlone(r))
          && (r.Ok? ==> r.value.1 == SubmitCreated)
        else RetryPromise(old(Mem()), j, now, Mem(), r)
      ensures Takes(Operation.SubmitJob(j, now, !store.fails(old(store.disk.writes))))
    {
      hide Steady, Accounted, Indexed, Agrees, SameRecords, Healthy, Core, Acyclic, SeqsDistinct, KeysLive, ShapeOk,
        FromRoots, DepsKnown, Add, AddResult, Resubmitted, Idle, Stored, Storage.SaveJob, AddError, Through, Apply,
        Writes, AddPromise, RetryPromise;
      SteadyFacts(Mem());
      if j.key != "" && j.key in dedupIndex {
        r := SubmitKnown(j, now);
      } else {
        SubmitSteps(store.Kind(), Mem(), store.disk, j, now);
        var added := AddJob(j, now);
        r := if added.Ok? then Ok((added.value, SubmitCreated)) else Err(added.error);
      }
    }

    /** The key of a live job is submitted once more. */
    method SubmitKnown(j: Job, now: Time) returns (r: Outcome<(Job, Submitted)>)
      requires Valid() && j.robot == "" && j.key != "" && j.key in dedupIndex
      modifies this, store
      ensures KeysLive(old(jobs), old(dedupIndex)) && Valid() && KeepsAccounts() && WritesThrough()
      ensures Mem() == Submit(old(Mem()), j, now, !store.fails(old(store.disk.writes)))
      ensures match SubmissionOf(old(Mem()), j)
        case NewJob => false
        case Duplicate => r == Ok((old(jobs)[old(dedupIndex)[j.key]], SubmitDuplicate))
        case Refused(e) => r == Err(e)
        case Retry => old(dedupIndex)[j.key] in jobs && r == Ok((jobs[old(dedupIndex)[j.key]], SubmitRetried))
      ensures RetryPromise(old(Mem()), j, now, Mem(), r)
      ensures Takes(Operation.SubmitJob(j, now, !store.fails(old(store.disk.writes))))
    {
      hide Steady, Accounted, Indexed, Agrees, SameRecords, Healthy, Core, Acyclic, SeqsDistinct, KeysLive, ShapeOk,
        FromRoots, DepsKnown, Add, AddResult, Resubmitted, Idle, Stored, Storage.SaveJob, AddError, AfterRetry, Through,
        Apply, Writes, RetryPromise;
      SteadyFacts(Mem());
      ghost var m, saved := Mem(), !store.fails(store.disk.writes);
      SubmitSteps(store.Kind(), m, store.disk, j, now);
      r := Resubmission(j, now);
      RetryKeepsPromise(m, j, now, saved, r);
    }

    method Resubmission(j: Job, now: Time) returns (r: Outcome<(Job, Submitted)>)
      requires Valid() && j.key != "" && j.key in dedupIndex
      modifies this, store
      ensures KeysLive(old(jobs), old(dedupIndex)) && Valid() && KeepsAccounts() && WritesThrough()
      ensures forall saved :: Mem() == Submit(old(Mem()), j, now, saved)
      ensures match SubmissionOf(old(Mem()), j)
        case NewJob => false
        case Duplicate => StoreUntouched() && r == Ok((old(jobs)[old(dedupIndex)[j.key]], SubmitDuplicate))
        case Refused(e) => StoreUntouched() && r == Err(e)
        case Retry =>
          && old(dedupIndex)[j.key] in jobs && r == Ok((jobs[old(dedupIndex)[j.key]], SubmitRetried))
          && AfterRetry(store.Kind(), old(Mem()), old(dedupIndex)[j.key], j, now, old(store.disk), store.disk)
    {
      hide Steady, Accounted, Indexed, Agrees, SameRecords, Healthy, Core, Acyclic, SeqsDistinct, KeysLive, ShapeOk,
        FromRoots, DepsKnown, Resubmitted, Idle, Storage.SaveJob, AfterRetry;
      SteadyFacts(Mem());
      KeyNamesJob(Mem(), j.key);
      var id := dedupIndex[j.key];
      if jobs[id].status != Failed && jobs[id].status != Cancelled {
        return Ok((jobs[id], SubmitDuplicate));
      }
      var shaped := ShapeIsOk(id, j.deps);
      if !shaped {
        return Err(InvalidJob);
      }
      var known := AllKnown(jobs, j.deps);
      if !known {
        return Err(UnknownDep);
      }
      var cyclic := DependsTransitively(jobs, j.deps, id);
      if cyclic {
        return Err(InvalidJob);
      }
      Resubmit(id, j, now);
      r := Ok((jobs[id], SubmitRetried));
    }

    /** A failed or cancelled job is submitted again under its own id; every verdict is recomputed. */
    method Resubmit(id: JobId, j: Job, now: Time)
      requires Valid() && id in jobs && (jobs[id].status == Failed || jobs[id].status == Cancelled)
      requires DepsKnown(jobs, j.deps) && !FromRoots(jobs, j.deps, id)
      modifies this, store
      ensures Valid() && KeepsAccounts() && WritesThrough() && id in jobs
      ensures Mem() == Resubmitted(old(Mem()), id, j, now)
      ensures AfterRetry(store.Kind(), old(Mem()), id, j, now, old(store.disk), store.disk)
    {
      hide Steady, Accounted, StillAgrees, Refreshed, Acyclic, FromRoots, DepsKnown, Agrees, SameRecords, InStep,
        Indexed, Healthy, Core, SeqsDistinct, KeysLive, Verdict;
      ghost var w := Start();
      ResubmitKeeps(Mem(), id, j, now);
      BeginInStep(w, this);
      var status := ComputeStatus(jobs, j.deps);
      var retried := jobs[id].(priority := j.priority, tool := j.tool, location := j.location, deps := j.deps,
        robot := "", submittedAt := Millis(now), assignedAt := 0, completedAt := 0, status := status);
      Restore(id, retried, w);
      IndexedAfterRefresh(old(jobs), id, retried, heldBy);
      EndInStep(w, this);
    }

    /** The retried job is written, then everything it unblocks. */
    method Restore(id: JobId, retried: Job, ghost w: Watch)
      requires Idle() && id in jobs && SameIdentity(jobs[id], retried) && Named(jobs, robots)
        && Acyclic(jobs[id := retried]) && InStep(w, {}, {})
      modifies this`jobs, this`history, this`pendingJobs, store
      ensures Mem() == old(Mem()).(jobs := Refreshed(old(jobs)[id := retried]),
        log := old(history) + [Entry.Retried(id)])
      ensures Idle() && InStep(w, {}, {}) && jobs.Keys == old(jobs).Keys
      ensures Stable(old(jobs)[id := retried]) ==> store.disk == Storage.SaveJob(old(store.disk), store.fails, retried)
    {
      hide StillAgrees, Refreshed, Acyclic, InStep, Stable;
      NoteStep(w, this, {}, {});
      Record(id, retried, Entry.Retried(id));
      JobChanged(w, this, old(jobs), {}, {}, id);
      var _ := PersistJob(id, {} + {id}, {}, w);
      assert {} + {id} - {id} == {};
      RefreshBlocked(w);
    }

    // ---- Giving work back ----

    /** The job goes back to the queue; its robot is held unavailable until it speaks again. */
    method RequeueJobLocked(id: JobId, ghost lr: set<RobotId>, ghost w: Watch)
      requires batching && id in jobs && Named(jobs, robots) && Indexed(jobs, heldBy) && InStep(w, {}, lr)
      requires pendingJobs <= jobs.Keys && pendingRobots <= robots.Keys
      modifies this`jobs, this`robots, this`stopReq, this`history, this`pendingJobs, this`pendingRobots, store
      ensures Mem() == Abandon(old(Mem()), id) && Named(jobs, robots) && Indexed(jobs, heldBy) && InStep(w, {}, lr)
      ensures pendingJobs == old(pendingJobs) + {id} && pendingJobs <= jobs.Keys && pendingRobots <= robots.Keys
        && StoreUntouched()
    {
      hide InStep, StillAgrees, Indexed, Verdict;
      HoldRobot(jobs[id].robot, lr, w);
      NoteStep(w, this, {}, lr);
      ghost var before := jobs;
      var status := ComputeStatus(jobs, jobs[id].deps);
      TakeBack(id, status);
      JobChanged(w, this, before, {}, lr, id);
      IndexedWithout(before, id, jobs[id], heldBy);
      var _ := PersistJob(id, {} + {id}, lr, w);
      assert {} + {id} - {id} == {};
    }

    method HoldRobot(r: RobotId, ghost lr: set<RobotId>, ghost w: Watch)
      requires batching && Named(jobs, robots) && InStep(w, {}, lr) && pendingRobots <= robots.Keys
      modifies this`robots, this`pendingRobots, store
      ensures Mem() == old(Mem()).(robots := HeldBack(old(robots), r)) && Named(jobs, robots)
      ensures InStep(w, {}, lr) && pendingRobots <= robots.Keys && StoreUntouched()
    {
      hide InStep, StillAgrees;
      if r in robots {
        NoteStep(w, this, {}, lr);
        robots := robots[r := robots[r].(available := false, selfReported := true)];
        RobotChanged(w, this, old(robots), {}, lr, r);
        var _ := PersistRobot(r, {}, lr + {r}, w);
        NoteStep(w, this, {}, lr + {r} - {r});
        MoreLate(w, this, {}, lr + {r} - {r}, lr);
      }
    }

    method TakeBack(id: JobId, status: Status)
      requires id in jobs && status == Verdict(jobs, jobs[id].deps)
      modifies this`jobs, this`stopReq, this`history
      ensures Mem() == old(Mem()).(jobs := old(jobs)[id := AbandonedJob(old(jobs), id)], stopReq := old(stopReq) - {id},
                                   log := old(history) + [Abandoned(id, old(jobs)[id].robot, old(jobs)[id].attempt)])
    {
      hide Verdict;
      stopReq := stopReq - {id};
      history := history + [Abandoned(id, jobs[id].robot, jobs[id].attempt)];
      jobs := jobs[id := jobs[id].(robot := "", assignedAt := 0, status := status)];
    }

    /** Every given job goes back, in one transaction, with `extra` robots saved along. */
    method RequeueAll(ids: seq<JobId>, extra: Option<RobotId>, ghost lr: set<RobotId>, ghost w: Watch)
      requires Idle() && Named(jobs, robots) && Indexed(jobs, heldBy) && InStep(w, {}, lr)
      requires (forall id :: id in ids ==> id in jobs) && (extra.Some? ==> extra.value in robots)
      modifies this`jobs, this`robots, this`stopReq, this`history, this`batching, this`pendingJobs, this`pendingRobots,
        store
      ensures Mem() == AbandonAll(old(Mem()), ids) && Idle() && Named(jobs, robots) && Indexed(jobs, heldBy)
      ensures jobs.Keys == old(jobs).Keys && robots.Keys == old(robots).Keys
      ensures InStep(w, {}, if extra.Some? then lr - {extra.value} else lr)
      ensures store.batches && (ids != [] || extra.Some?) ==> InOneTransaction(set k | 0 <= k < |ids| :: ids[k], true)
    {
      hide InStep, StillAgrees, Indexed, Abandon, Idle, Named, Committed, OneBatch, RecordByRecord, Healthy;
      IdleMeans(this);
      BeginBatch(w, {}, lr);
      RequeueEach(ids, lr, w);
      if extra.Some? {
        NamedRobot(jobs, robots, extra.value);
        var _ := PersistRobot(extra.value, {}, lr, w);
      }
      ghost var d, js, rs := store.disk, pendingJobs, pendingRobots;
      var _ := CommitBatch(w, if extra.Some? then lr - {extra.value} else lr);
      if store.batches && (ids != [] || extra.Some?) {
        assert ids != [] ==> ids[0] in js;
        WasOneBatch(store.Kind(), d, Mem(), store.disk, js, rs, js, true);
      }
    }

    method RequeueEach(ids: seq<JobId>, ghost lr: set<RobotId>, ghost w: Watch)
      requires batching && Named(jobs, robots) && Indexed(jobs, heldBy) && InStep(w, {}, lr)
      requires pendingJobs == {} && pendingRobots <= robots.Keys && forall id :: id in ids ==> id in jobs
      modifies this`jobs, this`robots, this`stopReq, this`history, this`pendingJobs, this`pendingRobots, store
      ensures Mem() == AbandonAll(old(Mem()), ids) && Named(jobs, robots) && Indexed(jobs, heldBy) && InStep(w, {}, lr)
      ensures jobs.Keys == old(jobs).Keys && robots.Keys == old(robots).Keys
      ensures StoreUntouched() && pendingJobs == (set k | 0 <= k < |ids| :: ids[k]) && pendingJobs <= jobs.Keys
        && pendingRobots <= robots.Keys
    {
      hide InStep, StillAgrees, Indexed, Abandon, AbandonAll, Named;
      assert ids[0..] == ids;
      for i := 0 to |ids|
        invariant batching && Named(jobs, robots) && Indexed(jobs, heldBy) && InStep(w, {}, lr)
        invariant pendingJobs <= jobs.Keys && pendingRobots <= robots.Keys
        invariant jobs.Keys == old(jobs).Keys && robots.Keys == old(robots).Keys
        invariant StoreUntouched() && pendingJobs == set k | 0 <= k < i :: ids[k]
        invariant AbandonAll(Mem(), ids[i..]) == AbandonAll(old(Mem()), ids)
      {
        assert (set k | 0 <= k < i + 1 :: ids[k]) == (set k | 0 <= k < i :: ids[k]) + {ids[i]};
        AbandonNext(Mem(), ids, i);
        RequeueJobLocked(ids[i], lr, w);
      }
      AbandonNoMore(Mem(), ids);
    }

    method RequeueJob(id: JobId, robot: RobotId) returns (wrong: Option<Error>)
      requires Valid()
      modifies this, store
      ensures Valid() && KeepsAccounts() && WritesThrough()
      ensures Mem() == Requeue(old(Mem()), id, robot) && wrong == RequeueError(old(Mem()), id, robot)
      ensures RequeueAnswer(old(Mem()), id, robot, wrong)
      ensures if UnderWay(old(Mem()), id) && wrong.None? then BackInQueue(old(Mem()), Mem(), id)
        else Mem() == old(Mem())
      ensures Takes(Operation.RequeueJob(id, robot))
      ensures store.batches ==> WritesAtMostOnce()
    {
      hide Steady, Accounted, StillAgrees, Agrees, SameRecords, InStep, Indexed, Healthy, Core, Abandon, OneBatch,
        Through, Apply, Writes, RequeueAnswer, BackInQueue;
      SteadyKeys(Mem());
      SteadyFacts(Mem());
      RequeueKeepsPromise(Mem(), id, robot);
      RequeueSteps(store.Kind(), Mem(), store.disk, id, robot);
      RequeueKeeps(Mem(), id, robot);
      SteadyNames(Mem());
      if id !in jobs {
        return Some(UnknownJob);
      }
      if jobs[id].status.Waiting() {
        return None;
      }
      if jobs[id].status.Ended() {
        return Some(JobFinished);
      }
      if robot != "" && robot != jobs[id].robot {
        return Some(RobotMismatch);
      }
      GiveBack(id);
      return None;
    }

    /** One job goes back to the queue in a transaction of its own. */
    method GiveBack(id: JobId)
      requires Idle() && Named(jobs, robots) && Indexed(jobs, heldBy) && id in jobs
      modifies this, store
      ensures Mem() == Abandon(old(Mem()), id) && Idle() && Indexed(jobs, heldBy) && WritesThrough()
      ensures store.batches ==> InOneTransaction({id}, true)
    {
      hide StillAgrees, Agrees, SameRecords, InStep, Indexed, Healthy, Abandon, Idle, OneBatch;
      ghost var w := Start();
      BeginInStep(w, this);
      assert [id][1..] == [];
      AbandonNext(Mem(), [id], 0);
      AbandonNoMore(Abandon(Mem(), id), [id]);
      RequeueAll([id], None, {}, w);
      assert (set k | 0 <= k < |[id]| :: [id][k]) == {id};
      EndInStep(w, this);
    }

    /** A robot is declared failed or gone: it is held, and everything it holds goes back. */
    method ReplanRobot(robot: RobotId) returns (r: Outcome<seq<JobId>>)
      requires Valid()
      modifies this, store
      ensures Valid() && KeepsAccounts() && WritesThrough()
      ensures Mem() == Operations.ReplanRobot(old(Mem()), robot)
      ensures r == if ReplanError(old(Mem()), robot).Some? then Err(ReplanError(old(Mem()), robot).value)
                   else Ok(JobsOfRobot(old(jobs), robot, true))
      ensures ReplanPromise(old(Mem()), robot, Mem(), r)
      ensures Takes(Operation.ReplanFor(robot))
      ensures store.batches ==> WritesAtMostOnce()
    {
      hide Steady, Accounted, StillAgrees, Agrees, SameRecords, InStep, Indexed, Healthy, Core, AbandonAll, JobsOfRobot,
        SeqsDistinct, OneBatch, Through, HeldSet, Apply, Writes, ReplanPromise;
      SteadyKeys(Mem());
      SteadyFacts(Mem());
      ghost var m := Mem();
      ReplanKeepsPromise(m, robot, if ReplanError(m, robot).Some? then Err(ReplanError(m, robot).value)
        else Ok(JobsOfRobot(m.jobs, robot, true)));
      ReplanSteps(store.Kind(), Mem(), store.disk, robot);
      ReplanKeeps(Mem(), robot);
      SteadyNames(Mem());
      if !cfg.replan.enabled {
        return Err(ReplanOff);
      }
      if robot !in robots {
        return Err(UnknownRobot);
      }
      var ids := HoldAndGiveBack(robot);
      r := Ok(ids);
    }

    method HoldAndGiveBack(robot: RobotId) returns (ids: seq<JobId>)
      requires Idle() && robot in robots && robot != "" && Named(jobs, robots) && Indexed(jobs, heldBy)
        && SeqsDistinct(jobs)
      modifies this, store
      ensures ids == JobsOfRobot(old(jobs), robot, true)
      ensures Mem() == AbandonAll(old(Mem()).(robots := HeldBack(old(robots), robot)), ids)
      ensures Idle() && Indexed(jobs, heldBy) && WritesThrough()
      ensures store.batches ==> InOneTransaction(HeldSet(old(jobs), robot, true), true)
    {
      hide StillAgrees, Agrees, SameRecords, InStep, Indexed, Healthy, AbandonAll, JobsOfRobot, SeqsDistinct, Idle,
        OneBatch;
      ghost var w := Start();
      BeginInStep(w, this);
      NoteStep(w, this, {}, {});
      ids := JobsOf(robot, true);
      robots := robots[robot := robots[robot].(available := false, selfReported := true)];
      RobotChanged(w, this, old(robots), {}, {}, robot);
      QueueIsItsSet(jobs, BySubmission, HeldSet(jobs, robot, true), ids);
      RequeueAll(ids, Some(robot), {} + {robot}, w);
      assert {} + {robot} - {robot} == {};
      EndInStep(w, this);
    }

    /** The robot confirmed that it stopped the job. */
    method AckStop(robot: RobotId, id: JobId) returns (wrong: Option<Error>)
      requires Valid()
      modifies this, store
      ensures Valid() && KeepsAccounts() && WritesThrough()
      ensures Mem() == Operations.AckStop(old(Mem()), robot, id) && wrong == AckError(old(Mem()), robot, id)
      ensures AckAnswer(old(Mem()), robot, id, wrong)
      ensures if wrong.None? then BackInQueue(old(Mem()), Mem(), id) else Mem() == old(Mem())
      ensures Takes(Operation.Acknowledge(robot, id))
      ensures store.batches ==> WritesAtMostOnce()
    {
      hide Steady, Accounted, StillAgrees, Agrees, SameRecords, InStep, Indexed, Healthy, Core, Abandon, OneBatch,
        Through, Apply, Writes, AckAnswer, BackInQueue;
      SteadyKeys(Mem());
      SteadyFacts(Mem());
      AckKeepsPromise(Mem(), robot, id);
      AckSteps(store.Kind(), Mem(), store.disk, robot, id);
      AckKeeps(Mem(), robot, id);
      SteadyNames(Mem());
      if !cfg.replan.enabled {
        return Some(ReplanOff);
      }
      if id !in jobs {
        return Some(UnknownJob);
      }
      if jobs[id].robot != "" && jobs[id].robot != robot {
        return Some(RobotMismatch);
      }
      if !jobs[id].status.InFlight() || id !in stopReq || stopReq[id].robot != robot
        || stopReq[id].attempt != jobs[id].attempt {
        return Some(NoStopRequest);
      }
      GiveBack(id);
      return None;
    }

    // ---- Reports ----

    /** The report of a robot on its assignment; attempt 0 means it does not say which. */
    method CompleteJobAttempt(id: JobId, success: bool, robot: RobotId, attempt: int, now: Time)
      returns (wrong: Option<Error>)
      requires Valid()
      modifies this, store
      ensures Valid() && KeepsAccounts() && WritesThrough()
      ensures Mem() == Complete(old(Mem()), id, success, robot, attempt, now)
        && wrong == CompleteError(old(Mem()), id, robot, attempt)
      ensures ReportAnswer(old(Mem()), id, robot, attempt, wrong)
      ensures Mem() != old(Mem()) <==> AboutPresent(old(Mem()), id, robot, attempt) && robot in old(robots)
      ensures Takes(Operation.CompleteJob(id, success, robot, attempt, now))
      ensures store.batches ==> WritesAtMostOnce()
    {
      hide Steady, Accounted, StillAgrees, Agrees, SameRecords, InStep, Indexed, Healthy, Core, Finish, OneBatch,
        Stable, Through, Apply, Writes, ReportAnswer, AboutPresent;
      SteadyKeys(Mem());
      ReportsAreChecked(Mem(), id, success, robot, attempt, now);
      CompleteSteps(store.Kind(), Mem(), store.disk, id, success, robot, attempt, now);
      SteadyNames(Mem());
      if id !in jobs {
        return Some(UnknownJob);
      }
      if !jobs[id].status.InFlight() {
        return Some(JobNotAssigned);
      }
      if robot != jobs[id].robot {
        return Some(RobotMismatch);
      }
      if attempt != 0 && attempt != jobs[id].attempt {
        return Some(AttemptMismatch);
      }
      if robot !in robots {
        return Some(UnknownRobot);
      }
      Accept(id, success, now);
      return None;
    }

    /** An accepted report: the job ends, its robot is freed unless it is busy with another job or
        reported itself unavailable meanwhile, and every verdict is recomputed. */
    method Accept(id: JobId, success: bool, now: Time)
      requires Valid() && id in jobs && jobs[id].status.InFlight() && jobs[id].robot in robots
      modifies this, store
      ensures Valid() && KeepsAccounts() && WritesThrough() && Mem() == Finish(old(Mem()), id, success, now)
      ensures store.batches ==> InOneTransaction({id}, Stable(old(jobs)[id := EndedJob(old(jobs)[id], success, now)]))
    {
      hide Steady, Accounted, StillAgrees, Agrees, SameRecords, InStep, Indexed, Healthy, Core, Refreshed, Idle,
        Acyclic, Operations.Busy, Finish, Freed, Stable, OneBatch;
      IdleMeans(this);
      assert {} + {id} == {id};
      ghost var w := Start();
      var r := jobs[id].robot;
      FinishKeeps(Mem(), id, success, now);
      FinishStepByStep(Mem(), id, success, now);
      BeginInStep(w, this);
      BeginBatch(w, {}, {});
      EndJob(id, EndedJob(jobs[id], success, now), Finished(id, r, jobs[id].attempt, success), w);
      FreeRobot(r, w);
      RefreshAndCommit(w);
      EndInStep(w, this);
    }

    /** A job ends within a batch. */
    method EndJob(id: JobId, j: Job, e: Entry, ghost w: Watch)
      requires batching && id in jobs && Named(jobs, robots) && Indexed(jobs, heldBy) && InStep(w, {}, {})
      requires SameIdentity(jobs[id], j) && (j.robot == "" || j.robot == jobs[id].robot) && pendingJobs <= jobs.Keys
      modifies this`jobs, this`history, this`pendingJobs, store
      ensures Mem() == old(Mem()).(jobs := old(jobs)[id := j], log := old(history) + [e])
      ensures Named(jobs, robots) && Indexed(jobs, heldBy) && InStep(w, {}, {})
      ensures pendingJobs == old(pendingJobs) + {id} && pendingJobs <= jobs.Keys && StoreUntouched()
    {
      hide StillAgrees, InStep, Indexed;
      NoteStep(w, this, {}, {});
      Record(id, j, e);
      JobChanged(w, this, old(jobs), {}, {}, id);
      IndexedSame(old(jobs), id, j, heldBy);
      var _ := PersistJob(id, {} + {id}, {}, w);
      assert {} + {id} - {id} == {};
    }

    method FreeRobot(r: RobotId, ghost w: Watch)
      requires batching && r in robots && r != "" && Named(jobs, robots) && Indexed(jobs, heldBy) && InStep(w, {}, {})
        && pendingRobots <= robots.Keys
      modifies this`robots, this`heldBy, this`pendingRobots, store
      ensures Mem() == old(Mem()).(robots := old(robots)[r :=
        Freed(old(jobs), old(robots)[r].(load := old(robots)[r].load + 1))])
      ensures Indexed(jobs, heldBy) && Named(jobs, robots) && InStep(w, {}, {}) && pendingRobots <= robots.Keys
        && StoreUntouched()
    {
      hide StillAgrees, InStep, Indexed, Freed, Named;
      NamedRobot(jobs, robots, r);
      NamedWith(jobs, robots, r);
      NoteStep(w, this, {}, {});
      CountAndFree(r);
      RobotChanged(w, this, old(robots), {}, {}, r);
      var _ := PersistRobot(r, {}, {} + {r}, w);
      assert {} + {r} - {r} == {};
    }

    /** The load counts the report; the robot is free unless it has another job or reported itself unavailable. */
    method CountAndFree(r: RobotId)
      requires r in robots && r != "" && robots[r].id == r && Indexed(jobs, heldBy)
      modifies this`robots, this`heldBy
      ensures Indexed(jobs, heldBy)
        && robots == old(robots)[r := Freed(jobs, old(robots)[r].(load := old(robots)[r].load + 1))]
      ensures r in robots && robots[r].id == r
    {
      hide Indexed, Operations.Busy;
      var busy := RobotIsBusy(r);
      var freed := robots[r].(load := robots[r].load + 1);
      robots := robots[r := if !busy && !freed.selfReported then freed.(available := true) else freed];
    }

    method RefreshAndCommit(ghost w: Watch)
      requires batching && Acyclic(jobs) && Named(jobs, robots) && Indexed(jobs, heldBy) && InStep(w, {}, {})
      requires pendingJobs <= jobs.Keys && pendingRobots <= robots.Keys
      modifies this`jobs, this`batching, this`pendingJobs, this`pendingRobots, store
      ensures Mem() == old(Mem()).(jobs := Refreshed(old(jobs))) && Idle() && Indexed(jobs, heldBy) && InStep(w, {}, {})
      ensures store.batches && old(pendingJobs) != {} ==> InOneTransaction(old(pendingJobs), Stable(old(jobs)))
    {
      hide StillAgrees, InStep, Indexed, Refreshed, Acyclic, Idle, Stable, OneBatch, Committed, RecordByRecord, Healthy,
        Named;
      RefreshBlocked(w);
      IndexedAfterRefreshed(old(jobs), heldBy);
      ghost var d, js, rs := store.disk, pendingJobs, pendingRobots;
      var _ := CommitBatch(w, {});
      if store.batches && old(pendingJobs) != {} {
        WasOneBatch(store.Kind(), d, Mem(), store.disk, js, rs, old(pendingJobs), Stable(old(jobs)));
      }
    }

    /** A job no robot was given is withdrawn. */
    method CancelJob(id: JobId, now: Time) returns (wrong: Option<Error>)
      requires Valid()
      modifies this, store
      ensures Valid() && KeepsAccounts() && WritesThrough()
      ensures Mem() == Cancel(old(Mem()), id, now) && wrong == CancelError(old(Mem()), id)
      ensures CancelAnswer(old(Mem()), id, wrong)
      ensures if id in old(jobs) && old(jobs)[id].status.Waiting() then
        && OthersKeep(old(jobs), jobs, id) && robots == old(robots)
        && jobs[id] == old(jobs)[id].(status := Status.Cancelled, completedAt := Millis(now))
      else Mem() == old(Mem())
      ensures Takes(Operation.CancelJob(id, now))
      ensures store.batches ==> WritesAtMostOnce()
    {
      hide Steady, Accounted, StillAgrees, Agrees, SameRecords, InStep, Indexed, Healthy, Core, Refreshed, Idle,
        Acyclic, OneBatch, Stable, Through, Apply, Writes, CancelAnswer, OthersKeep;
      SteadyKeys(Mem());
      SteadyFacts(Mem());
      CancelKeepsPromise(Mem(), id, now);
      CancelSteps(store.Kind(), Mem(), store.disk, id, now);
      SteadyNames(Mem());
      if id !in jobs {
        return Some(UnknownJob);
      }
      match jobs[id].status {
        case Cancelled => return None;
        case Assigned => return Some(JobInFlight);
        case Unknown => return Some(JobInFlight);
        case Done => return Some(JobFinished);
        case Failed => return Some(JobFinished);
        case _ =>
      }
      Withdraw(id, now);
      return None;
    }

    method Withdraw(id: JobId, now: Time)
      requires Valid() && id in jobs && jobs[id].status.Waiting()
      modifies this, store
      ensures Valid() && KeepsAccounts() && WritesThrough() && Mem() == Cancel(old(Mem()), id, now)
      ensures store.batches ==> InOneTransaction({id}, Stable(old(jobs)[id := CancelledJob(old(jobs)[id], now)]))
    {
      hide Steady, Accounted, StillAgrees, Agrees, SameRecords, InStep, Indexed, Healthy, Core, Refreshed, Idle,
        Acyclic, Stable, OneBatch;
      IdleMeans(this);
      assert {} + {id} == {id};
      ghost var w := Start();
      CancelKeeps(Mem(), id, now);
      BeginInStep(w, this);
      BeginBatch(w, {}, {});
      EndJob(id, CancelledJob(jobs[id], now), Withdrawn(id), w);
      RefreshAndCommit(w);
      EndInStep(w, this);
    }

    // ---- Robots ----

    /** A registration or heartbeat. */
    method UpsertRobot(d: Declaration, given: bool, now: Time)
      requires Valid() && d.id != ""
      modifies this, store
      ensures Valid() && KeepsAccounts() && WritesThrough() && Mem() == Upsert(old(Mem()), d, given, now)
      ensures UpsertPromise(old(Mem()), d, given, now, Mem())
      ensures Takes(Operation.UpsertRobot(d, given, now))
    {
      hide Steady, Accounted, StillAgrees, Agrees, SameRecords, InStep, Indexed, Healthy, Core, Operations.Busy,
        AbandonAll, JobsOfRobot, SeqsDistinct, FaultGivesWorkBack, Storage.SaveRobot, Apply, Writes, UpsertPromise;
      SteadyFacts(Mem());
      UpsertKeepsPromise(Mem(), d, given, now);
      SteadyKeys(Mem());
      UpsertSteps(store.Kind(), Mem(), store.disk, d, given, now);
      UpsertKeeps(Mem(), d, given, now);
      SteadyNames(Mem());
      ghost var w := Start();
      BeginInStep(w, this);
      if d.id in robots {
        Heartbeat(d, given, now, w);
      } else {
        Join(d, now, w);
      }
      EndInStep(w, this);
    }

    method Join(d: Declaration, now: Time, ghost w: Watch)
      requires Idle() && d.id !in robots && d.id != "" && InStep(w, {}, {})
      modifies this`robots, this`history, this`pendingRobots, store
      ensures Mem() == old(Mem()).(robots := old(robots)[d.id := FirstSeen(d, now)],
        log := old(history) + [Joined(d.id, d.load)])
      ensures Idle() && InStep(w, {}, {})
      ensures d.id in robots && store.disk == Storage.SaveRobot(old(store.disk), store.fails, robots[d.id])
    {
      hide StillAgrees, InStep;
      NoteStep(w, this, {}, {});
      robots := robots[d.id := FirstSeen(d, now)];
      history := history + [Joined(d.id, d.load)];
      RobotChanged(w, this, old(robots), {}, {}, d.id);
      var _ := PersistRobot(d.id, {}, {} + {d.id}, w);
      assert {} + {d.id} - {d.id} == {};
    }

    method Heartbeat(d: Declaration, given: bool, now: Time, ghost w: Watch)
      requires Idle() && d.id in robots && d.id != "" && Named(jobs, robots) && Indexed(jobs, heldBy)
        && SeqsDistinct(jobs) && InStep(w, {}, {})
      modifies this`jobs, this`robots, this`stopReq, this`history, this`heldBy, this`batching, this`pendingJobs,
        this`pendingRobots, store
      ensures Mem() == Upsert(old(Mem()), d, given, now)
      ensures Idle() && Indexed(jobs, heldBy) && InStep(w, {}, {})
      ensures !FaultGivesWorkBack(old(Mem()), d, given) ==>
        d.id in robots && store.disk == Storage.SaveRobot(old(store.disk), store.fails, robots[d.id])
    {
      hide StillAgrees, InStep, Indexed, Operations.Busy, AbandonAll, JobsOfRobot, SeqsDistinct, Idle;
      var fault := Listen(d, given, now, w);
      if fault && cfg.replan.enabled && cfg.replan.onFault {
        GiveBackOf(d.id, w);
      }
      IdleMeans(this);
      var _ := PersistRobot(d.id, {}, {} + {d.id}, w);
      IdleMeans(this);
      assert {} + {d.id} - {d.id} == {};
    }

    /** What a heartbeat says is noted; a reservation of the scheduler wins over the availability it
        declares, but a fault declared during a job is remembered. */
    method Listen(d: Declaration, given: bool, now: Time, ghost w: Watch) returns (fault: bool)
      requires d.id in robots && d.id != "" && Named(jobs, robots) && Indexed(jobs, heldBy) && InStep(w, {}, {})
      modifies this`robots, this`heldBy
      ensures fault == (given && Operations.Busy(jobs, d.id) && !d.available)
      ensures var heard := Heard(old(robots)[d.id], d, now);
        Mem() == old(Mem()).(robots := old(robots)[d.id :=
          if given && !Operations.Busy(jobs, d.id) then heard.(available := d.available, selfReported := !d.available)
          else if fault then heard.(selfReported := true) else heard])
      ensures Named(jobs, robots) && Indexed(jobs, heldBy) && InStep(w, {}, {} + {d.id})
    {
      hide StillAgrees, InStep, Indexed, Operations.Busy;
      var busy := RobotIsBusy(d.id);
      NoteStep(w, this, {}, {});
      fault := given && busy && !d.available;
      var heard := Heard(robots[d.id], d, now);
      robots := robots[d.id := if given && !busy then heard.(available := d.available, selfReported := !d.available)
                               else if fault then heard.(selfReported := true) else heard];
      RobotChanged(w, this, old(robots), {}, {}, d.id);
    }

    /** The robot faulted in the middle of its job: the job goes back to the queue. */
    method GiveBackOf(robot: RobotId, ghost w: Watch)
      requires Idle() && robot in robots && robot != "" && Named(jobs, robots) && Indexed(jobs, heldBy)
        && SeqsDistinct(jobs) && InStep(w, {}, {} + {robot})
      modifies this`jobs, this`robots, this`stopReq, this`history, this`heldBy, this`batching, this`pendingJobs,
        this`pendingRobots, store
      ensures Mem() == AbandonAll(old(Mem()), JobsOfRobot(old(jobs), robot, false)) && robot in robots
        && Named(jobs, robots)
      ensures Idle() && Indexed(jobs, heldBy) && InStep(w, {}, {} + {robot})
    {
      hide StillAgrees, InStep, Indexed, AbandonAll, JobsOfRobot, SeqsDistinct, Idle;
      var ids := JobsOf(robot, false);
      RequeueAll(ids, None, {} + {robot}, w);
    }

    /** A partial heartbeat: what it does not say stays as the registry has it. */
    method UpdateRobot(u: RobotUpdate, now: Time)
      requires Valid() && u.id != ""
      modifies this, store
      ensures Valid() && KeepsAccounts() && WritesThrough()
      ensures Mem() == Upsert(old(Mem()), Merged(old(robots), u), u.available.Some?, now)
      ensures u.id in robots && SaysOnly(old(robots), u, robots[u.id], now)
      ensures Takes(Operation.UpsertRobot(Merged(old(robots), u), u.available.Some?, now))
    {
      hide Steady, Accounted, Indexed, Agrees, SameRecords, Upsert, Apply, Writes, Idle;
      UpsertRobot(Merged(robots, u), u.available.Some?, now);
    }

    /** A robot is forgotten, unless a job in flight still names it. */
    method RemoveRobot(robot: RobotId) returns (wrong: Option<Error>)
      requires Valid()
      modifies this, store
      ensures Valid() && KeepsAccounts() && WritesThrough()
      ensures var deleted := !store.forgets || !store.fails(old(store.disk.writes));
        && Mem() == Remove(old(Mem()), robot, deleted) && wrong == RemoveError(old(Mem()), robot, deleted)
        && RemoveAnswer(old(Mem()), robot, deleted, wrong)
      ensures Mem() == if wrong.None? then old(Mem()).(robots := old(robots) - {robot}) else old(Mem())
      ensures Takes(Operation.RemoveRobot(robot, !store.forgets || !store.fails(old(store.disk.writes))))
    {
      hide Steady, Accounted, Agrees, SameRecords, Indexed, Healthy, Core, HeldInFlight, SeqsDistinct, Through, Apply,
        Writes, RemoveAnswer;
      SteadyKeys(Mem());
      RemoveKeepsPromise(Mem(), robot, !store.forgets || !store.fails(store.disk.writes));
      RemoveSteps(store.Kind(), Mem(), store.disk, robot);
      RemoveKeeps(Mem(), robot, !store.forgets || !store.fails(store.disk.writes));
      SteadyNames(Mem());
      if robot !in robots {
        return Some(UnknownRobot);
      }
      var held := HoldsWork(robot);
      if held {
        return Some(RobotBusy);
      }
      var deleted := Forget(robot);
      return if deleted then None else Some(StoreFailed);
    }

    method HoldsWork(robot: RobotId) returns (some: bool)
      requires Indexed(jobs, heldBy) && robot != ""
      modifies this`heldBy
      ensures Indexed(jobs, heldBy) && some == HeldInFlight(jobs, robot)
    {
      hide Indexed, HeldInFlight;
      var held := JobsHeldBy(robot);
      HeldInFlightMeans(jobs, robot, held);
      some := exists id :: id in held && jobs[id].status.InFlight();
    }

    /** The store forgets first, when it can: a failure leaves everything as it was. */
    method Forget(robot: RobotId) returns (deleted: bool)
      modifies this`robots, store
      ensures deleted == (!store.forgets || !store.fails(old(store.disk.writes))) && WritesThrough()
      ensures Mem() == if deleted then old(Mem()).(robots := old(robots) - {robot}) else old(Mem())
      ensures store.disk == if !store.forgets then old(store.disk)
        else Tried(if deleted then old(store.disk).(robots := old(store.disk).robots - {robot}) else old(store.disk))
    {
      hide Agrees, SameRecords, Healthy;
      deleted := true;
      if store.forgets {
        deleted := store.DeleteRobot(robot);
      }
      RemoveAgrees(this, old(store.disk), robot, deleted);
      if deleted {
        robots := robots - {robot};
      }
    }

    // ---- The sweep over silent robots ----

    /** Assigned jobs of silent robots become unknown, or go back to the queue when replanning on
        silence is on, or wait for a confirmed stop when their robot can give one. */
    method DetectStale(timeout: Duration, now: Time) returns (r: SweepResult)
      requires Valid()
      modifies this, store
      ensures Valid() && KeepsAccounts() && WritesThrough()
      ensures Mem() == Sweep(old(Mem()), timeout, now) && r == SweepReport(old(Mem()), timeout, now)
      ensures SweepPromise(old(Mem()), timeout, now, Mem(), r)
      ensures Takes(Operation.DetectStale(timeout, now))
    {
      hide Steady, Accounted, StillAgrees, Agrees, SameRecords, InStep, Indexed, Healthy, Core, SeqsDistinct,
        AbandonAll, MarkAllUnknown, DecideAll, Deciding, StaleSet, BackSet, Queue, Idle, Apply, Writes, SweepPromise;
      SteadyKeys(Mem());
      SteadyFacts(Mem());
      SweepKeepsPromise(Mem(), timeout, now);
      SweepSteps(store.Kind(), Mem(), store.disk, timeout, now);
      SweepKeeps(Mem(), timeout, now);
      SteadyNames(Mem());
      ghost var w := Start();
      BeginInStep(w, this);
      var silent := SplitAssigned(timeout, now);
      var stale := Sorted(jobs, BySubmission, silent);
      StaleIsListed(jobs, silent, stale);
      if cfg.replan.enabled && cfg.replan.onStale {
        r := Resolve(stale, now, w);
      } else {
        MarkUnknownLocked(stale, w);
        r := SweepResult(stale, [], []);
      }
      EndInStep(w, this);
    }

    /** The assigned jobs of silent robots; a stop request for a job whose robot is back is withdrawn. */
    method SplitAssigned(timeout: Duration, now: Time) returns (silent: set<JobId>)
      modifies this`stopReq
      ensures silent == StaleSet(old(Mem()), timeout, now) && silent <= jobs.Keys
      ensures Mem() == Withdrawals(old(Mem()), timeout, now)
    {
      hide IsSilent;
      silent := {};
      ghost var back: set<JobId> := {};
      var todo := jobs.Keys;
      while todo != {}
        invariant todo <= jobs.Keys && stopReq == old(stopReq) - back
        invariant silent == set id | id in StaleSet(old(Mem()), timeout, now) && id !in todo
        invariant back == set id | id in BackSet(old(Mem()), timeout, now) && id !in todo
      {
        var id :| id in todo;
        todo := todo - {id};
        if jobs[id].status == Assigned && jobs[id].robot in robots {
          if IsSilent(robots[jobs[id].robot], timeout, now) {
            silent := silent + {id};
          } else {
            stopReq := stopReq - {id};
            back := back + {id};
          }
        }
      }
    }

    method Resolve(stale: seq<JobId>, now: Time, ghost w: Watch) returns (r: SweepResult)
      requires Idle() && Named(jobs, robots) && Indexed(jobs, heldBy) && InStep(w, {}, {})
      requires Distinct(stale) && forall id :: id in stale ==> id in jobs
      modifies this`jobs, this`robots, this`stopReq, this`history, this`batching, this`pendingJobs, this`pendingRobots,
        store
      ensures r == SweepResult(Deciding(old(Mem()), stale, now, CallUnknown),
        Deciding(old(Mem()), stale, now, SendBack), Deciding(old(Mem()), stale, now, AskNow))
      ensures Mem() == MarkAllUnknown(AbandonAll(DecideAll(old(Mem()), stale, now), r.requeued), r.unknown)
      ensures Idle() && Indexed(jobs, heldBy) && InStep(w, {}, {})
    {
      hide StillAgrees, InStep, Indexed, AbandonAll, MarkAllUnknown, DecideAll, Deciding, Idle;
      r := DecideStops(stale, now);
      NothingToRequeue(Mem());
      if |r.requeued| > 0 {
        RequeueAll(r.requeued, None, {}, w);
      }
      MarkUnknownLocked(r.unknown, w);
    }

    /** The decision for each silent job in turn; what one decision records does not touch another. */
    method DecideStops(stale: seq<JobId>, now: Time) returns (r: SweepResult)
      requires Distinct(stale) && forall id :: id in stale ==> id in jobs
      modifies this`stopReq, this`history
      ensures r == SweepResult(Deciding(old(Mem()), stale, now, CallUnknown),
        Deciding(old(Mem()), stale, now, SendBack), Deciding(old(Mem()), stale, now, AskNow))
      ensures Mem() == DecideAll(old(Mem()), stale, now)
      ensures forall id :: id in r.unknown || id in r.requeued ==> id in stale
    {
      hide DecideAll, Deciding, StopDecision, Decide, Distinct, Sifted, Onto, Noted;
      r := SweepResult([], [], []);
      DecideNothing(Mem(), stale, now);
      for i := 0 to |stale|
        invariant jobs == old(jobs)
        invariant DecideAll(old(Mem()), stale, now) == DecideAll(Mem(), stale[i..], now)
        invariant Sifted(old(Mem()), stale, now) == Onto(r, Sifted(Mem(), stale[i..], now))
      {
        var id := stale[i];
        assert id in stale;
        DecideNext(Mem(), stale, i, now, r);
        var d := DecideStop(id, now);
        NotedIs(r, id, d);
        match d {
          case SendBack => r := r.(requeued := r.requeued + [id]);
          case AskNow => r := r.(stopRequested := r.stopRequested + [id]);
          case CallUnknown => r := r.(unknown := r.unknown + [id]);
          case KeepWaiting =>
        }
      }
      DecideNoMore(Mem(), stale, now, r);
      SiftedIs(old(Mem()), stale, now);
    }

    /** What to do with the assigned job of a silent robot. */
    method DecideStop(id: JobId, now: Time) returns (d: Decision)
      requires id in jobs
      modifies this`stopReq, this`history
      ensures d == StopDecision(old(Mem()), id, now) && Mem() == Decide(old(Mem()), id, now)
    {
      var j := jobs[id];
      if j.robot !in robots || !robots[j.robot].stopCapable {
        return SendBack;
      }
      if id !in stopReq || stopReq[id].robot != j.robot || stopReq[id].attempt != j.attempt {
        // none, or one of an earlier assignment of this job
        stopReq := stopReq[id := StopRequest(j.robot, j.attempt, now, now + AckTimeout(cfg), false)];
        history := history + [Asked(id, j.robot, j.attempt, now, now + AckTimeout(cfg))];
        return AskNow;
      }
      if now < stopReq[id].timeoutAt {
        return KeepWaiting;
      }
      stopReq := stopReq[id := stopReq[id].(expired := true)];
      return if cfg.replan.allowUnconfirmed then SendBack else CallUnknown;
    }

    method MarkUnknownLocked(ids: seq<JobId>, ghost w: Watch)
      requires Idle() && Named(jobs, robots) && Indexed(jobs, heldBy) && InStep(w, {}, {})
        && forall id :: id in ids ==> id in jobs
      modifies this`jobs, this`history, this`batching, this`pendingJobs, this`pendingRobots, store
      ensures Mem() == MarkAllUnknown(old(Mem()), ids) && Idle() && Indexed(jobs, heldBy) && InStep(w, {}, {})
    {
      hide InStep, StillAgrees, Indexed, MarkUnknown, MarkAllUnknown, Idle, Named;
      if |ids| == 0 {
        MarkNoMore(Mem(), ids);
        assert ids == ids[|ids|..];
        return;
      }
      IdleMeans(this);
      BeginBatch(w, {}, {});
      for i := 0 to |ids|
        invariant batching && Named(jobs, robots) && Indexed(jobs, heldBy) && InStep(w, {}, {})
        invariant pendingJobs <= jobs.Keys && pendingRobots <= robots.Keys && jobs.Keys == old(jobs).Keys
        invariant MarkAllUnknown(Mem(), ids[i..]) == MarkAllUnknown(old(Mem()), ids)
      {
        MarkNext(Mem(), ids, i);
        NamedAt(jobs, robots, ids[i]);
        EndJob(ids[i], jobs[ids[i]].(status := Status.Unknown),
          Silent(ids[i], jobs[ids[i]].robot, jobs[ids[i]].attempt), w);
      }
      MarkNoMore(Mem(), ids);
      var _ := CommitBatch(w, {});
    }

    /** The open stop requests whose job is still in flight on the robot they name, in the order of their
        jobs. A confirmation is accepted exactly when its request is listed and of the present attempt. */
    method StopRequests() returns (out: seq<OpenRequest>)
      requires Valid()
      ensures forall i, k :: 0 <= i < k < |out| ==> Before(out[i].job, out[k].job)
      ensures forall i :: 0 <= i < |out| ==>
        var r := out[i];
        && Listed(Mem(), r.robot, r.job)
        && r.requestedAt == Millis(stopReq[r.job].at) && r.expired == stopReq[r.job].expired
      ensures forall robot, id :: Listed(Mem(), robot, id) ==>
        exists i :: 0 <= i < |out| && out[i].job == id && out[i].robot == robot
      ensures forall robot, id :: AckError(Mem(), robot, id).None? ==>
        Listed(Mem(), robot, id) && stopReq[id].attempt == jobs[id].attempt
    {
      hide Steady, Accounted, Indexed, Before, AckError, Status.InFlight;
      AcceptedAreListed(Mem());
      var q := InNameOrder(set id | id in stopReq && id in jobs && jobs[id].status.InFlight()
        && jobs[id].robot == stopReq[id].robot);
      out := [];
      for i := 0 to |q|
        invariant |out| == i && forall k :: 0 <= k < i ==> q[k] in stopReq && out[k] == Listing(stopReq, q[k])
      {
        assert q[i] in q;
        out := out + [Listing(stopReq, q[i])];
      }
      forall robot, id | Listed(Mem(), robot, id)
        ensures exists i :: 0 <= i < |out| && out[i].job == id && out[i].robot == robot {
        assert id in q;
        var i :| 0 <= i < |q| && q[i] == id;
        assert out[i].job == id;
      }
      forall i | 0 <= i < |out| ensures Listed(Mem(), out[i].robot, out[i].job) {
        assert q[i] in q;
      }
    }

    /** Why each pending job has no robot now. */
    method WaitingJobs(now: Time) returns (out: seq<Waiting.WaitingJob>)
      requires Valid()
      ensures |out| == |Matching.DispatchQueue(Mem())|
      ensures forall i :: 0 <= i < |out| ==>
        && out[i].job == Matching.DispatchQueue(Mem())[i] && out[i].job in jobs
        && out[i].priority == jobs[out[i].job].priority && out[i].tool == jobs[out[i].job].tool
        && Waiting.Explains(Mem(), jobs[out[i].job], now, out[i].reason)
        && Waiting.SaysWhy(Mem(), jobs[out[i].job], now, out[i].reason)
      ensures forall id :: id in jobs && jobs[id].status == Pending <==> exists i :: 0 <= i < |out| && out[i].job == id
      ensures forall i, k :: 0 <= i < k < |out| ==> GoesBefore(jobs[out[i].job], jobs[out[k].job])
    {
      hide Steady, Accounted, Indexed, Waiting.Explains, Waiting.SaysWhy, GoesBefore;
      SteadyFacts(Mem());
      out := Waiting.WaitingJobs(Mem(), now);
    }

    /** When every unfinished job starts and ends, or why there is no estimate. */
    method QueueEta(d: Planner.DurationModel, now: Time)
      returns (plan: Planner.Estimates, order: seq<JobId>, drain: int)
      requires Valid()
      ensures Planner.Feasible(Mem(), d, now, plan) && Planner.LaidOut(Mem(), d, now, plan)
      ensures Planner.EstimatesSay(Mem(), d, now, plan)
      ensures Millis(now) > 0 ==> Promptness.AllPrompt(Mem(), now, plan)
      ensures (forall id :: id in order <==> id in plan) && Distinct(order)
      ensures exists lost ::
        order == Queue(jobs, BySubmission, Planner.AtWork(jobs)) + lost + Queue(jobs, ByPriority,
        Planner.AllQueued(jobs))
      ensures drain >= 0 && forall id :: id in plan && plan[id].estimated ==> plan[id].end <= drain
      ensures drain > 0 ==> exists id :: id in plan && plan[id].estimated && plan[id].end == drain
    {
      hide Steady, Accounted, Indexed, Planner.Feasible, Planner.LaidOut, Planner.EstimatesSay, Queue, Planner.AtWork,
        Planner.AllQueued, Promptness.AllPrompt, Millis;
      SteadyFacts(Mem());
      plan, order := Planner.Plan(Mem(), d, now);
      if Millis(now) > 0 { Promptness.NoTimeIsWasted(Mem(), d, now, plan); }
      drain := Planner.Drain(plan, order);
    }

    // ---- Dispatch ----

    /** One scheduling pass. */
    method DispatchOnce(now: Time) returns (out: seq<Assignment>)
      requires Valid()
      modifies this, store
      ensures Valid() && KeepsAccounts() && WritesThrough()
      ensures var p := Dispatch(old(Mem()), old(store.disk), store.fails, now);
        Mem() == p.mem && store.disk == p.disk && out == p.out && store.trail == old(store.trail) + p.trail
      ensures HandedOut(old(Mem()), Mem(), now, out) && InOrder(old(jobs), out)
      ensures Takes(Operation.DispatchOnce(old(store.disk), store.fails, now))
    {
      hide Steady, Accounted, Agrees, SameRecords, Indexed, Healthy, Core, SeqsDistinct, Offer, OfferAll, Idle, Queue,
        Named, IsQueue, Apply, Writes, HandedOut, InOrder;
      SteadyKeys(Mem());
      SteadyFacts(Mem());
      DispatchHandsOut(Mem(), store.disk, store.fails, now);
      DispatchSteps(store.Kind(), Mem(), store.disk, now);
      DispatchKeeps(Mem(), store.disk, store.fails, now);
      DispatchAgrees(this, now);
      SteadyNames(Mem());
      var q := InDispatchOrder();
      out := OfferInOrder(q, now);
    }

    /** The pending jobs, highest priority first, oldest first among equals. */
    method InDispatchOrder() returns (q: seq<JobId>)
      requires Valid()
      ensures q == Queue(jobs, ByPriority, PendingSet(jobs)) && Distinct(q)
      ensures forall k :: 0 <= k < |q| ==> q[k] in jobs && jobs[q[k]].status == Pending && jobs[q[k]].robot == ""
    {
      hide Steady, Accounted, Indexed, Idle;
      SteadyNames(Mem());
      var eligible := set id | id in jobs && jobs[id].status == Pending;
      q := Sorted(jobs, ByPriority, eligible);
      PendingInCore(Mem(), q);
    }

    method OfferInOrder(q: seq<JobId>, now: Time) returns (out: seq<Assignment>)
      requires Idle() && Indexed(jobs, heldBy) && Named(jobs, robots) && Distinct(q)
      requires forall k :: 0 <= k < |q| ==> q[k] in jobs && jobs[q[k]].status == Pending && jobs[q[k]].robot == ""
      modifies this`jobs, this`robots, this`heldBy, this`history, this`pendingJobs, this`pendingRobots, store
      ensures Idle() && Indexed(jobs, heldBy)
      ensures var p := OfferAll(Pass(old(Mem()), old(store.disk), [], []), store.fails, q, now);
        Mem() == p.mem && store.disk == p.disk && out == p.out && store.trail == old(store.trail) + p.trail
    {
      hide Indexed, Offer, OfferAll, Idle, Named;
      ghost var start := Pass(Mem(), store.disk, [], []);
      ghost var p := start;
      out := [];
      PassBegins(start, store.fails, q, now);
      for i := 0 to |q|
        invariant Idle() && Indexed(jobs, heldBy) && Named(jobs, robots)
        invariant jobs.Keys == old(jobs).Keys && forall k :: i <= k < |q| ==>
          q[k] in jobs && jobs[q[k]] == old(jobs)[q[k]]
        invariant p == OfferAll(start, store.fails, q[..i], now)
        invariant p.mem == Mem() && p.disk == store.disk && p.out == out && store.trail == old(store.trail) + p.trail
      {
        PassNext(start, store.fails, q, i, now);
        var given := OfferJob(q[i], now, p, old(store.trail));
        p := Offer(p, store.fails, q[i], now);
        out := if given.Some? then out + [given.value] else out;
      }
      assert q[..|q|] == q;
    }

    /** One job is offered to its best robot. */
    method OfferJob(id: JobId, now: Time, ghost p: Pass, ghost base: seq<Disk>) returns (given: Option<Assignment>)
      requires Idle() && Indexed(jobs, heldBy) && Named(jobs, robots) && id in jobs && jobs[id].status == Pending
        && jobs[id].robot == ""
      requires p.mem == Mem() && p.disk == store.disk && store.trail == base + p.trail
      modifies this`jobs, this`robots, this`heldBy, this`history, this`pendingJobs, this`pendingRobots, store
      ensures var p' := Offer(p, store.fails, id, now);
        && Mem() == p'.mem && store.disk == p'.disk && store.trail == base + p'.trail
        && p'.out == if given.Some? then p.out + [given.value] else p.out
      ensures Idle() && Indexed(jobs, heldBy) && Named(jobs, robots)
      ensures jobs.Keys == old(jobs).Keys && forall x :: x in jobs && x != id ==> jobs[x] == old(jobs)[x]
    {
      hide Indexed, Best, Prefers, Eligible, OfferTo, Idle;
      var best := BestRobotFor(Mem(), jobs[id], now);
      if best.None? {
        return None;
      }
      EligibleIsAvailable(Mem(), robots[best.value], jobs[id], now);
      given := OfferToRobot(id, best.value, now, p, base);
    }

    /** The robot is saved first, as unavailable; only when that succeeded does the job become assigned,
        and only when the job is saved too is it kept so. Any failure puts everything back. */
    method OfferToRobot(id: JobId, r: RobotId, now: Time, ghost p: Pass, ghost base: seq<Disk>)
      returns (given: Option<Assignment>)
      requires Idle() && Indexed(jobs, heldBy) && Named(jobs, robots)
      requires id in jobs && jobs[id].status == Pending && jobs[id].robot == "" && r in robots && robots[r].available
      requires p.mem == Mem() && p.disk == store.disk && store.trail == base + p.trail
      modifies this`jobs, this`robots, this`heldBy, this`history, this`pendingJobs, this`pendingRobots, store
      ensures var p' := OfferTo(p, store.fails, id, r, now);
        && Mem() == p'.mem && store.disk == p'.disk && store.trail == base + p'.trail
        && p'.out == if given.Some? then p.out + [given.value] else p.out
      ensures Idle() && Indexed(jobs, heldBy) && Named(jobs, robots)
      ensures jobs.Keys == old(jobs).Keys && forall x :: x in jobs && x != id ==> jobs[x] == old(jobs)[x]
    {
      hide Indexed, OfferTo, Give, GivenJob, Storage.SaveJob, Storage.SaveRobot, Named;
      OfferToCases(p, store.fails, id, r, now);
      NamedRobots(jobs, robots, id, r, now);
      ghost var d := store.disk;
      var reserved := Reserve(r);
      if !reserved {
        return None;
      }
      assert store.disk == Storage.SaveRobot(d, store.fails, p.mem.robots[r].(available := false));
      var saved := Assign(id, r, now);
      if !saved {
        Unreserve(r);
        return None;
      }
      return Some(Assignment(id, r));
    }

    /** The rollback: the robot is free again, in memory and in the store. */
    method Unreserve(r: RobotId)
      requires r in robots
      modifies this`robots, store
      ensures robots == old(robots)[r := old(robots)[r].(available := true)]
      ensures store.disk == Storage.SaveRobot(old(store.disk), store.fails, robots[r])
        && store.trail == old(store.trail) + [store.disk]
    {
      robots := robots[r := robots[r].(available := true)];
      var _ := store.SaveRobot(robots[r]);
    }

    method Assign(id: JobId, r: RobotId, now: Time) returns (saved: bool)
      requires Indexed(jobs, heldBy) && id in jobs && jobs[id].status == Pending && jobs[id].robot == ""
        && jobs[id].id == id
      modifies this`jobs, this`heldBy, this`history, store
      ensures saved == !store.fails(old(store.disk.writes)) && Indexed(jobs, heldBy)
      ensures jobs == if saved then old(jobs)[id := GivenJob(old(jobs)[id], r, now)] else old(jobs)
      ensures store.disk.writes == old(store.disk.writes) + 1
      ensures history == if saved then old(history) + [Given(id, r, old(jobs)[id].attempt + 1)] else old(history)
      ensures store.disk == Storage.SaveJob(old(store.disk), store.fails, GivenJob(old(jobs)[id], r, now))
      ensures store.trail == old(store.trail) + [store.disk]
    {
      hide Indexed, NoteAssigned;
      var before := jobs[id].assignedAt;
      jobs := jobs[id := GivenJob(jobs[id], r, now)];
      heldBy := NoteAssigned(heldBy, jobs[id]);
      IndexedWith(old(jobs), old(heldBy), jobs, heldBy, id);
      IndexedMore(old(jobs), old(heldBy), heldBy);
      saved := store.SaveJob(jobs[id]);
      if saved {
        history := history + [Given(id, r, jobs[id].attempt)];
      } else {
        jobs := jobs[id := jobs[id].(status := Pending, robot := "", attempt := jobs[id].attempt - 1,
          assignedAt := before)];
        assert jobs == old(jobs);
      }
    }

    method Reserve(r: RobotId) returns (reserved: bool)
      requires r in robots && robots[r].available
      modifies this`robots, store
      ensures reserved == !store.fails(old(store.disk.writes))
      ensures robots == if reserved then old(robots)[r := old(robots)[r].(available := false)] else old(robots)
      ensures store.disk.writes == old(store.disk.writes) + 1
      ensures store.disk == Storage.SaveRobot(old(store.disk), store.fails, old(robots)[r].(available := false))
      ensures store.trail == old(store.trail) + [store.disk]
    {
      robots := robots[r := robots[r].(available := false)];
      reserved := store.SaveRobot(robots[r]);
      if !reserved {
        robots := robots[r := robots[r].(available := true)];
        assert robots == old(robots);
      }
    }

    // ---- The archive, settings and tool answers ----

    /** Old finished jobs leave the queue, the store first; the ids that left are returned. */
    method ArchiveFinished(now: Time) returns (r: Outcome<set<JobId>>)
      requires Valid()
      modifies this, store
      ensures Valid() && KeepsAccounts() && WritesThrough()
      ensures var ids := Departing(old(jobs), Cutoff(old(cfg), now));
        var off := !store.archives || old(cfg).archiveAfter <= 0 || ids == {};
        && r == (if off then Ok({}) else if store.fails(old(store.disk.writes)) then Err(StoreFailed) else Ok(ids))
        && Mem() == if off then old(Mem()) else Archiving.ArchiveFinished(old(Mem()), now, r.Ok?)
      ensures ArchivePromise(old(Mem()), now, store.archives, !store.fails(old(store.disk.writes)), Mem(), r)
      ensures Takes(Operation.ArchiveOld(now, store.archives && !store.fails(old(store.disk.writes))))
    {
      hide Steady, Accounted, Agrees, SameRecords, Indexed, Healthy, Core, Departing, Apply, Writes, Through,
        WithoutJobs, ArchivePromise;
      SteadyKeys(Mem());
      ghost var m, saves := Mem(), !store.fails(store.disk.writes);
      ArchivePromised(m, now, store.archives, saves);
      ArchiveSteps(store.Kind(), Mem(), store.disk, now);
      if !store.archives || cfg.archiveAfter <= 0 {
        return Ok({});
      }
      var ids := Shrink(jobs, Cutoff(cfg, now));
      if ids == {} {
        return Ok({});
      }
      ArchiveKeeps(Mem(), now, !store.fails(store.disk.writes));
      var saved := store.ArchiveJobs(ids);
      ArchiveAgrees(this, old(store.disk), ids, saved);
      if saved {
        Depart(ids);
      }
      r := if saved then Ok(ids) else Err(StoreFailed);
    }

    method Depart(ids: set<JobId>)
      requires Indexed(jobs, heldBy)
      modifies this`jobs, this`stopReq, this`dedupIndex
      ensures Mem() == WithoutJobs(old(Mem()), ids) && Indexed(jobs, heldBy)
    {
      ghost var m := Mem();
      var gone := map k | k in dedupIndex && dedupIndex[k] in ids && dedupIndex[k] in jobs
        && jobs[dedupIndex[k]].key == k :: true;
      dedupIndex := dedupIndex - gone.Keys;
      stopReq := stopReq - ids;
      jobs := jobs - ids;
      assert dedupIndex == WithoutJobs(m, ids).dedup;
    }

    method SetConfig(c: Config)
      requires Valid()
      modifies this`cfg, this`seen
      ensures Valid() && KeepsAccounts() && Mem() == Configure(old(Mem()), c)
      ensures cfg == c && seen == if c.toolCheck.enabled then old(seen) else map[]
      ensures WritesThrough()
      ensures Takes(Operation.SetConfig(c))
    {
      hide Steady, Accounted, Indexed, Agrees, SameRecords, Writes, Healthy;
      SteadyKeys(Mem());
      QuietSteps(store.Kind(), Mem(), store.disk, Operation.SetConfig(c));
      ConfigKeeps(Mem(), c);
      cfg := c;
      seen := if c.toolCheck.enabled then seen else map[];
    }

    /** The first half of asking the controllers: whom to ask. The lock is released afterwards. */
    method RobotsToAsk() returns (ids: set<RobotId>)
      ensures ids <= robots.Keys && (!cfg.toolCheck.enabled ==> ids == {})
      ensures cfg.toolCheck.enabled ==> forall r, answer, j, now :: AnswerSuits(Mem(), r, answer, j, now) ==> r in ids
      ensures forall r :: r in ids ==> robots[r].available
    {
      hide CarriesTool, HeardFrom, ToolConfirmed;
      ids := {};
      if !cfg.toolCheck.enabled {
        return;
      }
      var todo := robots.Keys;
      while todo != {}
        invariant todo <= robots.Keys && ids <= robots.Keys
        invariant forall r :: r in robots && r !in todo ==> (r in ids <==> robots[r].available)
        invariant ids !! todo
      {
        var r :| r in todo;
        todo := todo - {r};
        if robots[r].available {
          ids := ids + {r};
        }
      }
    }

    /** The second half, with the answers that came; the registry may have changed in between. */
    method ConfirmTools(asked: set<RobotId>, answers: map<RobotId, string>, now: Time) returns (confirmed: nat)
      requires Valid() && answers.Keys <= asked
      modifies this`seen
      ensures Valid() && KeepsAccounts() && Mem() == RecordTools(old(Mem()), asked, answers, now)
      ensures ToolsPromise(old(Mem()), asked, answers, now, Mem())
      ensures confirmed == if cfg.toolCheck.enabled then |answers| else 0
      ensures WritesThrough()
      ensures Takes(Operation.ConfirmTools(asked, answers, now))
    {
      hide Steady, Accounted, Indexed, RecordTools, SeenAfter, Agrees, SameRecords, Writes, ToolsPromise;
      SteadyKeys(Mem());
      ToolsKeepPromise(Mem(), asked, answers, now);
      QuietSteps(store.Kind(), Mem(), store.disk, Operation.ConfirmTools(asked, answers, now));
      ToolsOff(Mem(), asked, answers, now);
      ToolsKeep(Mem(), asked, answers, now);
      if !cfg.toolCheck.enabled {
        return 0;
      }
      AnswersRecorded(Mem(), asked, answers, now);
      seen := SeenAfter(seen, robots, asked, answers, now);
      confirmed := |answers|;
    }

    /** One job changes, and the history says why. */
    method Record(id: JobId, j: Job, e: Entry)
      modifies this`jobs, this`history
      ensures Mem() == old(Mem()).(jobs := old(jobs)[id := j], log := old(history) + [e])
    {
      jobs := jobs[id := j];
      history := history + [e];
    }
  }

  /** With this answer of its controller the robot could be given the job. */
  ghost predicate AnswerSuits(m: Memory, r: RobotId, answer: ToolSeen, j: Job, now: Time) {
    r in m.robots && Eligible(m.(seen := m.seen[r := answer]), m.robots[r], j, now)
  }

  /** A stop request as it is listed. */
  datatype OpenRequest = OpenRequest(job: JobId, robot: RobotId, requestedAt: int, expired: bool)

  function Listing(requests: map<JobId, StopRequest>, id: JobId): OpenRequest
    requires id in requests
  {
    OpenRequest(id, requests[id].robot, Millis(requests[id].at), requests[id].expired)
  }

  lemma AcceptedAreListed(m: Memory)
    requires Steady(m)
    ensures forall robot, id :: AckError(m, robot, id).None? ==>
      Listed(m, robot, id) && m.stopReq[id].attempt == m.jobs[id].attempt
  {
    hide LivesOk, LoadsOk, RequestsOk, Core, AckError;
    forall robot, id | AckError(m, robot, id).None?
      ensures Listed(m, robot, id) && m.stopReq[id].attempt == m.jobs[id].attempt {
      AcceptedMeansOn(m, robot, id);
      ListedRequestsAreAcceptedIfFresh(m, robot, id);
    }
  }

  lemma AcceptedMeansOn(m: Memory, robot: RobotId, id: JobId)
    requires AckError(m, robot, id).None?
    ensures m.cfg.replan.enabled
  {
  }

  method FirstByName(s: set<string>) returns (first: string)
    requires s != {}
    ensures first in s && forall x :: x in s && x != first ==> Before(first, x)
  {
    hide Before;
    first :| first in s;
    var rest := s - {first};
    while rest != {}
      invariant rest <= s && first in s
      invariant forall x :: x in s - rest && x != first ==> Before(first, x)
    {
      var x :| x in rest;
      BeforeTotal(first, x);
      if Before(x, first) {
        forall y | y in s - rest && y != first ensures Before(x, y) { BeforeTransitive(x, first, y); }
        first := x;
      }
      rest := rest - {x};
    }
  }

  method InNameOrder(s: set<string>) returns (q: seq<string>)
    ensures (forall x :: x in q <==> x in s) && forall i, k :: 0 <= i < k < |q| ==> Before(q[i], q[k])
  {
    hide Before;
    q := [];
    var rest := s;
    while rest != {}
      invariant rest <= s && forall x :: x in q <==> x in s - rest
      invariant forall x, y :: x in q && y in rest ==> Before(x, y)
      invariant forall i, k :: 0 <= i < k < |q| ==> Before(q[i], q[k])
    {
      var first := FirstByName(rest);
      assert forall i :: 0 <= i < |q| ==> q[i] in q;
      assert forall x :: x in q + [first] <==> x in q || x == first;
      q, rest := q + [first], rest - {first};
    }
  }

  /** Robots that were removed are forgotten, and those that were asked have the new answer or none. */
  function SeenAfter(seen: map<RobotId, ToolSeen>, robots: Robots, asked: set<RobotId>, answers: map<RobotId, string>,
    now: Time): map<RobotId, ToolSeen> {
    (seen - (set r | r in seen && r !in robots) - asked) + map r | r in answers :: ToolSeen(answers[r], now)
  }

  /** A partial registration or heartbeat. */
  datatype RobotUpdate = RobotUpdate(id: RobotId, location: Option<string>, tool: Option<string>,
    available: Option<bool>, stopCapable: Option<bool>)

  function Or<T>(o: Option<T>, otherwise: T): T { if o.Some? then o.value else otherwise }

  function Merged(robots: Robots, u: RobotUpdate): Declaration {
    var known := u.id in robots;
    Declaration(u.id,
      Or(u.location, if known then robots[u.id].location else ""),
      Or(u.tool, if known then robots[u.id].tool else ""),
      Or(u.available, false), 0,
      Or(u.stopCapable, known && robots[u.id].stopCapable))
  }

  /** What a partial heartbeat does not say stays as the registry had it, or is empty for a new robot. */
  predicate SaysOnly(robots: Robots, u: RobotUpdate, r: Robot, now: Time) {
    && r.heartbeat == Some(now)
    && (u.location.Some? ==> r.location == u.location.value)
    && (u.tool.Some? ==> r.tool == u.tool.value)
    && (u.stopCapable.Some? ==> r.stopCapable == u.stopCapable.value)
    && if u.id in robots then
         var was := robots[u.id];
         && r.id == was.id && r.load == was.load
         && (u.location.None? ==> r.location == was.location) && (u.tool.None? ==> r.tool == was.tool)
         && (u.stopCapable.None? ==> r.stopCapable == was.stopCapable)
         && (u.available.None? ==> r.available == was.available && r.selfReported == was.selfReported)
       else
         && r.id == u.id && r.load == 0 && !r.selfReported
         && (u.location.None? ==> r.location == "") && (u.tool.None? ==> r.tool == "")
         && r.stopCapable == (u.stopCapable == Some(true)) && r.available == (u.available == Some(true))
  }

  method AddProblem(jobs: Jobs, j: Job) returns (wrong: Option<Error>)
    ensures wrong == AddError(jobs, j)
  {
    hide ShapeOk, Blank, DepsKnown;
    var shaped := ShapeIsOk(j.id, j.deps);
    if Blank(j.id) || !shaped {
      return Some(InvalidJob);
    }
    if j.id in jobs {
      return Some(JobExists);
    }
    var known := AllKnown(jobs, j.deps);
    return if known then None else Some(UnknownDep);
  }

  method ShapeIsOk(id: JobId, deps: seq<JobId>) returns (ok: bool)
    ensures ok == ShapeOk(id, deps)
  {
    var met: set<JobId> := {};
    for i := 0 to |deps|
      invariant met == set k | 0 <= k < i :: deps[k]
      invariant ShapeOk(id, deps[..i])
    {
      assert forall k :: 0 <= k < i ==> deps[..i][k] == deps[k];
      if Blank(deps[i]) || deps[i] == id || deps[i] in met {
        return false;
      }
      met := met + {deps[i]};
      assert forall k :: 0 <= k < i + 1 ==> deps[..i + 1][k] == deps[k];
    }
    assert deps[..|deps|] == deps;
    return true;
  }

  method AllKnown(jobs: Jobs, deps: seq<JobId>) returns (known: bool)
    ensures known == DepsKnown(jobs, deps)
  {
    for i := 0 to |deps|
      invariant forall k :: 0 <= k < i ==> deps[k] in jobs
    {
      if deps[i] !in jobs {
        return false;
      }
    }
    return true;
  }

  const DEFAULT_ARCHIVE_AFTER: Duration := 30 * 24 * 60 * MINUTE

  /** The indexes and the counter a start rebuilds from the loaded jobs, in whatever order they come. */
  method Rebuilt(jobs: Jobs) returns (heldBy: map<RobotId, set<JobId>>, dedup: map<Key, JobId>, nextSeq: int)
    requires forall id :: id in jobs ==> jobs[id].id == id
    ensures Indexed(jobs, heldBy)
    ensures KeysLive(jobs, dedup) && KeysFound(jobs, dedup) && forall id :: id in jobs ==> jobs[id].seqNo < nextSeq
  {
    heldBy, dedup, nextSeq := map[], map[], 0;
    var todo := jobs.Keys;
    while todo != {}
      invariant todo <= jobs.Keys
      invariant forall id :: id in jobs && id !in todo && jobs[id].robot != "" ==>
        jobs[id].robot in heldBy && id in heldBy[jobs[id].robot]
      invariant forall k :: k in dedup ==> k != "" && dedup[k] in jobs && jobs[dedup[k]].key == k
      invariant forall id :: id in jobs && id !in todo && jobs[id].key != "" ==> jobs[id].key in dedup
      invariant forall id :: id in jobs && id !in todo ==> jobs[id].seqNo < nextSeq
    {
      var id :| id in todo;
      todo := todo - {id};
      var j := jobs[id];
      heldBy := NoteAssigned(heldBy, j);
      if j.key != "" {
        dedup := dedup[j.key := id];
      }
      if j.seqNo >= nextSeq {
        nextSeq := j.seqNo + 1;
      }
    }
  }

  lemma StartIs(m: Memory, d: Disk, op: Operation, exact: bool)
    requires Loads(m, d, op) && RecordsNamed(d.robots)
    ensures Agrees(d.jobs, d.robots, d, exact)
    ensures Steady(Loaded(m.log, d, op)) <==> StoreSound(d)
    ensures Accounted(m) && d.jobs.Keys == m.jobs.Keys ==> (Accounted(Loaded(m.log, d, op)) <==> TellsTheSame(m, d))
    ensures Steady(m) && Agrees(m.jobs, m.robots, d, exact) ==>
      StoreSound(d) && d.jobs == m.jobs && Keeps(m, Loaded(m.log, d, op))
  {
    hide Steady, Accounted, StoreSound, TellsTheSame, Loads;
    StartIsSteadyIffStoreIsSound(m, d, op);
    if Accounted(m) && d.jobs.Keys == m.jobs.Keys {
      AccountsSurviveIffStoriesAgree(m, d, op);
    }
    if Steady(m) && Agrees(m.jobs, m.robots, d, exact) {
      CleanStart(m, d, op, exact);
    }
  }

  // ---- What the operations need of the invariant ----

  lemma SteadyFacts(m: Memory)
    requires Steady(m)
    ensures Core(m) && SeqsDistinct(m.jobs) && Acyclic(m.jobs) && Named(m.jobs, m.robots) && KeysLive(m.jobs, m.dedup)
    ensures forall r :: r in m.robots ==> r != ""
  {
  }

  /** The answer to a new submission, without the note that it is new. */
  function JobAlone(r: Outcome<(Job, Submitted)>): Outcome<Job> {
    if r.Ok? then Ok(r.value.0) else Err(r.error)
  }

  lemma ArchivePromised(m: Memory, now: Time, can: bool, saves: bool)
    requires KeysLive(m.jobs, m.dedup)
    ensures var ids := Departing(m.jobs, Cutoff(m.cfg, now)); var off := !can || m.cfg.archiveAfter <= 0 || ids == {};
      ArchivePromise(m, now, can, saves,
        if off || !saves then m else WithoutJobs(m, ids),
        if off then Ok({}) else if saves then Ok(ids) else Err(StoreFailed))
  {
    var ids := Departing(m.jobs, Cutoff(m.cfg, now));
    var off := !can || m.cfg.archiveAfter <= 0 || ids == {};
    ArchiveKeepsPromise(m, now, can, saves, if off || !saves then m else WithoutJobs(m, ids),
      if off then Ok({}) else if saves then Ok(ids) else Err(StoreFailed));
    hide *;
  }

  lemma SavedIsFound(d: Disk, fails: Faults, j: Job)
    ensures !fails(d.writes) ==>
      var d' := Storage.SaveJob(d, fails, j); j.id in d'.jobs && d'.jobs[j.id] == j
  {
  }

  lemma AddKeeps(m: Memory, j: Job, now: Time, saved: bool)
    requires Steady(m) && j.robot == ""
    ensures Keeps(m, Add(m, j, now, saved))
  {
    hide Steady, Accounted, Add;
    OperationKeeps(m, Operation.AddJob(j, now, saved));
  }

  lemma ResubmitKeeps(m: Memory, id: JobId, j: Job, now: Time)
    requires Steady(m) && id in m.jobs && (m.jobs[id].status == Failed || m.jobs[id].status == Cancelled)
    requires DepsKnown(m.jobs, j.deps) && !FromRoots(m.jobs, j.deps, id)
    ensures Keeps(m, Resubmitted(m, id, j, now)) && Acyclic(m.jobs[id := RetriedJob(m, id, j, now)])
      && Named(m.jobs, m.robots)
  {
    hide LivesOk, LoadsOk, RequestsOk, Acyclic, FromRoots, Stable, Reserved, Verdict, Refreshed, Resubmitted;
    SteadyFacts(m);
    RetryGraph(m, id, j, now);
    MoveKeeps(m, Move.Resubmit(id, j, now));
  }

  lemma RetryGraph(m: Memory, id: JobId, j: Job, now: Time)
    requires Core(m) && id in m.jobs && DepsKnown(m.jobs, j.deps) && !FromRoots(m.jobs, j.deps, id)
    ensures Acyclic(m.jobs[id := RetriedJob(m, id, j, now)])
  {
    hide Stable, Reserved, RobotsOk, KeysLive, Ready, Held, JobsOk, Acyclic, DepsLive, FromRoots;
    RetryKeepsGraph(m.jobs, id, RetriedJob(m, id, j, now));
  }

  lemma IndexedAfterRefresh(jobs: Jobs, id: JobId, j: Job, heldBy: map<RobotId, set<JobId>>)
    requires Indexed(jobs, heldBy) && id in jobs && (j.robot == "" || j.robot == jobs[id].robot)
    ensures Indexed(Refreshed(jobs[id := j]), heldBy)
  {
    RefreshedLives(jobs, id, j);
    hide Refreshed;
  }

  lemma SteadyNames(m: Memory)
    requires Steady(m)
    ensures Named(m.jobs, m.robots) && SeqsDistinct(m.jobs) && forall r :: r in m.robots ==> r != ""
  {
  }

  lemma IdleMeans(e: Engine)
    ensures e.Idle() <==> !e.batching && e.pendingJobs == {} && e.pendingRobots == {}
  {
  }

  lemma RequeueKeeps(m: Memory, id: JobId, robot: RobotId)
    requires Steady(m)
    ensures Keeps(m, Requeue(m, id, robot))
  {
    hide Steady, Accounted, Requeue;
    OperationKeeps(m, Operation.RequeueJob(id, robot));
  }

  lemma ReplanKeeps(m: Memory, robot: RobotId)
    requires Steady(m)
    ensures Keeps(m, Operations.ReplanRobot(m, robot))
  {
    hide Steady, Accounted, Operations.ReplanRobot;
    OperationKeeps(m, Operation.ReplanFor(robot));
  }

  lemma AckKeeps(m: Memory, robot: RobotId, id: JobId)
    requires Steady(m)
    ensures Keeps(m, Operations.AckStop(m, robot, id))
  {
    hide Steady, Accounted, Operations.AckStop;
    OperationKeeps(m, Operation.Acknowledge(robot, id));
  }

  lemma RemoveKeeps(m: Memory, robot: RobotId, saved: bool)
    requires Steady(m)
    ensures Keeps(m, Remove(m, robot, saved))
  {
    hide Steady, Accounted, Remove;
    OperationKeeps(m, Operation.RemoveRobot(robot, saved));
  }

  lemma UpsertKeeps(m: Memory, d: Declaration, given: bool, now: Time)
    requires Steady(m) && d.id != ""
    ensures Keeps(m, Upsert(m, d, given, now))
  {
    hide Steady, Accounted, Upsert;
    OperationKeeps(m, Operation.UpsertRobot(d, given, now));
  }

  lemma FinishKeeps(m: Memory, id: JobId, success: bool, now: Time)
    requires Steady(m) && id in m.jobs && m.jobs[id].status.InFlight() && m.jobs[id].robot in m.robots
    ensures Keeps(m, Finish(m, id, success, now)) && Acyclic(m.jobs[id := EndedJob(m.jobs[id], success, now)])
    ensures Named(m.jobs, m.robots) && m.jobs[id].robot != ""
  {
    hide LivesOk, LoadsOk, RequestsOk, Acyclic, Stable, Reserved, Refreshed, Finish;
    SteadyNames(m);
    UpdateKeepsGraph(m.jobs, id, EndedJob(m.jobs[id], success, now));
    MoveKeeps(m, End(id, success, now));
  }

  lemma CancelKeeps(m: Memory, id: JobId, now: Time)
    requires Steady(m) && id in m.jobs && m.jobs[id].status.Waiting()
    ensures Keeps(m, Cancel(m, id, now)) && Acyclic(m.jobs[id := CancelledJob(m.jobs[id], now)])
      && Named(m.jobs, m.robots)
  {
    hide LivesOk, LoadsOk, RequestsOk, Acyclic, Stable, Reserved, Refreshed, Cancel;
    SteadyNames(m);
    UpdateKeepsGraph(m.jobs, id, CancelledJob(m.jobs[id], now));
    OperationKeeps(m, Operation.CancelJob(id, now));
  }

  /** The report in the order the engine works it off. */
  lemma FinishStepByStep(m: Memory, id: JobId, success: bool, now: Time)
    requires id in m.jobs && m.jobs[id].robot in m.robots
    ensures var j := m.jobs[id];
      var ended := m.jobs[id := EndedJob(j, success, now)];
      Finish(m, id, success, now) ==
        m.(jobs := Refreshed(ended),
          robots := m.robots[j.robot := Freed(ended, m.robots[j.robot].(load := m.robots[j.robot].load + 1))],
           log := m.log + [Finished(id, j.robot, j.attempt, success)])
  {
    hide Refreshed, Freed;
  }

  lemma IndexedSame(jobs: Jobs, id: JobId, j: Job, heldBy: map<RobotId, set<JobId>>)
    requires Indexed(jobs, heldBy) && id in jobs && (j.robot == "" || j.robot == jobs[id].robot)
    ensures Indexed(jobs[id := j], heldBy)
  {
  }

  lemma IndexedAfterRefreshed(jobs: Jobs, heldBy: map<RobotId, set<JobId>>)
    requires Indexed(jobs, heldBy)
    ensures Indexed(Refreshed(jobs), heldBy)
  {
    if Acyclic(jobs) {
      RefreshedIsStable(jobs);
    }
    hide Refreshed;
  }

  lemma HeldInFlightMeans(jobs: Jobs, robot: RobotId, held: set<JobId>)
    requires held == set id | id in jobs && jobs[id].robot == robot
    ensures HeldInFlight(jobs, robot) <==> exists id :: id in held && jobs[id].status.InFlight()
  {
  }

  lemma RemoveAgrees(e: Engine, before: Disk, robot: RobotId, gone: bool)
    requires e.store.disk.jobs == before.jobs
    requires e.store.disk.robots == if gone && e.store.forgets then before.robots - {robot} else before.robots
    ensures Agrees(e.jobs, e.robots, before, e.store.forgets) ==>
      Agrees(e.jobs, if gone then e.robots - {robot} else e.robots, e.store.disk, e.store.forgets)
  {
  }

  lemma SweepKeeps(m: Memory, timeout: Duration, now: Time)
    requires Steady(m)
    ensures Keeps(m, Sweep(m, timeout, now))
  {
    hide Steady, Accounted, Sweep;
    OperationKeeps(m, Operation.DetectStale(timeout, now));
  }

  lemma DispatchKeeps(m: Memory, disk: Disk, fails: Faults, now: Time)
    requires Steady(m)
    ensures Keeps(m, Dispatch(m, disk, fails, now).mem)
  {
    hide Steady, Accounted, Dispatch;
    OperationKeeps(m, Operation.DispatchOnce(disk, fails, now));
  }

  lemma ArchiveKeeps(m: Memory, now: Time, saved: bool)
    requires Steady(m)
    ensures Keeps(m, Archiving.ArchiveFinished(m, now, saved))
  {
    hide Steady, Accounted, Archiving.ArchiveFinished;
    OperationKeeps(m, Operation.ArchiveOld(now, saved));
  }

  lemma ConfigKeeps(m: Memory, cfg: Config)
    requires Steady(m)
    ensures Keeps(m, Configure(m, cfg))
  {
    hide Steady, Accounted, Configure;
    OperationKeeps(m, Operation.SetConfig(cfg));
  }

  lemma ToolsKeep(m: Memory, asked: set<RobotId>, answers: map<RobotId, string>, now: Time)
    requires Steady(m)
    ensures Keeps(m, RecordTools(m, asked, answers, now))
  {
    hide Steady, Accounted, RecordTools;
    OperationKeeps(m, Operation.ConfirmTools(asked, answers, now));
  }

  lemma StaleIsListed(jobs: Jobs, s: set<JobId>, q: seq<JobId>)
    requires IsQueue(jobs, BySubmission, s, q)
    ensures Distinct(q) && forall id :: id in q ==> id in jobs
  {
    QueueHasNoRepeats(jobs, BySubmission, s, q);
  }

  lemma NothingToRequeue(m: Memory)
    ensures AbandonAll(m, []) == m && MarkAllUnknown(m, []) == m
  {
  }

  /** The silent jobs, sifted by what is decided on each. */
  function Sifted(m: Memory, ids: seq<JobId>, now: Time): SweepResult {
    SweepResult(Deciding(m, ids, now, CallUnknown), Deciding(m, ids, now, SendBack), Deciding(m, ids, now, AskNow))
  }

  function Onto(r: SweepResult, more: SweepResult): SweepResult {
    SweepResult(r.unknown + more.unknown, r.requeued + more.requeued, r.stopRequested + more.stopRequested)
  }

  function Noted(r: SweepResult, id: JobId, d: Decision): SweepResult {
    SweepResult(
      if d == CallUnknown then r.unknown + [id] else r.unknown,
      if d == SendBack then r.requeued + [id] else r.requeued,
      if d == AskNow then r.stopRequested + [id] else r.stopRequested)
  }

  lemma NotedIs(r: SweepResult, id: JobId, d: Decision)
    ensures Noted(r, id, d) == match d
      case SendBack => r.(requeued := r.requeued + [id])
      case AskNow => r.(stopRequested := r.stopRequested + [id])
      case CallUnknown => r.(unknown := r.unknown + [id])
      case KeepWaiting => r
  {
  }

  lemma SiftedIs(m: Memory, ids: seq<JobId>, now: Time)
    ensures Sifted(m, ids, now) ==
      SweepResult(Deciding(m, ids, now, CallUnknown), Deciding(m, ids, now, SendBack), Deciding(m, ids, now, AskNow))
    ensures forall id :: id in Sifted(m, ids, now).unknown || id in Sifted(m, ids, now).requeued ==> id in ids
  {
  }

  lemma DecideNothing(m: Memory, ids: seq<JobId>, now: Time)
    ensures ids[0..] == ids && Onto(SweepResult([], [], []), Sifted(m, ids, now)) == Sifted(m, ids, now)
  {
    hide Deciding;
    assert ids[0..] == ids;
  }

  lemma DecideNext(m: Memory, ids: seq<JobId>, i: int, now: Time, r: SweepResult)
    requires 0 <= i < |ids| && ids[i] in m.jobs && Distinct(ids)
    ensures Decide(m, ids[i], now).jobs == m.jobs
    ensures DecideAll(m, ids[i..], now) == DecideAll(Decide(m, ids[i], now), ids[i + 1..], now)
    ensures Onto(r, Sifted(m, ids[i..], now)) ==
      Onto(Noted(r, ids[i], StopDecision(m, ids[i], now)), Sifted(Decide(m, ids[i], now), ids[i + 1..], now))
  {
    hide StopDecision, Decide, DecideAll, Deciding, Distinct, Onto, Noted;
    OneDecisionAtATime(m, ids[i], "", now);
    AllDecidedNext(m, ids, i, now);
    OneMoreDecided(m, ids, i, now, CallUnknown);
    OneMoreDecided(m, ids, i, now, SendBack);
    OneMoreDecided(m, ids, i, now, AskNow);
    OntoNext(r, Sifted(m, ids[i..], now), Sifted(Decide(m, ids[i], now), ids[i + 1..], now), ids[i],
      StopDecision(m, ids[i], now));
  }

  lemma AllDecidedNext(m: Memory, ids: seq<JobId>, i: int, now: Time)
    requires 0 <= i < |ids| && ids[i] in m.jobs
    ensures DecideAll(m, ids[i..], now) == DecideAll(Decide(m, ids[i], now), ids[i + 1..], now)
  {
    hide Decide;
    assert ids[i..][1..] == ids[i + 1..];
  }

  /** Appending the next decision to what is noted, or putting it before what is still to come. */
  lemma OntoNext(r: SweepResult, all: SweepResult, rest: SweepResult, id: JobId, d: Decision)
    requires all.unknown == (if d == CallUnknown then [id] else []) + rest.unknown
    requires all.requeued == (if d == SendBack then [id] else []) + rest.requeued
    requires all.stopRequested == (if d == AskNow then [id] else []) + rest.stopRequested
    ensures Onto(r, all) == Onto(Noted(r, id, d), rest)
  {
  }

  lemma OneMoreDecided(m: Memory, ids: seq<JobId>, i: int, now: Time, d: Decision)
    requires 0 <= i < |ids| && ids[i] in m.jobs && Distinct(ids)
    ensures Deciding(m, ids[i..], now, d) ==
            (if StopDecision(m, ids[i], now) == d then [ids[i]] else []) + Deciding(Decide(m, ids[i], now),
              ids[i + 1..], now, d)
  {
    hide StopDecision, Decide;
    assert ids[i..][1..] == ids[i + 1..];
    assert ids[i] !in ids[i + 1..];
    DecideLeavesOthers(m, ids[i], ids[i + 1..], now, d);
  }

  lemma {:induction false} DecideLeavesOthers(m: Memory, id: JobId, ids: seq<JobId>, now: Time, d: Decision)
    requires id in m.jobs && id !in ids
    ensures Deciding(Decide(m, id, now), ids, now, d) == Deciding(m, ids, now, d)
    decreases |ids|
  {
    hide StopDecision, Decide;
    if ids != [] {
      OneDecisionAtATime(m, id, ids[0], now);
      DecideLeavesOthers(m, id, ids[1..], now, d);
    }
  }

  /** The decision on one job neither adds nor removes jobs, nor changes the decision on another. */
  lemma OneDecisionAtATime(m: Memory, id: JobId, x: JobId, now: Time)
    requires id in m.jobs
    ensures Decide(m, id, now).jobs == m.jobs
    ensures x != id && x in m.jobs ==> StopDecision(Decide(m, id, now), x, now) == StopDecision(m, x, now)
  {
  }

  lemma DecideNoMore(m: Memory, ids: seq<JobId>, now: Time, r: SweepResult)
    ensures DecideAll(m, ids[|ids|..], now) == m && Onto(r, Sifted(m, ids[|ids|..], now)) == r
  {
  }

  lemma MarkNext(m: Memory, ids: seq<JobId>, i: int)
    requires 0 <= i < |ids| && ids[i] in m.jobs
    ensures MarkAllUnknown(m, ids[i..]) == MarkAllUnknown(MarkUnknown(m, ids[i]), ids[i + 1..])
    ensures MarkUnknown(m, ids[i]) == m.(jobs := m.jobs[ids[i] := m.jobs[ids[i]].(status := Status.Unknown)],
                                         log := m.log + [Silent(ids[i], m.jobs[ids[i]].robot, m.jobs[ids[i]].attempt)])
  {
    assert ids[i..][1..] == ids[i + 1..];
  }

  lemma NamedRobot(jobs: Jobs, robots: Robots, r: RobotId)
    requires Named(jobs, robots) && r in robots
    ensures robots[r].id == r && r != ""
  {
  }

  lemma NamedWith(jobs: Jobs, robots: Robots, r: RobotId)
    requires Named(jobs, robots) && r in robots
    ensures forall x: Robot :: x.id == r ==> Named(jobs, robots[r := x])
  {
  }

  lemma NamedAt(jobs: Jobs, robots: Robots, id: JobId)
    requires Named(jobs, robots) && id in jobs
    ensures jobs[id].id == id
  {
  }

  lemma MarkNoMore(m: Memory, ids: seq<JobId>)
    ensures MarkAllUnknown(m, ids[|ids|..]) == m
  {
  }

  lemma PendingInCore(m: Memory, q: seq<JobId>)
    requires Steady(m) && IsQueue(m.jobs, ByPriority, PendingSet(m.jobs), q)
    ensures Distinct(q) && q == Queue(m.jobs, ByPriority, PendingSet(m.jobs))
    ensures forall k :: 0 <= k < |q| ==> q[k] in m.jobs && m.jobs[q[k]].status == Pending && m.jobs[q[k]].robot == ""
  {
    QueueHasNoRepeats(m.jobs, ByPriority, PendingSet(m.jobs), q);
    QueueIs(m.jobs, ByPriority, PendingSet(m.jobs), q);
    assert Held(m.jobs);
    forall k | 0 <= k < |q| ensures q[k] in m.jobs && m.jobs[q[k]].status == Pending && m.jobs[q[k]].robot == "" {
      assert q[k] in q;
    }
  }

  /** An offer, case by case: the reservation fails, the assignment fails and is undone, or both are saved. */
  lemma OfferToCases(p: Pass, fails: Faults, id: JobId, r: RobotId, now: Time)
    requires id in p.mem.jobs && r in p.mem.robots && p.mem.robots[r].available
    ensures var m := p.mem;
      var d1 := Storage.SaveRobot(p.disk, fails, m.robots[r].(available := false));
      var j := GivenJob(m.jobs[id], r, now);
      var d2 := Storage.SaveJob(d1, fails, j);
      var d3 := Storage.SaveRobot(d2, fails, m.robots[r]);
      OfferTo(p, fails, id, r, now) ==
        if fails(p.disk.writes) then p.(disk := d1, trail := p.trail + [d1])
        else if fails(p.disk.writes + 1) then p.(disk := d3, trail := p.trail + [d1] + [d2] + [d3])
        else Pass(m.(jobs := m.jobs[id := j], robots := m.robots[r := m.robots[r].(available := false)],
          log := m.log + [Given(id, r, m.jobs[id].attempt + 1)]),
                  d2, p.out + [Assignment(id, r)], p.trail + [d1] + [d2])
    ensures p.mem.robots[r := p.mem.robots[r].(available := false)][r :=
      p.mem.robots[r].(available := false).(available := true)] == p.mem.robots
  {
    hide GivenJob;
    var m := p.mem;
    assert m.robots[r].(available := false).(available := true) == m.robots[r];
    assert Give(m, id, r, now).jobs[id] == GivenJob(m.jobs[id], r, now);
    var d1 := Storage.SaveRobot(p.disk, fails, m.robots[r].(available := false));
    var d2 := Storage.SaveJob(d1, fails, GivenJob(m.jobs[id], r, now));
    var d3 := Storage.SaveRobot(d2, fails, m.robots[r]);
    assert d1.writes == p.disk.writes + 1;
    assert p.trail + [d1, d2] == p.trail + [d1] + [d2];
    assert p.trail + [d1, d2, d3] == p.trail + [d1] + [d2] + [d3];
  }

  lemma NamedRobots(jobs: Jobs, robots: Robots, id: JobId, r: RobotId, now: Time)
    requires Named(jobs, robots) && id in jobs && r in robots
    ensures jobs[id].id == id
      && Named(jobs[id := GivenJob(jobs[id], r, now)], robots[r := robots[r].(available := false)])
  {
  }

  lemma PassBegins(p: Pass, fails: Faults, q: seq<JobId>, now: Time)
    ensures OfferAll(p, fails, q[..0], now) == p
  {
  }

  lemma PassNext(p: Pass, fails: Faults, q: seq<JobId>, i: int, now: Time)
    requires 0 <= i < |q|
    ensures OfferAll(p, fails, q[..i + 1], now) == Offer(OfferAll(p, fails, q[..i], now), fails, q[i], now)
  {
    assert q[..i + 1] == q[..i] + [q[i]];
    OfferInTurn(p, fails, q[..i], [q[i]], now);
    assert [q[i]][1..] == [];
  }

  lemma IndexedMore(jobs: Jobs, heldBy: map<RobotId, set<JobId>>, heldBy': map<RobotId, set<JobId>>)
    requires Indexed(jobs, heldBy) && forall r :: r in heldBy ==> r in heldBy' && heldBy[r] <= heldBy'[r]
    ensures Indexed(jobs, heldBy')
  {
  }

  lemma DispatchAgrees(e: Engine, now: Time)
    requires Steady(e.Mem())
    ensures var p := Dispatch(e.Mem(), e.store.disk, e.store.fails, now);
      && e.store.disk.writes <= p.disk.writes
      && (SameRecords(e.jobs, e.store.disk.jobs) ==> SameRecords(p.mem.jobs, p.disk.jobs))
      && (Agrees(e.jobs, e.robots, e.store.disk, e.store.forgets)
          && Healthy(e.store.fails, e.store.disk.writes, p.disk.writes)
          ==> Agrees(p.mem.jobs, p.mem.robots, p.disk, e.store.forgets))
  {
    SteadyNames(e.Mem());
    PassKeepsRecords(Pass(e.Mem(), e.store.disk, [], []), e.store.fails, Queue(e.jobs, ByPriority, PendingSet(e.jobs)),
      now);
    hide Steady, Accounted;
    PassAgrees(Pass(e.Mem(), e.store.disk, [], []), e.store.fails, Queue(e.jobs, ByPriority, PendingSet(e.jobs)), now,
      e.store.forgets);
  }

  lemma ToolsOff(m: Memory, asked: set<RobotId>, answers: map<RobotId, string>, now: Time)
    ensures !m.cfg.toolCheck.enabled ==> RecordTools(m, asked, answers, now) == m
  {
  }

  lemma AnswersRecorded(m: Memory, asked: set<RobotId>, answers: map<RobotId, string>, now: Time)
    requires m.cfg.toolCheck.enabled && answers.Keys <= asked
    ensures RecordTools(m, asked, answers, now) ==
      m.(seen := SeenAfter(m.seen, m.robots, asked, answers, now))
  {
  }

  lemma EligibleIsAvailable(m: Memory, r: Robot, j: Job, now: Time)
    requires Eligible(m, r, j, now)
    ensures r.available
  {
  }

  lemma ArchiveAgrees(e: Engine, before: Disk, ids: set<JobId>, saved: bool)
    requires e.store.disk == Tried(if saved then WithoutLive(before, ids) else before)
    ensures Through(e.store.Kind(), e.Mem(), before, if saved then WithoutJobs(e.Mem(), ids) else e.Mem(), e.store.disk)
  {
  }

  lemma IndexedWithout(jobs: Jobs, id: JobId, j: Job, heldBy: map<RobotId, set<JobId>>)
    requires Indexed(jobs, heldBy) && j.robot == ""
    ensures Indexed(jobs[id := j], heldBy)
  {
  }

  lemma AbandonNext(m: Memory, ids: seq<JobId>, i: int)
    requires 0 <= i < |ids| && ids[i] in m.jobs
    ensures AbandonAll(m, ids[i..]) == AbandonAll(Abandon(m, ids[i]), ids[i + 1..])
    ensures Abandon(m, ids[i]).jobs.Keys == m.jobs.Keys && Abandon(m, ids[i]).robots.Keys == m.robots.Keys
  {
    assert ids[i..][1..] == ids[i + 1..];
  }

  lemma AbandonNoMore(m: Memory, ids: seq<JobId>)
    ensures AbandonAll(m, ids[|ids|..]) == m
  {
  }

  // ---- Agreement with the store ----

  lemma BeginInStep(w: Watch, e: Engine)
    requires e.Idle() && w == e.Start()
    ensures e.InStep(w, {}, {})
  {
    assert {} + e.pendingJobs == {} && {} + e.pendingRobots == {};
  }

  /** Said before a change, so that it can be used after it. */
  lemma NoteStep(w: Watch, e: Engine, lj: set<JobId>, lr: set<RobotId>)
    requires e.InStep(w, lj, lr)
    ensures w.from <= e.store.disk.writes
    ensures StillAgrees(w, e.jobs, e.robots, e.store.disk, e.store.fails, e.store.forgets, lj + e.pendingJobs,
      lr + e.pendingRobots)
  {
  }

  lemma JobChanged(w: Watch, e: Engine, before: Jobs, lj: set<JobId>, lr: set<RobotId>, id: JobId)
    requires w.from <= e.store.disk.writes
    requires StillAgrees(w, before, e.robots, e.store.disk, e.store.fails, e.store.forgets, lj + e.pendingJobs,
      lr + e.pendingRobots)
    requires id in e.jobs && id in before && e.jobs == before[id := e.jobs[id]] && SameIdentity(before[id], e.jobs[id])
    ensures e.InStep(w, lj + {id}, lr)
  {
  }

  lemma RobotChanged(w: Watch, e: Engine, before: Robots, lj: set<JobId>, lr: set<RobotId>, r: RobotId)
    requires w.from <= e.store.disk.writes
    requires StillAgrees(w, e.jobs, before, e.store.disk, e.store.fails, e.store.forgets, lj + e.pendingJobs,
      lr + e.pendingRobots)
    requires r in e.robots && e.robots == before[r := e.robots[r]]
    ensures e.InStep(w, lj, lr + {r})
  {
  }

  lemma EndInStep(w: Watch, e: Engine)
    requires e.Idle() && e.InStep(w, {}, {})
    ensures w.from <= e.store.disk.writes && (w.known ==> SameRecords(e.jobs, e.store.disk.jobs))
    ensures w.synced && Healthy(e.store.fails, w.from, e.store.disk.writes) ==>
      Agrees(e.jobs, e.robots, e.store.disk, e.store.forgets)
  {
    assert {} + e.pendingJobs == {} && {} + e.pendingRobots == {};
  }

  lemma MoreLate(w: Watch, e: Engine, lj: set<JobId>, lr: set<RobotId>, lr': set<RobotId>)
    requires e.InStep(w, lj, lr) && lr <= lr'
    ensures e.InStep(w, lj, lr')
  {
    StillAgreesOnMore(w, e.jobs, e.robots, e.store.disk, e.store.fails, e.store.forgets, lj + e.pendingJobs,
      lj + e.pendingJobs, lr + e.pendingRobots, lr' + e.pendingRobots);
  }

  lemma QueueIsItsSet(jobs: Jobs, o: Order, s: set<JobId>, q: seq<JobId>)
    requires IsQueue(jobs, o, s, q)
    ensures (set k | 0 <= k < |q| :: q[k]) == s
  {
  }

  lemma NothingWritten(d: Disk, fails: Faults, jobs: Jobs, robots: Robots, js: set<JobId>, rs: set<RobotId>)
    requires js <= jobs.Keys && rs <= robots.Keys
    ensures RecordByRecord(d, d, jobs, robots, js, rs) && Healthy(fails, d.writes, d.writes)
  {
  }

  lemma RobotWritten(d: Disk, d1: Disk, fails: Faults, jobs: Jobs, robots: Robots, js: set<JobId>, rs: set<RobotId>,
    r: RobotId)
    requires js <= jobs.Keys && rs <= robots.Keys && r in rs && robots[r].id == r
      && RecordByRecord(d, d1, jobs, robots, js, rs) && d.writes <= d1.writes
    ensures var d' := Storage.SaveRobot(d1, fails, robots[r]);
      && RecordByRecord(d, d', jobs, robots, js, rs) && d'.writes == d1.writes + 1
      && (Healthy(fails, d.writes, d'.writes) <==> Healthy(fails, d.writes, d1.writes) && !fails(d1.writes))
  {
  }

  lemma JobWritten(d: Disk, d1: Disk, fails: Faults, jobs: Jobs, robots: Robots, js: set<JobId>, rs: set<RobotId>,
    id: JobId)
    requires js <= jobs.Keys && rs <= robots.Keys && id in js && jobs[id].id == id
      && RecordByRecord(d, d1, jobs, robots, js, rs) && d.writes <= d1.writes
    ensures var d' := Storage.SaveJob(d1, fails, jobs[id]);
      && RecordByRecord(d, d', jobs, robots, js, rs) && d'.writes == d1.writes + 1
      && (Healthy(fails, d.writes, d'.writes) <==> Healthy(fails, d.writes, d1.writes) && !fails(d1.writes))
  {
  }

  lemma AllWritten(d: Disk, fails: Faults, jobs: Jobs, robots: Robots, js: set<JobId>, rs: set<RobotId>)
    requires js <= jobs.Keys && rs <= robots.Keys
    ensures var d' := Committed(fails, d, jobs, robots, js, rs);
      && RecordByRecord(d, d', jobs, robots, js, rs) && d'.writes == d.writes + 1
        && (Healthy(fails, d.writes, d'.writes) <==> !fails(d.writes))
      && d' == Tried(if !fails(d.writes) then WithAll(d, Picked(jobs, js), Picked(robots, rs)) else d)
  {
  }

  lemma StillAgreesOnMore(w: Watch, jobs: Jobs, robots: Robots, disk: Disk, fails: Faults, exact: bool,
                          lj: set<JobId>, lj': set<JobId>, lr: set<RobotId>, lr': set<RobotId>)
    requires StillAgrees(w, jobs, robots, disk, fails, exact, lj, lr) && lj <= lj' && lr <= lr'
    ensures StillAgrees(w, jobs, robots, disk, fails, exact, lj', lr')
  {
  }

  lemma AgreesAfterChange(w: Watch, jobs: Jobs, jobs': Jobs, robots: Robots, disk: Disk, fails: Faults, exact: bool,
    lj: set<JobId>, lr: set<RobotId>, id: JobId)
    requires StillAgrees(w, jobs, robots, disk, fails, exact, lj, lr) && id in jobs && id in jobs'
      && jobs' == jobs[id := jobs'[id]]
    requires SameIdentity(jobs[id], jobs'[id])
    ensures StillAgrees(w, jobs', robots, disk, fails, exact, lj + {id}, lr)
  {
  }

  /** A new job that was saved first. */
  lemma InsertAgrees(e: Engine, before: Disk, j: Job)
    requires e.store.disk == Storage.SaveJob(before, e.store.fails, j)
    ensures e.store.disk.writes == before.writes + 1
    ensures
      Agrees(e.jobs, e.robots, before, e.store.forgets)
      && Healthy(e.store.fails, before.writes, e.store.disk.writes)
      ==>
        !e.store.fails(before.writes) && Agrees(e.jobs[j.id := j], e.robots, e.store.disk, e.store.forgets)
    ensures SameRecords(e.jobs, before.jobs) ==>
      SameRecords(if e.store.fails(before.writes) then e.jobs else e.jobs[j.id := j], e.store.disk.jobs)
  {
  }

  lemma IndexedWith(jobs: Jobs, heldBy: map<RobotId, set<JobId>>, jobs': Jobs, heldBy': map<RobotId, set<JobId>>,
    id: JobId)
    requires Indexed(jobs, heldBy) && id in jobs' && jobs' == jobs[id := jobs'[id]]
    requires jobs'[id].robot != "" ==> jobs'[id].robot in heldBy' && id in heldBy'[jobs'[id].robot]
    requires forall r :: r in heldBy ==> r in heldBy' && heldBy[r] <= heldBy'[r]
    ensures Indexed(jobs', heldBy')
  {
  }

  lemma AgreesAfterJob(w: Watch, jobs: Jobs, robots: Robots, disk: Disk, fails: Faults, exact: bool, lj: set<JobId>,
    lr: set<RobotId>, id: JobId)
    requires id in jobs && jobs[id].id == id && w.from <= disk.writes
      && StillAgrees(w, jobs, robots, disk, fails, exact, lj, lr)
    ensures StillAgrees(w, jobs, robots, Storage.SaveJob(disk, fails, jobs[id]), fails, exact, lj - {id}, lr)
  {
    hide RobotsAgree, RecordsNamed;
  }

  lemma AgreesAfterRobot(w: Watch, jobs: Jobs, robots: Robots, disk: Disk, fails: Faults, exact: bool, lj: set<JobId>,
    lr: set<RobotId>, r: RobotId)
    requires r in robots && robots[r].id == r && r != "" && w.from <= disk.writes
      && StillAgrees(w, jobs, robots, disk, fails, exact, lj, lr)
    ensures StillAgrees(w, jobs, robots, Storage.SaveRobot(disk, fails, robots[r]), fails, exact, lj, lr - {r})
  {
    hide SameRecords, JobsAgree;
  }

  lemma AgreesAfterBatch(w: Watch, jobs: Jobs, robots: Robots, disk: Disk, fails: Faults, exact: bool, js: set<JobId>,
    rs: set<RobotId>, lr: set<RobotId>)
    requires js <= jobs.Keys && rs <= robots.Keys && w.from <= disk.writes
      && forall r :: r in rs ==> robots[r].id == r && r != ""
    requires StillAgrees(w, jobs, robots, disk, fails, exact, {} + js, lr + rs)
    ensures var disk' := Tried(if fails(disk.writes) then disk
      else WithAll(disk, Picked(jobs, js), Picked(robots, rs)));
      StillAgrees(w, jobs, robots, disk', fails, exact, {} + {}, lr + {})
  {
    hide JobsAgree, RobotsAgree, RecordsNamed, SameRecords;
    if !fails(disk.writes) { BatchKeepsRecords(jobs, disk, js, Picked(robots, rs)); }
    if Healthy(fails, w.from, disk.writes + 1) {
      assert !fails(disk.writes);
      BatchedJobsAgree(jobs, disk, js, Picked(robots, rs));
      BatchedRobotsAgree(robots, disk, exact, Picked(jobs, js), rs, lr);
    }
  }

}
