/** The durable copy: an abstract store whose writes may fail, following any pattern. A failed write
    changes nothing. */
module Storage {
  import opened Base
  import opened Model

  datatype Disk = Disk(jobs: Jobs, robots: Robots, archived: Jobs, writes: nat)

  /** Which writes fail, by their number. */
  type Faults = nat -> bool

  /** A store as the engine sees it: which of its writes fail, and what it can do beyond saving one record. */
  datatype Backend = Backend(fails: Faults, batches: bool, forgets: bool, archives: bool)

  /** What is kept of a robot: its own declarations live in memory only. */
  function Kept(r: Robot): Robot { r.(stopCapable := false, selfReported := false) }

  function WithJob(d: Disk, j: Job): Disk { d.(jobs := d.jobs[j.id := j], archived := d.archived - {j.id}) }

  function WithRobot(d: Disk, r: Robot): Disk { d.(robots := d.robots[r.id := Kept(r)]) }

  function WithAll(d: Disk, jobs: Jobs, robots: Robots): Disk {
    d.(jobs := d.jobs + jobs, archived := d.archived - jobs.Keys,
      robots := d.robots + map r | r in robots :: Kept(robots[r]))
  }

  function WithoutLive(d: Disk, ids: set<JobId>): Disk {
    d.(jobs := d.jobs - ids, archived := d.archived + map id | id in ids && id in d.jobs :: d.jobs[id])
  }

  function Tried(d: Disk): Disk { d.(writes := d.writes + 1) }

  function SaveJob(d: Disk, fails: Faults, j: Job): Disk {
    if fails(d.writes) then Tried(d) else Tried(WithJob(d, j))
  }

  function SaveRobot(d: Disk, fails: Faults, r: Robot): Disk {
    if fails(d.writes) then Tried(d) else Tried(WithRobot(d, r))
  }

  /** No write fails from the `from`-th on, up to the `to`-th. */
  ghost predicate Healthy(fails: Faults, from: nat, to: nat) {
    forall n :: from <= n < to ==> !fails(n)
  }

  /** The store agrees with the queue on every job but those of `late`. */
  ghost predicate JobsAgree(jobs: Jobs, stored: Jobs, late: set<JobId>) {
    && stored.Keys <= jobs.Keys
    && forall id :: id in jobs && id !in late ==> id in stored && stored[id] == jobs[id]
  }

  /** The store holds the jobs of the queue and no others, under the same keys and numbers. */
  ghost predicate SameRecords(jobs: Jobs, stored: Jobs) {
    stored.Keys == jobs.Keys && forall id :: id in jobs ==> SameIdentity(jobs[id], stored[id])
  }

  /** The store agrees with the registry on every robot but those of `late`; it may remember robots
      that were removed, when it cannot forget them. */
  ghost predicate RobotsAgree(robots: Robots, stored: Robots, late: set<RobotId>, exact: bool) {
    && (exact ==> stored.Keys <= robots.Keys)
    && forall r :: r in robots && r !in late ==> r in stored && stored[r] == Kept(robots[r])
  }

  /** Every stored robot is stored under its own id. */
  ghost predicate RecordsNamed(stored: Robots) {
    forall r :: r in stored ==> r != "" && stored[r].id == r && stored[r] == Kept(stored[r])
  }

  /** The store holds what memory holds, up to what lives in memory only; a store that cannot forget
      may hold removed robots too. */
  ghost predicate Agrees(jobs: Jobs, robots: Robots, d: Disk, exact: bool) {
    JobsAgree(jobs, d.jobs, {}) && RobotsAgree(robots, d.robots, {}, exact) && RecordsNamed(d.robots)
  }

  /** One transaction: the records of `js` and `rs`, all of them or none. */
  function Committed(fails: Faults, d: Disk, jobs: Jobs, robots: Robots, js: set<JobId>, rs: set<RobotId>): Disk
    requires js <= jobs.Keys && rs <= robots.Keys
  {
    Tried(if fails(d.writes) then d else WithAll(d, Picked(jobs, js), Picked(robots, rs)))
  }

  /** Every record is kept under its own id. */
  ghost predicate Named(jobs: Jobs, robots: Robots) {
    (forall id :: id in jobs ==> jobs[id].id == id) && forall r :: r in robots ==> robots[r].id == r && r != ""
  }
}
