/** Every public operation of the engine as one step on its memory, and each of them as a sequence
    of legal moves. */
module Workings {
  import opened Base
  import opened Model
  import opened Graph
  import opened Blocking
  import opened Ordering
  import opened Operations
  import opened Invariants
  import opened Lives
  import opened Moves
  import opened Archiving
  import opened Routing
  import opened Storage
  import opened Dispatching

  datatype Operation =
    | AddJob(j: Job, now: Time, saved: bool)
    | SubmitJob(j: Job, now: Time, saved: bool)
    | UpsertRobot(d: Declaration, given: bool, now: Time)
    | DispatchOnce(disk: Disk, fails: Faults, now: Time)
    | CompleteJob(id: JobId, success: bool, robot: RobotId, attempt: int, now: Time)
    | CancelJob(id: JobId, now: Time)
    | RequeueJob(id: JobId, robot: RobotId)
    | DetectStale(timeout: Duration, now: Time)
    | RemoveRobot(robot: RobotId, saved: bool)
    | ReplanFor(robot: RobotId)
    | Acknowledge(robot: RobotId, id: JobId)
    | ArchiveOld(now: Time, saved: bool)
    | SetConfig(cfg: Config)
    | ConfirmTools(asked: set<RobotId>, answers: map<RobotId, string>, now: Time)
    | Reload(nextSeq: int, dedup: map<Key, JobId>, cfg: Config, back: seq<Robot>)

  /** What the callers keep to: a submitted job names no robot and a robot has an id. A reload finds
      the keys and numbers of the jobs it loads. */
  ghost predicate Allowed(m: Memory, op: Operation) {
    match op
    case AddJob(j, _, _) => j.robot == ""
    case SubmitJob(j, _, _) => j.robot == ""
    case UpsertRobot(d, _, _) => d.id != ""
    case Reload(nextSeq, dedup, _, back) => JobsOk(m.jobs, nextSeq) && KeysLive(m.jobs, dedup)
      && KeysFound(m.jobs, dedup) && ComeBack(m.robots, back)
    case _ => true
  }

  ghost function Apply(m: Memory, op: Operation): Memory
    requires KeysLive(m.jobs, m.dedup)
  {
    match op
    case AddJob(j, now, saved) => Add(m, j, now, saved)
    case SubmitJob(j, now, saved) => Submit(m, j, now, saved)
    case UpsertRobot(d, given, now) => Upsert(m, d, given, now)
    case DispatchOnce(disk, fails, now) => Dispatch(m, disk, fails, now).mem
    case CompleteJob(id, success, robot, attempt, now) => Complete(m, id, success, robot, attempt, now)
    case CancelJob(id, now) => Cancel(m, id, now)
    case RequeueJob(id, robot) => Requeue(m, id, robot)
    case DetectStale(timeout, now) => Sweep(m, timeout, now)
    case RemoveRobot(robot, saved) => Remove(m, robot, saved)
    case ReplanFor(robot) => ReplanRobot(m, robot)
    case Acknowledge(robot, id) => AckStop(m, robot, id)
    case ArchiveOld(now, saved) => ArchiveFinished(m, now, saved)
    case SetConfig(cfg) => Configure(m, cfg)
    case ConfirmTools(asked, answers, now) => RecordTools(m, asked, answers, now)
    case Reload(nextSeq, dedup, cfg, back) => AllJoining(RestartedWith(m, nextSeq, dedup, cfg), back)
  }

  ghost function AllJoining(m: Memory, back: seq<Robot>): Memory
    decreases |back|
  {
    if back == [] then m else AllJoining(Joining(m, back[0]), back[1..])
  }

  /** Robots that memory had removed and the store still remembers. */
  ghost predicate ComeBack(robots: Robots, back: seq<Robot>) {
    && (forall i :: 0 <= i < |back| ==> back[i].id != "" && back[i].id !in robots && !back[i].selfReported)
    && forall i, k :: 0 <= i < k < |back| ==> back[i].id != back[k].id
  }

  /** Legal moves that lead from `m` to `m'`. */
  ghost predicate Leads(m: Memory, mvs: seq<Move>, m': Memory) {
    CanAll(m, mvs) && DoAll(m, mvs) == m'
  }

  /** None of the moves can bring in a key. */
  ghost predicate Keyless(mvs: seq<Move>) { forall i :: 0 <= i < |mvs| ==> !mvs[i].Insert? && !mvs[i].Restart? }

  lemma NoMove(m: Memory)
    ensures Leads(m, [], m)
  {
  }

  lemma OneMove(m: Memory, mv: Move)
    requires Can(m, mv)
    ensures Leads(m, [mv], Do(m, mv))
  {
    assert [mv][1..] == [];
  }

  lemma MoveThen(m: Memory, mv: Move, rest: seq<Move>, m': Memory)
    requires Can(m, mv) && Leads(Do(m, mv), rest, m')
    ensures Leads(m, [mv] + rest, m')
  {
    assert ([mv] + rest)[1..] == rest;
  }

  lemma Chain(m: Memory, a: seq<Move>, m1: Memory, b: seq<Move>, m': Memory)
    requires Leads(m, a, m1) && Leads(m1, b, m')
    ensures Leads(m, a + b, m')
  {
    OneAfterAnother(m, a, b);
  }

  // ---- The folds ----

  lemma {:induction false} AbandonAllMoves(m: Memory, ids: seq<JobId>) returns (mvs: seq<Move>)
    requires Distinct(ids) && forall i :: 0 <= i < |ids| ==> ids[i] in m.jobs && m.jobs[ids[i]].status.InFlight()
    ensures Keyless(mvs)
    ensures Leads(m, mvs, AbandonAll(m, ids))
    decreases |ids|
  {
    if ids == [] {
      NoMove(m);
      mvs := [];
    } else {
      var m' := Abandon(m, ids[0]);
      var rest := AbandonAllMoves(m', ids[1..]);
      mvs := [TakeBack(ids[0])] + rest;
      hide Leads;
      MoveThen(m, TakeBack(ids[0]), rest, AbandonAll(m', ids[1..]));
    }
  }

  lemma {:induction false} MarkAllMoves(m: Memory, ids: seq<JobId>) returns (mvs: seq<Move>)
    requires Distinct(ids) && forall i :: 0 <= i < |ids| ==> ids[i] in m.jobs && m.jobs[ids[i]].status == Assigned
    ensures Keyless(mvs)
    ensures Leads(m, mvs, MarkAllUnknown(m, ids))
    decreases |ids|
  {
    if ids == [] {
      NoMove(m);
      mvs := [];
    } else {
      var m' := MarkUnknown(m, ids[0]);
      var rest := MarkAllMoves(m', ids[1..]);
      mvs := [FallSilent(ids[0])] + rest;
      hide Leads;
      MoveThen(m, FallSilent(ids[0]), rest, MarkAllUnknown(m', ids[1..]));
    }
  }

  lemma {:induction false} DecideAllMoves(m: Memory, ids: seq<JobId>, now: Time) returns (mvs: seq<Move>)
    requires forall i :: 0 <= i < |ids| ==> ids[i] in m.jobs && m.jobs[ids[i]].status == Assigned
    ensures Keyless(mvs)
    ensures Leads(m, mvs, DecideAll(m, ids, now))
    ensures DecideAll(m, ids, now).jobs == m.jobs && DecideAll(m, ids, now).robots == m.robots
    decreases |ids|
  {
    if ids == [] {
      NoMove(m);
      mvs := [];
    } else {
      var id, m' := ids[0], Decide(m, ids[0], now);
      var rest := DecideAllMoves(m', ids[1..], now);
      hide Leads;
      if m' == m {
        mvs := rest;
      } else if AskedFor(m, id) {
        mvs := [Expire(id)] + rest;
        MoveThen(m, Expire(id), rest, DecideAll(m', ids[1..], now));
      } else {
        mvs := [AskStop(id, now)] + rest;
        MoveThen(m, AskStop(id, now), rest, DecideAll(m', ids[1..], now));
      }
    }
  }

  lemma {:induction false} OfferAllMoves(p: Pass, fails: Faults, ids: seq<JobId>, now: Time) returns (mvs: seq<Move>)
    requires NamesAgree(p.mem.robots) && Distinct(ids)
    requires forall i :: 0 <= i < |ids| ==> ids[i] in p.mem.jobs ==> p.mem.jobs[ids[i]].status == Pending
    ensures Keyless(mvs)
    ensures Leads(p.mem, mvs, OfferAll(p, fails, ids, now).mem)
    decreases |ids|
  {
    hide Offer, Can, Do, NamesAgree, Leads;
    if ids == [] {
      NoMove(p.mem);
      mvs := [];
    } else {
      var p' := Offer(p, fails, ids[0], now);
      OfferIsMove(p, fails, ids[0], now);
      var rest := OfferAllMoves(p', fails, ids[1..], now);
      if p'.mem == p.mem {
        mvs := rest;
      } else {
        var r :| Can(p.mem, GiveOut(ids[0], r, now)) && p'.mem == Do(p.mem, GiveOut(ids[0], r, now));
        mvs := [GiveOut(ids[0], r, now)] + rest;
        MoveThen(p.mem, GiveOut(ids[0], r, now), rest, OfferAll(p', fails, ids[1..], now).mem);
      }
    }
  }

  lemma OfferIsMove(p: Pass, fails: Faults, id: JobId, now: Time)
    requires NamesAgree(p.mem.robots) && (id in p.mem.jobs ==> p.mem.jobs[id].status == Pending)
    ensures var m' := Offer(p, fails, id, now).mem;
      m' == p.mem || exists r :: Can(p.mem, GiveOut(id, r, now)) && m' == Do(p.mem, GiveOut(id, r, now))
    ensures NamesAgree(Offer(p, fails, id, now).mem.robots)
    ensures forall x :: x in p.mem.jobs && x != id ==>
      x in Offer(p, fails, id, now).mem.jobs && Offer(p, fails, id, now).mem.jobs[x] == p.mem.jobs[x]
    ensures Offer(p, fails, id, now).mem.jobs.Keys == p.mem.jobs.Keys
  {
    if id in p.mem.jobs {
      BestIs(p.mem, p.mem.jobs[id], now);
      var best := Best(p.mem, p.mem.jobs[id], now);
      hide Best;
      if best.Some? && Offer(p, fails, id, now).mem != p.mem {
        assert Can(p.mem, GiveOut(id, best.value, now));
      }
    }
  }

  // ---- One operation at a time ----

  lemma QueueOfSet(m: Memory, o: Order, s: set<JobId>)
    requires Core(m) && s <= m.jobs.Keys
    ensures IsQueue(m.jobs, o, s, Queue(m.jobs, o, s)) && Distinct(Queue(m.jobs, o, s))
    ensures forall i :: 0 <= i < |Queue(m.jobs, o, s)| ==> Queue(m.jobs, o, s)[i] in s
  {
    hide Reserved, KeysLive, Stable, Ready, Held, Acyclic, DepsLive, RobotsOk;
    QueueExists(m.jobs, o, s);
    QueueHasNoRepeats(m.jobs, o, s, Queue(m.jobs, o, s));
  }

  lemma SubmitMoves(m: Memory, j: Job, now: Time, saved: bool) returns (mvs: seq<Move>)
    requires Core(m) && j.robot == ""
    ensures KeysLive(m.jobs, m.dedup) && Leads(m, mvs, Submit(m, j, now, saved))
  {
    JobNames(m);
    hide QueueOk, Stable, Reserved, RobotsOk, Leads, FromRoots, ShapeOk;
    match SubmissionOf(m, j)
    case NewJob => mvs := AddMoves(m, j, now, saved);
    case Duplicate => NoMove(m); mvs := [];
    case Refused(_) => NoMove(m); mvs := [];
    case Retry =>
      OneMove(m, Resubmit(m.dedup[j.key], j, now));
      mvs := [Resubmit(m.dedup[j.key], j, now)];
  }

  lemma JobNames(m: Memory)
    requires Core(m)
    ensures forall id :: id in m.jobs ==> m.jobs[id].id == id
  {
  }

  lemma AddMoves(m: Memory, j: Job, now: Time, saved: bool) returns (mvs: seq<Move>)
    requires j.robot == ""
    ensures Leads(m, mvs, Add(m, j, now, saved))
  {
    hide Leads, ShapeOk, Blank, Verdict;
    if AddError(m.jobs, j).Some? {
      NoMove(m);
      mvs := [];
    } else if saved {
      OneMove(m, Insert(j, now));
      mvs := [Insert(j, now)];
    } else {
      OneMove(m, SpendNumber);
      mvs := [SpendNumber];
    }
  }

  lemma UpsertMoves(m: Memory, d: Declaration, given: bool, now: Time) returns (mvs: seq<Move>)
    requires Core(m) && d.id != ""
    ensures Keyless(mvs)
    ensures Leads(m, mvs, Upsert(m, d, given, now))
  {
    hide QueueOk, Stable, KeysLive, Leads;
    if d.id !in m.robots {
      OneMove(m, Register(FirstSeen(d, now)));
      mvs := [Register(FirstSeen(d, now))];
    } else {
      BusyIsReserved(m, d.id);
      hide Operations.Busy, Reserved;
      var r := Heard(m.robots[d.id], d, now);
      if given && Operations.Busy(m.jobs, d.id) && !d.available {
        var faulty := r.(selfReported := true);
        OneMove(m, Report(faulty));
        mvs := [Report(faulty)];
        if m.cfg.replan.enabled && m.cfg.replan.onFault {
          var m' := m.(robots := m.robots[d.id := faulty]);
          QueueOfSet(m, BySubmission, HeldSet(m.jobs, d.id, false));
          var back := AbandonAllMoves(m', JobsOfRobot(m.jobs, d.id, false));
          Chain(m, mvs, m', back, AbandonAll(m', JobsOfRobot(m.jobs, d.id, false)));
          mvs := mvs + back;
        }
      } else {
        var r' := if given && !Operations.Busy(m.jobs, d.id)
          then r.(available := d.available, selfReported := !d.available) else r;
        OneMove(m, Report(r'));
        mvs := [Report(r')];
      }
    }
  }

  lemma BusyIsReserved(m: Memory, r: RobotId)
    requires Core(m) && r in m.robots
    ensures Operations.Busy(m.jobs, r) ==> !m.robots[r].available
    ensures m.robots[r].id == r && (m.robots[r].selfReported ==> !m.robots[r].available)
  {
  }

  lemma ReplanMoves(m: Memory, robot: RobotId) returns (mvs: seq<Move>)
    requires Core(m)
    ensures Keyless(mvs)
    ensures Leads(m, mvs, ReplanRobot(m, robot))
  {
    hide QueueOk, Stable, KeysLive, Leads;
    if ReplanError(m, robot).Some? {
      NoMove(m);
      mvs := [];
    } else {
      BusyIsReserved(m, robot);
      hide Reserved, RobotsOk;
      var r := HeldBack(m.robots, robot)[robot];
      var m' := m.(robots := HeldBack(m.robots, robot));
      OneMove(m, Report(r));
      QueueOfSet(m, BySubmission, HeldSet(m.jobs, robot, true));
      var back := AbandonAllMoves(m', JobsOfRobot(m.jobs, robot, true));
      Chain(m, [Report(r)], m', back, AbandonAll(m', JobsOfRobot(m.jobs, robot, true)));
      mvs := [Report(r)] + back;
    }
  }

  lemma SweepMoves(m: Memory, timeout: Duration, now: Time) returns (mvs: seq<Move>)
    requires Core(m)
    ensures Keyless(mvs)
    ensures Leads(m, mvs, Sweep(m, timeout, now))
  {
    hide Core, Leads, IsSilent, DecideAll, AbandonAll, MarkAllUnknown, Deciding, Distinct;
    var m1 := Withdrawals(m, timeout, now);
    var stale := Stale(m, timeout, now);
    OneMove(m, DropRequests(BackSet(m, timeout, now)));
    QueueOfSet(m, BySubmission, StaleSet(m, timeout, now));
    var first := [DropRequests(BackSet(m, timeout, now))];
    if ReplansSilent(m.cfg) {
      var rest := SweepDecisions(m1, stale, now);
      var report := SweepReport(m, timeout, now);
      Chain(m, first, m1, rest, MarkAllUnknown(AbandonAll(DecideAll(m1, stale, now), report.requeued), report.unknown));
      mvs := first + rest;
    } else {
      var rest := MarkAllMoves(m1, stale);
      Chain(m, first, m1, rest, MarkAllUnknown(m1, stale));
      mvs := first + rest;
    }
  }

  lemma SweepDecisions(m: Memory, stale: seq<JobId>, now: Time) returns (mvs: seq<Move>)
    requires Distinct(stale) && forall i :: 0 <= i < |stale| ==>
      stale[i] in m.jobs && m.jobs[stale[i]].status == Assigned
    ensures Keyless(mvs)
    ensures Leads(m, mvs,
      MarkAllUnknown(AbandonAll(DecideAll(m, stale, now), Deciding(m, stale, now, SendBack)),
        Deciding(m, stale, now, CallUnknown)))
  {
    hide Leads, StopDecision, DecideAll, AbandonAll, MarkAllUnknown, Distinct;
    var back, lost := Deciding(m, stale, now, SendBack), Deciding(m, stale, now, CallUnknown);
    var m1 := DecideAll(m, stale, now);
    var a := DecideAllMoves(m, stale, now);
    DecidingIsDistinct(m, stale, now, SendBack);
    DecidingIsDistinct(m, stale, now, CallUnknown);
    AllFromStale(m, stale, back);
    AllFromStale(m, stale, lost);
    var b := BackAndLostMoves(m1, back, lost);
    Chain(m, a, m1, b, MarkAllUnknown(AbandonAll(m1, back), lost));
    mvs := a + b;
  }

  /** Some assigned jobs go back to the queue and others become unknown. */
  lemma BackAndLostMoves(m: Memory, back: seq<JobId>, lost: seq<JobId>) returns (mvs: seq<Move>)
    requires Distinct(back) && Distinct(lost) && forall id :: id in back ==> id !in lost
    requires forall i :: 0 <= i < |back| ==> back[i] in m.jobs && m.jobs[back[i]].status == Assigned
    requires forall i :: 0 <= i < |lost| ==> lost[i] in m.jobs && m.jobs[lost[i]].status == Assigned
    ensures Keyless(mvs) && Leads(m, mvs, MarkAllUnknown(AbandonAll(m, back), lost))
  {
    hide Leads, AbandonAll, MarkAllUnknown, Distinct;
    var a := AbandonAllMoves(m, back);
    AbandonAllLeavesOthers(m, back);
    forall i | 0 <= i < |lost| ensures lost[i] !in back {
      assert lost[i] in lost;
    }
    var b := MarkAllMoves(AbandonAll(m, back), lost);
    Chain(m, a, AbandonAll(m, back), b, MarkAllUnknown(AbandonAll(m, back), lost));
    mvs := a + b;
  }

  lemma AllFromStale(m: Memory, stale: seq<JobId>, ids: seq<JobId>)
    requires forall i :: 0 <= i < |stale| ==> stale[i] in m.jobs && m.jobs[stale[i]].status == Assigned
    requires forall id :: id in ids ==> id in stale
    ensures forall i :: 0 <= i < |ids| ==> ids[i] in m.jobs && m.jobs[ids[i]].status == Assigned
  {
    forall i | 0 <= i < |ids| ensures ids[i] in m.jobs && m.jobs[ids[i]].status == Assigned {
      assert ids[i] in stale;
    }
  }

  lemma {:induction false} DecidingIsDistinct(m: Memory, ids: seq<JobId>, now: Time, d: Decision)
    requires Distinct(ids)
    ensures Distinct(Deciding(m, ids, now, d))
    decreases |ids|
  {
    hide StopDecision;
    if ids != [] {
      DecidingIsDistinct(m, ids[1..], now, d);
      assert ids[0] !in ids[1..];
    }
  }

  lemma {:induction false} AbandonAllLeavesOthers(m: Memory, ids: seq<JobId>)
    ensures AbandonAll(m, ids).jobs.Keys == m.jobs.Keys
    ensures forall id :: id in m.jobs && id !in ids ==> AbandonAll(m, ids).jobs[id] == m.jobs[id]
    decreases |ids|
  {
    if ids != [] {
      assert forall id :: id !in ids ==> id !in ids[1..] && id != ids[0];
      if ids[0] in m.jobs {
        AbandonAllLeavesOthers(Abandon(m, ids[0]), ids[1..]);
      } else {
        AbandonAllLeavesOthers(m, ids[1..]);
      }
    }
  }

  lemma DispatchMoves(m: Memory, disk: Disk, fails: Faults, now: Time) returns (mvs: seq<Move>)
    requires Core(m)
    ensures Keyless(mvs)
    ensures Leads(m, mvs, Dispatch(m, disk, fails, now).mem)
  {
    hide Leads, QueueOk, Stable, KeysLive, Reserved;
    QueueOfSet(m, ByPriority, PendingSet(m.jobs));
    mvs := OfferAllMoves(Pass(m, disk, [], []), fails, Queue(m.jobs, ByPriority, PendingSet(m.jobs)), now);
  }

  lemma ArchiveMoves(m: Memory, now: Time, saved: bool) returns (mvs: seq<Move>)
    ensures Keyless(mvs)
    ensures Leads(m, mvs, ArchiveFinished(m, now, saved))
  {
    hide Leads;
    if m.cfg.archiveAfter <= 0 || !saved {
      NoMove(m);
      mvs := [];
    } else {
      var ids := Departing(m.jobs, Cutoff(m.cfg, now));
      DepartingIsLargest(m.jobs, Cutoff(m.cfg, now), {});
      hide Departing, Separable;
      OneMove(m, Move.Archive(ids));
      mvs := [Move.Archive(ids)];
    }
  }

  /** A restart, then the robots that come back one by one. */
  lemma ReloadMoves(m: Memory, nextSeq: int, dedup: map<Key, JobId>, cfg: Config, back: seq<Robot>)
    returns (mvs: seq<Move>)
    requires JobsOk(m.jobs, nextSeq) && KeysLive(m.jobs, dedup) && ComeBack(m.robots, back)
    ensures Leads(m, mvs, AllJoining(RestartedWith(m, nextSeq, dedup, cfg), back))
  {
    hide Leads, JobsOk, KeysLive;
    var m1 := RestartedWith(m, nextSeq, dedup, cfg);
    OneMove(m, Restart(nextSeq, dedup, cfg));
    var rest := JoiningMoves(m1, back);
    Chain(m, [Restart(nextSeq, dedup, cfg)], m1, rest, AllJoining(m1, back));
    mvs := [Restart(nextSeq, dedup, cfg)] + rest;
  }

  lemma {:induction false} JoiningMoves(m: Memory, back: seq<Robot>) returns (mvs: seq<Move>)
    requires ComeBack(m.robots, back)
    ensures Leads(m, mvs, AllJoining(m, back))
    decreases |back|
  {
    if back == [] {
      NoMove(m);
      mvs := [];
    } else {
      var m' := Joining(m, back[0]);
      var rest := JoiningMoves(m', back[1..]);
      hide Leads;
      MoveThen(m, Register(back[0]), rest, AllJoining(m', back[1..]));
      mvs := [Register(back[0])] + rest;
    }
  }

  lemma {:induction false} JoiningKeepsJobs(m: Memory, back: seq<Robot>)
    ensures var m' := AllJoining(m, back); m'.jobs == m.jobs && m'.dedup == m.dedup
    decreases |back|
  {
    if back != [] { JoiningKeepsJobs(Joining(m, back[0]), back[1..]); }
  }

  /** Every operation of the engine is a sequence of legal moves. */
  lemma OperationIsMoves(m: Memory, op: Operation) returns (mvs: seq<Move>)
    requires Core(m) && Allowed(m, op)
    ensures !op.AddJob? && !op.SubmitJob? && !op.Reload? ==> Keyless(mvs)
    ensures Leads(m, mvs, Apply(m, op))
  {
    hide Leads, QueueOk, Stable, Reserved, RobotsOk, Dispatch, Sweep, Upsert, ArchiveFinished, ReplanRobot, Submit, Add,
      KeysLive, KeysComplete, JobsOk, DoAll, CanAll;
    match op
    case AddJob(j, now, saved) => mvs := AddMoves(m, j, now, saved);
    case SubmitJob(j, now, saved) => mvs := SubmitMoves(m, j, now, saved);
    case UpsertRobot(d, given, now) => mvs := UpsertMoves(m, d, given, now);
    case DispatchOnce(disk, fails, now) => mvs := DispatchMoves(m, disk, fails, now);
    case DetectStale(timeout, now) => mvs := SweepMoves(m, timeout, now);
    case ReplanFor(robot) => mvs := ReplanMoves(m, robot);
    case ArchiveOld(now, saved) => mvs := ArchiveMoves(m, now, saved);
    case Reload(nextSeq, dedup, cfg, back) => mvs := ReloadMoves(m, nextSeq, dedup, cfg, back);
    case _ => mvs := SmallOperationMoves(m, op);
  }

  lemma SmallOperationMoves(m: Memory, op: Operation) returns (mvs: seq<Move>)
    requires Core(m) && Allowed(m, op)
    requires op.CompleteJob? || op.CancelJob? || op.RequeueJob? || op.RemoveRobot? || op.Acknowledge? || op.SetConfig?
      || op.ConfirmTools?
    ensures Keyless(mvs)
    ensures Leads(m, mvs, Apply(m, op))
  {
    hide Leads, Apply, Core, Allowed, Can, Do;
    CoreFacts(m);
    var m' := Apply(m, op);
    if m' == m {
      NoMove(m);
      mvs := [];
    } else {
      var mv := if op.CompleteJob? || op.CancelJob? || op.RequeueJob? || op.Acknowledge? then JobMove(op)
        else OtherMove(m, op);
      if op.CompleteJob? || op.CancelJob? || op.RequeueJob? || op.Acknowledge? { JobMoveDoes(m, op); }
        else { OtherMoveDoes(m, op); }
      OneMove(m, mv);
      mvs := [mv];
    }
  }

  lemma CoreFacts(m: Memory)
    requires Core(m)
    ensures KeysLive(m.jobs, m.dedup)
    ensures forall id :: id in m.jobs && m.jobs[id].status.InFlight() ==> m.jobs[id].robot in m.robots
  {
  }

  /** The move that an operation on one job makes, when it changes anything. */
  function JobMove(op: Operation): Move
    requires op.CompleteJob? || op.CancelJob? || op.RequeueJob? || op.Acknowledge?
  {
    match op
    case CompleteJob(id, success, _, _, now) => End(id, success, now)
    case CancelJob(id, now) => CallOff(id, now)
    case _ => TakeBack(op.id)
  }

  ghost function OtherMove(m: Memory, op: Operation): Move
    requires op.RemoveRobot? || op.SetConfig? || op.ConfirmTools?
    requires KeysLive(m.jobs, m.dedup)
  {
    match op
    case RemoveRobot(robot, _) => Forget(robot)
    case _ => Tune(Apply(m, op).cfg, Apply(m, op).seen)
  }

  lemma JobMoveDoes(m: Memory, op: Operation)
    requires Core(m) && Allowed(m, op) && (op.CompleteJob? || op.CancelJob? || op.RequeueJob? || op.Acknowledge?)
    ensures Apply(m, op) != m ==> Can(m, JobMove(op)) && Do(m, JobMove(op)) == Apply(m, op)
  {
    hide Core, KeysLive, HeldInFlight, Refreshed, Verdict, Finish, RecordTools, Add, Submit, Sweep, Upsert, Abandon;
    CoreFacts(m);
  }

  lemma OtherMoveDoes(m: Memory, op: Operation)
    requires Core(m) && Allowed(m, op) && (op.RemoveRobot? || op.SetConfig? || op.ConfirmTools?)
    ensures Apply(m, op) != m ==> Can(m, OtherMove(m, op)) && Do(m, OtherMove(m, op)) == Apply(m, op)
  {
    hide QueueOk, Stable, RobotsOk, Reserved, HeldInFlight, Refreshed, Verdict, Finish, RecordTools, KeysComplete,
      JobsOk, Add, Submit, Sweep, Upsert;
    assert op.ConfirmTools? ==>
      Apply(m, op) == m.(seen := Apply(m, op).seen) by { hide *; CoreFacts(m); ToolsOnly(m, op); }
  }

  lemma ToolsOnly(m: Memory, op: Operation)
    requires KeysLive(m.jobs, m.dedup)
    ensures op.ConfirmTools? ==> Apply(m, op) == m.(seen := Apply(m, op).seen)
  {
  }
}
