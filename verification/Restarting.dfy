/** A restart: memory is rebuilt from what the store holds. */
module Restarting {
  import opened Base
  import opened Model
  import opened Graph
  import opened Blocking
  import opened Ordering
  import opened Operations
  import opened Invariants
  import opened Lives
  import opened Moves
  import opened Storage
  import opened Workings

  /** `back` lists the stored robots that memory had removed. */
  ghost predicate Returning(robots: Robots, stored: Robots, back: seq<Robot>) {
    && (forall i :: 0 <= i < |back| ==> back[i].id in stored && back[i].id !in robots && back[i] == stored[back[i].id])
    && (forall i, k :: 0 <= i < k < |back| ==> back[i].id != back[k].id)
    && forall r :: r in stored && r !in robots ==> exists i :: 0 <= i < |back| && back[i].id == r
  }

  function Joins(back: seq<Robot>): History {
    if back == [] then [] else [Joined(back[0].id, back[0].load)] + Joins(back[1..])
  }

  /** What a start rebuilds besides the records: an index of their keys, in whatever order they come, and
      a counter above their numbers. */
  ghost predicate Loads(m: Memory, d: Disk, op: Operation) {
    && op.Reload? && (forall id :: id in d.jobs ==> d.jobs[id].id == id && d.jobs[id].seqNo < op.nextSeq)
    && KeysLive(d.jobs, op.dedup) && KeysFound(d.jobs, op.dedup) && Returning(m.robots, d.robots, op.back)
  }

  /** Memory after a start from the store; stop requests and tool answers are gone. */
  function Loaded(log: History, d: Disk, op: Operation): Memory
    requires op.Reload?
  {
    Memory(d.jobs, d.robots, op.nextSeq, op.dedup, map[], op.cfg, map[], log + Joins(op.back))
  }

  /** What the store must hold for a start from it to give a sound engine. */
  ghost predicate StoreSound(d: Disk) {
    && SeqsDistinct(d.jobs) && DepsLive(d.jobs) && NoCycle(d.jobs) && Ready(d.jobs) && Held(d.jobs) && Stable(d.jobs)
    && RobotsOk(d.robots) && Reserved(d.jobs, d.robots)
  }

  /** A start gives a sound engine if and only if the store held sound records: nothing is repaired, and
      what the start rebuilds itself is always right. */
  lemma StartIsSoundIffStoreIs(m: Memory, d: Disk, op: Operation)
    requires Loads(m, d, op)
    ensures Core(Loaded(m.log, d, op)) <==> StoreSound(d)
  {
    hide NoCycle, Acyclic;
    AcyclicMeansNoCycle(d.jobs);
  }

  /** Requests do not survive, so a start gives a steady engine exactly when it gives a consistent one. */
  lemma StartIsSteadyIffStoreIsSound(m: Memory, d: Disk, op: Operation)
    requires Loads(m, d, op)
    ensures Steady(Loaded(m.log, d, op)) <==> StoreSound(d)
  {
    hide Core, StoreSound;
    StartIsSoundIffStoreIs(m, d, op);
  }

  // ---- What a restart does to the accounts ----

  /** The stored record of a job is as far in its attempts as memory is. */
  predicate SameStory(j: Job, stored: Job) {
    && stored.attempt == j.attempt
    && (stored.status == j.status || (stored.status.Waiting() && j.status.Waiting()))
    && (WasGiven(stored) ==> stored.robot == j.robot)
  }

  /** Every record tells of attempts and loads what memory tells. */
  ghost predicate TellsTheSame(m: Memory, d: Disk) {
    && (forall id :: id in d.jobs && id in m.jobs ==> SameStory(m.jobs[id], d.jobs[id]))
    && forall r :: r in d.robots && r in m.robots ==> d.robots[r].load == m.robots[r].load
  }

  /** The history goes on through a restart. The counters still agree with it afterwards if and only if
      the store told what memory told: a report whose write was lost is forgotten by the counters only. */
  lemma AccountsSurviveIffStoriesAgree(m: Memory, d: Disk, op: Operation)
    requires Accounted(m) && Loads(m, d, op) && d.jobs.Keys == m.jobs.Keys
    ensures Accounted(Loaded(m.log, d, op)) <==> TellsTheSame(m, d)
  {
    hide LivesOk, LoadsOk, SameStory, KeysLive, KeysFound, Returning, Joins;
    LivesSurvive(m, d, op);
    LoadsSurvive(m, d, op);
  }

  lemma LivesSurvive(m: Memory, d: Disk, op: Operation)
    requires LivesOk(m.jobs, m.log) && op.Reload? && d.jobs.Keys == m.jobs.Keys
    ensures LivesOk(d.jobs, m.log + Joins(op.back)) <==> forall id :: id in d.jobs ==> SameStory(m.jobs[id], d.jobs[id])
  {
    hide LifeOf, Matches, SameStory;
    forall id ensures LifeOf(m.log + Joins(op.back), id) == LifeOf(m.log, id)
      ensures id in m.jobs ==> (Matches(LifeOf(m.log, id), d.jobs[id]) <==> SameStory(m.jobs[id], d.jobs[id]))
    {
      JoinsTellNoLife(m.log, op.back, id);
      if id in m.jobs { MatchesIffSameStory(LifeOf(m.log, id), m.jobs[id], d.jobs[id]); }
    }
  }

  lemma MatchesIffSameStory(l: Life, j: Job, stored: Job)
    requires Matches(l, j)
    ensures Matches(l, stored) <==> SameStory(j, stored)
  {
  }

  lemma {:induction false} JoinsTellNoLife(log: History, back: seq<Robot>, id: JobId)
    ensures LifeOf(log + Joins(back), id) == LifeOf(log, id)
    decreases |back|
  {
    hide LifeOf, Chapter, Advance;
    if back == [] {
      assert log + [] == log;
    } else {
      var e := Joined(back[0].id, back[0].load);
      AppendLife(log, e, id);
      JoinsTellNoLife(log + [e], back[1..], id);
      assert log + Joins(back) == log + [e] + Joins(back[1..]);
    }
  }

  lemma LoadsSurvive(m: Memory, d: Disk, op: Operation)
    requires LoadsOk(m.robots, m.log) && Loads(m, d, op)
    ensures LoadsOk(d.robots, m.log + Joins(op.back)) <==>
      forall r :: r in d.robots && r in m.robots ==> d.robots[r].load == m.robots[r].load
  {
    hide LoadOf, KeysLive, KeysFound, Joins;
    forall r | r in d.robots
      ensures LoadOf(m.log + Joins(op.back), r) == if r in m.robots then m.robots[r].load else d.robots[r].load
    {
      JoinsSetLoads(m.log, op.back, r);
    }
  }

  lemma {:induction false} JoinsSetLoads(log: History, back: seq<Robot>, r: RobotId)
    requires forall i, k :: 0 <= i < k < |back| ==> back[i].id != back[k].id
    ensures (forall i :: 0 <= i < |back| ==> back[i].id != r) ==> LoadOf(log + Joins(back), r) == LoadOf(log, r)
    ensures forall i :: 0 <= i < |back| && back[i].id == r ==> LoadOf(log + Joins(back), r) == back[i].load
    decreases |back|
  {
    hide LoadOf;
    if back == [] {
      assert log + [] == log;
    } else {
      var e, rest := Joined(back[0].id, back[0].load), back[1..];
      AppendLoad(log, e, r);
      assert forall i :: 0 <= i < |rest| ==> rest[i] == back[i + 1];
      JoinsSetLoads(log + [e], rest, r);
      assert log + Joins(back) == log + [e] + Joins(rest);
      forall i | 0 <= i < |back| && back[i].id == r ensures LoadOf(log + Joins(back), r) == back[i].load {
        if i > 0 { assert rest[i - 1].id == r; }
      }
    }
  }

  /** A store in agreement tells the same. */
  lemma AgreeingStoriesAgree(m: Memory, d: Disk, exact: bool)
    requires Agrees(m.jobs, m.robots, d, exact)
    ensures TellsTheSame(m, d)
  {
  }

  // ---- A start from a store in agreement ----

  lemma {:induction false} AllJoiningIs(m: Memory, back: seq<Robot>)
    ensures var m' := AllJoining(m, back); m' == m.(robots := m'.robots, log := m.log + Joins(back))
    decreases |back|
  {
    if back != [] {
      var m1 := Joining(m, back[0]);
      AllJoiningIs(m1, back[1..]);
      assert m.log + Joins(back) == m1.log + Joins(back[1..]);
    }
  }

  lemma {:induction false} RobotsAfterJoining(m: Memory, back: seq<Robot>, r: RobotId)
    requires ComeBack(m.robots, back)
    ensures var robots := AllJoining(m, back).robots;
      && (r in m.robots ==> r in robots && robots[r] == m.robots[r])
      && (r !in m.robots ==> (r in robots <==> exists i :: 0 <= i < |back| && back[i].id == r))
      && forall i :: 0 <= i < |back| && back[i].id == r ==> r in robots && robots[r] == back[i]
    decreases |back|
  {
    if back != [] {
      var m1, rest := Joining(m, back[0]), back[1..];
      RobotsAfterJoining(m1, rest, r);
      assert forall i :: 0 <= i < |rest| ==> rest[i] == back[i + 1];
      if r == back[0].id {
        assert !exists i :: 0 <= i < |rest| && rest[i].id == r;
      } else if i :| 0 <= i < |back| && back[i].id == r {
        assert rest[i - 1].id == r;
      }
    }
  }

  /** While the store agrees with memory, loading it is the restart of memory itself, joined by the
      removed robots it still remembers. */
  lemma AgreeingStartIsReload(m: Memory, d: Disk, op: Operation, exact: bool)
    requires JobsOk(m.jobs, m.nextSeq) && KeysLive(m.jobs, m.dedup) && Agrees(m.jobs, m.robots, d, exact)
      && Loads(m, d, op)
    ensures Allowed(m, op) && Apply(m, op) == Loaded(m.log, d, op) && Agrees(d.jobs, d.robots, d, exact)
  {
    assert d.jobs == m.jobs;
    RobotsComeBack(m, d, op, exact);
    hide KeysLive, KeysFound, SeqsDistinct, Agrees, Returning, AllJoining, ComeBack;
  }

  lemma RobotsComeBack(m: Memory, d: Disk, op: Operation, exact: bool)
    requires Agrees(m.jobs, m.robots, d, exact) && Loads(m, d, op) && d.jobs == m.jobs
    ensures ComeBack(m.robots, op.back) && Agrees(d.jobs, d.robots, d, exact)
    ensures AllJoining(RestartedWith(m, op.nextSeq, op.dedup, op.cfg), op.back) == Loaded(m.log, d, op)
  {
    hide KeysLive, KeysFound, JobsAgree, AllJoining;
    var m1 := RestartedWith(m, op.nextSeq, op.dedup, op.cfg);
    AllJoiningIs(m1, op.back);
    var robots := AllJoining(m1, op.back).robots;
    forall r ensures r in robots <==> r in d.robots
      ensures r in d.robots ==> robots[r] == d.robots[r]
    {
      RobotsAfterJoining(m1, op.back, r);
    }
    assert robots == d.robots;
  }
}
