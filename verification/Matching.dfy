/** What a scheduling pass decides when every write succeeds: the one matching without envy. */
module Matching {
  import opened Base
  import opened Model
  import opened Graph
  import opened Blocking
  import opened Ordering
  import opened Operations
  import opened Invariants
  import opened Routing
  import opened Storage
  import opened Dispatching

  type Match = map<JobId, RobotId>

  ghost predicate Known(m: Memory, ids: seq<JobId>) { forall i :: 0 <= i < |ids| ==> ids[i] in m.jobs }

  /** Nobody envies a job of lower rank: a robot a job could have taken is its own, or less good for
      it than its own, or was taken by a job that ranks before it. */
  ghost predicate NoEnvy(m: Memory, ids: seq<JobId>, now: Time, a: Match)
    requires Known(m, ids) && a.Values <= m.robots.Keys
  {
    forall p, r :: 0 <= p < |ids| && r in m.robots && Eligible(m, m.robots[r], m.jobs[ids[p]], now) ==>
      Served(m, ids[p], a, r) || TakenBefore(ids, p, a, r)
  }

  ghost predicate Served(m: Memory, id: JobId, a: Match, r: RobotId)
    requires id in m.jobs && a.Values <= m.robots.Keys && r in m.robots
  {
    id in a && (a[id] == r || Prefers(m.cfg, m.jobs[id], m.robots[a[id]], m.robots[r]))
  }

  ghost predicate TakenBefore(ids: seq<JobId>, p: int, a: Match, r: RobotId)
    requires 0 <= p <= |ids|
  {
    exists q :: 0 <= q < p && ids[q] in a && a[ids[q]] == r
  }

  ghost predicate OneEach(a: Match) { forall x, y :: x in a && y in a && a[x] == a[y] ==> x == y }

  ghost predicate Possible(m: Memory, ids: seq<JobId>, now: Time, a: Match) {
    forall id :: id in a ==>
      id in ids && id in m.jobs && a[id] in m.robots && Eligible(m, m.robots[a[id]], m.jobs[id], now)
  }

  /** At most one job per robot, eligible robots only, and no envy. */
  ghost predicate Fair(m: Memory, ids: seq<JobId>, now: Time, a: Match)
    requires Known(m, ids)
  {
    OneEach(a) && Possible(m, ids, now, a) && a.Values <= m.robots.Keys && NoEnvy(m, ids, now, a)
  }

  /** The matching of the greedy pass. */
  ghost function Greedy(m: Memory, ids: seq<JobId>, now: Time): Match
    decreases |ids|
  {
    if ids == [] then map[]
    else if ids[0] !in m.jobs then Greedy(m, ids[1..], now)
    else
      var best := Best(m, m.jobs[ids[0]], now);
      if best.None? || best.value !in m.robots then Greedy(m, ids[1..], now)
      else Greedy(Give(m, ids[0], best.value, now), ids[1..], now)[ids[0] := best.value]
  }

  /** Memory after every pair of `a` was assigned. */
  ghost predicate Carried(m: Memory, m': Memory, now: Time, a: Match) {
    && m'.jobs.Keys == m.jobs.Keys && m'.robots.Keys == m.robots.Keys && m'.cfg == m.cfg && m'.seen == m.seen
    && (forall id :: id in m.jobs ==> m'.jobs[id] == if id in a then GivenJob(m.jobs[id], a[id], now) else m.jobs[id])
    && forall r :: r in m.robots ==>
      m'.robots[r] == if r in a.Values then m.robots[r].(available := false) else m.robots[r]
  }

  /** With healthy writes the pass carries out the greedy matching, and returns it. */
  lemma {:induction false} PassCarriesGreedy(p: Pass, fails: Faults, ids: seq<JobId>, now: Time)
    requires forall n :: n >= p.disk.writes ==> !fails(n)
    requires Distinct(ids)
    ensures Carried(p.mem, OfferAll(p, fails, ids, now).mem, now, Greedy(p.mem, ids, now))
    ensures forall id :: id in Greedy(p.mem, ids, now) ==> id in ids && id in p.mem.jobs
    decreases |ids|
  {
    if ids != [] {
      var id, rest := ids[0], ids[1..];
      var p' := Offer(p, fails, id, now);
      assert forall x :: x in rest ==> x in ids;
      assert id !in rest;
      PassCarriesGreedy(p', fails, rest, now);
      hide Best, OfferAll;
      if id in p.mem.jobs {
        var best := Best(p.mem, p.mem.jobs[id], now);
        if best.Some? && best.value in p.mem.robots {
          var a := Greedy(p'.mem, rest, now);
          var m' := OfferAll(p', fails, rest, now).mem;
          assert p'.mem == Give(p.mem, id, best.value, now);
          assert OfferAll(p, fails, ids, now) == OfferAll(p', fails, rest, now) by { PassStep(p, fails, ids, now); }
          GreedyStep(p.mem, ids, now, best.value);
          CarriedStep(p.mem, m', now, a, id, best.value);
        } else {
          PassStep(p, fails, ids, now);
        }
      } else {
        PassStep(p, fails, ids, now);
      }
    } else {
      PassEnds(p, fails, now);
    }
  }

  lemma PassEnds(p: Pass, fails: Faults, now: Time)
    ensures OfferAll(p, fails, [], now) == p && Greedy(p.mem, [], now) == map[] && Carried(p.mem, p.mem, now, map[])
  {
  }

  lemma PassStep(p: Pass, fails: Faults, ids: seq<JobId>, now: Time)
    requires ids != []
    ensures OfferAll(p, fails, ids, now) == OfferAll(Offer(p, fails, ids[0], now), fails, ids[1..], now)
  {
  }

  lemma GreedyStep(m: Memory, ids: seq<JobId>, now: Time, r: RobotId)
    requires ids != [] && ids[0] in m.jobs && r in m.robots && Best(m, m.jobs[ids[0]], now) == Some(r)
    ensures Greedy(m, ids, now) == Greedy(Give(m, ids[0], r, now), ids[1..], now)[ids[0] := r]
  {
  }

  lemma CarriedRobots(m: Memory, robots': Robots, a: Match, id: JobId, r: RobotId)
    requires r in m.robots && id !in a && robots'.Keys == m.robots.Keys
    requires var robots1 := m.robots[r := m.robots[r].(available := false)];
      forall q :: q in robots1 ==> robots'[q] == if q in a.Values then robots1[q].(available := false) else robots1[q]
    ensures forall q :: q in m.robots ==>
      robots'[q] == if q in a[id := r].Values then m.robots[q].(available := false) else m.robots[q]
  {
    var b := a[id := r];
    assert b.Values == a.Values + {r} by {
      assert b[id] == r;
      forall v | v in a.Values ensures v in b.Values { var x :| x in a && a[x] == v; assert b[x] == v; }
    }
  }

  lemma CarriedStep(m: Memory, m': Memory, now: Time, a: Match, id: JobId, r: RobotId)
    requires id in m.jobs && r in m.robots && id !in a && Carried(Give(m, id, r, now), m', now, a)
    ensures Carried(m, m', now, a[id := r])
  {
    hide GivenJob;
    var b, m1 := a[id := r], Give(m, id, r, now);
    CarriedRobots(m, m'.robots, a, id, r);
    forall x | x in m.jobs ensures m'.jobs[x] == if x in b then GivenJob(m.jobs[x], b[x], now) else m.jobs[x] {
      assert m'.jobs[x] == if x in a then GivenJob(m1.jobs[x], a[x], now) else m1.jobs[x];
    }
  }

  lemma EligibleAfterGive(m: Memory, id: JobId, r: RobotId, now: Time, q: RobotId, j: Job)
    requires id in m.jobs && r in m.robots && q in m.robots
    ensures q in Give(m, id, r, now).robots
    ensures Eligible(Give(m, id, r, now), Give(m, id, r, now).robots[q], j, now) <==>
      q != r && Eligible(m, m.robots[q], j, now)
  {
  }

  /** The greedy matching is fair. */
  lemma {:induction false} GreedyIsFair(m: Memory, ids: seq<JobId>, now: Time)
    requires NamesAgree(m.robots) && Distinct(ids) && Known(m, ids)
    ensures Fair(m, ids, now, Greedy(m, ids, now))
    decreases |ids|
  {
    if ids != [] {
      var id, rest := ids[0], ids[1..];
      BestIs(m, m.jobs[id], now);
      var best := Best(m, m.jobs[id], now);
      assert forall i :: 0 <= i < |rest| ==> rest[i] == ids[i + 1];
      hide Eligible, Prefers, Best;
      if best.None? {
        GreedyIsFair(m, rest, now);
        NobodyServed(m, ids, now, Greedy(m, rest, now));
      } else {
        var m1 := Give(m, id, best.value, now);
        GreedyIsFair(m1, rest, now);
        GreedyStep(m, ids, now, best.value);
        FirstServed(m, ids, now, best.value, Greedy(m1, rest, now));
      }
    }
  }

  lemma NobodyServed(m: Memory, ids: seq<JobId>, now: Time, a: Match)
    requires ids != [] && Known(m, ids) && Distinct(ids) && IsBest(m, m.jobs[ids[0]], now, None)
    requires Known(m, ids[1..]) && Fair(m, ids[1..], now, a)
    ensures Fair(m, ids, now, a)
  {
    hide Eligible, Prefers;
    var rest := ids[1..];
    forall p, r | 0 <= p < |ids| && r in m.robots && Eligible(m, m.robots[r], m.jobs[ids[p]], now)
      ensures Served(m, ids[p], a, r) || TakenBefore(ids, p, a, r)
    {
      assert p > 0 && ids[p] == rest[p - 1];
      if TakenBefore(rest, p - 1, a, r) {
        var q :| 0 <= q < p - 1 && rest[q] in a && a[rest[q]] == r;
        assert ids[q + 1] == rest[q];
      }
    }
  }

  lemma FirstServed(m: Memory, ids: seq<JobId>, now: Time, b: RobotId, a: Match)
    requires ids != [] && Known(m, ids) && Distinct(ids) && IsBest(m, m.jobs[ids[0]], now, Some(b))
    requires var m1 := Give(m, ids[0], b, now); Known(m1, ids[1..]) && Fair(m1, ids[1..], now, a)
    ensures Fair(m, ids, now, a[ids[0] := b])
  {
    var id, rest := ids[0], ids[1..];
    var m1, a' := Give(m, id, b, now), a[id := b];
    forall x | x in a ensures x != id && a[x] != b && x in rest && Eligible(m, m.robots[a[x]], m.jobs[x], now) {
      EligibleAfterGive(m, id, b, now, a[x], m1.jobs[x]);
      var i :| 0 <= i < |rest| && rest[i] == x;
      assert ids[i + 1] == x;
    }
    hide Eligible, Prefers;
    assert forall x :: x in a' <==> x == id || x in a;
    assert OneEach(a');
    assert a'.Values <= m.robots.Keys by {
      forall v | v in a'.Values ensures v in m.robots { var x :| x in a' && a'[x] == v; }
    }
    assert Possible(m, ids, now, a');
    forall p, r | 0 <= p < |ids| && r in m.robots && Eligible(m, m.robots[r], m.jobs[ids[p]], now)
      ensures Served(m, ids[p], a', r) || TakenBefore(ids, p, a', r)
    {
      if p > 0 {
        LaterServed(m, ids, now, b, a, p, r);
      }
    }
  }

  lemma LaterServed(m: Memory, ids: seq<JobId>, now: Time, b: RobotId, a: Match, p: int, r: RobotId)
    requires 0 < p < |ids| && Known(m, ids) && Distinct(ids) && b in m.robots && r in m.robots
    requires var m1 := Give(m, ids[0], b, now); Known(m1, ids[1..]) && Fair(m1, ids[1..], now, a)
    requires Eligible(m, m.robots[r], m.jobs[ids[p]], now)
    requires forall x :: x in a ==> x != ids[0] && a[x] != b
    requires a[ids[0] := b].Values <= m.robots.Keys
    ensures Served(m, ids[p], a[ids[0] := b], r) || TakenBefore(ids, p, a[ids[0] := b], r)
  {
    var id, rest := ids[0], ids[1..];
    var m1, a' := Give(m, id, b, now), a[id := b];
    assert ids[p] == rest[p - 1] && m1.jobs[ids[p]] == m.jobs[ids[p]];
    EligibleAfterGive(m, id, b, now, r, m.jobs[ids[p]]);
    SameTaste(m, id, b, now, ids[p], a, r);
    hide Eligible, Prefers;
    if r == b {
      assert ids[0] in a' && a'[ids[0]] == r;
    } else if Served(m1, rest[p - 1], a, r) {
    } else {
      var q :| 0 <= q < p - 1 && rest[q] in a && a[rest[q]] == r;
      assert ids[q + 1] == rest[q] && a'[ids[q + 1]] == r;
    }
  }

  lemma SameTaste(m: Memory, id: JobId, b: RobotId, now: Time, x: JobId, a: Match, r: RobotId)
    requires id in m.jobs && b in m.robots && x in m.jobs && r in m.robots
    requires x in a ==> a[x] in m.robots && a[x] != b
    ensures var m1 := Give(m, id, b, now);
      r != b && x in a ==> (Prefers(m1.cfg, m.jobs[x], m1.robots[a[x]], m1.robots[r]) <==>
        Prefers(m.cfg, m.jobs[x], m.robots[a[x]], m.robots[r]))
  {
  }

  /** There is no other fair matching: map order, or any other order of the scan, decides nothing. */
  lemma FairIsGreedy(m: Memory, ids: seq<JobId>, now: Time, a: Match)
    requires NamesAgree(m.robots) && Distinct(ids) && Known(m, ids) && Fair(m, ids, now, a)
    ensures a == Greedy(m, ids, now)
  {
    var b := Greedy(m, ids, now);
    GreedyIsFair(m, ids, now);
    hide Greedy, Fair;
    AgreeUpTo(m, ids, now, a, b, |ids|);
    hide NamesAgree, Distinct, Known;
    FairKeys(m, ids, now, a);
    FairKeys(m, ids, now, b);
    forall id | id in a || id in b ensures id in a && id in b && a[id] == b[id] {
      var i :| 0 <= i < |ids| && ids[i] == id;
      assert Agree(a, b, ids[i]);
    }
  }

  lemma FairKeys(m: Memory, ids: seq<JobId>, now: Time, a: Match)
    requires Known(m, ids) && Fair(m, ids, now, a)
    ensures forall id :: id in a ==> id in ids
  {
  }

  ghost predicate Agree(a: Match, b: Match, id: JobId) {
    (id in a <==> id in b) && (id in a && id in b ==> a[id] == b[id])
  }

  lemma {:induction false} AgreeUpTo(m: Memory, ids: seq<JobId>, now: Time, a: Match, b: Match, p: nat)
    requires NamesAgree(m.robots) && Distinct(ids) && Known(m, ids) && Fair(m, ids, now, a) && Fair(m, ids, now, b)
      && p <= |ids|
    ensures forall q :: 0 <= q < p ==> Agree(a, b, ids[q])
  {
    if p > 0 {
      hide Fair;
      AgreeUpTo(m, ids, now, a, b, p - 1);
      AgreeNext(m, ids, now, a, b, p - 1);
    }
  }

  lemma AgreeNext(m: Memory, ids: seq<JobId>, now: Time, a: Match, b: Match, p: nat)
    requires NamesAgree(m.robots) && Distinct(ids) && Known(m, ids) && Fair(m, ids, now, a) && Fair(m, ids, now, b)
      && p < |ids|
    requires forall q :: 0 <= q < p ==> Agree(a, b, ids[q])
    ensures Agree(a, b, ids[p])
  {
    hide Fair;
    if ids[p] in a { OwnRobotIsFree(m, ids, now, a, b, p); }
    if ids[p] in b { OwnRobotIsFree(m, ids, now, b, a, p); }
    if ids[p] in a && ids[p] in b && a[ids[p]] != b[ids[p]] {
      PreferencesOrder(m.cfg, m.jobs[ids[p]], m.robots[a[ids[p]]], m.robots[b[ids[p]]], m.robots[a[ids[p]]]);
    }
  }

  /** The robot a job has in one fair matching was not taken before it in the other. */
  lemma OwnRobotIsFree(m: Memory, ids: seq<JobId>, now: Time, a: Match, b: Match, p: nat)
    requires Distinct(ids) && Known(m, ids) && Fair(m, ids, now, a) && Fair(m, ids, now, b) && p < |ids| && ids[p] in a
    requires forall q :: 0 <= q < p ==> Agree(a, b, ids[q])
    ensures a[ids[p]] in m.robots && ids[p] in b && b[ids[p]] in m.robots
    ensures b[ids[p]] == a[ids[p]] || Prefers(m.cfg, m.jobs[ids[p]], m.robots[b[ids[p]]], m.robots[a[ids[p]]])
  {
    hide Eligible, Prefers;
    var r := a[ids[p]];
    assert Possible(m, ids, now, a);
    forall q | 0 <= q < p && ids[q] in b ensures b[ids[q]] != r {
      assert Agree(a, b, ids[q]) && ids[q] != ids[p];
    }
    assert Served(m, ids[p], b, r);
  }

  // ---- The pass as a whole ----

  ghost function DispatchQueue(m: Memory): seq<JobId> { Queue(m.jobs, ByPriority, PendingSet(m.jobs)) }

  lemma QueueIsFitForMatching(m: Memory)
    requires Core(m)
    ensures IsQueue(m.jobs, ByPriority, PendingSet(m.jobs), DispatchQueue(m))
    ensures Distinct(DispatchQueue(m)) && Known(m, DispatchQueue(m)) && NamesAgree(m.robots)
    ensures forall id :: id in DispatchQueue(m) <==> id in m.jobs && m.jobs[id].status == Pending
  {
    hide Reserved, KeysLive, Stable, Ready, Held, Acyclic, DepsLive;
    QueueExists(m.jobs, ByPriority, PendingSet(m.jobs));
    QueueHasNoRepeats(m.jobs, ByPriority, PendingSet(m.jobs), DispatchQueue(m));
  }

  /** With healthy writes a pass carries out a matching that is fair for the jobs in dispatch order,
      and there is only one; afterwards no pending job has an eligible robot. */
  lemma PassIsTheFairMatching(m: Memory, disk: Disk, fails: Faults, now: Time, a: Match)
    requires Core(m) && forall n :: n >= disk.writes ==> !fails(n)
    ensures Known(m, DispatchQueue(m)) && Distinct(DispatchQueue(m))
    ensures Fair(m, DispatchQueue(m), now, a) <==>
      Carried(m, Dispatch(m, disk, fails, now).mem, now, a) && a.Keys <= PendingSet(m.jobs)
    ensures var m' := Dispatch(m, disk, fails, now).mem;
      forall id, r :: id in m'.jobs && m'.jobs[id].status == Pending && r in m'.robots ==>
        !Eligible(m', m'.robots[r], m'.jobs[id], now)
  {
    var ids := DispatchQueue(m);
    var m' := Dispatch(m, disk, fails, now).mem;
    var g := Greedy(m, ids, now);
    QueueIsFitForMatching(m);
    hide Core;
    PassCarriesGreedy(Pass(m, disk, [], []), fails, ids, now);
    assert Carried(m, m', now, g);
    GreedyIsFair(m, ids, now);
    NoneLeftOver(m, m', ids, now, g);
    hide Greedy, Fair, Dispatch, NamesAgree, Distinct, Known;
    if Fair(m, ids, now, a) {
      FairIsGreedy(m, ids, now, a);
      FairKeys(m, ids, now, g);
    }
    if Carried(m, m', now, a) && a.Keys <= PendingSet(m.jobs) {
      FairKeys(m, ids, now, g);
      CarriedIsOne(m, m', now, a, g);
    }
  }

  /** The state after a pass tells which matching it carried out. */
  lemma CarriedIsOne(m: Memory, m': Memory, now: Time, a: Match, b: Match)
    requires Carried(m, m', now, a) && Carried(m, m', now, b)
    requires a.Keys <= PendingSet(m.jobs) && b.Keys <= PendingSet(m.jobs)
    ensures a == b
  {
  }

  lemma NoneLeftOver(m: Memory, m': Memory, ids: seq<JobId>, now: Time, a: Match)
    requires Known(m, ids) && Fair(m, ids, now, a) && Carried(m, m', now, a)
    requires forall id :: id in ids <==> id in m.jobs && m.jobs[id].status == Pending
    ensures forall id, r :: id in m'.jobs && m'.jobs[id].status == Pending && r in m'.robots ==>
      !Eligible(m', m'.robots[r], m'.jobs[id], now)
  {
    forall id, r | id in m'.jobs && m'.jobs[id].status == Pending && r in m'.robots
      && Eligible(m', m'.robots[r], m'.jobs[id], now) ensures false {
      assert id !in a && m.jobs[id] == m'.jobs[id];
      assert r !in a.Values && m.robots[r] == m'.robots[r];
      assert Eligible(m, m.robots[r], m.jobs[id], now);
    }
  }
}
