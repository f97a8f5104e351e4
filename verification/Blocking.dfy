/** The verdict on a waiting job (pending, blocked or unreachable) and its fixed point over the queue. */
module Blocking {
  import opened Base
  import opened Model
  import opened Graph

  /** What the present statuses of the dependencies say about a job. */
  ghost function Verdict(jobs: Jobs, deps: seq<JobId>): Status {
    if exists d :: d in deps && d in jobs && jobs[d].status.Dead() then Unreachable
    else if exists d :: d in deps && d in jobs && jobs[d].status != Done then Blocked
    else Pending
  }

  method ComputeStatus(jobs: Jobs, deps: seq<JobId>) returns (s: Status)
    ensures s == Verdict(jobs, deps)
  {
    var blocked := false;
    for i := 0 to |deps|
      invariant forall k :: 0 <= k < i && deps[k] in jobs ==> !jobs[deps[k]].status.Dead()
      invariant blocked <==> exists k :: 0 <= k < i && deps[k] in jobs && jobs[deps[k]].status != Done
    {
      if deps[i] in jobs {
        if jobs[deps[i]].status.Dead() {
          return Unreachable;
        }
        blocked := blocked || jobs[deps[i]].status != Done;
      }
    }
    return if blocked then Blocked else Pending;
  }

  /** Every waiting job carries the verdict of its dependencies. */
  ghost predicate Stable(jobs: Jobs) {
    forall id :: id in jobs && jobs[id].status.Waiting() ==> jobs[id].status == Verdict(jobs, jobs[id].deps)
  }

  /** The same queue, except that waiting jobs may carry another waiting status. */
  ghost predicate Reverdict(jobs: Jobs, jobs': Jobs) {
    && jobs'.Keys == jobs.Keys
    && forall id :: id in jobs ==>
         && jobs'[id] == jobs[id].(status := jobs'[id].status)
         && (if jobs[id].status.Waiting() then jobs'[id].status.Waiting() else jobs'[id].status == jobs[id].status)
  }

  /** The status a job ends with, computed from its dependencies upwards. */
  ghost function Final(jobs: Jobs, rank: map<JobId, nat>, id: JobId): (s: Status)
    requires Ranked(jobs, rank) && id in jobs
    ensures jobs[id].status.Waiting() ==> s.Waiting()
    ensures !jobs[id].status.Waiting() ==> s == jobs[id].status
    decreases rank[id]
  {
    if !jobs[id].status.Waiting() then jobs[id].status
    else if exists d :: d in jobs[id].deps && d in jobs && Final(jobs, rank, d).Dead() then Unreachable
    else if exists d :: d in jobs[id].deps && d in jobs && Final(jobs, rank, d) != Done then Blocked
    else Pending
  }

  /** The one stable queue that differs from `jobs` in verdicts only. */
  ghost function Refreshed(jobs: Jobs): Jobs {
    if Acyclic(jobs) then
      var rank :| Ranked(jobs, rank);
      map id | id in jobs :: jobs[id].(status := Final(jobs, rank, id))
    else jobs
  }

  lemma {:induction false} StableIsFinal(jobs: Jobs, rank: map<JobId, nat>, jobs': Jobs, id: JobId)
    requires Ranked(jobs, rank) && Reverdict(jobs, jobs') && Stable(jobs') && id in jobs
    ensures jobs'[id].status == Final(jobs, rank, id)
    decreases rank[id]
  {
    if jobs[id].status.Waiting() {
      forall d | d in jobs[id].deps && d in jobs ensures jobs'[d].status == Final(jobs, rank, d) {
        StableIsFinal(jobs, rank, jobs', d);
      }
      VerdictOfFinal(jobs, rank, jobs', id);
    }
  }

  lemma VerdictOfFinal(jobs: Jobs, rank: map<JobId, nat>, jobs': Jobs, id: JobId)
    requires Ranked(jobs, rank) && Reverdict(jobs, jobs') && id in jobs && jobs[id].status.Waiting()
    requires forall d :: d in jobs[id].deps && d in jobs ==> jobs'[d].status == Final(jobs, rank, d)
    ensures Verdict(jobs', jobs'[id].deps) == Final(jobs, rank, id)
  {
  }

  /** Confluence: however the verdicts are recomputed, there is only one place to stop. */
  lemma StableIsUnique(jobs: Jobs, a: Jobs, b: Jobs)
    requires Acyclic(jobs) && Reverdict(jobs, a) && Reverdict(jobs, b) && Stable(a) && Stable(b)
    ensures a == b
  {
    var rank :| Ranked(jobs, rank);
    forall id | id in jobs ensures a[id] == b[id] {
      StableIsFinal(jobs, rank, a, id);
      StableIsFinal(jobs, rank, b, id);
    }
  }

  lemma RefreshedIsStable(jobs: Jobs)
    requires Acyclic(jobs)
    ensures Reverdict(jobs, Refreshed(jobs)) && Stable(Refreshed(jobs))
  {
  }

  /** A stable queue differing in verdicts only is the refreshed one. */
  lemma StableIsRefreshed(jobs: Jobs, jobs': Jobs)
    requires Acyclic(jobs) && Reverdict(jobs, jobs') && Stable(jobs')
    ensures jobs' == Refreshed(jobs)
  {
    RefreshedIsStable(jobs);
    StableIsUnique(jobs, jobs', Refreshed(jobs));
  }

  /** A chain of waiting jobs leads from `id` to a failed or cancelled one. */
  ghost predicate Doomed(jobs: Jobs, id: JobId) {
    exists p :: Path(jobs, p) && p[0] == id && DeadEnd(jobs, p)
  }

  ghost predicate DeadEnd(jobs: Jobs, p: seq<JobId>)
    requires p != []
  {
    && p[|p| - 1] in jobs && (jobs[p[|p| - 1]].status == Failed || jobs[p[|p| - 1]].status == Cancelled)
    && forall i :: 0 <= i < |p| - 1 ==> p[i] in jobs && jobs[p[i]].status.Waiting()
  }

  lemma {:induction false} DoomedIsFinal(jobs: Jobs, rank: map<JobId, nat>, id: JobId)
    requires Ranked(jobs, rank) && id in jobs
    ensures Final(jobs, rank, id).Dead() <==> Doomed(jobs, id)
    decreases rank[id]
  {
    if !jobs[id].status.Waiting() {
      if jobs[id].status.Dead() {
        assert Path(jobs, [id]) && DeadEnd(jobs, [id]);
      }
      assert forall p :: Path(jobs, p) && p[0] == id && DeadEnd(jobs, p) ==> |p| == 1;
    } else {
      forall d | d in jobs[id].deps && d in jobs ensures Final(jobs, rank, d).Dead() <==> Doomed(jobs, d) {
        DoomedIsFinal(jobs, rank, d);
      }
      DoomedThroughDependency(jobs, id);
    }
  }

  lemma DoomedThroughDependency(jobs: Jobs, id: JobId)
    requires id in jobs && jobs[id].status.Waiting()
    ensures Doomed(jobs, id) <==> exists d :: d in jobs[id].deps && d in jobs && Doomed(jobs, d)
  {
    if Doomed(jobs, id) {
      var p :| Path(jobs, p) && p[0] == id && DeadEnd(jobs, p);
      assert |p| > 1;
      TailOfDeadEnd(jobs, p);
    }
    forall d | d in jobs[id].deps && d in jobs && Doomed(jobs, d) ensures Doomed(jobs, id) {
      var p :| Path(jobs, p) && p[0] == d && DeadEnd(jobs, p);
      var q := [id] + p;
      assert forall i :: 0 < i < |q| ==> q[i] == p[i - 1];
      forall i | 0 <= i < |q| - 1 ensures q[i] in jobs && q[i + 1] in jobs[q[i]].deps {
        if i > 0 { assert q[i] == p[i - 1] && q[i + 1] == p[i]; }
      }
      assert Path(jobs, q) && DeadEnd(jobs, q);
    }
  }

  lemma TailOfDeadEnd(jobs: Jobs, p: seq<JobId>)
    requires |p| > 1 && Path(jobs, p) && DeadEnd(jobs, p)
    ensures p[0] in jobs && p[1] in jobs[p[0]].deps && p[1] in jobs && Doomed(jobs, p[1])
  {
    PathTail(jobs, p);
    var q := p[1..];
    assert forall i :: 0 <= i < |q| ==> q[i] == p[i + 1];
    assert DeadEnd(jobs, q);
  }

  /** What the refreshed status of a waiting job means. */
  lemma RefreshedMeaning(jobs: Jobs, id: JobId)
    requires Acyclic(jobs) && id in jobs && jobs[id].status.Waiting()
    ensures id in Refreshed(jobs) && Refreshed(jobs)[id].status.Waiting()
    ensures Refreshed(jobs)[id].status == Unreachable <==> Doomed(jobs, id)
    ensures Refreshed(jobs)[id].status == Pending <==>
      forall d :: d in jobs[id].deps && d in jobs ==> jobs[d].status == Done
  {
    RefreshedIsStable(jobs);
    var rank :| Ranked(jobs, rank);
    hide Refreshed, Doomed;
    StableIsFinal(jobs, rank, Refreshed(jobs), id);
    DoomedIsFinal(jobs, rank, id);
    FinalPending(jobs, rank, id);
  }

  lemma FinalPending(jobs: Jobs, rank: map<JobId, nat>, id: JobId)
    requires Ranked(jobs, rank) && id in jobs && jobs[id].status.Waiting()
    ensures Final(jobs, rank, id) == Pending <==> forall d :: d in jobs[id].deps && d in jobs ==> jobs[d].status == Done
  {
    forall d | d in jobs[id].deps && d in jobs ensures Final(jobs, rank, d) == Done <==> jobs[d].status == Done {
    }
  }

  // ---- The loop of the engine: one pass after another, each in any order ----

  /** After `k` whole passes and one that still has `todo` to visit: every job of rank below `k`,
      and every visited one of rank `k`, has its final status. */
  ghost predicate Passed(jobs: Jobs, rank: map<JobId, nat>, jobs': Jobs, k: nat, todo: set<JobId>)
    requires Ranked(jobs, rank) && jobs'.Keys == jobs.Keys
  {
    forall id :: id in jobs && (rank[id] < k || (rank[id] == k && id !in todo)) ==>
      jobs'[id].status == Final(jobs, rank, id)
  }

  /** One visit, whatever job comes next. */
  lemma VisitKeepsPass(jobs: Jobs, rank: map<JobId, nat>, now: Jobs, k: nat, todo: set<JobId>, id: JobId)
    requires Ranked(jobs, rank) && Reverdict(jobs, now) && Passed(jobs, rank, now, k, todo) && id in todo && id in jobs
    ensures Visited(now, id).Keys == jobs.Keys
    ensures Reverdict(jobs, Visited(now, id)) && Passed(jobs, rank, Visited(now, id), k, todo - {id})
    ensures rank[id] < k ==> Visited(now, id) == now
  {
    hide Final, Verdict;
    assert Verdict(now, now[id].deps).Waiting() by { hide *; VerdictWaits(now, now[id].deps); }
    if jobs[id].status.Waiting() && rank[id] <= k {
      VerdictOfFinal(jobs, rank, now, id);
    }
    if !jobs[id].status.Waiting() { FinalOfOthers(jobs, rank, id); }
  }

  lemma VerdictWaits(jobs: Jobs, deps: seq<JobId>)
    ensures Verdict(jobs, deps).Waiting()
  {
  }

  lemma FinalOfOthers(jobs: Jobs, rank: map<JobId, nat>, id: JobId)
    requires Ranked(jobs, rank) && id in jobs && !jobs[id].status.Waiting()
    ensures Final(jobs, rank, id) == jobs[id].status
  {
  }

  ghost function Visited(now: Jobs, id: JobId): Jobs
    requires id in now
  {
    if now[id].status.Waiting() then now[id := now[id].(status := Verdict(now, now[id].deps))] else now
  }

  /** The state of the loop over passes. */
  ghost predicate Settling(jobs: Jobs, rank: map<JobId, nat>, now: Jobs, k: nat, todo: set<JobId>) {
    Ranked(jobs, rank) && Reverdict(jobs, now) && Passed(jobs, rank, now, k, todo)
  }

  lemma SettlingBegins(jobs: Jobs, rank: map<JobId, nat>)
    requires Ranked(jobs, rank)
    ensures Settling(jobs, rank, jobs, 0, jobs.Keys)
  {
  }

  lemma SettlingGoesOn(jobs: Jobs, rank: map<JobId, nat>, now: Jobs, k: nat, todo: set<JobId>, id: JobId)
    requires Settling(jobs, rank, now, k, todo) && id in todo && id in jobs
    ensures id in now && Visited(now, id).Keys == jobs.Keys && Settling(jobs, rank, Visited(now, id), k, todo - {id})
    ensures k >= Above(rank) ==> Visited(now, id) == now
  {
    VisitKeepsPass(jobs, rank, now, k, todo, id);
  }

  lemma SettlingNextPass(jobs: Jobs, rank: map<JobId, nat>, now: Jobs, k: nat)
    requires Settling(jobs, rank, now, k, {})
    ensures Settling(jobs, rank, now, k + 1, jobs.Keys)
  {
  }

  /** A pass that changed nothing found every verdict right: the queue is the refreshed one. */
  lemma SettlingEnds(jobs: Jobs, rank: map<JobId, nat>, now: Jobs, k: nat, todo: set<JobId>)
    requires Settling(jobs, rank, now, k, todo) && forall id :: id in now ==> Visited(now, id) == now
    ensures now == Refreshed(jobs)
  {
    forall id | id in now && now[id].status.Waiting() ensures now[id].status == Verdict(now, now[id].deps) {
      assert Visited(now, id)[id] == now[id];
    }
    StableIsRefreshed(jobs, now);
  }

  ghost function VisitAll(now: Jobs, order: seq<JobId>): Jobs
    requires forall id :: id in order ==> id in now
  {
    if order == [] then now else VisitAll(Visited(now, order[0]), order[1..])
  }

  /** Why the queue must stay acyclic: on a ring of three jobs one order of visits changes verdicts
      in every pass, for ever. */
  lemma RingNeverSettles()
    ensures exists ring: Jobs, order: seq<JobId> ::
      && |order| == 3 && (forall id :: id in order <==> id in ring)
      && VisitAll(ring, order) != ring
      && VisitAll(ring, order).Keys == ring.Keys
      && VisitAll(VisitAll(ring, order), order) == ring
  {
    var one := Job("1", 0, "", "", ["3"], Unreachable, "", "", 0, 0, 0, 0, 1);
    var two := Job("2", 0, "", "", ["1"], Blocked, "", "", 0, 0, 0, 0, 2);
    var three := Job("3", 0, "", "", ["2"], Blocked, "", "", 0, 0, 0, 0, 3);
    var ring: Jobs := map["1" := one, "2" := two, "3" := three];
    var flipped: Jobs := map["1" := one.(status := Blocked), "2" := two.(status := Unreachable),
      "3" := three.(status := Unreachable)];
    var order := ["2", "1", "3"];
    RingPass(ring, flipped, order);
    RingPass(flipped, ring, order);
  }

  lemma RingPass(a: Jobs, b: Jobs, order: seq<JobId>)
    requires order == ["2", "1", "3"] && a.Keys == {"1", "2", "3"} && b.Keys == a.Keys
    requires a["1"].deps == ["3"] && a["2"].deps == ["1"] && a["3"].deps == ["2"]
    requires forall id :: id in a ==>
      (a[id].status == Blocked || a[id].status == Unreachable) && b[id] == a[id].(status := b[id].status)
    requires b["2"].status == a["1"].status && b["1"].status == a["3"].status && b["3"].status == b["2"].status
    ensures VisitAll(a, order) == b
  {
    hide Verdict, Visited;
    VisitFollows(a, "2", "1");
    var a1 := Visited(a, "2");
    VisitFollows(a1, "1", "3");
    var a2 := Visited(a1, "1");
    VisitFollows(a2, "3", "2");
    var a3 := Visited(a2, "3");
    assert a3 == b;
    assert order[1..] == ["1", "3"] && order[1..][1..] == ["3"] && order[1..][1..][1..] == [];
    assert VisitAll(a3, []) == a3;
    assert VisitAll(a2, ["3"]) == a3;
    assert VisitAll(a1, ["1", "3"]) == a3;
  }

  lemma VisitFollows(now: Jobs, id: JobId, d: JobId)
    requires id in now && d in now && now[id].deps == [d]
    requires now[id].status == Blocked || now[id].status == Unreachable
    requires now[d].status == Blocked || now[d].status == Unreachable
    ensures Visited(now, id) == now[id := now[id].(status := now[d].status)]
  {
    assert d in [d];
  }
}
