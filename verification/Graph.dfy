/** The dependency graph of the queue: reachability, acyclicity, and the search that guards a retry. */
module Graph {
  import opened Base
  import opened Model

  /** Every dependency names a job of the queue. */
  ghost predicate DepsLive(jobs: Jobs) {
    forall id, d :: id in jobs && d in jobs[id].deps ==> d in jobs
  }

  ghost predicate Ranked(jobs: Jobs, rank: map<JobId, nat>) {
    && jobs.Keys <= rank.Keys
    && forall id, d :: id in jobs && d in jobs[id].deps && d in jobs ==> rank[d] < rank[id]
  }

  /** The jobs can be numbered so that every dependency has a smaller number. */
  ghost predicate Acyclic(jobs: Jobs) {
    exists rank :: Ranked(jobs, rank)
  }

  /** `p` follows dependencies; every vertex but the last is a job of the queue. */
  ghost predicate Path(jobs: Jobs, p: seq<JobId>) {
    && p != []
    && forall i :: 0 <= i < |p| - 1 ==> p[i] in jobs && p[i + 1] in jobs[p[i]].deps
  }

  ghost predicate PathBetween(jobs: Jobs, p: seq<JobId>, a: JobId, b: JobId) {
    Path(jobs, p) && p[0] == a && p[|p| - 1] == b
  }

  ghost predicate Reaches(jobs: Jobs, a: JobId, b: JobId) {
    exists p :: PathBetween(jobs, p, a, b)
  }

  lemma ReachesItself(jobs: Jobs, a: JobId)
    ensures Reaches(jobs, a, a)
  {
    assert PathBetween(jobs, [a], a, a);
  }

  lemma ReachesThrough(jobs: Jobs, a: JobId, d: JobId, b: JobId)
    requires a in jobs && d in jobs[a].deps && Reaches(jobs, d, b)
    ensures Reaches(jobs, a, b)
  {
    var p :| PathBetween(jobs, p, d, b);
    var q := [a] + p;
    forall i | 0 <= i < |q| - 1 ensures q[i] in jobs && q[i + 1] in jobs[q[i]].deps {
      if i > 0 { assert q[i] == p[i - 1] && q[i + 1] == p[i]; }
    }
    assert PathBetween(jobs, q, a, b);
  }

  lemma ReachesBefore(jobs: Jobs, a: JobId, b: JobId, c: JobId)
    requires Reaches(jobs, a, b) && b in jobs && c in jobs[b].deps
    ensures Reaches(jobs, a, c)
  {
    var p :| PathBetween(jobs, p, a, b);
    assert PathBetween(jobs, p + [c], a, c);
  }

  /** What follows the first step of a path is a path. */
  lemma PathTail(jobs: Jobs, p: seq<JobId>)
    requires Path(jobs, p) && |p| > 1
    ensures p[0] in jobs && p[1] in jobs[p[0]].deps && Path(jobs, p[1..]) && p[1..][0] == p[1]
      && p[1..][|p| - 2] == p[|p| - 1]
  {
    assert p[0 + 1] in jobs[p[0]].deps;
    var q := p[1..];
    forall i | 0 <= i < |q| - 1 ensures q[i] in jobs && q[i + 1] in jobs[q[i]].deps {
      assert q[i] == p[i + 1] && q[i + 1] == p[i + 1 + 1];
    }
  }

  ghost predicate Closed(jobs: Jobs, s: set<JobId>) {
    forall id, d :: id in s && id in jobs && d in jobs[id].deps ==> d in s
  }

  lemma {:induction false} ClosedHoldsPath(jobs: Jobs, s: set<JobId>, p: seq<JobId>)
    requires Closed(jobs, s) && Path(jobs, p) && p[0] in s
    ensures p[|p| - 1] in s
    decreases |p|
  {
    if |p| > 1 {
      PathTail(jobs, p);
      ClosedHoldsPath(jobs, s, p[1..]);
    }
  }

  lemma {:induction false} RankFallsAlongPath(jobs: Jobs, rank: map<JobId, nat>, p: seq<JobId>)
    requires Ranked(jobs, rank) && Path(jobs, p) && p[|p| - 1] in jobs
    ensures p[0] in jobs
    ensures |p| > 1 ==> rank[p[|p| - 1]] < rank[p[0]]
    decreases |p|
  {
    if |p| > 1 {
      PathTail(jobs, p);
      RankFallsAlongPath(jobs, rank, p[1..]);
    }
  }

  /** No job depends on itself, directly or through others. */
  ghost predicate NoCycle(jobs: Jobs) {
    forall id, d :: id in jobs && d in jobs[id].deps ==> !Reaches(jobs, d, id)
  }

  ghost function Reached(jobs: Jobs, a: JobId): set<JobId> {
    set b | b in jobs && Reaches(jobs, a, b)
  }

  /** The numbering and the absence of circular chains are the same thing. */
  lemma AcyclicMeansNoCycle(jobs: Jobs)
    ensures Acyclic(jobs) <==> NoCycle(jobs)
  {
    if Acyclic(jobs) {
      var rank :| Ranked(jobs, rank);
      forall id, d | id in jobs && d in jobs[id].deps ensures !Reaches(jobs, d, id) {
        if Reaches(jobs, d, id) {
          var p :| PathBetween(jobs, p, d, id);
          RankFallsAlongPath(jobs, rank, p);
        }
      }
    }
    if NoCycle(jobs) {
      var rank := map id | id in jobs :: |Reached(jobs, id)|;
      forall id, d | id in jobs && d in jobs[id].deps && d in jobs ensures rank[d] < rank[id] {
        ReachesItself(jobs, id);
        forall b | b in Reached(jobs, d) ensures b in Reached(jobs, id) {
          ReachesThrough(jobs, id, d, b);
        }
        assert id in Reached(jobs, id) && id !in Reached(jobs, d);
        ProperSubsetIsSmaller(Reached(jobs, d), Reached(jobs, id));
      }
      assert Ranked(jobs, rank);
    }
  }

  lemma ProperSubsetIsSmaller<T>(a: set<T>, b: set<T>)
    requires a < b
    ensures |a| < |b|
  {
    assert b == a + (b - a);
    assert |b| == |a| + |b - a|;
    assert b - a != {};
  }

  /** Replacing the dependencies of one job keeps the graph acyclic exactly when none of the new
      dependencies reaches that job. This is what the search before a retry decides. */
  lemma RewiringKeepsAcyclic(jobs: Jobs, id: JobId, j: Job)
    requires Acyclic(jobs) && id in jobs
    ensures Acyclic(jobs[id := j]) <==> forall d :: d in j.deps ==> !Reaches(jobs, d, id)
  {
    var jobs' := jobs[id := j];
    if forall d :: d in j.deps ==> !Reaches(jobs, d, id) {
      var rank: map<JobId, nat> :| Ranked(jobs, rank);
      var top := Above(rank);
      var rank' := map x | x in jobs :: if Reaches(jobs, x, id) then rank[x] + top else rank[x];
      ReachesItself(jobs, id);
      forall x, d | x in jobs' && d in jobs'[x].deps && d in jobs' ensures rank'[d] < rank'[x] {
        if x != id && Reaches(jobs, d, id) {
          ReachesThrough(jobs, x, d, id);
        }
      }
      assert Ranked(jobs', rank');
    }
    if Acyclic(jobs') {
      AcyclicMeansNoCycle(jobs');
      forall d | d in j.deps ensures !Reaches(jobs, d, id) {
        if Reaches(jobs, d, id) {
          var p :| PathBetween(jobs, p, d, id);
          ShortenedPathSurvives(jobs, id, j, p);
        }
      }
    }
  }

  /** A path to `id` needs none of the dependencies of `id` itself. */
  lemma {:induction false} ShortenedPathSurvives(jobs: Jobs, id: JobId, j: Job, p: seq<JobId>)
    requires id in jobs && Path(jobs, p) && p[|p| - 1] == id
    ensures Reaches(jobs[id := j], p[0], id)
    decreases |p|
  {
    var jobs' := jobs[id := j];
    if p[0] == id {
      ReachesItself(jobs', id);
    } else {
      PathTail(jobs, p);
      ShortenedPathSurvives(jobs, id, j, p[1..]);
      ReachesThrough(jobs', p[0], p[1], id);
    }
  }

  ghost function Vertices(jobs: Jobs, roots: seq<JobId>): set<JobId> {
    (set r | r in roots) + jobs.Keys + (set id, d | id in jobs && d in jobs[id].deps :: d)
  }

  ghost predicate FromRoots(jobs: Jobs, roots: seq<JobId>, x: JobId) {
    exists r :: r in roots && Reaches(jobs, r, x)
  }

  /** The search has met only what the roots reach, has put every dependency of what it has seen on
      its stack at least once, and has not seen the target. */
  ghost predicate Searching(jobs: Jobs, roots: seq<JobId>, target: JobId, seen: set<JobId>, stack: seq<JobId>) {
    && seen <= Vertices(jobs, roots)
    && (forall x :: x in stack ==> x in Vertices(jobs, roots))
    && (forall x :: x in stack ==> FromRoots(jobs, roots, x))
    && (forall r :: r in roots ==> r in seen || r in stack)
    && (forall x, d :: x in seen && x in jobs && d in jobs[x].deps ==> d in seen || d in stack)
    && target !in seen
  }

  lemma SearchStep(jobs: Jobs, roots: seq<JobId>, target: JobId, seen: set<JobId>, rest: seq<JobId>, id: JobId)
    requires Searching(jobs, roots, target, seen, rest + [id]) && id != target
    ensures id in seen ==> Searching(jobs, roots, target, seen, rest)
    ensures id !in seen ==>
      Searching(jobs, roots, target, seen + {id}, if id in jobs then rest + jobs[id].deps else rest)
    ensures id !in seen ==> |Vertices(jobs, roots) - (seen + {id})| < |Vertices(jobs, roots) - seen|
  {
    hide Vertices, FromRoots;
    var all := Vertices(jobs, roots);
    var stack := rest + [id];
    assert id in stack && forall x :: x in stack <==> x in rest || x == id;
    if id !in seen {
      ProperSubsetIsSmaller(all - (seen + {id}), all - seen);
      if id in jobs {
        SearchPush(jobs, roots, id);
        var next := rest + jobs[id].deps;
        assert forall x :: x in next <==> x in rest || x in jobs[id].deps;
      }
    }
  }

  lemma SearchPush(jobs: Jobs, roots: seq<JobId>, id: JobId)
    requires id in jobs && FromRoots(jobs, roots, id)
    ensures forall d :: d in jobs[id].deps ==> FromRoots(jobs, roots, d) && d in Vertices(jobs, roots)
  {
    var r :| r in roots && Reaches(jobs, r, id);
    forall d | d in jobs[id].deps ensures FromRoots(jobs, roots, d) {
      ReachesBefore(jobs, r, id, d);
    }
  }

  lemma SearchEnds(jobs: Jobs, roots: seq<JobId>, target: JobId, seen: set<JobId>)
    requires Searching(jobs, roots, target, seen, [])
    ensures !FromRoots(jobs, roots, target)
  {
    assert Closed(jobs, seen);
    forall r | r in roots ensures !Reaches(jobs, r, target) {
      if Reaches(jobs, r, target) {
        var p :| PathBetween(jobs, p, r, target);
        ClosedHoldsPath(jobs, seen, p);
      }
    }
  }

  lemma SearchStarts(jobs: Jobs, roots: seq<JobId>, target: JobId)
    ensures Searching(jobs, roots, target, {}, roots)
  {
    forall r | r in roots ensures FromRoots(jobs, roots, r) { ReachesItself(jobs, r); }
  }

  lemma SearchFinds(jobs: Jobs, roots: seq<JobId>, target: JobId, seen: set<JobId>, rest: seq<JobId>)
    requires Searching(jobs, roots, target, seen, rest + [target])
    ensures FromRoots(jobs, roots, target)
  {
    assert target in rest + [target];
  }

  /** Whether any of `roots` is, or depends on, `target`: the depth-first search of the retry. It
      needs neither an acyclic graph nor known dependencies to end. */
  method DependsTransitively(jobs: Jobs, roots: seq<JobId>, target: JobId) returns (found: bool)
    ensures found <==> FromRoots(jobs, roots, target)
  {
    hide Searching, FromRoots, Vertices;
    var seen: set<JobId> := {};
    var stack := roots;
    SearchStarts(jobs, roots, target);
    while stack != []
      invariant Searching(jobs, roots, target, seen, stack)
      decreases |Vertices(jobs, roots) - seen|, |stack|
    {
      var id, rest := stack[|stack| - 1], stack[..|stack| - 1];
      assert stack == rest + [id];
      if id == target {
        SearchFinds(jobs, roots, target, seen, rest);
        return true;
      }
      SearchStep(jobs, roots, target, seen, rest, id);
      if id in seen {
        stack := rest;
      } else {
        seen := seen + {id};
        stack := if id in jobs then rest + jobs[id].deps else rest;
      }
    }
    assert stack == [];
    SearchEnds(jobs, roots, target, seen);
    return false;
  }
}
