/** Which finished jobs leave the live queue. */
module Archiving {
  import opened Base
  import opened Model
  import opened Graph
  import opened Operations
  import opened Moves

  function Cutoff(cfg: Config, now: Time): int { Millis(now) - Millis(cfg.archiveAfter) }

  predicate LongOver(j: Job, cutoff: int) { j.status.Ended() && 0 < j.completedAt <= cutoff }

  /** A set of old finished jobs that can go together: nothing that stays depends on it. */
  ghost predicate CanGo(jobs: Jobs, cutoff: int, s: set<JobId>) {
    Separable(jobs, s) && forall id :: id in s ==> id in jobs && LongOver(jobs[id], cutoff)
  }

  /** The jobs with nothing but old finished jobs behind them: whatever depends on such a job,
      directly or through others, ended long ago itself. */
  ghost predicate AllOverBehind(jobs: Jobs, cutoff: int, id: JobId) {
    forall x :: x in jobs && Reaches(jobs, x, id) ==> LongOver(jobs[x], cutoff)
  }

  ghost function Departing(jobs: Jobs, cutoff: int): set<JobId> {
    set id | id in jobs && AllOverBehind(jobs, cutoff, id)
  }

  /** Every set that can go is part of `Departing`, and `Departing` itself can go: it is the largest. */
  lemma DepartingIsLargest(jobs: Jobs, cutoff: int, s: set<JobId>)
    ensures CanGo(jobs, cutoff, Departing(jobs, cutoff))
    ensures CanGo(jobs, cutoff, s) ==> s <= Departing(jobs, cutoff)
  {
    forall id, d | id in jobs && id !in Departing(jobs, cutoff) && d in jobs[id].deps
      ensures d !in Departing(jobs, cutoff) {
      DependencyStays(jobs, cutoff, id, d);
    }
    forall id | id in Departing(jobs, cutoff) ensures LongOver(jobs[id], cutoff) {
      ReachesItself(jobs, id);
    }
    if CanGo(jobs, cutoff, s) {
      forall id | id in s ensures id in Departing(jobs, cutoff) {
        forall x | x in jobs && Reaches(jobs, x, id) ensures LongOver(jobs[x], cutoff) {
          var p :| PathBetween(jobs, p, x, id);
          PathComesFromInside(jobs, s, p);
        }
      }
    }
  }

  /** A dependency of a job that stays, stays. */
  lemma DependencyStays(jobs: Jobs, cutoff: int, id: JobId, d: JobId)
    requires id in jobs && id !in Departing(jobs, cutoff) && d in jobs[id].deps
    ensures d !in Departing(jobs, cutoff)
  {
    var x :| x in jobs && Reaches(jobs, x, id) && !LongOver(jobs[x], cutoff);
    ReachesBefore(jobs, x, id, d);
  }

  lemma {:induction false} PathComesFromInside(jobs: Jobs, s: set<JobId>, p: seq<JobId>)
    requires Separable(jobs, s) && Path(jobs, p) && p[|p| - 1] in s
    ensures p[0] in s
    decreases |p|
  {
    if |p| > 1 {
      PathTail(jobs, p);
      PathComesFromInside(jobs, s, p[1..]);
    }
  }

  /** The shrinking set of candidates: repeated scans until one takes nothing out. */
  method Shrink(jobs: Jobs, cutoff: int) returns (candidates: set<JobId>)
    ensures candidates == Departing(jobs, cutoff)
  {
    candidates := set id | id in jobs && LongOver(jobs[id], cutoff);
    DepartingIsOld(jobs, cutoff);
    hide *;
    var changed := true;
    while changed && candidates != {}
      invariant Departing(jobs, cutoff) <= candidates
      invariant forall id :: id in candidates ==> id in jobs && LongOver(jobs[id], cutoff)
      invariant changed || Separable(jobs, candidates)
      decreases candidates, changed
    {
      candidates, changed := Scan(jobs, cutoff, candidates);
    }
    NothingMoreToGo(jobs, cutoff, candidates);
  }

  lemma DepartingIsOld(jobs: Jobs, cutoff: int)
    ensures Departing(jobs, cutoff) <= set id | id in jobs && LongOver(jobs[id], cutoff)
  {
    DepartingIsLargest(jobs, cutoff, {});
  }

  lemma NothingMoreToGo(jobs: Jobs, cutoff: int, candidates: set<JobId>)
    requires Departing(jobs, cutoff) <= candidates
    requires candidates == {}
      || (Separable(jobs, candidates) && forall id :: id in candidates ==> id in jobs && LongOver(jobs[id], cutoff))
    ensures candidates == Departing(jobs, cutoff)
  {
    if candidates != {} {
      DepartingIsLargest(jobs, cutoff, candidates);
    }
  }

  /** One scan over every job, in any order. */
  method Scan(jobs: Jobs, cutoff: int, before: set<JobId>) returns (candidates: set<JobId>, changed: bool)
    requires Departing(jobs, cutoff) <= before
    ensures Departing(jobs, cutoff) <= candidates
    ensures if changed then candidates < before else candidates == before && Separable(jobs, candidates)
  {
    hide Departing;
    candidates, changed := before, false;
    var todo := jobs.Keys;
    while todo != {}
      invariant todo <= jobs.Keys && Departing(jobs, cutoff) <= candidates
      invariant if changed then candidates < before else candidates == before
      invariant !changed ==> forall id, d :: id in jobs && id !in todo && id !in candidates && d in jobs[id].deps ==>
        d !in candidates
    {
      var id :| id in todo;
      todo := todo - {id};
      if id !in candidates {
        candidates, changed := Release(jobs, cutoff, before, candidates, changed, id);
      }
    }
  }

  /** What a job that stays depends on, stays. */
  method Release(jobs: Jobs, cutoff: int, ghost before: set<JobId>, candidates: set<JobId>, changed: bool, id: JobId)
    returns (candidates': set<JobId>, changed': bool)
    requires id in jobs && id !in candidates && Departing(jobs, cutoff) <= candidates <= before
    requires if changed then candidates < before else candidates == before
    ensures Departing(jobs, cutoff) <= candidates' <= candidates
    ensures if changed' then candidates' < before else candidates' == before
    ensures forall d :: d in jobs[id].deps ==> d !in candidates'
  {
    hide Departing;
    candidates', changed' := candidates, changed;
    for i := 0 to |jobs[id].deps|
      invariant Departing(jobs, cutoff) <= candidates' <= candidates
      invariant if changed' then candidates' < before else candidates' == before
      invariant forall k :: 0 <= k < i ==> jobs[id].deps[k] !in candidates'
    {
      var d := jobs[id].deps[i];
      if d in candidates' {
        DependencyStays(jobs, cutoff, id, d);
        candidates', changed' := candidates' - {d}, true;
      }
    }
  }

  /** The state after a pass of the archive; `saved` is whether the store took it. */
  ghost function ArchiveFinished(m: Memory, now: Time, saved: bool): Memory {
    if m.cfg.archiveAfter <= 0 || !saved then m else WithoutJobs(m, Departing(m.jobs, Cutoff(m.cfg, now)))
  }
}
