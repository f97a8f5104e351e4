/** The two orders the engine sorts jobs by: submission order, and dispatch order (priority first). */
module Ordering {
  import opened Base
  import opened Model

  datatype Order = BySubmission | ByPriority

  predicate Ahead(o: Order, a: Job, b: Job) {
    (o.ByPriority? && a.priority > b.priority)
    || ((o.BySubmission? || a.priority == b.priority) && a.seqNo < b.seqNo)
  }

  /** The order of dispatch: no lower priority, and submitted earlier where priorities are equal. */
  predicate GoesBefore(a: Job, b: Job) { a.priority >= b.priority && (a.priority == b.priority ==> a.seqNo < b.seqNo) }

  /** No two jobs share a place in the order of submission. */
  ghost predicate SeqsDistinct(jobs: Jobs) {
    forall a, b :: a in jobs && b in jobs && a != b ==> jobs[a].seqNo != jobs[b].seqNo
  }

  ghost predicate Distinct(ids: seq<JobId>) { forall i, k :: 0 <= i < k < |ids| ==> ids[i] != ids[k] }

  /** `q` lists `s`, each job once, in order. */
  ghost predicate IsQueue(jobs: Jobs, o: Order, s: set<JobId>, q: seq<JobId>) {
    && s <= jobs.Keys
    && (forall id :: id in q <==> id in s)
    && forall i, k :: 0 <= i < k < |q| ==> q[i] in jobs && q[k] in jobs && Ahead(o, jobs[q[i]], jobs[q[k]])
  }

  lemma QueueHasNoRepeats(jobs: Jobs, o: Order, s: set<JobId>, q: seq<JobId>)
    requires IsQueue(jobs, o, s, q)
    ensures forall i, k :: 0 <= i < k < |q| ==> q[i] != q[k]
  {
  }

  lemma QueueHeadAndTail(jobs: Jobs, o: Order, s: set<JobId>, q: seq<JobId>)
    requires IsQueue(jobs, o, s, q) && q != []
    ensures q[0] in s && IsQueue(jobs, o, s - {q[0]}, q[1..])
    ensures forall id :: id in s && id != q[0] ==> id in jobs && Ahead(o, jobs[q[0]], jobs[id])
  {
  }

  lemma QueueOfNone(jobs: Jobs, o: Order, s: set<JobId>, q: seq<JobId>)
    requires IsQueue(jobs, o, s, q)
    ensures q == [] <==> s == {}
  {
    if q != [] { assert q[0] in q; }
  }

  lemma {:induction false} QueueIsUnique(jobs: Jobs, o: Order, s: set<JobId>, q: seq<JobId>, q': seq<JobId>)
    requires IsQueue(jobs, o, s, q) && IsQueue(jobs, o, s, q')
    ensures q == q'
    decreases |q|
  {
    QueueOfNone(jobs, o, s, q);
    QueueOfNone(jobs, o, s, q');
    if q != [] {
      assert q[0] in q';
      QueueHeadAndTail(jobs, o, s, q);
      QueueHeadAndTail(jobs, o, s, q');
      assert q[0] == q'[0];
      QueueIsUnique(jobs, o, s - {q[0]}, q[1..], q'[1..]);
    }
  }

  /** The jobs of `s` in order (there is exactly one such list when the submission numbers differ). */
  ghost function Queue(jobs: Jobs, o: Order, s: set<JobId>): seq<JobId> {
    if exists q :: IsQueue(jobs, o, s, q) then
      var q :| IsQueue(jobs, o, s, q); q
    else []
  }

  lemma QueueIs(jobs: Jobs, o: Order, s: set<JobId>, q: seq<JobId>)
    requires IsQueue(jobs, o, s, q)
    ensures Queue(jobs, o, s) == q
  {
    QueueIsUnique(jobs, o, s, q, Queue(jobs, o, s));
  }

  lemma {:induction false} QueueExists(jobs: Jobs, o: Order, s: set<JobId>)
    requires SeqsDistinct(jobs) && s <= jobs.Keys
    ensures IsQueue(jobs, o, s, Queue(jobs, o, s))
    decreases s
  {
    if s == {} {
      assert IsQueue(jobs, o, s, []);
    } else {
      var less := (a, b) => a in jobs && b in jobs && Ahead(o, jobs[a], jobs[b]);
      assert Orders(less, s);
      LeastExists(less, s);
      var first :| IsLeast(less, s, first);
      QueueExists(jobs, o, s - {first});
      QueuePrepends(jobs, o, s, first, Queue(jobs, o, s - {first}));
    }
  }

  lemma QueuePrepends(jobs: Jobs, o: Order, s: set<JobId>, first: JobId, rest: seq<JobId>)
    requires s <= jobs.Keys && first in s && IsQueue(jobs, o, s - {first}, rest)
    requires forall id :: id in s && id != first ==> Ahead(o, jobs[first], jobs[id])
    ensures IsQueue(jobs, o, s, [first] + rest)
  {
  }

  lemma QueueAppends(jobs: Jobs, o: Order, s: set<JobId>, last: JobId, q: seq<JobId>)
    requires s <= jobs.Keys && last in jobs && IsQueue(jobs, o, s, q)
    requires forall id :: id in s ==> Ahead(o, jobs[id], jobs[last])
    ensures IsQueue(jobs, o, s + {last}, q + [last])
  {
  }

  /** The sorted list the engine builds before it walks over jobs. */
  method Sorted(jobs: Jobs, o: Order, s: set<JobId>) returns (q: seq<JobId>)
    requires SeqsDistinct(jobs) && s <= jobs.Keys
    ensures q == Queue(jobs, o, s) && IsQueue(jobs, o, s, q)
    ensures forall i, k :: 0 <= i < k < |q| ==>
      && q[i] in jobs && q[k] in jobs
      && (o.BySubmission? ==> jobs[q[i]].seqNo < jobs[q[k]].seqNo)
      && (o.ByPriority? ==> GoesBefore(jobs[q[i]], jobs[q[k]]))
  {
    q := [];
    var rest := s;
    while rest != {}
      invariant rest <= s && IsQueue(jobs, o, s - rest, q)
      invariant forall a, b :: a in s - rest && b in rest ==> Ahead(o, jobs[a], jobs[b])
    {
      var first := First(jobs, o, rest);
      QueueAppends(jobs, o, s - rest, first, q);
      assert s - rest + {first} == s - (rest - {first});
      q, rest := q + [first], rest - {first};
    }
    assert s - rest == s;
    QueueIs(jobs, o, s, q);
  }

  method First(jobs: Jobs, o: Order, s: set<JobId>) returns (first: JobId)
    requires SeqsDistinct(jobs) && s <= jobs.Keys && s != {}
    ensures first in s && forall id :: id in s && id != first ==> Ahead(o, jobs[first], jobs[id])
  {
    first :| first in s;
    var rest := s - {first};
    while rest != {}
      invariant rest <= s && first in s
      invariant forall id :: id in s - rest && id != first ==> Ahead(o, jobs[first], jobs[id])
    {
      var id :| id in rest;
      if Ahead(o, jobs[id], jobs[first]) {
        first := id;
      }
      rest := rest - {id};
    }
  }
}
