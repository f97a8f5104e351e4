/** The life of a job and the work of a robot, read from the history of a run. */
module Lives {
  import opened Base
  import opened Model

  datatype Phase = Idle | Running | Lost | Succeeded | Spoilt | Out {
    predicate Busy() { Running? || Lost? }
    predicate Over() { Succeeded? || Spoilt? || Out? }
  }

  /** How far a job has come; `Broken` once its history made no sense. */
  datatype Life = Unborn | Broken | Life(attempt: nat, phase: Phase, robot: RobotId) {
    /** The queue holds no job with this life any more (or never did). */
    predicate Closed() { Unborn? || (Life? && phase.Over()) }
  }

  predicate About(e: Entry, id: JobId) { !e.Joined? && e.job == id }

  /** The legal next events: an attempt is given once, may fall silent once, and ends once. */
  function Advance(l: Life, e: Entry): Life {
    match e
    case Created(_) => if l.Closed() then Life(0, Idle, "") else Broken
    case Given(_, r, a) => if l.Life? && l.phase.Idle? && a == l.attempt + 1 then Life(a, Running, r) else Broken
    case Silent(_, r, a) => if l.Life? && l.phase.Running? && r == l.robot && a == l.attempt then l.(phase := Lost)
      else Broken
    case Finished(_, r, a, success) =>
      if l.Life? && l.phase.Busy() && r == l.robot && a == l.attempt
        then l.(phase := if success then Succeeded else Spoilt) else Broken
    case Abandoned(_, r, a) => if l.Life? && l.phase.Busy() && r == l.robot && a == l.attempt then l.(phase := Idle)
      else Broken
    case Asked(_, r, a, _, _) => if l.Life? && l.phase.Running? && r == l.robot && a == l.attempt then l else Broken
    case Withdrawn(_) => if l.Life? && l.phase.Idle? then l.(phase := Out) else Broken
    case Retried(_) => if l.Life? && (l.phase.Spoilt? || l.phase.Out?) then l.(phase := Idle) else Broken
    case Joined(_, _) => l
  }

  function LifeOf(log: History, id: JobId): Life {
    if log == [] then Unborn
    else
      var before := LifeOf(log[..|log| - 1], id);
      if About(log[|log| - 1], id) then Advance(before, log[|log| - 1]) else before
  }

  /** What happened to the job since it was last created. */
  function Chapter(log: History, id: JobId): History {
    if log == [] then []
    else
      var e := log[|log| - 1];
      if !About(e, id) then Chapter(log[..|log| - 1], id)
      else if e.Created? then []
      else Chapter(log[..|log| - 1], id) + [e]
  }

  lemma AppendLife(log: History, e: Entry, id: JobId)
    ensures LifeOf(log + [e], id) == if About(e, id) then Advance(LifeOf(log, id), e) else LifeOf(log, id)
    ensures Chapter(log + [e], id) ==
            if !About(e, id) then Chapter(log, id) else if e.Created? then [] else Chapter(log, id) + [e]
  {
    assert (log + [e])[..|log|] == log;
  }

  // ---- Counting and ordering within one life ----

  function Completions(h: History): nat {
    if h == [] then 0 else Completions(h[..|h| - 1]) + (if h[|h| - 1].Finished? then 1 else 0)
  }

  function Losses(h: History): nat {
    if h == [] then 0 else Losses(h[..|h| - 1]) + (if h[|h| - 1].Abandoned? then 1 else 0)
  }

  lemma AppendCounts(h: History, e: Entry)
    ensures Completions(h + [e]) == Completions(h) + (if e.Finished? then 1 else 0)
    ensures Losses(h + [e]) == Losses(h) + (if e.Abandoned? then 1 else 0)
  {
    assert (h + [e])[..|h|] == h;
  }

  lemma NothingEndedYet(id: JobId)
    ensures LifeOf([], id) == Unborn && Completions([]) == Losses([]) == 0
  {
  }

  lemma CreatedStartsOver(l: Life, e: Entry)
    requires e.Created?
    ensures Advance(l, e).Life? ==> Advance(l, e) == Life(0, Idle, "")
  {
  }

  function Over(l: Life): int { if l.Life? then l.attempt - (if l.phase.Busy() then 1 else 0) else 0 }

  /** One event and the number of attempts over. */
  lemma AdvanceCounts(l: Life, e: Entry)
    requires !e.Joined? && !e.Created? && Advance(l, e).Life?
    ensures l.Life?
    ensures Over(Advance(l, e)) == Over(l) + (if e.Finished? then 1 else 0) + if e.Abandoned? then 1 else 0
  {
  }

  /** Attempts are conserved: each one ended in a report, was abandoned, or is still going on. */
  lemma {:induction false} AttemptsAreConserved(log: History, id: JobId)
    ensures var l := LifeOf(log, id); var h := Chapter(log, id);
      l.Life? ==> l.attempt == Completions(h) + Losses(h) + (if l.phase.Busy() then 1 else 0)
  {
    hide LifeOf, Chapter, Completions, Losses, Advance;
    NothingEndedYet(id);
    if log != [] {
      var before, e := log[..|log| - 1], log[|log| - 1];
      assert log == before + [e];
      AttemptsAreConserved(before, id);
      AppendLife(before, e, id);
      AppendCounts(Chapter(before, id), e);
      if About(e, id) && !e.Created? && LifeOf(log, id).Life? { AdvanceCounts(LifeOf(before, id), e); }
      if e.Created? { CreatedStartsOver(LifeOf(before, id), e); }
    }
  }

  predicate Announces(e: Entry, attempt: int) { (e.Given? || e.Silent? || e.Finished?) && e.attempt == attempt }

  /** The announced events of one attempt. */
  function Word(h: History, attempt: int): History {
    if h == [] then []
    else Word(h[..|h| - 1], attempt) + (if Announces(h[|h| - 1], attempt) then [h[|h| - 1]] else [])
  }

  lemma AppendWord(h: History, e: Entry, attempt: int)
    ensures Word(h + [e], attempt) == Word(h, attempt) + if Announces(e, attempt) then [e] else []
  {
    assert (h + [e])[..|h|] == h;
  }

  /** Assigned, then at most one unknown, then at most one done or failed, all on one robot. */
  predicate Proper(w: History, id: JobId, attempt: int) {
    && 1 <= |w| <= 3
    && w[0].Given? && w[0] == Given(id, w[0].robot, attempt)
    && (|w| == 1
        || (|w| == 2 && (w[1] == Silent(id, w[0].robot, attempt) || IsReport(w[1], id, w[0].robot, attempt)))
        || (|w| == 3 && w[1] == Silent(id, w[0].robot, attempt) && IsReport(w[2], id, w[0].robot, attempt)))
  }

  predicate IsReport(e: Entry, id: JobId, robot: RobotId, attempt: int) {
    e.Finished? && e == Finished(id, robot, attempt, e.success)
  }

  /** Every attempt of a life reads as it should; the present one ends where the job is. */
  ghost predicate WordsOk(h: History, l: Life, id: JobId)
    requires l.Life?
  {
    && (forall k :: k < 1 || k > l.attempt ==> Word(h, k) == [])
    && (forall k :: 1 <= k <= l.attempt ==> Proper(Word(h, k), id, k))
    && (l.phase.Running? ==> Word(h, l.attempt) == [Given(id, l.robot, l.attempt)])
    && (l.phase.Lost? ==> Word(h, l.attempt) == [Given(id, l.robot, l.attempt), Silent(id, l.robot, l.attempt)])
    && (l.phase.Busy() ==> l.attempt >= 1)
  }

  lemma {:induction false} AttemptsReadInOrder(log: History, id: JobId)
    ensures LifeOf(log, id).Life? ==> WordsOk(Chapter(log, id), LifeOf(log, id), id)
  {
    if log != [] {
      var before, e := log[..|log| - 1], log[|log| - 1];
      AttemptsReadInOrder(before, id);
      assert before + [e] == log;
      if LifeOf(log, id).Life? && About(e, id) && !e.Created? {
        ReadOn(Chapter(before, id), LifeOf(before, id), e, id);
      }
    }
  }

  lemma ReadOn(h: History, l: Life, e: Entry, id: JobId)
    requires l.Life? && WordsOk(h, l, id) && About(e, id) && !e.Created? && Advance(l, e).Life?
    ensures WordsOk(h + [e], Advance(l, e), id)
  {
    hide Word, WordsOk, Advance, Proper;
    forall k ensures Word(h + [e], k) == Word(h, k) + if Announces(e, k) then [e] else [] {
      AppendWord(h, e, k);
    }
    match e
    case Given(_, _, _) => ReadGiven(h, l, e, id);
    case Silent(_, _, _) => ReadSilent(h, l, e, id);
    case Finished(_, _, _, _) => ReadFinished(h, l, e, id);
    case _ => ReadOther(h, l, e, id);
  }

  lemma ReadGiven(h: History, l: Life, e: Entry, id: JobId)
    requires l.Life? && WordsOk(h, l, id) && About(e, id) && e.Given? && Advance(l, e).Life?
    requires forall k :: Word(h + [e], k) == Word(h, k) + if Announces(e, k) then [e] else []
    ensures WordsOk(h + [e], Advance(l, e), id)
  {
    hide Word;
  }

  lemma ReadSilent(h: History, l: Life, e: Entry, id: JobId)
    requires l.Life? && WordsOk(h, l, id) && About(e, id) && e.Silent? && Advance(l, e).Life?
    requires forall k :: Word(h + [e], k) == Word(h, k) + if Announces(e, k) then [e] else []
    ensures WordsOk(h + [e], Advance(l, e), id)
  {
    hide Word;
  }

  lemma ReadFinished(h: History, l: Life, e: Entry, id: JobId)
    requires l.Life? && WordsOk(h, l, id) && About(e, id) && e.Finished? && Advance(l, e).Life?
    requires forall k :: Word(h + [e], k) == Word(h, k) + if Announces(e, k) then [e] else []
    ensures WordsOk(h + [e], Advance(l, e), id)
  {
    hide Word;
  }

  lemma ReadOther(h: History, l: Life, e: Entry, id: JobId)
    requires l.Life? && WordsOk(h, l, id) && !e.Created? && !e.Given? && !e.Silent? && !e.Finished?
      && Advance(l, e).Life?
    requires forall k :: Word(h + [e], k) == Word(h, k) + if Announces(e, k) then [e] else []
    ensures WordsOk(h + [e], Advance(l, e), id)
  {
    hide Word, Proper;
    assert forall k :: Word(h + [e], k) == Word(h, k);
  }

  // ---- Loads ----

  /** How much a robot has finished since it was registered, on top of what it came with. */
  function LoadOf(log: History, r: RobotId): int {
    if log == [] then 0
    else
      var before := LoadOf(log[..|log| - 1], r);
      match log[|log| - 1]
      case Joined(r', load) => if r' == r then load else before
      case Finished(_, r', _, _) => if r' == r then before + 1 else before
      case _ => before
  }

  lemma AppendLoad(log: History, e: Entry, r: RobotId)
    ensures LoadOf(log + [e], r) ==
            if e.Joined? && e.robot == r then e.load else if e.Finished? && e.robot == r then LoadOf(log, r) + 1
              else LoadOf(log, r)
  {
    assert (log + [e])[..|log|] == log;
  }
}
