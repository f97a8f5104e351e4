/** The board of maintenance proposals: each waits for a person, and approving one submits its job. */
module Boards {
  import opened Base
  import opened Model
  import opened Operations
  import opened Invariants
  import opened Graph
  import opened Blocking
  import opened Moves
  import opened Workings
  import opened Writing
  import opened Promises
  import opened Engines

  // ---- Proposals ----

  datatype Stage = Proposed | Approved | Rejected | Expired

  datatype Proposal = Proposal(
    id: string, source: string, reason: string, score: real, drift: real, stage: Stage, job: JobId,
    created: int, updated: int, decided: int, decidedBy: string, decidedWhy: string)

  datatype Measure = Finite(value: real) | NotFinite

  datatype Input = Input(source: string, reason: string, score: Measure, drift: Measure)

  datatype Settings = Settings(enabled: bool, priority: int, tool: string, location: string, maxOpen: int,
    cooldown: Duration, expireAfter: Duration)

  datatype Problem = MaintenanceOff | InvalidProposal | UnknownProposal | ProposalDecided | JobRefused(error: Error)

  datatype Answer<+T> = Yes(value: T) | No(problem: Problem)

  type Items = seq<Proposal>
  type Ends = map<string, Time>

  predicate SafeText(s: string) {
    1 <= |s| <= 128 && forall i :: 0 <= i < |s| ==> SafeChar(s[i])
  }

  predicate SafeChar(c: char) {
    'A' <= c <= 'Z' || 'a' <= c <= 'z' || '0' <= c <= '9' || c == '_' || c == '.' || c == ':' || c == '-'
  }

  /** The length in bytes of a text in UTF-8. */
  function Utf8Length(s: string): nat {
    if s == [] then 0
    else Utf8Length(s[..|s| - 1]) + var c := s[|s| - 1];
      if c < '\U{80}' then 1 else if c < '\U{800}' then 2 else if c < '\U{10000}' then 3 else 4
  }

  predicate Control(c: char) { c < ' ' || '\U{7f}' <= c <= '\U{9f}' }

  predicate Acceptable(input: Input) {
    && SafeText(input.source) && 1 <= Utf8Length(input.reason) <= 500
    && (forall i :: 0 <= i < |input.reason| ==> !Control(input.reason[i]))
    && input.score.Finite? && input.drift.Finite?
  }

  // ---- Ids ----

  function Decimal(n: nat): string {
    if n < 10 then [Digit(n)] else Decimal(n / 10) + [Digit(n % 10)]
  }

  function Digit(n: nat): char
    requires n < 10
  {
    '0' + n as char
  }

  function Signed(n: int): string { if n < 0 then "-" + Decimal(-n) else Decimal(n) }

  function ProposalId(created: int, number: nat): string { "mp-" + Signed(created) + "-" + Decimal(number) }

  function JobKey(id: string): Key { "maintenance:" + id }

  lemma {:induction false} DecimalHasNoDash(n: nat, i: nat)
    requires i < |Decimal(n)|
    ensures Decimal(n)[i] != '-'
  {
    if n >= 10 && i < |Decimal(n)| - 1 { DecimalHasNoDash(n / 10, i); }
  }

  lemma {:induction false} DecimalsDiffer(a: nat, b: nat)
    requires Decimal(a) == Decimal(b)
    ensures a == b
  {
    var last := |Decimal(a)| - 1;
    if a >= 10 && b >= 10 {
      assert Decimal(a)[..last] == Decimal(a / 10) && Decimal(b)[..last] == Decimal(b / 10);
      DecimalsDiffer(a / 10, b / 10);
      assert Decimal(a)[last] == Digit(a % 10) && Decimal(b)[last] == Digit(b % 10);
    } else {
      assert |Decimal(a)| == 1 <==> a < 10;
      assert |Decimal(b)| == 1 <==> b < 10;
    }
  }

  /** Ids with different numbers differ, whenever the proposals were made. */
  lemma IdsDiffer(created: int, number: nat, created': int, number': nat)
    requires ProposalId(created, number) == ProposalId(created', number')
    ensures number == number'
  {
    var id, d, d' := ProposalId(created, number), Decimal(number), Decimal(number');
    assert id[|id| - |d| - 1] == '-' && id[|id| - |d'| - 1] == '-';
    assert id[|id| - |d|..] == d && id[|id| - |d'|..] == d';
    if |d| < |d'| {
      DecimalHasNoDash(number', |d'| - |d| - 1);
    } else if |d'| < |d| {
      DecimalHasNoDash(number, |d| - |d'| - 1);
    } else {
      DecimalsDiffer(number, number');
    }
  }

  // ---- What the board keeps ----

  /** Proposals are listed in the order they were made; a later one of the same source was made after
      the earlier one was decided; the board remembers when the last one of each source ended. */
  ghost predicate Kept(items: Items, ends: Ends, clock: Time) {
    && (forall i :: 0 <= i < |items| ==>
      items[i].id == ProposalId(items[i].created, i + 1) && items[i].created <= Millis(clock))
    && (forall i, k :: 0 <= i < k < |items| ==> items[i].created <= items[k].created)
    && (forall i :: 0 <= i < |items| && items[i].stage != Proposed ==>
      items[i].created <= items[i].decided <= Millis(clock))
    && (forall i, k :: 0 <= i < k < |items| && items[i].source == items[k].source ==>
      items[i].stage != Proposed && items[i].decided <= items[k].created)
    && (forall s :: s in ends ==> ends[s] <= clock)
    && (forall i :: 0 <= i < |items| && items[i].stage != Proposed ==>
      items[i].source in ends && items[i].decided <= Millis(ends[items[i].source]))
  }

  /** Two proposals of one source are a cooldown apart, from the end of one to the start of the next. */
  ghost predicate Spaced(items: Items, cooldown: Duration) {
    cooldown > 0 ==> forall i, k :: 0 <= i < k < |items| && items[i].source == items[k].source ==>
      items[k].created >= items[i].decided + Millis(cooldown)
  }

  function OpenCount(items: Items): nat {
    if items == [] then 0 else OpenCount(items[..|items| - 1]) + if items[|items| - 1].stage == Proposed then 1 else 0
  }

  ghost predicate Limited(items: Items, maxOpen: int) { maxOpen > 0 ==> OpenCount(items) <= maxOpen }

  /** Nothing disappears, a proposal keeps its identity, and once decided it never changes. */
  ghost predicate Persist(before: Items, after: Items) {
    && |before| <= |after|
    && forall i :: 0 <= i < |before| ==>
      && after[i].id == before[i].id && after[i].source == before[i].source && after[i].created == before[i].created
      && (before[i].stage != Proposed ==> after[i] == before[i])
  }

  lemma PersistsThrough(a: Items, b: Items, c: Items)
    requires Persist(a, b) && Persist(b, c)
    ensures Persist(a, c)
  {
  }

  /** At most one open proposal per source, and no two proposals share an id or a job key. */
  lemma OneOpenPerSource(items: Items, ends: Ends, clock: Time, i: nat, k: nat)
    requires Kept(items, ends, clock) && i < |items| && k < |items| && i != k
    ensures items[i].id != items[k].id && JobKey(items[i].id) != JobKey(items[k].id)
    ensures items[i].source == items[k].source ==> items[i].stage != Proposed || items[k].stage != Proposed
  {
    if items[i].id == items[k].id { IdsDiffer(items[i].created, i + 1, items[k].created, k + 1); }
    assert JobKey(items[i].id)[12..] == items[i].id && JobKey(items[k].id)[12..] == items[k].id;
  }

  // ---- Expiry ----

  predicate Lapsed(p: Proposal, cfg: Settings, now: Time) {
    cfg.expireAfter > 0 && p.stage == Proposed && now - p.created * 1_000_000 > cfg.expireAfter
  }

  function Lapse(p: Proposal, cfg: Settings, now: Time): Proposal {
    if Lapsed(p, cfg, now) then p.(stage := Expired, updated := Millis(now), decided := Millis(now)) else p
  }

  function AfterExpiry(items: Items, cfg: Settings, now: Time): Items {
    seq(|items|, i requires 0 <= i < |items| => Lapse(items[i], cfg, now))
  }

  function EndsAfterExpiry(items: Items, ends: Ends, cfg: Settings, now: Time): Ends {
    if items == [] then ends
    else
      var p, before := items[|items| - 1], EndsAfterExpiry(items[..|items| - 1], ends, cfg, now);
      if Lapsed(p, cfg, now) then before[p.source := now] else before
  }

  lemma EndsMean(items: Items, ends: Ends, cfg: Settings, now: Time)
    ensures var ends' := EndsAfterExpiry(items, ends, cfg, now);
      && (forall s :: s in ends ==> s in ends')
      && (forall s :: s in ends' ==>
            if exists i :: LapsesAt(items, i, s, cfg, now) then ends'[s] == now else s in ends && ends'[s] == ends[s])
      && forall i :: 0 <= i < |items| && Lapsed(items[i], cfg, now) ==>
        items[i].source in ends' && ends'[items[i].source] == now
  {
    hide EndsAfterExpiry;
    var ends' := EndsAfterExpiry(items, ends, cfg, now);
    forall s
      ensures s in ends' <==> s in ends || exists i :: LapsesAt(items, i, s, cfg, now)
      ensures s in ends' ==>
        if exists i :: LapsesAt(items, i, s, cfg, now) then ends'[s] == now else s in ends && ends'[s] == ends[s]
    {
      EndOf(items, ends, cfg, now, s);
    }
    forall i | 0 <= i < |items| && Lapsed(items[i], cfg, now)
      ensures items[i].source in ends' && ends'[items[i].source] == now
    {
      assert LapsesAt(items, i, items[i].source, cfg, now);
    }
  }

  lemma {:induction false} EndOf(items: Items, ends: Ends, cfg: Settings, now: Time, source: string)
    ensures var ends' := EndsAfterExpiry(items, ends, cfg, now);
      && (source in ends' <==> source in ends || exists i :: LapsesAt(items, i, source, cfg, now))
      && (source in ends' ==>
            if exists i :: LapsesAt(items, i, source, cfg, now) then ends'[source] == now
            else source in ends && ends'[source] == ends[source])
  {
    hide Lapsed;
    if items != [] {
      EndOf(items[..|items| - 1], ends, cfg, now, source);
      LapsesBefore(items, items[..|items| - 1], source, cfg, now);
    }
  }

  predicate LapsesAt(items: Items, i: int, source: string, cfg: Settings, now: Time) {
    0 <= i < |items| && items[i].source == source && Lapsed(items[i], cfg, now)
  }

  lemma LapsesBefore(items: Items, before: Items, source: string, cfg: Settings, now: Time)
    requires items != [] && before == items[..|items| - 1]
    ensures (exists i :: LapsesAt(items, i, source, cfg, now)) <==>
      LapsesAt(items, |items| - 1, source, cfg, now) || exists i :: LapsesAt(before, i, source, cfg, now)
  {
    hide Lapsed;
    if i :| LapsesAt(items, i, source, cfg, now) && i != |items| - 1 { assert LapsesAt(before, i, source, cfg, now); }
    if i :| LapsesAt(before, i, source, cfg, now) { assert LapsesAt(items, i, source, cfg, now); }
  }

  /** The proposal waited longer than it may. */
  predicate Overdue(p: Proposal, cfg: Settings, now: Time) {
    p.stage == Proposed && cfg.expireAfter > 0 && p.created * 1_000_000 + cfg.expireAfter < now
  }

  /** The overdue proposals are closed now and the others stay as they are; their sources ended one now. */
  ghost predicate ExpiryPromise(items: Items, ends: Ends, cfg: Settings, now: Time, items': Items, ends': Ends) {
    && |items'| == |items|
    && (forall i :: 0 <= i < |items| ==>
          items'[i] ==
          if !Overdue(items[i], cfg, now) then items[i]
          else items[i].(stage := Expired, updated := Millis(now), decided := Millis(now)))
    && (forall s :: s in ends ==> s in ends')
    && (forall i :: 0 <= i < |items| && Overdue(items[i], cfg, now) ==>
          items[i].source in ends' && ends'[items[i].source] == now)
    && forall s :: s in ends' && (forall i :: 0 <= i < |items| && Overdue(items[i], cfg, now) ==> items[i].source != s)
         ==> s in ends && ends'[s] == ends[s]
  }

  lemma ExpiryKeepsPromise(items: Items, ends: Ends, cfg: Settings, now: Time)
    ensures ExpiryPromise(items, ends, cfg, now, AfterExpiry(items, cfg, now), EndsAfterExpiry(items, ends, cfg, now))
  {
    EndsMean(items, ends, cfg, now);
    hide EndsAfterExpiry;
    assert forall i :: 0 <= i < |items| ==> (Overdue(items[i], cfg, now) <==> Lapsed(items[i], cfg, now));
    hide Overdue, Lapsed;
    forall s, i | LapsesAt(items, i, s, cfg, now) ensures items[i].source == s && Overdue(items[i], cfg, now) { }
  }

  lemma {:induction false} FewerOpen(before: Items, after: Items)
    requires |before| == |after| && forall i :: 0 <= i < |before| && before[i].stage != Proposed ==>
      after[i].stage != Proposed
    ensures OpenCount(after) <= OpenCount(before)
  {
    if before != [] { FewerOpen(before[..|before| - 1], after[..|after| - 1]); }
  }

  /** Some open proposals were closed at `now`, and that is when their sources' last one ended. */
  ghost predicate Closes(items: Items, items': Items, ends: Ends, ends': Ends, now: Time) {
    && |items'| == |items|
    && (forall s :: s in ends ==> s in ends')
    && (forall s :: s in ends' ==> ends'[s] == now || (s in ends && ends'[s] == ends[s]))
    && forall i :: 0 <= i < |items| ==>
      items'[i] == items[i]
      || (ClosedAt(items[i], items'[i], now) && items[i].source in ends' && ends'[items[i].source] == now)
  }

  predicate ClosedAt(p: Proposal, p': Proposal, now: Time) {
    p.stage == Proposed && p'.stage != Proposed && p'.decided == Millis(now) && p'.id == p.id && p'.source == p.source
      && p'.created == p.created
  }

  lemma ClosingKeeps(items: Items, items': Items, ends: Ends, ends': Ends, clock: Time, now: Time)
    requires Kept(items, ends, clock) && clock <= now && Closes(items, items', ends, ends', now)
    ensures Kept(items', ends', now) && Persist(items, items')
    ensures OpenCount(items') <= OpenCount(items)
    ensures forall d :: Spaced(items, d) ==> Spaced(items', d)
  {
    FewerOpen(items, items');
    ClosingKeepsRest(items, items', ends, ends', clock, now);
    hide OpenCount, ProposalId, Kept;
  }

  lemma ClosingKeepsRest(items: Items, items': Items, ends: Ends, ends': Ends, clock: Time, now: Time)
    requires Kept(items, ends, clock) && clock <= now && Closes(items, items', ends, ends', now)
    ensures Kept(items', ends', now)
    ensures forall i, k :: 0 <= i < k < |items| && items[i].source == items[k].source ==> items'[i] == items[i]
  {
    hide OpenCount, ProposalId;
  }

  lemma ExpiryCloses(items: Items, ends: Ends, cfg: Settings, now: Time)
    ensures Closes(items, AfterExpiry(items, cfg, now), ends, EndsAfterExpiry(items, ends, cfg, now), now)
  {
    EndsMean(items, ends, cfg, now);
    hide EndsAfterExpiry;
  }

  // ---- Proposing ----

  predicate OpenFor(items: Items, i: int, source: string) {
    0 <= i < |items| && items[i].stage == Proposed && items[i].source == source
  }

  predicate Cooling(ends: Ends, cfg: Settings, source: string, now: Time) {
    source in ends && cfg.cooldown > 0 && now - ends[source] < cfg.cooldown
  }

  function Evidence(p: Proposal, input: Input, now: Time): Proposal
    requires Acceptable(input)
  {
    p.(score := input.score.value, drift := input.drift.value, reason := input.reason, updated := Millis(now))
  }

  function NewProposal(input: Input, now: Time, number: nat): Proposal
    requires Acceptable(input)
  {
    Proposal(ProposalId(Millis(now), number), input.source, input.reason, input.score.value, input.drift.value,
      Proposed, "", Millis(now), Millis(now), 0, "", "")
  }

  /** What a proposal leads to: new evidence for the open one of its source, a refusal, or a new entry. */
  ghost predicate ProposedTo(items: Items, ends: Ends, cfg: Settings, input: Input, now: Time, items': Items,
    r: Answer<(Proposal, bool)>)
    requires Acceptable(input)
  {
    if exists i :: OpenFor(items, i, input.source) then
      exists i :: OpenFor(items, i, input.source) && items' == items[i := Evidence(items[i], input, now)]
        && r == Yes((items'[i], false))
    else if Cooling(ends, cfg, input.source, now) then r == No(ProposalDecided) && items' == items
    else if cfg.maxOpen > 0 && OpenCount(items) >= cfg.maxOpen then r == No(InvalidProposal) && items' == items
    else items' == items + [NewProposal(input, now, |items| + 1)] && r == Yes((items'[|items|], true))
  }

  /** Rounding to milliseconds does not shorten a wait below the rounded one. */
  lemma MillisAdd(a: Time, d: Duration, b: Time)
    requires b - a >= d
    ensures Millis(b) >= Millis(a) + Millis(d)
  {
  }

  lemma ProposingKeeps(items: Items, ends: Ends, cfg: Settings, input: Input, now: Time, items': Items,
    r: Answer<(Proposal, bool)>)
    requires Acceptable(input) && Kept(items, ends, now) && ProposedTo(items, ends, cfg, input, now, items', r)
    ensures Kept(items', ends, now) && Persist(items, items')
    ensures Limited(items, cfg.maxOpen) ==> Limited(items', cfg.maxOpen)
    ensures Spaced(items, cfg.cooldown) ==> Spaced(items', cfg.cooldown)
  {
    hide Acceptable, ProposalId, Cooling, Kept, Spaced, OpenCount;
    if exists i :: OpenFor(items, i, input.source) {
      var i :| OpenFor(items, i, input.source) && items' == items[i := Evidence(items[i], input, now)];
      FewerOpen(items, items');
      EvidenceKeeps(items, ends, cfg.cooldown, input, now, i);
    } else if items' != items {
      NewKeeps(items, ends, cfg, input, now);
    }
  }

  ghost function OpenOnes(items: Items): set<int> { set i | 0 <= i < |items| && items[i].stage == Proposed }

  lemma {:induction false} OpenOnesAreCounted(items: Items)
    ensures |OpenOnes(items)| == OpenCount(items)
  {
    if items != [] {
      var before, last := items[..|items| - 1], |items| - 1;
      OpenOnesAreCounted(before);
      assert OpenOnes(items) == OpenOnes(before) + if items[last].stage == Proposed then {last} else {};
    }
  }

  /** What a proposer is answered: the open proposal of its source with the new evidence; a refusal while
      the last one ended less than the cooldown ago, or while as many are open as may be; else a new one. */
  ghost predicate ProposePromise(items: Items, ends: Ends, cfg: Settings, input: Input, now: Time, items': Items,
    r: Answer<(Proposal, bool)>)
    requires input.score.Finite? && input.drift.Finite?
  {
    var source := input.source;
    var cooling := source in ends && cfg.cooldown > 0 && now - ends[source] < cfg.cooldown;
    var full := cfg.maxOpen > 0 && |OpenOnes(items)| >= cfg.maxOpen;
    if exists i :: i in OpenOnes(items) && items[i].source == source then
      exists i :: i in OpenOnes(items) && items[i].source == source
        && items' == items[i := items[i].(score := input.score.value, drift := input.drift.value,
                                          reason := input.reason, updated := Millis(now))]
        && r == Yes((items'[i], false))
    else if cooling then r == No(ProposalDecided) && items' == items
    else if full then r == No(InvalidProposal) && items' == items
    else
      && r.Yes? && r.value.1 && items' == items + [r.value.0]
      && (forall i :: 0 <= i < |items| ==> items[i].id != r.value.0.id)
      && IsNewFor(r.value.0, input, now)
  }

  predicate IsNewFor(p: Proposal, input: Input, now: Time)
    requires input.score.Finite? && input.drift.Finite?
  {
    && p.source == input.source && p.reason == input.reason && p.score == input.score.value
    && p.drift == input.drift.value && p.stage == Proposed && p.job == "" && p.created == Millis(now)
    && p.updated == Millis(now) && p.decided == 0 && p.decidedBy == "" && p.decidedWhy == ""
  }

  lemma ProposingKeepsPromise(items: Items, ends: Ends, cfg: Settings, input: Input, now: Time, items': Items,
    r: Answer<(Proposal, bool)>)
    requires Acceptable(input) && Kept(items, ends, now) && ProposedTo(items, ends, cfg, input, now, items', r)
    ensures ProposePromise(items, ends, cfg, input, now, items', r)
  {
    hide ProposalId, Kept, OpenCount, SafeText, Utf8Length, Control;
    OpenOnesAreCounted(items);
    if exists i :: OpenFor(items, i, input.source) {
      var i :| OpenFor(items, i, input.source) && items' == items[i := Evidence(items[i], input, now)]
        && r == Yes((items'[i], false));
      assert i in OpenOnes(items) && items[i].source == input.source;
    } else {
      NewIdIsNew(items, ends, now, Millis(now));
      assert forall i :: i in OpenOnes(items) ==> OpenFor(items, i, items[i].source);
    }
  }

  lemma NewIdIsNew(items: Items, ends: Ends, clock: Time, created: int)
    requires Kept(items, ends, clock)
    ensures forall i :: 0 <= i < |items| ==> items[i].id != ProposalId(created, |items| + 1)
  {
    forall i | 0 <= i < |items| ensures items[i].id != ProposalId(created, |items| + 1) {
      if items[i].id == ProposalId(created, |items| + 1) { IdsDiffer(items[i].created, i + 1, created, |items| + 1); }
    }
  }

  lemma EvidenceKeeps(items: Items, ends: Ends, cooldown: Duration, input: Input, now: Time, i: nat)
    requires Acceptable(input) && Kept(items, ends, now) && OpenFor(items, i, input.source)
    ensures Kept(items[i := Evidence(items[i], input, now)], ends, now)
    ensures Spaced(items, cooldown) ==> Spaced(items[i := Evidence(items[i], input, now)], cooldown)
  {
    hide Acceptable, ProposalId;
  }

  lemma NewKeeps(items: Items, ends: Ends, cfg: Settings, input: Input, now: Time)
    requires Acceptable(input) && Kept(items, ends, now) && !Cooling(ends, cfg, input.source, now)
    requires !exists i :: OpenFor(items, i, input.source)
    ensures var items' := items + [NewProposal(input, now, |items| + 1)];
      && Kept(items', ends, now) && OpenCount(items') == OpenCount(items) + 1
      && (Spaced(items, cfg.cooldown) ==> Spaced(items', cfg.cooldown))
  {
    hide Acceptable, ProposalId, Kept, Spaced, Cooling;
    var p := NewProposal(input, now, |items| + 1);
    assert (items + [p])[..|items|] == items;
    SourceIsFree(items, ends, cfg, input, now);
    KeptWithNew(items, ends, now, p);
    SpacedWithNew(items, cfg.cooldown, p);
  }

  lemma KeptWithNew(items: Items, ends: Ends, now: Time, p: Proposal)
    requires Kept(items, ends, now) && p.id == ProposalId(p.created, |items| + 1) && p.stage == Proposed
      && p.created == Millis(now)
    requires forall i :: 0 <= i < |items| && items[i].source == p.source ==> items[i].stage != Proposed
    ensures Kept(items + [p], ends, now)
  {
    hide ProposalId, Millis;
  }

  lemma SpacedWithNew(items: Items, cooldown: Duration, p: Proposal)
    requires forall i :: 0 <= i < |items| && items[i].source == p.source ==>
      (cooldown > 0 ==> p.created >= items[i].decided + Millis(cooldown))
    ensures Spaced(items, cooldown) ==> Spaced(items + [p], cooldown)
  {
    hide Millis;
  }

  lemma SourceIsFree(items: Items, ends: Ends, cfg: Settings, input: Input, now: Time)
    requires Kept(items, ends, now) && !Cooling(ends, cfg, input.source, now)
    requires !exists i :: OpenFor(items, i, input.source)
    ensures forall i :: 0 <= i < |items| && items[i].source == input.source ==>
      items[i].stage != Proposed && (cfg.cooldown > 0 ==> Millis(now) >= items[i].decided + Millis(cfg.cooldown))
  {
    forall i | 0 <= i < |items| && items[i].source == input.source
      ensures items[i].stage != Proposed
        && (cfg.cooldown > 0 ==> Millis(now) >= items[i].decided + Millis(cfg.cooldown))
    {
      assert !OpenFor(items, i, input.source);
      if cfg.cooldown > 0 { MillisAdd(ends[input.source], cfg.cooldown, now); }
    }
  }

  // ---- Deciding ----

  /** The first proposal with the id; ids are unique, so there is no other. */
  function Find(items: Items, id: string): Option<nat> {
    if items == [] then None
    else match Find(items[..|items| - 1], id)
      case Some(i) => Some(i)
      case None => if items[|items| - 1].id == id then Some(|items| - 1) else None
  }

  lemma {:induction false} FindMeans(items: Items, id: string)
    ensures match Find(items, id)
      case Some(i) => i < |items| && items[i].id == id && forall k :: 0 <= k < i ==> items[k].id != id
      case None => forall k :: 0 <= k < |items| ==> items[k].id != id
  {
    if items != [] { FindMeans(items[..|items| - 1], id); }
  }

  function OpenProblem(items: Items, id: string): Option<Problem> {
    match Find(items, id)
    case None => Some(UnknownProposal)
    case Some(i) => if i < |items| && items[i].stage != Proposed then Some(ProposalDecided) else None
  }

  /** The approved proposals are those a job was submitted for; each names that job, which carries its
      own key. */
  ghost predicate Recorded(items: Items, submitted: map<nat, Job>) {
    && (forall i :: i in submitted ==> i < |items|)
    && forall i :: 0 <= i < |items| ==>
      if items[i].stage == Approved then i in submitted && Names(items[i], submitted[i])
      else i !in submitted && items[i].job == ""
  }

  predicate Names(p: Proposal, j: Job) { p.job == j.id && j.key == JobKey(p.id) }

  function JobOf(cfg: Settings, id: string): Job {
    Job("maint-" + id, cfg.priority, cfg.tool, cfg.location, [], Pending, "", JobKey(id), 0, 0, 0, 0, 0)
  }

  /** Whatever way a submission is answered, the job it names is live and carries the key. */
  lemma SubmissionIsOwn(m: Memory, j: Job, now: Time, saved: bool, m': Memory, r: Outcome<(Job, Submitted)>)
    requires Core(m) && Core(m') && KeysLive(m.jobs, m.dedup) && m' == Submit(m, j, now, saved) && j.key != ""
    requires match SubmissionOf(m, j)
      case NewJob => r == if AddResult(m, j, now, saved).Ok? then Ok((AddResult(m, j, now, saved).value, SubmitCreated))
        else Err(AddResult(m, j, now, saved).error)
      case Duplicate => r == Ok((m.jobs[m.dedup[j.key]], SubmitDuplicate))
      case Refused(e) => r == Err(e)
      case Retry => m.dedup[j.key] in m'.jobs && r == Ok((m'.jobs[m.dedup[j.key]], SubmitRetried))
    ensures r.Ok? ==> r.value.0.key == j.key && r.value.0.id in m'.jobs && m'.jobs[r.value.0.id] == r.value.0
  {
    hide Stable, Reserved, RobotsOk, Verdict, Refreshed, AddError, FromRoots, ShapeOk, DepsKnown, DepsLive, Acyclic,
      Ready, Held;
  }

  /** The settings of the board, and nothing to wait for. */
  predicate AsConfigured(j: Job, cfg: Settings) {
    j.priority == cfg.priority && j.tool == cfg.tool && j.location == cfg.location && j.deps == []
  }

  /** The job of an approved proposal. A key that no live job has makes a new one; the live job with the key is
      submitted again when it failed or was cancelled, and is the answer as it is otherwise. */
  ghost predicate JobPromise(m: Memory, cfg: Settings, id: string, now: Time, m': Memory, j: Job) {
    var key := "maintenance:" + id;
    && j.key == key && j.id in m'.jobs && m'.jobs[j.id] == j
    && (key !in m.dedup ==>
          && j.id == "maint-" + id && j.id !in m.jobs && AsConfigured(j, cfg) && j.attempt == 0 && j.robot == ""
          && j.submittedAt == Millis(now) && j.assignedAt == 0 && j.completedAt == 0 && m'.jobs == m.jobs[j.id := j])
    && (key in m.dedup ==>
          && j.id == m.dedup[key] && j.id in m.jobs
          && if m.jobs[j.id].status == Failed || m.jobs[j.id].status == Cancelled
             then AsConfigured(j, cfg) && j.attempt == m.jobs[j.id].attempt && j.submittedAt == Millis(now)
             else j == m.jobs[j.id] && m' == m)
  }

  lemma SubmissionKeepsPromise(m: Memory, cfg: Settings, id: string, now: Time, saved: bool, m': Memory,
    r: Outcome<(Job, Submitted)>)
    requires KeysLive(m.jobs, m.dedup) && forall x :: x in m.jobs ==> m.jobs[x].id == x
    requires if JobKey(id) !in m.dedup then AddPromise(m, JobOf(cfg, id), now, saved, m', JobAlone(r))
      else RetryPromise(m, JobOf(cfg, id), now, m', r)
    ensures if r.Ok? then JobPromise(m, cfg, id, now, m', r.value.0) else m'.jobs == m.jobs && m'.robots == m.robots
  {
    hide IllFormed, NamesStrangers, TurnsBack, OthersKeep;
  }

  lemma ExpiryKeepsRecorded(items: Items, cfg: Settings, now: Time, submitted: map<nat, Job>)
    requires Recorded(items, submitted)
    ensures Recorded(AfterExpiry(items, cfg, now), submitted)
  {
  }

  lemma {:induction false} NothingExpires(items: Items, ends: Ends, cfg: Settings, now: Time)
    requires cfg.expireAfter <= 0
    ensures AfterExpiry(items, cfg, now) == items && EndsAfterExpiry(items, ends, cfg, now) == ends
  {
    if items != [] { NothingExpires(items[..|items| - 1], ends, cfg, now); }
  }

  lemma NothingChanges(items: Items)
    ensures Persist(items, items)
  {
  }

  lemma EvidenceIsNotRecorded(items: Items, input: Input, now: Time, i: nat, submitted: map<nat, Job>)
    requires Acceptable(input) && Recorded(items, submitted) && OpenFor(items, i, input.source)
    ensures Recorded(items[i := Evidence(items[i], input, now)], submitted)
  {
    hide Acceptable;
  }

  lemma NewIsNotRecorded(items: Items, p: Proposal, submitted: map<nat, Job>)
    requires Recorded(items, submitted) && p.stage == Proposed && p.job == ""
    ensures Recorded(items + [p], submitted)
  {
    hide Names;
  }

  lemma ClosedIsRecorded(items: Items, i: nat, p': Proposal, submitted: map<nat, Job>, j: Option<Job>)
    requires Recorded(items, submitted) && i < |items| && items[i].stage == Proposed && p'.stage != Proposed
    requires if p'.stage == Approved then j.Some? && Names(p', j.value) else j.None? && p'.job == items[i].job
    ensures Recorded(items[i := p'], if j.Some? then submitted[i := j.value] else submitted)
  {
    hide Names;
  }

  datatype Decision = Decision(stage: Stage, at: int, decidedBy: string, why: string, job: JobId)

  function ApprovedAs(now: Time, decidedBy: string, job: JobId): Decision {
    Decision(Approved, Millis(now), decidedBy, "", job)
  }

  function RejectedAs(now: Time, decidedBy: string, why: string): Decision {
    Decision(Rejected, Millis(now), decidedBy, why, "")
  }

  function AsDecided(p: Proposal, d: Decision): Proposal {
    p.(stage := d.stage, job := if d.stage == Approved then d.job else p.job, updated := d.at, decided := d.at,
      decidedBy := d.decidedBy, decidedWhy := if d.stage == Rejected then d.why else p.decidedWhy)
  }

  /** The open proposal `id` was closed as `d` says, and nothing else changed. */
  ghost predicate ClosedTo(items: Items, ends: Ends, id: string, now: Time, d: Decision, items': Items, ends': Ends,
    p: Proposal) {
    exists i :: 0 <= i < |items| && items[i].id == id && items[i].stage == Proposed && p == AsDecided(items[i], d)
      && items' == items[i := p] && ends' == ends[p.source := now]
  }

  /** Why the engine refuses a submission, if it does. */
  ghost function Refusal(m: Memory, j: Job, now: Time, saved: bool): Option<Error>
    requires KeysLive(m.jobs, m.dedup)
  {
    match SubmissionOf(m, j)
    case NewJob => var added := AddResult(m, j, now, saved); if added.Err? then Some(added.error) else None
    case Refused(e) => Some(e)
    case _ => None
  }

  /** What an approval leads to: the id is refused, the engine refuses the job, or the proposal is closed
      and names the job that the engine answered with, which carries the proposal's own key. */
  ghost predicate ApprovedTo(items: Items, ends: Ends, cfg: Settings, id: string, decidedBy: string, now: Time,
    m: Memory, submittedAt: Time, saved: bool, items': Items, ends': Ends, m': Memory, r: Answer<(Proposal, Job)>)
    requires KeysLive(m.jobs, m.dedup)
  {
    if OpenProblem(items, id).Some? then r == No(OpenProblem(items, id).value) && items' == items && ends' == ends
      && m' == m
    else
      && m' == Submit(m, JobOf(cfg, id), submittedAt, saved)
      && match r
         case No(problem) =>
           && Refusal(m, JobOf(cfg, id), submittedAt, saved).Some?
             && problem == JobRefused(Refusal(m, JobOf(cfg, id), submittedAt, saved).value)
           && items' == items && ends' == ends
         case Yes((p, j)) =>
           && Refusal(m, JobOf(cfg, id), submittedAt, saved).None?
           && ClosedTo(items, ends, id, now, ApprovedAs(now, decidedBy, j.id), items', ends', p)
           && j.key == JobKey(id) && j.id in m'.jobs && m'.jobs[j.id] == j
  }

  /** What an approval answers: the id is unknown, or its proposal decided already, or its job refused, and then
      the board stays as it is; or that proposal is closed, and names its job. */
  ghost predicate ApprovePromise(items: Items, ends: Ends, cfg: Settings, id: string, decidedBy: string, now: Time,
    m: Memory, submittedAt: Time, items': Items, ends': Ends, m': Memory, r: Answer<(Proposal, Job)>)
  {
    && (r == No(UnknownProposal) <==> forall i :: 0 <= i < |items| ==> items[i].id != id)
    && (r == No(ProposalDecided) <==> exists i :: 0 <= i < |items| && items[i].id == id && items[i].stage != Proposed)
    && (r.No? ==> items' == items && ends' == ends && m'.jobs == m.jobs && m'.robots == m.robots)
    && (r.No? ==> r.problem.JobRefused? || ((r.problem.UnknownProposal? || r.problem.ProposalDecided?) && m' == m))
    && (r.Yes? ==>
          var p, j := r.value.0, r.value.1;
          && JobPromise(m, cfg, id, submittedAt, m', j)
          && exists i :: 0 <= i < |items| && items[i].id == id && items[i].stage == Proposed
               && items' == items[i := p] && ends' == ends[p.source := now]
               && p == items[i].(stage := Approved, job := j.id, updated := Millis(now), decided := Millis(now),
                                 decidedBy := decidedBy))
  }

  ghost predicate RejectPromise(items: Items, ends: Ends, id: string, decidedBy: string, why: string, now: Time,
    items': Items, ends': Ends, r: Answer<Proposal>)
  {
    && (r == No(UnknownProposal) <==> forall i :: 0 <= i < |items| ==> items[i].id != id)
    && (r == No(ProposalDecided) <==> exists i :: 0 <= i < |items| && items[i].id == id && items[i].stage != Proposed)
    && (r.No? ==>
          items' == items && ends' == ends && (r.problem.UnknownProposal? || r.problem.ProposalDecided?))
    && (r.Yes? ==>
          exists i :: 0 <= i < |items| && items[i].id == id && items[i].stage == Proposed
            && items' == items[i := r.value] && ends' == ends[r.value.source := now]
            && r.value == items[i].(stage := Rejected, updated := Millis(now), decided := Millis(now),
                                    decidedBy := decidedBy, decidedWhy := why))
  }

  /** Why an id cannot be decided, by the proposals that have it; there is at most one. */
  lemma ProblemMeans(items: Items, ends: Ends, clock: Time, id: string)
    requires Kept(items, ends, clock)
    ensures OpenProblem(items, id) == Some(UnknownProposal) <==> forall i :: 0 <= i < |items| ==> items[i].id != id
    ensures OpenProblem(items, id) == Some(ProposalDecided) <==>
      exists i :: 0 <= i < |items| && items[i].id == id && items[i].stage != Proposed
    ensures OpenProblem(items, id) in {None, Some(UnknownProposal), Some(ProposalDecided)}
  {
    FindMeans(items, id);
    hide Find;
    forall i, k | 0 <= i < |items| && 0 <= k < |items| && items[i].id == items[k].id ensures i == k {
      if i != k { OneOpenPerSource(items, ends, clock, i, k); }
    }
    hide Kept;
  }

  lemma ApprovalKeepsPromise(items: Items, ends: Ends, cfg: Settings, id: string, decidedBy: string, now: Time,
    m: Memory, submittedAt: Time, saved: bool, items': Items, ends': Ends, m': Memory, r: Answer<(Proposal, Job)>)
    requires KeysLive(m.jobs, m.dedup) && Kept(items, ends, now)
    requires ApprovedTo(items, ends, cfg, id, decidedBy, now, m, submittedAt, saved, items', ends', m', r)
    requires r.Yes? ==> JobPromise(m, cfg, id, submittedAt, m', r.value.1)
    requires r.No? ==> m'.jobs == m.jobs && m'.robots == m.robots
    ensures ApprovePromise(items, ends, cfg, id, decidedBy, now, m, submittedAt, items', ends', m', r)
  {
    ProblemMeans(items, ends, now, id);
    hide Kept, KeysLive, Submit, OpenProblem, Refusal, JobPromise;
  }

  lemma RejectionKeepsPromise(items: Items, ends: Ends, id: string, decidedBy: string, why: string, now: Time,
    items': Items, ends': Ends, r: Answer<Proposal>)
    requires Kept(items, ends, now)
    requires if OpenProblem(items, id).Some? then
        r == No(OpenProblem(items, id).value) && items' == items && ends' == ends
      else r.Yes? && ClosedTo(items, ends, id, now, RejectedAs(now, decidedBy, why), items', ends', r.value)
    ensures RejectPromise(items, ends, id, decidedBy, why, now, items', ends', r)
  {
    ProblemMeans(items, ends, now, id);
    hide Kept, OpenProblem;
  }

  lemma NotApproved(items: Items, ends: Ends, cfg: Settings, id: string, decidedBy: string, now: Time,
    m: Memory, submittedAt: Time, saved: bool, m': Memory, r: Answer<(Proposal, Job)>)
    requires KeysLive(m.jobs, m.dedup) && r.No?
    requires if OpenProblem(items, id).Some? then r.problem == OpenProblem(items, id).value && m' == m
             else
               && m' == Submit(m, JobOf(cfg, id), submittedAt, saved)
               && Refusal(m, JobOf(cfg, id), submittedAt, saved).Some?
               && r.problem == JobRefused(Refusal(m, JobOf(cfg, id), submittedAt, saved).value)
    ensures ApprovedTo(items, ends, cfg, id, decidedBy, now, m, submittedAt, saved, items, ends, m', r)
  {
    hide KeysLive, Submit, OpenProblem, ClosedTo, Refusal;
  }

  lemma ApprovedIs(items: Items, ends: Ends, cfg: Settings, id: string, decidedBy: string, now: Time,
    m: Memory, submittedAt: Time, saved: bool, m': Memory, i: nat, j: Job)
    requires KeysLive(m.jobs, m.dedup) && m' == Submit(m, JobOf(cfg, id), submittedAt, saved)
    requires OpenProblem(items, id).None? && i < |items| && items[i].id == id && items[i].stage == Proposed
    requires j.key == JobKey(id) && j.id in m'.jobs && m'.jobs[j.id] == j
      && Refusal(m, JobOf(cfg, id), submittedAt, saved).None?
    ensures var p := AsDecided(items[i], ApprovedAs(now, decidedBy, j.id));
      ApprovedTo(items, ends, cfg, id, decidedBy, now, m, submittedAt, saved, items[i := p],
        ends[items[i].source := now], m', Yes((p, j)))
  {
    hide KeysLive, Submit, OpenProblem, JobKey, Refusal;
    assert items[i].source == AsDecided(items[i], ApprovedAs(now, decidedBy, j.id)).source;
  }

  lemma {:induction false} FoundStays(items: Items, n: nat, id: string)
    requires n <= |items| && Find(items[..n], id).Some?
    ensures Find(items, id) == Find(items[..n], id)
  {
    if n < |items| {
      assert items[..|items| - 1][..n] == items[..n];
      FoundStays(items[..|items| - 1], n, id);
    } else {
      assert items[..n] == items;
    }
  }

  // ---- Listing ----

  /** `out` holds the first `n` proposals in the stage, at `places` of the list: newest first, in the
      order of the list among equals. */
  ghost predicate NewestFirst(items: Items, stage: Option<Stage>, n: nat, out: seq<Proposal>, places: seq<nat>)
    requires n <= |items|
  {
    && |out| == |places|
    && (forall k :: 0 <= k < |places| ==> places[k] < n && out[k] == items[places[k]] && InStage(out[k], stage))
    && (forall i :: 0 <= i < n && InStage(items[i], stage) ==> i in places)
    && forall k, l :: 0 <= k < l < |places| ==> Earlier(out[k], places[k], out[l], places[l])
  }

  /** Exactly the proposals in the stage are listed, newest first, and in the order of the board where they
      were made at once. */
  ghost predicate ListPromise(items: Items, stage: Option<Stage>, out: seq<Proposal>) {
    && (forall p :: p in out <==> p in items && (stage.Some? ==> p.stage == stage.value))
    && forall k, l :: 0 <= k < l < |out| ==>
         && out[k].created >= out[l].created
         && (out[k].created == out[l].created ==>
               exists a, b :: 0 <= a < b < |items| && items[a] == out[k] && items[b] == out[l])
  }

  lemma ListingKeepsPromise(items: Items, stage: Option<Stage>, out: seq<Proposal>, places: seq<nat>)
    requires NewestFirst(items, stage, |items|, out, places)
    ensures ListPromise(items, stage, out)
  {
    forall p ensures p in out <==> p in items && (stage.Some? ==> p.stage == stage.value) {
      ListedIffInStage(items, stage, out, places, p);
    }
    forall k, l | 0 <= k < l < |out| && out[k].created == out[l].created
      ensures exists a, b :: 0 <= a < b < |items| && items[a] == out[k] && items[b] == out[l]
    {
      assert items[places[k]] == out[k] && items[places[l]] == out[l];
    }
  }

  lemma ListedIffInStage(items: Items, stage: Option<Stage>, out: seq<Proposal>, places: seq<nat>, p: Proposal)
    requires NewestFirst(items, stage, |items|, out, places)
    ensures p in out <==> p in items && (stage.Some? ==> p.stage == stage.value)
  {
    hide Earlier;
    if p in items && InStage(p, stage) {
      var i :| 0 <= i < |items| && items[i] == p;
      var k :| 0 <= k < |places| && places[k] == i;
      assert out[k] == p;
    }
    if p in out {
      var k :| 0 <= k < |out| && out[k] == p;
      assert items[places[k]] == p && InStage(out[k], stage);
    }
  }

  predicate InStage(p: Proposal, stage: Option<Stage>) { stage.None? || p.stage == stage.value }

  method Sift(items: Items, stage: Option<Stage>) returns (out: seq<Proposal>, ghost places: seq<nat>)
    ensures NewestFirst(items, stage, |items|, out, places)
  {
    hide NewestFirst;
    out, places := [], [];
    NothingListed(items, stage);
    for i := 0 to |items|
      invariant NewestFirst(items, stage, i, out, places)
    {
      if InStage(items[i], stage) {
        var k := PlaceFor(out, items[i].created);
        SamePlaces(items, stage, i, out, places);
        NextListed(items, stage, i, out, places, k);
        out, places := out[..k] + [items[i]] + out[k..], places[..k] + [i] + places[k..];
      } else {
        NotListed(items, stage, i, out, places);
      }
    }
  }

  lemma SamePlaces(items: Items, stage: Option<Stage>, n: nat, out: seq<Proposal>, places: seq<nat>)
    requires n <= |items| && NewestFirst(items, stage, n, out, places)
    ensures |out| == |places|
  {
  }

  method PlaceFor(out: seq<Proposal>, created: int) returns (k: nat)
    ensures k <= |out| && (forall l :: 0 <= l < k ==> out[l].created >= created)
      && (k < |out| ==> out[k].created < created)
  {
    k := 0;
    while k < |out| && out[k].created >= created
      invariant k <= |out| && forall l :: 0 <= l < k ==> out[l].created >= created
    {
      k := k + 1;
    }
  }

  lemma NothingListed(items: Items, stage: Option<Stage>)
    ensures NewestFirst(items, stage, 0, [], [])
  {
  }

  lemma NotListed(items: Items, stage: Option<Stage>, n: nat, out: seq<Proposal>, places: seq<nat>)
    requires n < |items| && NewestFirst(items, stage, n, out, places) && !InStage(items[n], stage)
    ensures NewestFirst(items, stage, n + 1, out, places)
  {
  }

  lemma NextListed(items: Items, stage: Option<Stage>, n: nat, out: seq<Proposal>, places: seq<nat>, k: nat)
    requires n < |items| && NewestFirst(items, stage, n, out, places) && InStage(items[n], stage)
    requires k <= |out| == |places| && (forall l :: 0 <= l < k ==> out[l].created >= items[n].created)
      && (k < |out| ==> out[k].created < items[n].created)
    ensures NewestFirst(items, stage, n + 1, out[..k] + [items[n]] + out[k..], places[..k] + [n] + places[k..])
  {
    hide InStage, Earlier;
    var out', places' := out[..k] + [items[n]] + out[k..], places[..k] + [n] + places[k..];
    ListedPlaces(items, stage, n, out, places, k);
    forall i, j | 0 <= i < j < |out| ensures Earlier(out[i], places[i], out[j], places[j]) {
    }
    forall a, b | 0 <= a < b < |places'| ensures Earlier(out'[a], places'[a], out'[b], places'[b]) {
      StillInOrder(items[n], n, out, places, k, a, b);
    }
  }

  lemma ListedPlaces(items: Items, stage: Option<Stage>, n: nat, out: seq<Proposal>, places: seq<nat>, k: nat)
    requires n < |items| && NewestFirst(items, stage, n, out, places) && InStage(items[n], stage)
      && k <= |out| == |places|
    ensures var out', places' := out[..k] + [items[n]] + out[k..], places[..k] + [n] + places[k..];
      && (forall l :: 0 <= l < |places'| ==>
        places'[l] < n + 1 && out'[l] == items[places'[l]] && InStage(out'[l], stage))
      && (forall i :: 0 <= i < n + 1 && InStage(items[i], stage) ==> i in places')
  {
  }

  predicate Earlier(p: Proposal, place: nat, q: Proposal, other: nat) {
    p.created > q.created || (p.created == q.created && place < other)
  }

  lemma StillInOrder(p: Proposal, n: nat, out: seq<Proposal>, places: seq<nat>, k: nat, a: nat, b: nat)
    requires k <= |out| == |places| && a < b <= |out| && forall i :: 0 <= i < |places| ==> places[i] < n
    requires forall i, j :: 0 <= i < j < |out| ==> Earlier(out[i], places[i], out[j], places[j])
    requires (forall l :: 0 <= l < k ==> out[l].created >= p.created) && (k < |out| ==> out[k].created < p.created)
    ensures var out', places' := out[..k] + [p] + out[k..], places[..k] + [n] + places[k..];
      Earlier(out'[a], places'[a], out'[b], places'[b])
  {
    if k < b && k < |out| && b - 1 != k { assert Earlier(out[k], places[k], out[b - 1], places[b - 1]); }
  }

  /** The scan for an open proposal of the source, counting the open ones. */
  method ScanOpen(items: Items, source: string) returns (found: Option<nat>, open: nat)
    ensures found.Some? ==> OpenFor(items, found.value, source)
    ensures found.None? ==> open == OpenCount(items) && !exists i :: OpenFor(items, i, source)
  {
    open := 0;
    for i := 0 to |items|
      invariant open == OpenCount(items[..i])
      invariant forall k :: 0 <= k < i ==> !OpenFor(items, k, source)
    {
      assert items[..i + 1][..i] == items[..i];
      if items[i].stage == Proposed {
        open := open + 1;
        if items[i].source == source {
          assert OpenFor(items, i, source);
          return Some(i), open;
        }
      }
    }
    assert items[..|items|] == items;
    found := None;
  }

  class MaintenanceBoard {
    const engine: Engine
    var cfg: Settings
    var items: Items
    var lastEnd: Ends
    var number: nat
    /** The latest clock reading, and the job each approval submitted. */
    ghost var clock: Time
    ghost var submitted: map<nat, Job>

    constructor (engine: Engine, ghost clock: Time)
      ensures Valid() && this.engine == engine && items == [] && this.clock == clock && !cfg.enabled
    {
      this.engine := engine;
      cfg := Settings(false, 0, "", "", 0, 0, 0);
      items, lastEnd, number, this.clock, submitted := [], map[], 0, clock, map[];
    }

    ghost predicate Valid()
      reads this
    {
      Kept(items, lastEnd, clock) && number == |items| && Recorded(items, submitted)
    }

    method SetConfig(cfg: Settings)
      requires Valid()
      modifies this`cfg
      ensures Valid() && this.cfg == cfg
    {
      this.cfg := cfg;
    }

    method ExpireLocked(now: Time)
      requires Valid() && clock <= now
      modifies this`items, this`lastEnd, this`clock
      ensures Valid() && clock == now
      ensures ExpiryPromise(old(items), old(lastEnd), cfg, now, items, lastEnd)
      ensures items == AfterExpiry(old(items), cfg, now)
        && lastEnd == EndsAfterExpiry(old(items), old(lastEnd), cfg, now)
      ensures Persist(old(items), items) && OpenCount(items) <= OpenCount(old(items))
        && forall d :: Spaced(old(items), d) ==> Spaced(items, d)
    {
      hide Kept, Persist, Spaced, OpenCount, Recorded, Closes;
      ExpiryCloses(items, lastEnd, cfg, now);
      ClosingKeeps(items, AfterExpiry(items, cfg, now), lastEnd, EndsAfterExpiry(items, lastEnd, cfg, now), clock, now);
      ExpiryKeepsRecorded(items, cfg, now, submitted);
      ExpiryKeepsPromise(items, lastEnd, cfg, now);
      hide ExpiryPromise;
      clock := now;
      ExpireEach(now);
    }

    /** The loop over the proposals. */
    method ExpireEach(now: Time)
      modifies this`items, this`lastEnd
      ensures items == AfterExpiry(old(items), cfg, now)
        && lastEnd == EndsAfterExpiry(old(items), old(lastEnd), cfg, now)
    {
      if cfg.expireAfter <= 0 {
        NothingExpires(items, lastEnd, cfg, now);
        return;
      }
      ghost var before := items;
      for i := 0 to |items|
        invariant |items| == |before|
        invariant forall k :: 0 <= k < |items| ==> items[k] == if k < i then Lapse(before[k], cfg, now) else before[k]
        invariant lastEnd == EndsAfterExpiry(before[..i], old(lastEnd), cfg, now)
      {
        assert before[..i + 1][..i] == before[..i];
        if Lapsed(items[i], cfg, now) {
          lastEnd := lastEnd[items[i].source := now];
          items := items[i := items[i].(stage := Expired, updated := Millis(now), decided := Millis(now))];
        }
      }
      assert before[..|items|] == before;
      assert items == AfterExpiry(before, cfg, now);
    }

    /** A proposer asks; the answer says whether the proposal is a new one. */
    method Propose(input: Input, now: Time) returns (r: Answer<(Proposal, bool)>)
      requires Valid() && clock <= now
      modifies this`items, this`lastEnd, this`number, this`clock
      ensures Valid() && clock == (if Acceptable(input) && cfg.enabled then now else old(clock))
      ensures !(Acceptable(input) && cfg.enabled) ==>
        items == old(items) && lastEnd == old(lastEnd)
          && r == No(if Acceptable(input) then MaintenanceOff else InvalidProposal)
      ensures Acceptable(input) && cfg.enabled ==>
        && lastEnd == EndsAfterExpiry(old(items), old(lastEnd), cfg, now)
        && ProposedTo(AfterExpiry(old(items), cfg, now), lastEnd, cfg, input, now, items, r)
        && exists items0 :: ExpiryPromise(old(items), old(lastEnd), cfg, now, items0, lastEnd)
             && ProposePromise(items0, lastEnd, cfg, input, now, items, r)
      ensures Persist(old(items), items)
      ensures Limited(old(items), cfg.maxOpen) ==> Limited(items, cfg.maxOpen)
      ensures Spaced(old(items), cfg.cooldown) ==> Spaced(items, cfg.cooldown)
    {
      hide Kept, Persist, Spaced, Recorded, OpenCount, EndsAfterExpiry, AfterExpiry, ExpiryPromise, ProposePromise,
        ProposedTo, SafeText, Utf8Length, Control;
      if !Acceptable(input) {
        NothingChanges(items);
        return No(InvalidProposal);
      }
      if !cfg.enabled {
        NothingChanges(items);
        return No(MaintenanceOff);
      }
      ExpireLocked(now);
      r := Enter(input, now);
      PersistsThrough(old(items), AfterExpiry(old(items), cfg, now), items);
    }

    method Enter(input: Input, now: Time) returns (r: Answer<(Proposal, bool)>)
      requires Valid() && clock == now && Acceptable(input)
      modifies this`items, this`number
      ensures Valid() && ProposedTo(old(items), lastEnd, cfg, input, now, items, r) && Persist(old(items), items)
      ensures ProposePromise(old(items), lastEnd, cfg, input, now, items, r)
      ensures Limited(old(items), cfg.maxOpen) ==> Limited(items, cfg.maxOpen)
      ensures Spaced(old(items), cfg.cooldown) ==> Spaced(items, cfg.cooldown)
    {
      hide Kept, Persist, Spaced, Limited, Recorded, OpenCount, SafeText, Utf8Length, Control, ProposePromise;
      var found, open := ScanOpen(items, input.source);
      if found.Some? {
        var i := found.value;
        items := items[i := Evidence(items[i], input, now)];
        r := Yes((items[i], false));
        EvidenceIsNotRecorded(old(items), input, now, i, submitted);
      } else if Cooling(lastEnd, cfg, input.source, now) {
        r := No(ProposalDecided);
      } else if cfg.maxOpen > 0 && open >= cfg.maxOpen {
        r := No(InvalidProposal);
      } else {
        number := number + 1;
        var p := NewProposal(input, now, number);
        items := items + [p];
        r := Yes((p, true));
        NewIsNotRecorded(old(items), p, submitted);
      }
      ProposingKeeps(old(items), lastEnd, cfg, input, now, items, r);
      ProposingKeepsPromise(old(items), lastEnd, cfg, input, now, items, r);
    }

    /** A person approves: the job is submitted like any other, and the proposal names it. */
    method Approve(id: string, decidedBy: string, now: Time, submittedAt: Time) returns (r: Answer<(Proposal, Job)>)
      requires Valid() && engine.Valid() && clock <= now
      modifies this`items, this`lastEnd, this`clock, this`submitted, engine, engine.store
      ensures Valid() && engine.Valid() && clock == (if cfg.enabled then now else old(clock))
      ensures Persist(old(items), items) && OpenCount(items) <= OpenCount(old(items))
        && forall d :: Spaced(old(items), d) ==> Spaced(items, d)
      ensures !cfg.enabled ==>
        r == No(MaintenanceOff) && items == old(items) && lastEnd == old(lastEnd) && engine.Mem() == old(engine.Mem())
      ensures KeysLive(old(engine.jobs), old(engine.dedupIndex))
      ensures cfg.enabled ==>
        && ApprovedTo(AfterExpiry(old(items), cfg, now), EndsAfterExpiry(old(items), old(lastEnd), cfg, now), cfg, id,
             decidedBy, now, old(engine.Mem()), submittedAt, !engine.store.fails(old(engine.store.disk.writes)), items,
             lastEnd, engine.Mem(), r)
        && exists items0, ends0 :: ExpiryPromise(old(items), old(lastEnd), cfg, now, items0, ends0)
             && ApprovePromise(items0, ends0, cfg, id, decidedBy, now, old(engine.Mem()), submittedAt, items, lastEnd,
                  engine.Mem(), r)
    {
      hide Kept, Persist, Spaced, Recorded, OpenCount, EndsAfterExpiry, AfterExpiry, KeysLive, ApprovedTo,
        ApprovePromise, ExpiryPromise;
      EngineKeys();
      if !cfg.enabled {
        NothingChanges(items);
        return No(MaintenanceOff);
      }
      ExpireLocked(now);
      r := ApproveOpen(id, decidedBy, now, submittedAt);
      PersistsThrough(old(items), AfterExpiry(old(items), cfg, now), items);
    }

    method ApproveOpen(id: string, decidedBy: string, now: Time, submittedAt: Time) returns (r: Answer<(Proposal, Job)>)
      requires Valid() && engine.Valid() && clock == now
      modifies this`items, this`lastEnd, this`submitted, engine, engine.store
      ensures Valid() && engine.Valid()
      ensures Persist(old(items), items) && OpenCount(items) <= OpenCount(old(items))
        && forall d :: Spaced(old(items), d) ==> Spaced(items, d)
      ensures KeysLive(old(engine.jobs), old(engine.dedupIndex))
        && ApprovedTo(old(items), old(lastEnd), cfg, id, decidedBy, now, old(engine.Mem()), submittedAt,
             !engine.store.fails(old(engine.store.disk.writes)), items, lastEnd, engine.Mem(), r)
      ensures ApprovePromise(old(items), old(lastEnd), cfg, id, decidedBy, now, old(engine.Mem()), submittedAt, items,
        lastEnd, engine.Mem(), r)
    {
      hide Kept, Persist, Spaced, Recorded, OpenCount, KeysLive, Submit, JobOf, ApprovedTo, Steady, Indexed,
        OpenProblem, Find, JobKey, Refusal, JobPromise, ApprovePromise;
      EngineKeys();
      r := DecideFor(id, decidedBy, now, submittedAt);
      ApprovalKeepsPromise(old(items), old(lastEnd), cfg, id, decidedBy, now, old(engine.Mem()), submittedAt,
        !engine.store.fails(old(engine.store.disk.writes)), items, lastEnd, engine.Mem(), r);
    }

    method DecideFor(id: string, decidedBy: string, now: Time, submittedAt: Time) returns (r: Answer<(Proposal, Job)>)
      requires Valid() && engine.Valid() && clock == now
      modifies this`items, this`lastEnd, this`submitted, engine, engine.store
      ensures Valid() && engine.Valid()
      ensures Persist(old(items), items) && OpenCount(items) <= OpenCount(old(items))
        && forall d :: Spaced(old(items), d) ==> Spaced(items, d)
      ensures KeysLive(old(engine.jobs), old(engine.dedupIndex))
        && ApprovedTo(old(items), old(lastEnd), cfg, id, decidedBy, now, old(engine.Mem()), submittedAt,
             !engine.store.fails(old(engine.store.disk.writes)), items, lastEnd, engine.Mem(), r)
      ensures if r.Yes? then JobPromise(old(engine.Mem()), cfg, id, submittedAt, engine.Mem(), r.value.1)
        else engine.jobs == old(engine.jobs) && engine.robots == old(engine.robots)
    {
      hide Kept, Persist, Spaced, Recorded, OpenCount, KeysLive, Submit, JobOf, ApprovedTo, Steady, Indexed,
        OpenProblem, Find, JobKey, Refusal, JobPromise;
      EngineKeys();
      NothingChanges(items);
      ghost var m, saved := engine.Mem(), !engine.store.fails(engine.store.disk.writes);
      var i, wrong := OpenLocked(id);
      if wrong.Some? {
        NotApproved(items, lastEnd, cfg, id, decidedBy, now, m, submittedAt, saved, m, No(wrong.value));
        return No(wrong.value);
      }
      var answer := SubmitFor(id, submittedAt);
      if answer.Err? {
        NotApproved(items, lastEnd, cfg, id, decidedBy, now, m, submittedAt, saved, engine.Mem(),
          No(JobRefused(answer.error)));
        return No(JobRefused(answer.error));
      }
      var p := CloseAt(i, now, ApprovedAs(now, decidedBy, answer.value.id), Some(answer.value));
      ApprovedIs(old(items), old(lastEnd), cfg, id, decidedBy, now, m, submittedAt, saved, engine.Mem(), i,
        answer.value);
      r := Yes((p, answer.value));
    }

    lemma EngineKeys()
      requires engine.Valid()
      ensures KeysLive(engine.jobs, engine.dedupIndex)
    {
      SteadyFacts(engine.Mem());
    }

    method SubmitFor(id: string, now: Time) returns (r: Outcome<Job>)
      requires engine.Valid()
      modifies engine, engine.store
      ensures KeysLive(old(engine.jobs), old(engine.dedupIndex)) && engine.Valid()
      ensures engine.Mem() ==
        Submit(old(engine.Mem()), JobOf(cfg, id), now, !engine.store.fails(old(engine.store.disk.writes)))
      ensures var refusal :=
        Refusal(old(engine.Mem()), JobOf(cfg, id), now, !engine.store.fails(old(engine.store.disk.writes)));
        if r.Err? then refusal == Option.Some(r.error) else refusal == None
      ensures r.Ok? ==> r.value.key == JobKey(id) && r.value.id in engine.jobs && engine.jobs[r.value.id] == r.value
      ensures if r.Ok? then JobPromise(old(engine.Mem()), cfg, id, now, engine.Mem(), r.value)
        else engine.jobs == old(engine.jobs) && engine.robots == old(engine.robots)
    {
      hide Steady, Submit, SubmissionOf, Core, KeysLive, AddResult, Indexed, Writes, Apply, Through, JobPromise,
        AddPromise, RetryPromise;
      SteadyFacts(engine.Mem());
      ghost var before, saved := engine.Mem(), !engine.store.fails(engine.store.disk.writes);
      var answer := engine.SubmitJob(JobOf(cfg, id), now);
      SteadyFacts(engine.Mem());
      SubmissionIsOwn(before, JobOf(cfg, id), now, saved, engine.Mem(), answer);
      SubmissionKeepsPromise(before, cfg, id, now, saved, engine.Mem(), answer);
      r := if answer.Ok? then Ok(answer.value.0) else Err(answer.error);
    }

    /** A person closes the proposal without a job. */
    method Reject(id: string, decidedBy: string, why: string, now: Time) returns (r: Answer<Proposal>)
      requires Valid() && clock <= now
      modifies this`items, this`lastEnd, this`clock, this`submitted
      ensures Valid() && clock == (if cfg.enabled then now else old(clock)) && submitted == old(submitted)
      ensures Persist(old(items), items) && OpenCount(items) <= OpenCount(old(items))
        && forall d :: Spaced(old(items), d) ==> Spaced(items, d)
      ensures !cfg.enabled ==> r == No(MaintenanceOff) && items == old(items) && lastEnd == old(lastEnd)
      ensures cfg.enabled ==>
        var items0, ends0 := AfterExpiry(old(items), cfg, now), EndsAfterExpiry(old(items), old(lastEnd), cfg, now);
        && (if OpenProblem(items0, id).Some? then
              r == No(OpenProblem(items0, id).value) && items == items0 && lastEnd == ends0
            else r.Yes? && ClosedTo(items0, ends0, id, now, RejectedAs(now, decidedBy, why), items, lastEnd, r.value))
        && ExpiryPromise(old(items), old(lastEnd), cfg, now, items0, ends0)
        && RejectPromise(items0, ends0, id, decidedBy, why, now, items, lastEnd, r)
    {
      hide Kept, Persist, Spaced, Recorded, OpenCount, EndsAfterExpiry, AfterExpiry, Closes, ExpiryPromise,
        RejectPromise;
      if !cfg.enabled {
        NothingChanges(items);
        return No(MaintenanceOff);
      }
      ExpireLocked(now);
      r := RejectOpen(id, decidedBy, why, now);
      PersistsThrough(old(items), AfterExpiry(old(items), cfg, now), items);
    }

    method RejectOpen(id: string, decidedBy: string, why: string, now: Time) returns (r: Answer<Proposal>)
      requires Valid() && clock == now
      modifies this`items, this`lastEnd, this`submitted
      ensures Valid() && submitted == old(submitted)
      ensures Persist(old(items), items) && OpenCount(items) <= OpenCount(old(items))
        && forall d :: Spaced(old(items), d) ==> Spaced(items, d)
      ensures if OpenProblem(old(items), id).Some? then
          r == No(OpenProblem(old(items), id).value) && items == old(items) && lastEnd == old(lastEnd)
        else
          && r.Yes?
          && ClosedTo(old(items), old(lastEnd), id, now, RejectedAs(now, decidedBy, why), items, lastEnd, r.value)
      ensures RejectPromise(old(items), old(lastEnd), id, decidedBy, why, now, items, lastEnd, r)
    {
      hide Kept, Persist, Spaced, Recorded, OpenCount, Closes, RejectPromise;
      NothingChanges(items);
      var i, wrong := OpenLocked(id);
      if wrong.Some? {
        r := No(wrong.value);
      } else {
        var p := CloseAt(i, now, RejectedAs(now, decidedBy, why), None);
        r := Yes(p);
      }
      RejectionKeepsPromise(old(items), old(lastEnd), id, decidedBy, why, now, items, lastEnd, r);
    }

    method OpenLocked(id: string) returns (i: nat, wrong: Option<Problem>)
      ensures wrong == OpenProblem(items, id)
      ensures wrong.None? ==>
        Find(items, id) == Some(i) && i < |items| && items[i].id == id && items[i].stage == Proposed
    {
      FindMeans(items, id);
      for k := 0 to |items|
        invariant Find(items[..k], id) == None
      {
        assert items[..k + 1][..k] == items[..k];
        if items[k].id == id {
          FoundStays(items, k + 1, id);
          return k, if items[k].stage != Proposed then Some(ProposalDecided) else None;
        }
      }
      assert items[..|items|] == items;
      i, wrong := 0, Some(UnknownProposal);
    }

    method CloseAt(i: nat, now: Time, d: Decision, ghost j: Option<Job>) returns (p: Proposal)
      requires Valid() && clock == now && i < |items| && items[i].stage == Proposed && d.at == Millis(now)
      requires if d.stage == Approved then j.Some? && d.job == j.value.id && j.value.key == JobKey(items[i].id)
        else d.stage == Rejected && j.None? && d.job == ""
      modifies this`items, this`lastEnd, this`submitted
      ensures Valid() && items == old(items)[i := AsDecided(old(items)[i], d)]
        && lastEnd == old(lastEnd)[items[i].source := now] && p == items[i]
      ensures submitted == if j.Some? then old(submitted)[i := j.value] else old(submitted)
      ensures Persist(old(items), items) && OpenCount(items) <= OpenCount(old(items))
        && forall x :: Spaced(old(items), x) ==> Spaced(items, x)
    {
      hide Kept, Persist, Spaced, Recorded, OpenCount;
      p := AsDecided(items[i], d);
      items := items[i := p];
      lastEnd := lastEnd[p.source := now];
      submitted := if j.Some? then submitted[i := j.value] else submitted;
      ClosedIsRecorded(old(items), i, p, old(submitted), j);
      ClosingKeeps(old(items), items, old(lastEnd), lastEnd, clock, now);
    }

    /** The proposals in a stage (or all), newest first, in the order of the list among equals. */
    method List(stage: Option<Stage>, now: Time) returns (out: seq<Proposal>, ghost places: seq<nat>)
      requires Valid() && clock <= now
      modifies this`items, this`lastEnd, this`clock
      ensures Valid() && items == AfterExpiry(old(items), cfg, now)
        && lastEnd == EndsAfterExpiry(old(items), old(lastEnd), cfg, now)
      ensures Persist(old(items), items) && NewestFirst(items, stage, |items|, out, places)
      ensures ExpiryPromise(old(items), old(lastEnd), cfg, now, items, lastEnd) && ListPromise(items, stage, out)
    {
      hide Kept, Persist, Spaced, Recorded, OpenCount, EndsAfterExpiry, AfterExpiry, NewestFirst, ExpiryPromise,
        ListPromise;
      ExpireLocked(now);
      out, places := Sift(items, stage);
      ListingKeepsPromise(items, stage, out, places);
    }
  }
}
