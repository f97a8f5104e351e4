/** Which robot a job is offered to: eligibility, and the order on robots that dispatch and the time
    estimates use. */
module Routing {
  import opened Base
  import opened Model
  import opened Operations

  // ---- Eligibility ----

  predicate CarriesTool(r: Robot, j: Job) { j.tool == "" || r.tool == j.tool }

  predicate ToolConfirmed(m: Memory, r: Robot, j: Job, now: Time) {
    if !m.cfg.toolCheck.enabled || j.tool == "" then true
    else if r.id in m.seen && now - m.seen[r.id].at <= m.cfg.toolCheck.ttl && m.seen[r.id].at <= now
      then m.seen[r.id].tool == j.tool
    else m.cfg.toolCheck.allow
  }

  /** The freshness part of the choice; with the check off every robot counts as heard from. */
  predicate HeardFrom(cfg: Config, r: Robot, now: Time) {
    cfg.freshness > 0 ==>
      r.heartbeat.Some? && !FromFuture(now, r.heartbeat.value) && now - r.heartbeat.value <= cfg.freshness
  }

  predicate Eligible(m: Memory, r: Robot, j: Job, now: Time) {
    r.available && CarriesTool(r, j) && ToolConfirmed(m, r, j, now) && HeardFrom(m.cfg, r, now)
  }

  // ---- Preference ----

  function Cost(t: LocationTable, a: string, b: string): Option<real> {
    if a == b then Some(0.0)
    else if a in t.costs && b in t.costs[a] then Some(t.costs[a][b])
    else if b in t.costs && a in t.costs[b] then Some(t.costs[b][a])
    else None
  }

  predicate LessUsed(a: Robot, b: Robot) { a.load < b.load || (a.load == b.load && Before(a.id, b.id)) }

  predicate ByTable(cfg: Config, j: Job) { cfg.table.enabled && j.location != "" }

  /** The closer robot by the table of costs, when there is one; then the one less used. */
  predicate Closer(cfg: Config, j: Job, a: Robot, b: Robot) {
    if ByTable(cfg, j) then
      var ca, cb := Cost(cfg.table, j.location, a.location), Cost(cfg.table, j.location, b.location);
      if ca.Some? != cb.Some? then ca.Some?
      else if ca.Some? && ca.value != cb.value then ca.value < cb.value
      else LessUsed(a, b)
    else LessUsed(a, b)
  }

  predicate InPlace(j: Job, r: Robot) { j.location != "" && r.location == j.location }

  /** The order dispatch uses: without a table, a robot in the very location the job names comes first. */
  predicate Prefers(cfg: Config, j: Job, a: Robot, b: Robot) {
    if !ByTable(cfg, j) && InPlace(j, a) != InPlace(j, b) then InPlace(j, a) else Closer(cfg, j, a, b)
  }

  lemma LessUsedOrders(a: Robot, b: Robot, c: Robot)
    ensures a.id != b.id ==> LessUsed(a, b) || LessUsed(b, a)
    ensures LessUsed(a, b) ==> !LessUsed(b, a)
    ensures LessUsed(a, b) && LessUsed(b, c) ==> LessUsed(a, c)
  {
    BeforeTotal(a.id, b.id);
    if Before(a.id, b.id) { BeforeAsymmetric(a.id, b.id); }
    if Before(a.id, b.id) && Before(b.id, c.id) { BeforeTransitive(a.id, b.id, c.id); }
  }

  /** Both orders decide between any two robots, one way only, and are transitive: the choice of
      the best robot has exactly one answer. */
  lemma PreferencesOrder(cfg: Config, j: Job, a: Robot, b: Robot, c: Robot)
    ensures a.id != b.id ==> Closer(cfg, j, a, b) || Closer(cfg, j, b, a)
    ensures Closer(cfg, j, a, b) ==> !Closer(cfg, j, b, a)
    ensures Closer(cfg, j, a, b) && Closer(cfg, j, b, c) ==> Closer(cfg, j, a, c)
    ensures a.id != b.id ==> Prefers(cfg, j, a, b) || Prefers(cfg, j, b, a)
    ensures Prefers(cfg, j, a, b) ==> !Prefers(cfg, j, b, a)
    ensures Prefers(cfg, j, a, b) && Prefers(cfg, j, b, c) ==> Prefers(cfg, j, a, c)
  {
    LessUsedOrders(a, b, c);
    hide LessUsed;
  }

  ghost predicate NamesAgree(robots: Robots) { forall r :: r in robots ==> robots[r].id == r }

  /** `best` is eligible, and preferred to every other eligible robot. */
  ghost predicate IsBest(m: Memory, j: Job, now: Time, best: Option<RobotId>) {
    match best
    case None => forall r :: r in m.robots ==> !Eligible(m, m.robots[r], j, now)
    case Some(b) =>
      && b in m.robots && Eligible(m, m.robots[b], j, now)
      && forall r :: r in m.robots && r != b && Eligible(m, m.robots[r], j, now) ==>
        Prefers(m.cfg, j, m.robots[b], m.robots[r])
  }

  lemma BestIsUnique(m: Memory, j: Job, now: Time, a: Option<RobotId>, b: Option<RobotId>)
    requires IsBest(m, j, now, a) && IsBest(m, j, now, b)
    ensures a == b
  {
    if a.Some? && b.Some? && a != b {
      PreferencesOrder(m.cfg, j, m.robots[a.value], m.robots[b.value], m.robots[a.value]);
    }
  }

  ghost function Best(m: Memory, j: Job, now: Time): Option<RobotId> {
    if exists b :: IsBest(m, j, now, b) then
      var b :| IsBest(m, j, now, b); b
    else None
  }

  // ---- What the choice means, in the fields of robots and settings ----

  /** The robot is available, has the tool, is confirmed to have it where that is asked for, and was heard
      from recently where that matters. */
  predicate Suits(m: Memory, r: Robot, j: Job, now: Time) {
    r.available && HasTool(r, j) && SeenWith(m, r, j, now) && Recent(m.cfg, r, now)
  }

  predicate HasTool(r: Robot, j: Job) { j.tool != "" ==> r.tool == j.tool }

  predicate Recent(cfg: Config, r: Robot, now: Time) {
    cfg.freshness > 0 ==>
      r.heartbeat.Some? && now - r.heartbeat.value <= cfg.freshness && r.heartbeat.value - now <= MINUTE
  }

  /** Its controller showed the tool a short while ago, or it shows nothing and that is allowed. */
  predicate SeenWith(m: Memory, r: Robot, j: Job, now: Time) {
    m.cfg.toolCheck.enabled && j.tool != "" ==>
      var recent := r.id in m.seen && 0 <= now - m.seen[r.id].at <= m.cfg.toolCheck.ttl;
      (recent ==> m.seen[r.id].tool == j.tool) && (!recent ==> m.cfg.toolCheck.allow)
  }

  lemma SuitsMeansEligible(m: Memory, r: Robot, j: Job, now: Time)
    ensures Suits(m, r, j, now) <==> Eligible(m, r, j, now)
    ensures SeenWith(m, r, j, now) <==> ToolConfirmed(m, r, j, now)
    ensures Recent(m.cfg, r, now) <==> HeardFrom(m.cfg, r, now)
  {
  }

  predicate WayKnown(costs: map<string, map<string, real>>, a: string, b: string) {
    a == b || (a in costs && b in costs[a]) || (b in costs && a in costs[b])
  }

  /** The way from `a` to `b` costs `c`: nothing within one place, else what is declared for it, else what
      is declared for the way back. */
  predicate WayCosts(costs: map<string, map<string, real>>, a: string, b: string, c: real) {
    && WayKnown(costs, a, b)
    && (a == b ==> c == 0.0)
    && (a != b && a in costs && b in costs[a] ==> c == costs[a][b])
    && (a != b && !(a in costs && b in costs[a]) && b in costs && a in costs[b] ==> c == costs[b][a])
  }

  predicate UsedLess(a: Robot, b: Robot) { a.load <= b.load && (a.load == b.load ==> Before(a.id, b.id)) }

  /** With a table of costs and a place named, `a` is nearer than `b`, or as near and used less; a known way
      is nearer than an unknown one. Otherwise `a` is used less. */
  ghost predicate Nearer(cfg: Config, j: Job, a: Robot, b: Robot) {
    if cfg.table.enabled && j.location != "" then
      && (WayKnown(cfg.table.costs, j.location, b.location) ==> WayKnown(cfg.table.costs, j.location, a.location))
      && (!WayKnown(cfg.table.costs, j.location, a.location) ==> UsedLess(a, b))
      && forall c, d ::
           WayCosts(cfg.table.costs, j.location, a.location, c) && WayCosts(cfg.table.costs, j.location, b.location, d)
           ==> c <= d && (c == d ==> UsedLess(a, b))
    else UsedLess(a, b)
  }

  lemma CloserIsNearer(cfg: Config, j: Job, a: Robot, b: Robot)
    ensures Closer(cfg, j, a, b) <==> Nearer(cfg, j, a, b)
  {
    hide Before;
    CostIsWay(cfg.table, j.location, a.location);
    CostIsWay(cfg.table, j.location, b.location);
    assert LessUsed(a, b) <==> UsedLess(a, b);
    hide WayKnown, WayCosts, Cost, LessUsed, UsedLess;
  }

  lemma CostIsWay(t: LocationTable, a: string, b: string)
    ensures WayKnown(t.costs, a, b) <==> Cost(t, a, b).Some?
    ensures forall c :: WayCosts(t.costs, a, b, c) <==> Cost(t, a, b) == Some(c)
  {
  }

  /** Of the robots that suit the job and are not `taken`, `r` is the nearest by the table; without a table
      it stands in the place of the job if any does, and is used least among those that do as it does. */
  ghost predicate FirstChoice(m: Memory, j: Job, now: Time, r: RobotId, taken: set<RobotId>) {
    && r in m.robots && r !in taken && Suits(m, m.robots[r], j, now)
    && forall q :: q in m.robots && q != r && q !in taken && Suits(m, m.robots[q], j, now) ==>
         var there, other := m.robots[r].location == j.location, m.robots[q].location == j.location;
         if j.location == "" || m.cfg.table.enabled || there == other then Nearer(m.cfg, j, m.robots[r], m.robots[q])
         else there
  }

  ghost predicate NobodySuits(m: Memory, j: Job, now: Time, taken: set<RobotId>) {
    forall r :: r in m.robots && r !in taken ==> !Suits(m, m.robots[r], j, now)
  }

  /** What the one best robot is, said without the order that defines it. */
  lemma BestIsFirstChoice(m: Memory, j: Job, now: Time, best: Option<RobotId>)
    requires IsBest(m, j, now, best)
    ensures match best case Some(r) => FirstChoice(m, j, now, r, {}) case None => NobodySuits(m, j, now, {})
  {
    hide Suits, Eligible, Closer, Nearer;
    forall r | r in m.robots ensures Suits(m, m.robots[r], j, now) <==> Eligible(m, m.robots[r], j, now) {
      SuitsMeansEligible(m, m.robots[r], j, now);
    }
    if best.Some? {
      forall q | q in m.robots && Closer(m.cfg, j, m.robots[best.value], m.robots[q])
        ensures Nearer(m.cfg, j, m.robots[best.value], m.robots[q])
      {
        CloserIsNearer(m.cfg, j, m.robots[best.value], m.robots[q]);
      }
    }
  }

  /** The choice when the table of costs decides: one scan, in any order. */
  method ClosestByTable(m: Memory, j: Job, now: Time) returns (best: Option<RobotId>)
    requires NamesAgree(m.robots) && ByTable(m.cfg, j)
    ensures IsBest(m, j, now, best)
    ensures match best case Some(r) => FirstChoice(m, j, now, r, {}) case None => NobodySuits(m, j, now, {})
  {
    hide Closer, Eligible, LessUsed, Cost, FirstChoice, NobodySuits;
    best := None;
    var todo := m.robots.Keys;
    while todo != {}
      invariant todo <= m.robots.Keys
      invariant best.None? ==> forall r :: r in m.robots && r !in todo ==> !Eligible(m, m.robots[r], j, now)
      invariant best.Some? ==>
        best.value in m.robots && best.value !in todo && Eligible(m, m.robots[best.value], j, now)
      invariant best.Some? ==> forall r ::
        r in m.robots && r !in todo && r != best.value && Eligible(m, m.robots[r], j, now)
        ==> Closer(m.cfg, j, m.robots[best.value], m.robots[r])
    {
      var r :| r in todo;
      todo := todo - {r};
      if Eligible(m, m.robots[r], j, now) && (best.None? || Closer(m.cfg, j, m.robots[r], m.robots[best.value])) {
        if best.Some? {
          forall q | q in m.robots && q !in todo && q != best.value && Eligible(m, m.robots[q], j, now)
            ensures q != r ==> Closer(m.cfg, j, m.robots[r], m.robots[q])
          {
            PreferencesOrder(m.cfg, j, m.robots[r], m.robots[best.value], m.robots[q]);
          }
        }
        best := Some(r);
      } else if best.Some? {
        PreferencesOrder(m.cfg, j, m.robots[r], m.robots[best.value], m.robots[r]);
      }
    }
    BestIsFirstChoice(m, j, now, best);
  }

  /** The choice without a table: the least used eligible robot, unless one stands where the job asks. */
  method LeastUsed(m: Memory, j: Job, now: Time) returns (best: Option<RobotId>)
    requires NamesAgree(m.robots) && !ByTable(m.cfg, j)
    ensures IsBest(m, j, now, best)
    ensures match best case Some(r) => FirstChoice(m, j, now, r, {}) case None => NobodySuits(m, j, now, {})
  {
    hide Eligible, LessUsed, FirstChoice, NobodySuits;
    var any: Option<RobotId>, here: Option<RobotId> := None, None;
    var todo := m.robots.Keys;
    while todo != {}
      invariant todo <= m.robots.Keys
      invariant LeastOf(m, j, now, m.robots.Keys - todo, false, any)
      invariant LeastOf(m, j, now, m.robots.Keys - todo, true, here)
    {
      var r :| r in todo;
      if Eligible(m, m.robots[r], j, now) {
        LeastOfGrows(m, j, now, m.robots.Keys - todo, false, any, r);
        LeastOfGrows(m, j, now, m.robots.Keys - todo, true, here, r);
        if any.None? || LessUsed(m.robots[r], m.robots[any.value]) {
          any := Some(r);
        }
        if InPlace(j, m.robots[r]) && (here.None? || LessUsed(m.robots[r], m.robots[here.value])) {
          here := Some(r);
        }
      }
      assert m.robots.Keys - (todo - {r}) == m.robots.Keys - todo + {r};
      todo := todo - {r};
    }
    assert m.robots.Keys - todo == m.robots.Keys;
    best := if here.Some? then here else any;
    BestIsFirstChoice(m, j, now, best);
  }

  ghost predicate LeastOf(m: Memory, j: Job, now: Time, s: set<RobotId>, hereOnly: bool, best: Option<RobotId>) {
    && s <= m.robots.Keys
    && (best.None? ==> forall r :: r in s && Eligible(m, m.robots[r], j, now) ==> hereOnly && !InPlace(j, m.robots[r]))
    && (best.Some? ==>
          && best.value in s && Eligible(m, m.robots[best.value], j, now)
          && (hereOnly ==> InPlace(j, m.robots[best.value]))
          && forall r ::
               r in s && r != best.value && Eligible(m, m.robots[r], j, now) && (hereOnly ==> InPlace(j, m.robots[r]))
               ==> LessUsed(m.robots[best.value], m.robots[r]))
  }

  lemma LeastOfGrows(m: Memory, j: Job, now: Time, s: set<RobotId>, hereOnly: bool, best: Option<RobotId>, r: RobotId)
    requires NamesAgree(m.robots) && LeastOf(m, j, now, s, hereOnly, best)
    requires r in m.robots && r !in s && Eligible(m, m.robots[r], j, now)
    ensures LeastOf(m, j, now, s + {r}, hereOnly,
              if (hereOnly ==> InPlace(j, m.robots[r])) && (best.None? || LessUsed(m.robots[r], m.robots[best.value]))
                then Some(r) else best)
  {
    hide Eligible, LessUsed, InPlace;
    if best.Some? {
      forall q | q in s
        ensures LessUsed(m.robots[r], m.robots[best.value]) && LessUsed(m.robots[best.value], m.robots[q]) ==>
                  LessUsed(m.robots[r], m.robots[q])
      {
        LessUsedOrders(m.robots[r], m.robots[best.value], m.robots[q]);
      }
      LessUsedOrders(m.robots[r], m.robots[best.value], m.robots[r]);
    }
  }

  method BestRobotFor(m: Memory, j: Job, now: Time) returns (best: Option<RobotId>)
    requires NamesAgree(m.robots)
    ensures best == Best(m, j, now) && IsBest(m, j, now, best)
    ensures match best case Some(r) => FirstChoice(m, j, now, r, {}) case None => NobodySuits(m, j, now, {})
  {
    hide Best, FirstChoice, NobodySuits;
    if ByTable(m.cfg, j) {
      best := ClosestByTable(m, j, now);
    } else {
      best := LeastUsed(m, j, now);
    }
    BestIs(m, j, now);
    BestIsUnique(m, j, now, best, Best(m, j, now));
  }

  lemma BestIs(m: Memory, j: Job, now: Time)
    requires NamesAgree(m.robots)
    ensures IsBest(m, j, now, Best(m, j, now))
  {
    var s := set r | r in m.robots && Eligible(m, m.robots[r], j, now);
    if s == {} {
      forall r | r in m.robots ensures !Eligible(m, m.robots[r], j, now) { assert r !in s; }
      assert IsBest(m, j, now, None);
    } else {
      var less := (a, b) => a in m.robots && b in m.robots && Prefers(m.cfg, j, m.robots[a], m.robots[b]);
      forall a, b, c | a in s && b in s && c in s
        ensures a != b ==> less(a, b) || less(b, a)
        ensures less(a, b) ==> !less(b, a)
        ensures less(a, b) && less(b, c) ==> less(a, c)
      {
        PreferencesOrder(m.cfg, j, m.robots[a], m.robots[b], m.robots[c]);
      }
      OrdersByTriples(less, s);
      LeastExists(less, s);
      var b :| IsLeast(less, s, b);
      forall r | r in m.robots && r != b && Eligible(m, m.robots[r], j, now)
        ensures Prefers(m.cfg, j, m.robots[b], m.robots[r]) {
        assert r in s;
      }
      assert IsBest(m, j, now, Some(b));
    }
  }

  lemma OrdersByTriples<T(!new)>(less: (T, T) -> bool, s: set<T>)
    requires forall a, b, c :: a in s && b in s && c in s ==>
      (a != b ==> less(a, b) || less(b, a)) && (less(a, b) ==> !less(b, a)) && (less(a, b) && less(b, c) ==> less(a, c))
    ensures Orders(less, s)
  {
    forall x, y | x in s && y in s ensures (x != y ==> less(x, y) || less(y, x)) && (less(x, y) ==> !less(y, x)) {
      assert x in s && y in s && x in s;
    }
  }
}
