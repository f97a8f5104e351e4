/** The event hub: a bounded ring of recent events, and subscribers that are dropped when they fall behind. */
module EventHubs {
  import opened Base

  datatype Event = Event(id: int, kind: string, job: string, robot: string, attempt: int, at: int)

  type Log = seq<Event>

  // ---- The published log ----

  /** Ids count the events from 1. */
  ghost predicate Numbered(log: Log) { forall i :: 0 <= i < |log| ==> log[i].id == i + 1 }

  /** Every id is the one before plus one. */
  ghost predicate Consecutive(s: Log) { forall i :: 0 < i < |s| ==> s[i].id == s[i - 1].id + 1 }

  function Recent(log: Log, n: nat): Log { if |log| <= n then log else log[|log| - n..] }

  /** The position in the log where a subscription asked from `since` begins. */
  function Begin(since: int, count: nat, buffer: nat): nat {
    var oldest := if count <= buffer then 0 else count - buffer;
    if since <= oldest then oldest else if since <= count then since else count
  }

  /** The buffer still holds the event after `since`, or `since` is the newest one. */
  predicate Covered(since: int, count: nat, buffer: nat) { 0 <= since <= count && count - since <= buffer }

  /** A reader asks from the last event it has; it gets the next one exactly when the buffer covers it. */
  lemma BeginsWhereAsked(since: int, count: nat, buffer: nat)
    ensures Begin(since, count, buffer) == since <==> Covered(since, count, buffer)
  {
  }

  /** Trimming after each event keeps the most recent ones. */
  lemma RecentGrows(log: Log, ev: Event, n: nat)
    requires n > 0
    ensures Recent(log + [ev], n) == Recent(Recent(log, n) + [ev], n)
  {
  }

  /** A piece of the log stays one when an event is published, and grows with it if it reached the end. */
  lemma PieceGrows(log: Log, ev: Event, from: nat, s: Log, s': Log, carried: bool)
    requires from + |s| <= |log| && s == log[from..from + |s|]
    requires s' == if carried then s + [ev] else s
    requires carried ==> from + |s| == |log|
    ensures from + |s'| <= |log + [ev]| && s' == (log + [ev])[from..from + |s'|]
      && (carried ==> from + |s'| == |log + [ev]|)
  {
  }

  // ---- Subscribers ----

  datatype Received = Got(event: Event) | Closed | Blocked

  /** The queue between the hub and one reader. */
  class Channel {
    const cap: nat
    var queue: Log
    var closed: bool
    /** The reader is blocked on the empty queue. */
    var waiting: bool
    /** Where in the log the subscription begins, what the reader was given at once, and what the
        channel carried to it since. */
    ghost const from: nat
    ghost const replay: Log
    ghost var taken: Log

    constructor (cap: nat, ghost from: nat, ghost replay: Log)
      ensures this.cap == cap && this.from == from && this.replay == replay
      ensures queue == [] && taken == [] && !closed && !waiting
    {
      this.cap, this.from, this.replay := cap, from, replay;
      queue, taken, closed, waiting := [], [], false, false;
    }

    /** All the reader is given: the replay, then what comes through the channel. */
    ghost function Stream(): Log
      reads this`queue, this`taken
    {
      replay + taken + queue
    }

    predicate Room()
      reads this`queue, this`waiting
    {
      |queue| < cap || waiting
    }

    /** A reader waits only while there is nothing to read. */
    ghost predicate Valid()
      reads this
    {
      |queue| <= cap && (waiting ==> queue == [] && !closed)
    }

    /** Hands an event over without waiting for the reader. */
    method Offer(ev: Event) returns (ok: bool)
      requires Valid() && !closed
      modifies this`queue, this`taken, this`waiting
      ensures Valid() && ok == old(Room()) && ok == (old(waiting) || |old(queue)| < cap)
      ensures Stream() == if ok then old(Stream()) + [ev] else old(Stream())
    {
      if waiting {
        taken, waiting := taken + [ev], false;
        return true;
      }
      if |queue| < cap {
        queue := queue + [ev];
        assert Stream() == old(Stream()) + [ev];
        return true;
      }
      return false;
    }

    method Close()
      requires Valid() && !closed
      modifies this`closed, this`waiting
      ensures Valid() && closed
    {
      closed, waiting := true, false;
    }

    /** The reader takes the next event. A closed channel still gives what is queued. */
    method Receive() returns (r: Received)
      requires Valid() && !waiting
      modifies this`queue, this`taken, this`waiting
      ensures Valid() && Stream() == old(Stream())
      ensures r.Got? ==> taken == old(taken) + [r.event] && queue == old(queue)[1..] && !waiting
      ensures !r.Got? ==> old(queue) == [] && taken == old(taken) && queue == [] && waiting == r.Blocked?
      ensures r.Closed? <==> old(queue) == [] && closed
    {
      if queue != [] {
        r := Got(queue[0]);
        queue, taken := queue[1..], taken + [queue[0]];
        return;
      }
      if closed {
        return Closed;
      }
      waiting := true;
      r := Blocked;
    }
  }

  /** The buffered events after `since`. */
  method After(ring: Log, since: int, ghost log: Log, ghost buffer: nat) returns (replay: Log)
    requires Numbered(log) && ring == Recent(log, buffer)
    ensures Begin(since, |log|, buffer) <= |log| && replay == log[Begin(since, |log|, buffer)..]
  {
    hide Numbered, Begin, Recent;
    replay := [];
    ghost var from, first := Begin(since, |log|, buffer), |log| - |ring|;
    WhereItBegins(log, since, buffer);
    for i := 0 to |ring|
      invariant replay == if first + i <= from then [] else log[from..first + i]
    {
      assert ring[i] == log[first + i];
      if ring[i].id > since {
        replay := replay + [ring[i]];
      }
    }
  }

  lemma WhereItBegins(log: Log, since: int, buffer: nat)
    requires Numbered(log)
    ensures var from, first := Begin(since, |log|, buffer), |log| - |Recent(log, buffer)|;
      && 0 <= first <= from <= |log| && Recent(log, buffer) == log[first..]
      && forall k :: first <= k < |log| ==> (log[k].id > since <==> k >= from)
  {
  }

  /** What is replayed are the events after `since` among the `buffer` most recent ones. */
  lemma BeginMeans(log: Log, since: int, buffer: nat)
    requires Numbered(log)
    ensures var from := Begin(since, |log|, buffer);
      from <= |log| && forall ev :: ev in log[from..] <==> ev in log && ev.id > since && ev.id > |log| - buffer
  {
    var from := Begin(since, |log|, buffer);
    forall ev ensures ev in log[from..] <==> ev in log && ev.id > since && ev.id > |log| - buffer {
      if ev in log && ev.id > since && ev.id > |log| - buffer {
        assert log[from..][ev.id - 1 - from] == log[ev.id - 1] == ev;
      }
    }
  }

  // ---- The hub ----

  class EventHub {
    const enabled: bool
    const buffer: nat
    const subscriberSize: nat
    var ring: Log
    var next: int
    var subs: set<Channel>
    /** Every event published, and every channel handed out, subscribed or not. */
    ghost var log: Log
    ghost var all: set<Channel>

    constructor (enabled: bool, buffer: nat, subscriberSize: nat)
      requires enabled ==> buffer >= 1
      ensures Valid() && log == [] && all == {}
      ensures this.enabled == enabled && this.buffer == buffer && this.subscriberSize == subscriberSize
    {
      this.enabled, this.buffer, this.subscriberSize := enabled, buffer, subscriberSize;
      ring, next, subs, log, all := [], 0, {}, [], {};
    }

    /** What `c` carries is a piece of the log; while it is subscribed the piece reaches the end. */
    ghost predicate Carries(c: Channel)
      reads this`log, this`subs, c
    {
      && c.Valid() && c.from + |c.Stream()| <= |log|
      && c.Stream() == log[c.from..c.from + |c.Stream()|]
      && (c in subs <==> !c.closed)
      && (c in subs ==> c.from + |c.Stream()| == |log|)
    }

    ghost predicate Valid()
      reads this, all
    {
      && (enabled ==> buffer >= 1) && (!enabled ==> log == [])
      && next == |log| && Numbered(log) && ring == Recent(log, buffer)
      && subs <= all && forall c :: c in all ==> Carries(c)
    }

    /** Records an event and hands it to every subscriber with room; the others are dropped. */
    method Publish(kind: string, job: string, robot: string, attempt: int, at: int)
      requires Valid()
      modifies this`ring, this`next, this`subs, this`log, subs
      ensures Valid() && all == old(all)
      ensures log == if enabled then old(log) + [Event(|old(log)| + 1, kind, job, robot, attempt, at)] else old(log)
      ensures enabled ==> subs == set c | c in old(subs) && old(c.Room())
      ensures enabled ==> forall c :: c in old(subs) ==> (c in subs <==> old(c.waiting || |c.queue| < c.cap))
      ensures !enabled ==> subs == old(subs)
      ensures forall c :: c in all ==>
        c.Stream() == if enabled && c in subs then old(c.Stream()) + [log[|log| - 1]] else old(c.Stream())
    {
      assert forall c :: c in subs ==> (c.Room() <==> c.waiting || |c.queue| < c.cap);
      hide Channel.Stream, Channel.Room, Channel.Valid, Recent, Numbered;
      if !enabled {
        return;
      }
      var ev := Event(next + 1, kind, job, robot, attempt, at);
      Remember(ev);
      HandOut(ev);
      forall c | c in all ensures Carries(c) {
        assert old(Carries(c));
        PieceGrows(old(log), ev, c.from, old(c.Stream()), c.Stream(), c in subs);
      }
    }

    /** The ring forgets the oldest event when it is full. */
    method Remember(ev: Event)
      requires next == |log| && ev.id == next + 1 && Numbered(log) && ring == Recent(log, buffer) && buffer > 0
      modifies this`ring, this`next, this`log
      ensures next == |log| && log == old(log) + [ev] && Numbered(log) && ring == Recent(log, buffer)
    {
      next := next + 1;
      ring := ring + [ev];
      if |ring| > buffer {
        ring := ring[|ring| - buffer..];
      }
      log := log + [ev];
      RecentGrows(old(log), ev, buffer);
    }

    /** The loop over the subscribers, in any order. */
    method HandOut(ev: Event)
      requires subs <= all && log != [] && log[|log| - 1] == ev
      requires forall c :: c in all ==> c.Valid() && (c in subs <==> !c.closed)
      modifies this`subs, subs
      ensures subs == set c | c in old(subs) && old(c.Room())
      ensures forall c :: c in all ==> c.Valid() && (c in subs <==> !c.closed)
      ensures forall c :: c in all ==> c.Stream() == if c in subs then old(c.Stream()) + [ev] else old(c.Stream())
    {
      hide Channel.Stream, Channel.Room, Channel.Valid;
      var todo := subs;
      while todo != {}
        invariant todo <= subs <= old(subs)
        invariant forall c :: c in all ==> c.Valid() && (c in subs <==> !c.closed)
        invariant forall c :: c in todo || (c in all && c !in old(subs)) ==>
          old(c.Room()) == c.Room() && c.Stream() == old(c.Stream())
        invariant forall c :: c in old(subs) && c !in todo ==> (c in subs <==> old(c.Room()))
        invariant forall c :: c in old(subs) && c !in todo ==>
          c.Stream() == if c in subs then old(c.Stream()) + [ev] else old(c.Stream())
      {
        var c :| c in todo;
        todo := todo - {c};
        var ok := c.Offer(ev);
        if !ok {
          subs := subs - {c};
          c.Close();
        }
      }
    }

    /** The events after `since` still in the buffer, and a channel with the following ones. */
    method Subscribe(since: int) returns (replay: Log, c: Channel)
      requires Valid()
      modifies this`subs, this`all
      ensures Valid() && fresh(c) && log == old(log) && subs == old(subs) + {c} && all == old(all) + {c}
      ensures c.replay == replay && c.from == Begin(since, |log|, buffer)
      ensures replay == log[c.from..]
      ensures forall ev :: ev in replay <==> ev in log && ev.id > since && ev.id > |log| - buffer
    {
      hide Channel.Room, Recent, Begin;
      BeginMeans(log, since, buffer);
      replay := After(ring, since, log, buffer);
      c := new Channel(subscriberSize, Begin(since, |log|, buffer), replay);
      subs, all := subs + {c}, all + {c};
      assert c.Stream() == replay;
      forall x | x in all ensures Carries(x) {
        if x != c { assert old(Carries(x)); }
      }
    }

    /** The reader is done with its channel. */
    method Cancel(c: Channel)
      requires Valid() && c in all
      modifies this`subs, c`closed, c`waiting
      ensures Valid() && log == old(log) && all == old(all) && subs == old(subs) - {c} && c.Stream() == old(c.Stream())
    {
      if c in subs {
        subs := subs - {c};
        c.Close();
      }
    }

    /** The reader of one channel takes an event; the hub does not notice. */
    method Take(c: Channel) returns (r: Received)
      requires Valid() && c in all && !c.waiting
      modifies c`queue, c`taken, c`waiting
      ensures Valid() && c.Stream() == old(c.Stream())
      ensures r.Got? ==> c.taken == old(c.taken) + [r.event]
      ensures r.Closed? ==> c !in subs && c.replay + c.taken == c.Stream()
    {
      r := c.Receive();
    }
  }

  // ---- What the readers see ----

  /** Whatever happened to it, a subscriber is given consecutive events, none twice, and what it has
      read so far is the beginning of that. */
  lemma StreamsHaveNoGaps(h: EventHub, c: Channel)
    requires h.Valid() && c in h.all
    ensures Consecutive(c.Stream()) && (c.Stream() != [] ==> c.Stream()[0].id == c.from + 1)
    ensures c.replay + c.taken <= c.Stream()
  {
  }

  /** A reader that reconnects with the id of the last event it has read misses nothing and reads
      nothing twice, exactly when the buffer covered that id. */
  lemma ReconnectingJoins(h: EventHub, a: Channel, b: Channel, got: Log, count: nat)
    requires h.Valid() && a in h.all && b in h.all && got != [] && got <= a.Stream()
      && a.from + |got| <= count <= |h.log|
    requires b.from == Begin(got[|got| - 1].id, count, h.buffer)
    ensures got + b.Stream() == h.log[a.from..b.from + |b.Stream()|] <==> Covered(got[|got| - 1].id, count, h.buffer)
    ensures Covered(got[|got| - 1].id, count, h.buffer) ==> Consecutive(got + b.Stream())
  {
    StreamsHaveNoGaps(h, b);
    var last := got[|got| - 1];
    assert last == h.log[a.from + |got| - 1] by {
      assert last == a.Stream()[|got| - 1];
    }
    BeginsWhereAsked(last.id, count, h.buffer);
    var joined := got + b.Stream();
    assert got == h.log[a.from..a.from + |got|];
    if b.from == last.id {
      assert joined == h.log[a.from..b.from + |b.Stream()|];
      forall i | 0 <= i < |joined| ensures joined[i].id == a.from + i + 1 {
        assert joined[i] == h.log[a.from + i];
      }
    } else if b.Stream() != [] {
      assert joined[|got|] == b.Stream()[0];
    }
  }
}
