/** What message ids buy.  A relay may publish an event again and again; the stream takes a second copy only when it has
    forgotten the first, so copies of one event are at least ten minutes apart. */
module Streams {
  import opened Domain
  import opened Worlds

  /** When the stream grew by a copy of the event, oldest first. */
  ghost function CopiesAt(c: Config, r: Run, event: Uuid): seq<Time> {
    match r
    case Start => []
    case Do(past, a) =>
      var w, v := WorldAfter(c, past), WorldAfter(c, r);
      if a.Publish? && a.relay.claim.payload.id == event && v.bus.next == w.bus.next + 1
      then CopiesAt(c, past, event) + [w.now]
      else CopiesAt(c, past, event)
  }

  /** The stream remembers the last copy. */
  ghost predicate Remembers(bus: Bus, event: Uuid, times: seq<Time>, now: Time) {
    && (event in bus.seen <==> times != [])
    && (times != [] ==> bus.seen[event] == times[|times| - 1] <= now)
  }

  ghost predicate TenMinutesApart(times: seq<Time>) {
    forall i :: 0 <= i && i + 1 < |times| ==> times[i + 1] - times[i] >= 600_000_000
  }

  lemma PublishRemembers(bus: Bus, e: Envelope, now: Time, event: Uuid, times: seq<Time>)
    requires Remembers(bus, event, times, now) && TenMinutesApart(times)
    ensures var next := Published(bus, e, now);
            var later := if e.id == event && next.next == bus.next + 1 then times + [now] else times;
            && next.next <= bus.next + 1
            && Remembers(next, event, later, now) && TenMinutesApart(later)
  {
  }

  /** Only publishing touches what the stream remembers; time only advances. */
  lemma SeenStep(c: Config, w: World, a: Action)
    requires Possible(c, w, a)
    ensures w.now <= Next(c, w, a).now && Next(c, w, a).bus == NextBus(w, a)
    ensures !a.Publish? ==> NextBus(w, a).seen == w.bus.seen
    ensures a.Publish? ==> Next(c, w, a).now == w.now
                           && (NextBus(w, a) == w.bus || NextBus(w, a) == Published(w.bus, a.relay.claim.payload, w.now))
  {
    hide Published, NextDesk, NextAlerts, NextOutbox, NextReceipts, NextInbox, NextJobs, NextCalls, NextDeliveries, NextRelays,
         NextHandled;
  }

  lemma {:induction false} CopiesAreApart(c: Config, r: Run, event: Uuid)
    requires ValidRun(c, r)
    ensures Remembers(WorldAfter(c, r).bus, event, CopiesAt(c, r, event), WorldAfter(c, r).now)
    ensures TenMinutesApart(CopiesAt(c, r, event))
  {
    if r.Do? {
      CopiesAreApart(c, r.past, event);
      var w, a := WorldAfter(c, r.past), r.action;
      hide Published, Next, NextBus, Possible, TenMinutesApart;
      SeenStep(c, w, a);
      if a.Publish? {
        PublishRemembers(w.bus, a.relay.claim.payload, w.now, event, CopiesAt(c, r.past, event));
      }
    }
  }
}
