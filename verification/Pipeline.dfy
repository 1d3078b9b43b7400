/** From ingestion to correlation nothing is lost and nothing is counted twice, through crashes, lost replies,
    republishing and redelivery. */
module Pipeline {
  import opened Domain
  import opened Tables
  import opened Traces
  import opened Sums
  import opened Worlds

  predicate InInbox(inbox: set<InboxKey>, event: Uuid) {
    InboxKey(CONSUMER, event) in inbox
  }

  /** The alert an outbox row announces. */
  function Announces(outbox: Outbox, event: Uuid): Option<Uuid> {
    if event in outbox then outbox[event].payload.alert else None
  }

  // ---- alerts and outbox rows ----

  /** An outbox row carries a valid event for an alert of its tenant. */
  ghost predicate EventSound(alerts: Alerts, outbox: Outbox, event: Uuid)
    requires event in outbox
  {
    var row := outbox[event];
    && row.id == event && row.payload.id == event && row.payload.Valid()
    && row.payload.tenant == row.tenant
    && row.payload.alert.value in alerts
    && alerts[row.payload.alert.value].tenant == row.tenant
  }

  ghost predicate HasEvent(outbox: Outbox, alert: Uuid) {
    exists event :: event in outbox && Announces(outbox, event) == Some(alert)
  }

  /** Alerts and outbox rows come in pairs: every alert has exactly one event. */
  ghost predicate Paired(alerts: Alerts, outbox: Outbox) {
    && (forall event :: event in outbox ==> EventSound(alerts, outbox, event))
    && (forall e, f :: e in outbox && f in outbox && Announces(outbox, e) == Announces(outbox, f) ==> e == f)
    && (forall alert :: alert in alerts ==> alerts[alert].id == alert && HasEvent(outbox, alert))
  }

  /** Rows are leased, released and marked, but what they carry stays. */
  ghost predicate SamePayloads(outbox: Outbox, later: Outbox) {
    forall event :: event in outbox ==>
      && event in later && later[event].payload == outbox[event].payload
      && later[event].id == outbox[event].id && later[event].tenant == outbox[event].tenant
  }

  lemma PairAddsUp(alerts: Alerts, outbox: Outbox, alert: Alert, event: Uuid, now: Time)
    requires Paired(alerts, outbox) && alert.id !in alerts && event !in outbox
    requires alert.id != NIL && alert.tenant != NIL && event != NIL
    ensures Paired(alerts[alert.id := alert], outbox[event := EventRow(event, alert, now)])
  {
    var more, longer := alerts[alert.id := alert], outbox[event := EventRow(event, alert, now)];
    forall e | e in longer
      ensures EventSound(more, longer, e)
    {
      if e != event {
        assert EventSound(alerts, outbox, e);
      }
    }
    forall id | id in more
      ensures more[id].id == id && HasEvent(longer, id)
    {
      if id == alert.id {
        assert Announces(longer, event) == Some(id);
      } else {
        assert HasEvent(outbox, id);
        var e :| e in outbox && Announces(outbox, e) == Some(id);
        assert e in longer && Announces(longer, e) == Some(id);
      }
    }
    forall e, f | e in longer && f in longer && Announces(longer, e) == Announces(longer, f)
      ensures e == f
    {
      assert e in outbox ==> EventSound(alerts, outbox, e) && Announces(longer, e) == Announces(outbox, e);
      assert f in outbox ==> EventSound(alerts, outbox, f) && Announces(longer, f) == Announces(outbox, f);
    }
  }

  lemma SamePayloadsKeepPairs(alerts: Alerts, outbox: Outbox, later: Outbox)
    requires Paired(alerts, outbox) && SamePayloads(outbox, later) && later.Keys == outbox.Keys
    ensures Paired(alerts, later)
  {
    forall e | e in later
      ensures EventSound(alerts, later, e) && Announces(later, e) == Announces(outbox, e)
    {
      assert EventSound(alerts, outbox, e);
    }
    forall id | id in alerts
      ensures HasEvent(later, id)
    {
      assert HasEvent(outbox, id);
      var e :| e in outbox && Announces(outbox, e) == Some(id);
      assert Announces(later, e) == Some(id);
    }
  }

  /** What an action does to alerts and outbox: an accepted request adds one of each in one transaction, and
      everything else keeps them but for the bookkeeping columns. */
  lemma OutboxStep(c: Config, w: World, a: Action)
    requires Possible(c, w, a)
    ensures a.Ingest? && NewAlert(c, w, a).Some? ==>
              var alert := NewAlert(c, w, a).value;
              && alert.id == a.alert && alert.tenant == a.tenant
              && Next(c, w, a).db.alerts == w.db.alerts[a.alert := alert]
              && Next(c, w, a).db.outbox == w.db.outbox[a.event := EventRow(a.event, alert, w.now)]
    ensures !(a.Ingest? && NewAlert(c, w, a).Some?) ==>
              && Next(c, w, a).db.alerts == w.db.alerts
              && Next(c, w, a).db.outbox.Keys == w.db.outbox.Keys
    ensures SamePayloads(w.db.outbox, Next(c, w, a).db.outbox)
    ensures forall id :: id in w.db.alerts ==> id in Next(c, w, a).db.alerts && Next(c, w, a).db.alerts[id] == w.db.alerts[id]
  {
    hide ReceiptFor, Trimmed, ValidInput, Fingerprint;
  }

  lemma NextKeepsPairs(c: Config, w: World, a: Action)
    requires Paired(w.db.alerts, w.db.outbox) && Possible(c, w, a)
    ensures Paired(Next(c, w, a).db.alerts, Next(c, w, a).db.outbox)
  {
    OutboxStep(c, w, a);
    hide Paired, Next, NewAlert, SamePayloads;
    if a.Ingest? && NewAlert(c, w, a).Some? {
      PairAddsUp(w.db.alerts, w.db.outbox, NewAlert(c, w, a).value, a.event, w.now);
    } else {
      SamePayloadsKeepPairs(w.db.alerts, w.db.outbox, Next(c, w, a).db.outbox);
    }
  }

  // ---- outbox rows and the stream ----

  /** A message that is not poison is the payload of an outbox row. */
  ghost predicate StreamSound(outbox: Outbox, bus: Bus) {
    forall n :: n in bus.stored ==>
      && n < bus.next
      && (!Poison(bus.stored[n]) ==>
            && bus.stored[n].envelope.id in outbox
            && bus.stored[n].envelope == outbox[bus.stored[n].envelope.id].payload)
  }

  /** The message waits in the stream. */
  ghost predicate Waits(bus: Bus, event: Uuid) {
    exists n :: n in bus.stored && !Poison(bus.stored[n]) && bus.stored[n].envelope.id == event
  }

  /** Whatever the stream has ever accepted still waits there or has been applied. */
  ghost predicate SeenCarried(w: World) {
    forall event :: event in w.bus.seen ==>
      event in w.db.outbox && (InInbox(w.db.inbox, event) || Waits(w.bus, event))
  }

  /** Relays hold payloads of outbox rows, and only confirm what the stream has accepted. */
  ghost predicate RelaysSound(w: World) {
    forall job :: job in w.relays ==>
      && job.claim.id in w.db.outbox && job.claim.payload == w.db.outbox[job.claim.id].payload
      && (job.phase == Confirmed ==> job.claim.id in w.bus.seen)
  }

  /** Rows are marked published only after the stream has accepted them. */
  ghost predicate MarksSound(w: World) {
    forall event :: event in w.db.outbox && w.db.outbox[event].publishedAt.Some? ==> event in w.bus.seen
  }

  /** Only messages whose event is in the inbox are acknowledged. */
  ghost predicate AcksSafe(w: World) {
    forall n :: n in w.handled ==>
      && n < w.bus.next
      && (n in w.bus.stored ==> w.bus.stored[n].Event? && InInbox(w.db.inbox, w.bus.stored[n].envelope.id))
  }

  ghost predicate InboxSound(w: World) {
    forall k :: k in w.db.inbox ==> k.consumer == CONSUMER && k.message in w.db.outbox
  }

  ghost predicate Plumbing(w: World) {
    && Paired(w.db.alerts, w.db.outbox) && StreamSound(w.db.outbox, w.bus)
    && SeenCarried(w) && RelaysSound(w) && MarksSound(w) && AcksSafe(w) && InboxSound(w)
  }

  /** The stream changes by one message at a time. */
  lemma StreamStep(c: Config, w: World, a: Action)
    requires Possible(c, w, a) && forall n :: n in w.bus.stored ==> n < w.bus.next
    ensures w.bus.next <= NextBus(w, a).next
    ensures forall n :: n in NextBus(w, a).stored ==>
              if n in w.bus.stored then NextBus(w, a).stored[n] == w.bus.stored[n]
              else || (a.Publish? && n == w.bus.next && NextBus(w, a).stored[n] == Event(a.relay.claim.payload) && n < NextBus(w, a).next)
                   || (Poison(NextBus(w, a).stored[n]) && n < NextBus(w, a).next)
    ensures forall n :: n in w.bus.stored && n < w.bus.next && n !in NextBus(w, a).stored ==>
              Poison(w.bus.stored[n]) || n in w.handled
    ensures forall event :: event in NextBus(w, a).seen <==>
              event in w.bus.seen || (a.Publish? && a.reply != NotStored && event == a.relay.claim.payload.id)
    ensures a.Publish? && a.reply != NotStored && a.relay.claim.payload.id !in w.bus.seen ==>
              w.bus.next in NextBus(w, a).stored && NextBus(w, a).stored[w.bus.next] == Event(a.relay.claim.payload)
    ensures w.db.inbox <= NextInbox(w, a)
  {
  }

  lemma NextKeepsStream(c: Config, w: World, a: Action)
    requires Plumbing(w) && Possible(c, w, a)
    ensures StreamSound(Next(c, w, a).db.outbox, Next(c, w, a).bus)
  {
    OutboxStep(c, w, a);
    StreamStep(c, w, a);
    hide Paired, NextBus, NextOutbox, NextAlerts, SeenCarried, AcksSafe, InboxSound, NextDesk, NextReceipts;
  }

  lemma NextKeepsSeen(c: Config, w: World, a: Action)
    requires Plumbing(w) && Possible(c, w, a)
    ensures SeenCarried(Next(c, w, a))
  {
    var v := Next(c, w, a);
    OutboxStep(c, w, a);
    StreamStep(c, w, a);
    hide NextBus, NextOutbox, NextAlerts, InboxSound, NextDesk, NextReceipts, NextInbox;
    forall event | event in v.bus.seen
      ensures event in v.db.outbox && (InInbox(v.db.inbox, event) || Waits(v.bus, event))
    {
      if event !in w.bus.seen {
        assert EventSound(w.db.alerts, w.db.outbox, a.relay.claim.id);
        assert !Poison(v.bus.stored[w.bus.next]);
        assert Waits(v.bus, event);
      } else if !InInbox(w.db.inbox, event) {
        var n :| n in w.bus.stored && !Poison(w.bus.stored[n]) && w.bus.stored[n].envelope.id == event;
        assert n in v.bus.stored && v.bus.stored[n] == w.bus.stored[n];
      }
    }
  }

  /** Where a relay's job comes from. */
  lemma RelayStep(c: Config, w: World, a: Action, job: RelayJob)
    requires Possible(c, w, a) && job in NextRelays(w, a)
    ensures || job in w.relays
            || (a.Lease? && a.event in w.db.outbox && job == RelayJob(OutboxClaimOf(w.db.outbox[a.event], a.lease), Leased))
            || (a.Publish? && a.relay in w.relays && job.claim == a.relay.claim && (job.phase == Confirmed ==> a.reply == Stored))
  {
  }

  /** A row becomes published only through a relay whose publication was confirmed. */
  lemma MarkStep(c: Config, w: World, a: Action, event: Uuid)
    requires Possible(c, w, a) && event in NextOutbox(c, w, a) && NextOutbox(c, w, a)[event].publishedAt.Some?
    ensures || (event in w.db.outbox && w.db.outbox[event].publishedAt.Some?)
            || (a.Mark? && a.relay in w.relays && a.relay.phase == Confirmed && a.relay.claim.id == event)
  {
    hide ReceiptFor, Trimmed, ValidInput, Fingerprint, NewAlert;
  }

  lemma NextKeepsRelays(c: Config, w: World, a: Action)
    requires Plumbing(w) && Possible(c, w, a)
    ensures RelaysSound(Next(c, w, a))
  {
    var v := Next(c, w, a);
    OutboxStep(c, w, a);
    StreamStep(c, w, a);
    hide NextBus, NextAlerts, NextOutbox, NextRelays, NextDesk, NextReceipts, NextInbox, NextJobs, NextCalls, NextHandled,
         InboxSound, SeenCarried, AcksSafe, MarksSound, Possible;
    forall job | job in v.relays
      ensures && job.claim.id in v.db.outbox && job.claim.payload == v.db.outbox[job.claim.id].payload
              && (job.phase == Confirmed ==> job.claim.id in v.bus.seen)
    {
      RelayStep(c, w, a, job);
      if job !in w.relays {
        assert EventSound(w.db.alerts, w.db.outbox, job.claim.id);
      }
    }
  }

  lemma NextKeepsMarks(c: Config, w: World, a: Action)
    requires Plumbing(w) && Possible(c, w, a)
    ensures MarksSound(Next(c, w, a))
  {
    var v := Next(c, w, a);
    StreamStep(c, w, a);
    hide NextBus, NextAlerts, NextOutbox, NextRelays, NextDesk, NextReceipts, NextInbox, NextJobs, NextCalls, NextHandled,
         InboxSound, SeenCarried, AcksSafe, Possible, Paired;
    forall event | event in v.db.outbox && v.db.outbox[event].publishedAt.Some?
      ensures event in v.bus.seen
    {
      MarkStep(c, w, a, event);
    }
  }

  lemma NextKeepsAcks(c: Config, w: World, a: Action)
    requires Plumbing(w) && Possible(c, w, a)
    ensures AcksSafe(Next(c, w, a))
  {
    StreamStep(c, w, a);
    hide NextBus, NextAlerts, NextOutbox, Paired, InboxSound, NextDesk, NextReceipts, SeenCarried, RelaysSound;
  }

  lemma NextKeepsInbox(c: Config, w: World, a: Action)
    requires Plumbing(w) && Possible(c, w, a)
    ensures InboxSound(Next(c, w, a))
  {
    OutboxStep(c, w, a);
    hide NextBus, NextAlerts, NextOutbox, Paired, NextDesk, NextReceipts, SeenCarried, RelaysSound, AcksSafe;
  }

  /** In every reachable state: each alert has exactly one event; an event the stream accepted waits there until it
      is applied; nothing is marked published or acknowledged too early. */
  lemma {:induction false} NothingIsLost(c: Config, r: Run)
    requires ValidRun(c, r)
    ensures Plumbing(WorldAfter(c, r))
  {
    if r.Do? {
      NothingIsLost(c, r.past);
      var w, a := WorldAfter(c, r.past), r.action;
      NextKeepsPairs(c, w, a);
      NextKeepsStream(c, w, a);
      NextKeepsSeen(c, w, a);
      NextKeepsRelays(c, w, a);
      NextKeepsMarks(c, w, a);
      NextKeepsAcks(c, w, a);
      NextKeepsInbox(c, w, a);
      hide Next, StreamSound, SeenCarried, RelaysSound, MarksSound, AcksSafe, InboxSound, Paired;
    }
  }

  // ---- conservation ----

  /** The events of a key that have been applied. */
  ghost function Processed(alerts: Alerts, outbox: Outbox, inbox: set<InboxKey>, key: CorrelationKey): set<Uuid> {
    set event | event in outbox && InInbox(inbox, event) && EventKey(alerts, outbox, event) == Some(key)
  }

  function EventKey(alerts: Alerts, outbox: Outbox, event: Uuid): Option<CorrelationKey> {
    var alert := Announces(outbox, event);
    if alert.Some? && alert.value in alerts then Some(KeyOf(alerts[alert.value])) else None
  }

  /** What an incident contributes to the occurrences of a key. */
  function CountFor(key: CorrelationKey): Incident -> int {
    (i: Incident) => if i.Key() == key then i.occurrenceCount else 0
  }

  ghost function Occurrences(d: Desk, key: CorrelationKey): int {
    Total(d.incidents, CountFor(key))
  }

  ghost predicate Conserved(w: World) {
    forall key :: Occurrences(w.db.desk, key) == |Processed(w.db.alerts, w.db.outbox, w.db.inbox, key)|
  }

  /** A correlation adds one occurrence to the alert's key and none to any other. */
  lemma CorrelationAddsOne(d: Desk, alert: Alert, choice: Choice, window: nat, key: CorrelationKey)
    requires Admissible(d, alert, window, choice)
    ensures Resolvable(d, choice)
    ensures Occurrences(Correlated(d, alert, choice), key) == Occurrences(d, key) + (if KeyOf(alert) == key then 1 else 0)
  {
    var incident := if choice.Create? then OpenedIncident(choice.id, alert) else MergedIncident(d.incidents[choice.id], alert);
    TotalUpdate(d.incidents, CountFor(key), choice.id, incident);
  }

  /** No other transaction changes the occurrences of a key. */
  lemma OthersAddNothing(d: Desk, op: Op, window: nat, key: CorrelationKey)
    requires Guard(d, op, window) && !op.Correlate?
    ensures Occurrences(Step(d, op), key) == Occurrences(d, key)
  {
    if op.Move? {
      var i := d.incidents[op.command.incident];
      TotalUpdate(d.incidents, CountFor(key), op.command.incident, MovedIncident(i, op.command.to, op.now));
    }
  }

  /** Applying an event adds it, and only it, to the processed events. */
  lemma ProcessedStep(c: Config, w: World, a: Action, key: CorrelationKey)
    requires Plumbing(w) && Possible(c, w, a)
    ensures var v := Next(c, w, a);
            |Processed(v.db.alerts, v.db.outbox, v.db.inbox, key)| == |Processed(w.db.alerts, w.db.outbox, w.db.inbox, key)|
              + (if a.Deliver? && Applies(w, a.number) && KeyOf(w.db.alerts[w.bus.stored[a.number].envelope.alert.value]) == key
                 then 1 else 0)
  {
    var v := Next(c, w, a);
    OutboxStep(c, w, a);
    InboxStep(w, a);
    hide NextAlerts, NextOutbox, NextBus, NextDesk, NextReceipts, NewAlert, NextInbox, NextJobs, NextRelays, Possible,
         SeenCarried, RelaysSound, MarksSound, AcksSafe, Processed, SamePayloads;
    if a.Deliver? && Applies(w, a.number) {
      var event := w.bus.stored[a.number].envelope.id;
      ProcessedPlus(w.db.alerts, w.db.outbox, w.db.inbox, v.db.alerts, v.db.outbox, event, key);
    } else {
      ProcessedSame(w.db.alerts, w.db.outbox, w.db.inbox, v.db.alerts, v.db.outbox, key);
    }
  }

  lemma InboxStep(w: World, a: Action)
    ensures a.Deliver? && Applies(w, a.number) ==>
              NextInbox(w, a) == w.db.inbox + {InboxKey(CONSUMER, w.bus.stored[a.number].envelope.id)}
    ensures !(a.Deliver? && Applies(w, a.number)) ==> NextInbox(w, a) == w.db.inbox
  {
  }

  /** Tables that only grow do not change what an event announces, nor the key of the alert. */
  ghost predicate TablesGrow(alerts: Alerts, outbox: Outbox, later: Alerts, longer: Outbox) {
    && SamePayloads(outbox, longer)
    && forall id :: id in alerts ==> id in later && later[id] == alerts[id]
  }

  lemma KnownEventKey(alerts: Alerts, outbox: Outbox, later: Alerts, longer: Outbox, event: Uuid)
    requires Paired(alerts, outbox) && TablesGrow(alerts, outbox, later, longer) && event in outbox
    ensures event in longer && EventKey(later, longer, event) == EventKey(alerts, outbox, event)
    ensures EventKey(alerts, outbox, event) == Some(KeyOf(alerts[outbox[event].payload.alert.value]))
  {
    assert EventSound(alerts, outbox, event);
  }

  lemma ProcessedSame(alerts: Alerts, outbox: Outbox, inbox: set<InboxKey>, later: Alerts, longer: Outbox, key: CorrelationKey)
    requires Paired(alerts, outbox) && TablesGrow(alerts, outbox, later, longer)
    requires forall k :: k in inbox ==> k.message in outbox
    ensures Processed(later, longer, inbox, key) == Processed(alerts, outbox, inbox, key)
  {
    forall event | InInbox(inbox, event)
      ensures event in outbox && event in longer && EventKey(later, longer, event) == EventKey(alerts, outbox, event)
    {
      assert InboxKey(CONSUMER, event) in inbox;
      KnownEventKey(alerts, outbox, later, longer, event);
    }
  }

  lemma ProcessedPlus(alerts: Alerts, outbox: Outbox, inbox: set<InboxKey>, later: Alerts, longer: Outbox, event: Uuid, key: CorrelationKey)
    requires Paired(alerts, outbox) && TablesGrow(alerts, outbox, later, longer)
    requires forall k :: k in inbox ==> k.message in outbox
    requires event in outbox && !InInbox(inbox, event)
    ensures |Processed(later, longer, inbox + {InboxKey(CONSUMER, event)}, key)| == |Processed(alerts, outbox, inbox, key)|
              + (if KeyOf(alerts[outbox[event].payload.alert.value]) == key then 1 else 0)
  {
    KnownEventKey(alerts, outbox, later, longer, event);
    ProcessedSame(alerts, outbox, inbox, later, longer, key);
    ProcessedAdd(later, longer, inbox, event, key);
    assert event !in Processed(later, longer, inbox, key);
    hide Processed, Paired, TablesGrow, EventKey;
  }

  lemma ProcessedAdd(alerts: Alerts, outbox: Outbox, inbox: set<InboxKey>, event: Uuid, key: CorrelationKey)
    requires event in outbox
    ensures Processed(alerts, outbox, inbox + {InboxKey(CONSUMER, event)}, key)
            == Processed(alerts, outbox, inbox, key) + (if EventKey(alerts, outbox, event) == Some(key) then {event} else {})
  {
  }

  lemma OccurrencesStep(c: Config, w: World, a: Action, key: CorrelationKey)
    requires Possible(c, w, a)
    ensures Occurrences(NextDesk(w, a), key) == Occurrences(w.db.desk, key)
              + (if a.Deliver? && Applies(w, a.number) && KeyOf(w.db.alerts[w.bus.stored[a.number].envelope.alert.value]) == key
                 then 1 else 0)
  {
    var op := OpOf(w, a);
    if op.Some? {
      if op.value.Correlate? {
        CorrelationAddsOne(w.db.desk, op.value.alert, op.value.choice, c.window, key);
      } else {
        OthersAddNothing(w.db.desk, op.value, c.window, key);
      }
    }
  }

  /** In every reachable state the occurrence counts of a key's incidents add up to the number of its alerts whose
      event has been applied: nothing is counted twice, and nothing applied is forgotten. */
  lemma {:induction false} OccurrencesAreConserved(c: Config, r: Run)
    requires ValidRun(c, r)
    ensures Conserved(WorldAfter(c, r))
  {
    if r.Start? {
      assert forall key :: Processed(map[], map[], {}, key) == {};
    } else {
      OccurrencesAreConserved(c, r.past);
      NothingIsLost(c, r.past);
      var w, a := WorldAfter(c, r.past), r.action;
      forall key
        ensures Occurrences(Next(c, w, a).db.desk, key)
                == |Processed(Next(c, w, a).db.alerts, Next(c, w, a).db.outbox, Next(c, w, a).db.inbox, key)|
      {
        ProcessedStep(c, w, a, key);
        OccurrencesStep(c, w, a, key);
        assert Occurrences(w.db.desk, key) == |Processed(w.db.alerts, w.db.outbox, w.db.inbox, key)|;
      }
    }
  }

  /** The alerts accepted for a key. */
  function AcceptedAlerts(alerts: Alerts, key: CorrelationKey): set<Uuid> {
    set id | id in alerts && KeyOf(alerts[id]) == key
  }

  /** Outbox drained, and no event left in the stream. */
  ghost predicate Quiescent(w: World) {
    && (forall event :: event in w.db.outbox ==> w.db.outbox[event].publishedAt.Some?)
    && (forall n :: n in w.bus.stored ==> Poison(w.bus.stored[n]))
  }

  /** Each alert has one event, so counting applied events counts alerts. */
  lemma {:induction false} EventsCountAlerts(alerts: Alerts, outbox: Outbox, events: set<Uuid>, ids: set<Uuid>)
    requires forall e :: e in events ==> e in outbox && Announces(outbox, e).Some? && Announces(outbox, e).value in ids
    requires forall e, f :: e in events && f in events && Announces(outbox, e) == Announces(outbox, f) ==> e == f
    requires forall id :: id in ids ==> exists e :: e in events && Announces(outbox, e) == Some(id)
    ensures |events| == |ids|
    decreases |events|
  {
    if events == {} {
      assert ids == {};
    } else {
      var e :| e in events;
      var id := Announces(outbox, e).value;
      EventsCountAlerts(alerts, outbox, events - {e}, ids - {id});
    }
  }

  /** No loss, end to end: once the outbox is drained and the stream holds no event, the incidents of every key count
      exactly the alerts that were accepted for it, whatever crashed, was lost, repeated or delayed on the way. */
  lemma QuiescentCountsEveryAlert(c: Config, r: Run, key: CorrelationKey)
    requires ValidRun(c, r) && Quiescent(WorldAfter(c, r))
    ensures Occurrences(WorldAfter(c, r).db.desk, key) == |AcceptedAlerts(WorldAfter(c, r).db.alerts, key)|
  {
    NothingIsLost(c, r);
    OccurrencesAreConserved(c, r);
    var w := WorldAfter(c, r);
    hide WorldAfter, ValidRun;
    var events := Processed(w.db.alerts, w.db.outbox, w.db.inbox, key);
    assert Occurrences(w.db.desk, key) == |events|;
    AllProcessed(w, key);
    EventsCountAlerts(w.db.alerts, w.db.outbox, events, AcceptedAlerts(w.db.alerts, key));
  }

  lemma AllProcessed(w: World, key: CorrelationKey)
    requires Plumbing(w) && Quiescent(w)
    ensures var events := Processed(w.db.alerts, w.db.outbox, w.db.inbox, key);
            var ids := AcceptedAlerts(w.db.alerts, key);
            && (forall e :: e in events ==> e in w.db.outbox && Announces(w.db.outbox, e).Some? && Announces(w.db.outbox, e).value in ids)
            && (forall e, f :: e in events && f in events && Announces(w.db.outbox, e) == Announces(w.db.outbox, f) ==> e == f)
            && (forall id :: id in ids ==> exists e :: e in events && Announces(w.db.outbox, e) == Some(id))
  {
    var events := Processed(w.db.alerts, w.db.outbox, w.db.inbox, key);
    forall id | id in AcceptedAlerts(w.db.alerts, key)
      ensures exists e :: e in events && Announces(w.db.outbox, e) == Some(id)
    {
      assert HasEvent(w.db.outbox, id);
      var e :| e in w.db.outbox && Announces(w.db.outbox, e) == Some(id);
      assert e in w.bus.seen;
      assert !Waits(w.bus, e);
      assert e in events;
    }
  }

  // ---- once per alert ----

  /** How many correlations of a trace concern an alert. */
  function Correlations(t: Trace, alert: Uuid): nat {
    match t
    case Boot => 0
    case Then(past, op) => Correlations(past, alert) + (if op.Correlate? && op.alert.id == alert then 1 else 0)
  }

  function AlertId(outbox: Outbox, event: Uuid): Uuid {
    var alert := Announces(outbox, event);
    if alert.Some? then alert.value else NIL
  }

  ghost predicate OnceEach(alerts: Alerts, outbox: Outbox, inbox: set<InboxKey>, t: Trace) {
    && (forall event :: event in outbox ==>
          Correlations(t, AlertId(outbox, event)) == (if InInbox(inbox, event) then 1 else 0))
    && (forall alert :: alert !in alerts ==> Correlations(t, alert) == 0)
  }

  /** The alert correlated by an action, if any. */
  function AppliedAlert(w: World, a: Action): Option<Uuid> {
    if a.Deliver? && Applies(w, a.number) then w.bus.stored[a.number].envelope.alert else None
  }

  lemma CorrelationsStep(c: Config, r: Run)
    requires r.Do? && Paired(WorldAfter(c, r.past).db.alerts, WorldAfter(c, r.past).db.outbox)
    ensures forall alert: Uuid :: Correlations(DeskTrace(c, r), alert) == Correlations(DeskTrace(c, r.past), alert)
              + (if AppliedAlert(WorldAfter(c, r.past), r.action) == Some(alert) then 1 else 0)
  {
    hide Next;
  }

  /** Applying an event: the count of its alert goes up, and the event enters the inbox. */
  lemma OnceApplied(alerts: Alerts, outbox: Outbox, inbox: set<InboxKey>, s: Trace, t: Trace, event: Uuid)
    requires Paired(alerts, outbox) && OnceEach(alerts, outbox, inbox, s)
    requires event in outbox && !InInbox(inbox, event)
    requires forall alert: Uuid :: Correlations(t, alert) == Correlations(s, alert) + (if alert == AlertId(outbox, event) then 1 else 0)
    ensures OnceEach(alerts, outbox, inbox + {InboxKey(CONSUMER, event)}, t)
  {
    hide Correlations;
    assert EventSound(alerts, outbox, event);
    forall e | e in outbox
      ensures Correlations(t, AlertId(outbox, e)) == (if InInbox(inbox + {InboxKey(CONSUMER, event)}, e) then 1 else 0)
    {
      assert EventSound(alerts, outbox, e);
    }
  }

  /** Otherwise no count changes; a new pair starts uncounted. */
  lemma OnceGrows(alerts: Alerts, outbox: Outbox, inbox: set<InboxKey>, later: Alerts, longer: Outbox, s: Trace, t: Trace)
    requires Paired(alerts, outbox) && TablesGrow(alerts, outbox, later, longer) && OnceEach(alerts, outbox, inbox, s)
    requires Paired(later, longer) && forall k :: k in inbox ==> k.message in outbox
    requires forall event :: event in longer && event !in outbox ==> AlertId(longer, event) !in alerts
    requires forall alert: Uuid :: Correlations(t, alert) == Correlations(s, alert)
    ensures OnceEach(later, longer, inbox, t)
  {
    hide Correlations;
    forall e | e in longer
      ensures Correlations(t, AlertId(longer, e)) == (if InInbox(inbox, e) then 1 else 0)
    {
      if e in outbox {
        assert EventSound(alerts, outbox, e);
        assert AlertId(longer, e) == AlertId(outbox, e);
      } else {
        assert InboxKey(CONSUMER, e) !in inbox;
      }
    }
  }

  /** What is known about a delivered event that is applied. */
  lemma AppliedEvent(c: Config, w: World, a: Action) returns (event: Uuid)
    requires Plumbing(w) && Possible(c, w, a) && AppliedAlert(w, a).Some?
    ensures event in w.db.outbox && !InInbox(w.db.inbox, event)
    ensures AppliedAlert(w, a) == Some(AlertId(w.db.outbox, event))
    ensures NextInbox(w, a) == w.db.inbox + {InboxKey(CONSUMER, event)}
    ensures NextAlerts(c, w, a) == w.db.alerts && NextOutbox(c, w, a) == w.db.outbox
  {
    event := w.bus.stored[a.number].envelope.id;
  }

  lemma NewEventsAnnounceNewAlerts(c: Config, w: World, a: Action)
    requires Possible(c, w, a)
    ensures forall event :: event in NextOutbox(c, w, a) && event !in w.db.outbox
              ==> AlertId(NextOutbox(c, w, a), event) !in w.db.alerts
  {
    hide ReceiptFor, Trimmed, ValidInput, Fingerprint;
  }

  lemma OnceFacts(c: Config, w: World, a: Action)
    requires Plumbing(w) && Possible(c, w, a)
    ensures TablesGrow(w.db.alerts, w.db.outbox, NextAlerts(c, w, a), NextOutbox(c, w, a))
    ensures Paired(w.db.alerts, w.db.outbox) && Paired(NextAlerts(c, w, a), NextOutbox(c, w, a))
    ensures forall k :: k in w.db.inbox ==> k.message in w.db.outbox
  {
    OutboxStep(c, w, a);
    NextKeepsPairs(c, w, a);
    hide NextAlerts, NextOutbox, NextBus, NextDesk, NextReceipts, NextInbox, NextJobs, NextRelays, NextHandled, NextCalls,
         NextDeliveries, Possible, Paired, SamePayloads, SeenCarried, StreamSound, RelaysSound, MarksSound, AcksSafe;
  }

  lemma NextKeepsOnce(c: Config, w: World, a: Action, s: Trace, t: Trace)
    requires Plumbing(w) && Possible(c, w, a)
    requires OnceEach(w.db.alerts, w.db.outbox, w.db.inbox, s)
    requires forall alert: Uuid :: Correlations(t, alert) == Correlations(s, alert) + (if AppliedAlert(w, a) == Some(alert) then 1 else 0)
    ensures OnceEach(NextAlerts(c, w, a), NextOutbox(c, w, a), NextInbox(w, a), t)
  {
    hide *;
    OnceFacts(c, w, a);
    if AppliedAlert(w, a).Some? {
      var event := AppliedEvent(c, w, a);
      OnceApplied(w.db.alerts, w.db.outbox, w.db.inbox, s, t, event);
    } else {
      NewEventsAnnounceNewAlerts(c, w, a);
      NotAppliedKeepsInbox(w, a);
      OnceGrows(w.db.alerts, w.db.outbox, w.db.inbox, NextAlerts(c, w, a), NextOutbox(c, w, a), s, t);
    }
  }

  lemma NotAppliedKeepsInbox(w: World, a: Action)
    requires AppliedAlert(w, a).None?
    ensures NextInbox(w, a) == w.db.inbox
  {
  }

  /** However often it is published and delivered, the event of an alert is correlated once if it is in the inbox
      and not at all otherwise. */
  lemma {:induction false} AlertsCorrelateOnce(c: Config, r: Run)
    requires ValidRun(c, r)
    ensures var w := WorldAfter(c, r); OnceEach(w.db.alerts, w.db.outbox, w.db.inbox, DeskTrace(c, r))
  {
    if r.Do? {
      AlertsCorrelateOnce(c, r.past);
      NothingIsLost(c, r.past);
      CorrelationsStep(c, r);
      NextKeepsOnce(c, WorldAfter(c, r.past), r.action, DeskTrace(c, r.past), DeskTrace(c, r));
    }
  }
}
