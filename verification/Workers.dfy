/** The programs around the tables: relay, stream consumer, scheduler and their store, as code that runs.  Every
    procedure is shown to be a piece of a run of `Worlds`, so all that is proved of runs holds of the tables and the
    stream these programs leave behind.  What the network, the clock and random numbers decide are parameters. */
module Workers {
  import opened Domain
  import opened Tables
  import opened StoreClass
  import opened Traces
  import opened Backoff
  import opened Worlds
  import opened Pipeline
  import opened Columns
  import opened Keys
  import opened Text

  /** The work-queue stream, updated in place. */
  class Broker {
    var stored: map<nat, Message>
    var next: nat
    var seen: map<Uuid, Time>

    function Contents(): Bus
      reads this
    {
      Bus(stored, next, seen)
    }

    constructor ()
      ensures Contents() == Bus(map[], 0, map[])
    {
      stored, next, seen := map[], 0, map[];
    }

    /** Publishing under the id of the outbox row.  `reply` is what the network does with request and answer. */
    method Publish(event: OutboxClaim, reply: PublishReply, now: Time) returns (ok: bool)
      modifies this
      ensures ok <==> reply == Stored
      ensures event.id == event.payload.id ==>
                Contents() == if reply == NotStored then old(Contents()) else Published(old(Contents()), event.payload, now)
      ensures reply == NotStored || (event.id in old(seen) && now < old(seen)[event.id] + 600 * SECOND) ==> Contents() == old(Contents())
      ensures reply != NotStored && (event.id in old(seen) ==> now >= old(seen)[event.id] + 600 * SECOND) ==>
                && stored == old(stored)[old(next) := Event(event.payload)] && next == old(next) + 1
                && seen == old(seen)[event.id := now]
    {
      if reply != NotStored && !(event.id in seen && now - seen[event.id] < DEDUPLICATION) {
        stored := stored[next := Event(event.payload)];
        next := next + 1;
        seen := seen[event.id := now];
      }
      return reply == Stored;
    }

    method Remove(number: nat)
      modifies this`stored
      ensures stored == old(stored) - {number}
    {
      stored := stored - {number};
    }
  }

  /** An event the consumer can handle: identifiers, type, version, time and payload are all there. */
  predicate Usable(m: Message) {
    match m
    case Malformed => false
    case Event(e) =>
      && e.id != 0 && e.tenant != 0 && e.topic == "alerts.received.v1" && e.version == 1
      && e.occurredAt != None && e.alert != None && e.alert != Some(0)
  }

  /** What the consumer answers to a delivery. */
  datatype Reply = Term | Nak(delay: int) | Acked

  /** How the database call of a handler may go wrong. */
  datatype Outage = Healthy | RolledBack | ReplyLost

  // ---- pieces of runs ----

  lemma Advance(c: Config, r: Run, a: Action)
    requires ValidRun(c, r) && Possible(c, WorldAfter(c, r), a)
    ensures ValidRun(c, Do(r, a))
    ensures WorldAfter(c, Do(r, a)) == Next(c, WorldAfter(c, r), a)
  {
    hide Possible, Next;
  }

  lemma TickEffect(c: Config, w: World, to: Time)
    requires to >= w.now
    ensures Possible(c, w, Tick(to)) && Next(c, w, Tick(to)) == w.(now := to)
  {
    hide Step;
  }

  lemma AcceptedIsKnown(d: Desk, tenant: Uuid, command: TransitionCommand)
    requires TransitionVerdict(d, tenant, command) == Accepted
    ensures command.incident in d.incidents
  {
  }

  lemma OperateEffect(c: Config, w: World, tenant: Uuid, command: TransitionCommand)
    requires TransitionVerdict(w.db.desk, tenant, command) == Accepted && command.incident in w.db.desk.incidents
    ensures Possible(c, w, Operate(tenant, command))
    ensures Next(c, w, Operate(tenant, command)) == w.(db := w.db.(desk := Moved(w.db.desk, tenant, command, w.now)))
  {
    hide Moved, Correlated, Exhausted, Claimed, Completed, Failed, TransitionVerdict;
  }

  lemma PublishEffect(c: Config, w: World, event: OutboxClaim, reply: PublishReply)
    requires RelayJob(event, Leased) in w.relays
    ensures var a := Publish(RelayJob(event, Leased), reply);
            && Possible(c, w, a)
            && Next(c, w, a) == w.(bus := if reply == NotStored then w.bus else Published(w.bus, event.payload, w.now),
                                   relays := NextRelays(w, a))
            && RelayJob(event, if reply == Stored then Confirmed else Unconfirmed) in NextRelays(w, a)
  {
    hide Published;
  }

  lemma MarkEffect(c: Config, w: World, relay: RelayJob, jitter: nat)
    requires relay in w.relays && relay.phase != Leased && jitter < 500
    ensures var a := Mark(relay, jitter);
            && Possible(c, w, a)
            && Next(c, w, a) == w.(db := w.db.(outbox := NextOutbox(c, w, a)), relays := w.relays - {relay})
  {
    hide NextOutbox;
  }

  lemma NotifyEffect(c: Config, w: World, claim: Claim, ok: bool, recorded: bool)
    requires Job(claim, Held) in w.jobs
    requires if claim.target == c.sink then ok ==> recorded else !recorded
    ensures var a := Notify(Job(claim, Held), ok, recorded);
            && Possible(c, w, a)
            && Next(c, w, a) == w.(db := w.db.(deliveries := NextDeliveries(w, a)), jobs := NextJobs(w, a), calls := NextCalls(w, a))
            && Job(claim, if ok then NotifiedOk else NotifiedErr) in NextJobs(w, a)
  {
    hide NextDeliveries, NextCalls;
  }

  lemma FinishEffect(c: Config, w: World, job: Job, jitter: nat)
    requires job in w.jobs && job.phase != Held && jitter < 500
    ensures var a := Finish(job, jitter);
            && Possible(c, w, a)
            && Next(c, w, a) == w.(db := w.db.(desk := NextDesk(w, a)), jobs := w.jobs - {job})
            && (!Holds(w.db.desk, job.claim) ==> NextDesk(w, a) == w.db.desk)
            && (Holds(w.db.desk, job.claim) && job.phase == NotifiedOk
                ==> NextDesk(w, a) == Completed(w.db.desk, job.claim, w.now))
            && (Holds(w.db.desk, job.claim) && job.phase == NotifiedErr
                ==> NextDesk(w, a) == Failed(w.db.desk, job.claim, RetryDelay(job.claim.attempts, jitter), w.now))
  {
    hide Moved, Correlated, Exhausted, Claimed, Completed, Failed, RetryDelay;
  }

  lemma TerminateEffect(c: Config, w: World, number: nat)
    requires number in w.bus.stored && Poison(w.bus.stored[number])
    ensures Possible(c, w, Terminate(number))
    ensures Next(c, w, Terminate(number)) == w.(bus := w.bus.(stored := w.bus.stored - {number}))
  {
  }

  lemma AckEffect(c: Config, w: World, number: nat)
    requires number in w.handled
    ensures Possible(c, w, Ack(number))
    ensures Next(c, w, Ack(number)) == w.(bus := w.bus.(stored := w.bus.stored - {number}))
  {
  }

  /** Delivery of an event for a stored alert, first time or again. */
  lemma DeliverEffect(c: Config, w: World, number: nat, choice: Choice, reported: bool)
    requires number in w.bus.stored && !Poison(w.bus.stored[number])
    requires Applies(w, number) ==>
               var alert := w.db.alerts[w.bus.stored[number].envelope.alert.value];
               Admissible(w.db.desk, alert, c.window, choice) && Resolvable(w.db.desk, choice)
    ensures var a := Deliver(number, choice, reported);
            var e := w.bus.stored[number].envelope;
            && Possible(c, w, a)
            && Next(c, w, a) == w.(db := Next(c, w, a).db, handled := Next(c, w, a).handled)
            && Next(c, w, a).db == (if !Applies(w, number) then w.db
                        else w.db.(inbox := w.db.inbox + {InboxKey(CONSUMER, e.id)},
                                   desk := Correlated(w.db.desk, w.db.alerts[e.alert.value], choice)))
            && (reported && Succeeds(w, number) ==> number in Next(c, w, a).handled)
  {
    hide Moved, Correlated, Exhausted, Claimed, Completed, Failed, Admissible, Resolvable;
  }

  // ---- sweeps ----

  function Leases(r: Run, ids: seq<Uuid>, lease: Uuid, length: nat): Run
    decreases |ids|
  {
    if ids == [] then r else Do(Leases(r, ids[..|ids| - 1], lease, length), Lease(ids[|ids| - 1], lease, length))
  }

  function Retirements(r: Run, ids: seq<Uuid>): Run
    decreases |ids|
  {
    if ids == [] then r else Do(Retirements(r, ids[..|ids| - 1]), Retire(ids[|ids| - 1]))
  }

  function Takings(r: Run, ids: seq<Uuid>, lease: Uuid, length: nat): Run
    decreases |ids|
  {
    if ids == [] then r else Do(Takings(r, ids[..|ids| - 1], lease, length), ClaimRow(ids[|ids| - 1], lease, length))
  }

  lemma LeaseEffect(c: Config, w: World, id: Uuid, lease: Uuid, length: nat)
    requires Relayable(w.db.outbox, id, w.now)
    ensures Possible(c, w, Lease(id, lease, length))
    ensures Next(c, w, Lease(id, lease, length)) ==
              w.(db := w.db.(outbox := w.db.outbox[id := LeasedEvent(w.db.outbox[id], lease, w.now + length)]),
                 relays := w.relays + {RelayJob(OutboxClaimOf(w.db.outbox[id], lease), Leased)})
  {
  }

  lemma RetireEffect(c: Config, w: World, id: Uuid)
    requires id in w.db.desk.escalations && Exhaustible(w.db.desk, id, w.now)
    ensures Possible(c, w, Retire(id))
    ensures Next(c, w, Retire(id)) == w.(db := w.db.(desk := Exhausted(w.db.desk, id)))
  {
    hide Exhausted, Correlated, Moved, Claimed, Completed, Failed;
  }

  lemma ClaimEffect(c: Config, w: World, id: Uuid, lease: Uuid, length: nat)
    requires id in w.db.desk.escalations && Claimable(w.db.desk, id, w.now) && length >= c.lease
    ensures Possible(c, w, ClaimRow(id, lease, length))
    ensures Next(c, w, ClaimRow(id, lease, length)) ==
              w.(db := w.db.(desk := Claimed(w.db.desk, id, lease, w.now + length)),
                 jobs := w.jobs + {Job(ClaimOf(ClaimedRow(w.db.desk.escalations[id], lease, w.now + length), Open), Held)})
  {
    hide Exhausted, Correlated, Moved, Claimed, Completed, Failed, ClaimOf, ClaimedRow;
  }

  lemma {:induction false} AfterLeases(c: Config, r: Run, ids: seq<Uuid>, lease: Uuid, length: nat)
    requires ValidRun(c, r)
    requires forall i :: 0 <= i < |ids| ==>
               ids[i] in WorldAfter(c, r).db.outbox && Relayable(WorldAfter(c, r).db.outbox, ids[i], WorldAfter(c, r).now)
    requires forall i, j :: 0 <= i < j < |ids| ==> ids[i] != ids[j]
    ensures var w, v := WorldAfter(c, r), WorldAfter(c, Leases(r, ids, lease, length));
            && ValidRun(c, Leases(r, ids, lease, length))
            && v == w.(db := w.db.(outbox := LeasedAll(w.db.outbox, ids, lease, w.now + length)), relays := v.relays)
            && (forall i :: 0 <= i < |ids| ==> RelayJob(OutboxClaimOf(w.db.outbox[ids[i]], lease), Leased) in v.relays)
    decreases |ids|
  {
    hide WorldAfter, ValidRun, Next, Possible, LeasedEvent, OutboxClaimOf;
    if ids != [] {
      var init, last := ids[..|ids| - 1], ids[|ids| - 1];
      AfterLeases(c, r, init, lease, length);
      assert ids == init + [last] && last !in init;
      var w := WorldAfter(c, Leases(r, init, lease, length));
      LeaseEffect(c, w, last, lease, length);
      Advance(c, Leases(r, init, lease, length), Lease(last, lease, length));
      var start := WorldAfter(c, r);
      assert LeasedAll(start.db.outbox, ids, lease, start.now + length) == w.db.outbox[last := LeasedEvent(w.db.outbox[last], lease, start.now + length)];
    } else {
      assert LeasedAll(WorldAfter(c, r).db.outbox, ids, lease, WorldAfter(c, r).now + length) == WorldAfter(c, r).db.outbox;
    }
  }

  lemma {:induction false} AfterRetirements(c: Config, r: Run, ids: seq<Uuid>)
    requires ValidRun(c, r)
    requires forall i :: 0 <= i < |ids| ==>
               ids[i] in WorldAfter(c, r).db.desk.escalations && Exhaustible(WorldAfter(c, r).db.desk, ids[i], WorldAfter(c, r).now)
    requires forall i, j :: 0 <= i < j < |ids| ==> ids[i] != ids[j]
    ensures var w := WorldAfter(c, r);
            && ValidRun(c, Retirements(r, ids))
            && WorldAfter(c, Retirements(r, ids)) == w.(db := w.db.(desk := ExhaustAll(w.db.desk, ids)))
    decreases |ids|
  {
    if ids != [] {
      hide WorldAfter, ValidRun, Next, Possible;
      var init, last := ids[..|ids| - 1], ids[|ids| - 1];
      AfterRetirements(c, r, init);
      ExhaustKeepsOthers(WorldAfter(c, r).db.desk, init);
      assert last !in init;
      hide Exhausted;
      RetireEffect(c, WorldAfter(c, Retirements(r, init)), last);
      Advance(c, Retirements(r, init), Retire(last));
    }
  }

  lemma StillClaimable(d: Desk, ids: seq<Uuid>, lease: Uuid, until: Time, id: Uuid, now: Time)
    requires forall i :: 0 <= i < |ids| ==> ids[i] in d.escalations
    requires forall i, j :: 0 <= i < j < |ids| ==> ids[i] != ids[j]
    requires id in d.escalations && id !in ids && Claimable(d, id, now)
    ensures var r := ClaimAll(d, ids, lease, until);
            id in r.escalations && Claimable(r, id, now) && r.escalations[id] == d.escalations[id]
  {
    ClaimTakesEach(d, ids, lease, until);
    hide ClaimAll;
  }

  function HandedOut(d: Desk, id: Uuid, lease: Uuid, until: Time): Job
    requires id in d.escalations
  {
    Job(ClaimOf(ClaimedRow(d.escalations[id], lease, until), Open), Held)
  }

  lemma {:induction false} AfterTakings(c: Config, r: Run, ids: seq<Uuid>, lease: Uuid, length: nat)
    requires ValidRun(c, r) && length >= c.lease
    requires forall i :: 0 <= i < |ids| ==>
               ids[i] in WorldAfter(c, r).db.desk.escalations && Claimable(WorldAfter(c, r).db.desk, ids[i], WorldAfter(c, r).now)
    requires forall i, j :: 0 <= i < j < |ids| ==> ids[i] != ids[j]
    ensures var w, v := WorldAfter(c, r), WorldAfter(c, Takings(r, ids, lease, length));
            && ValidRun(c, Takings(r, ids, lease, length))
            && v == w.(db := w.db.(desk := ClaimAll(w.db.desk, ids, lease, w.now + length)), jobs := v.jobs)
            && (forall i :: 0 <= i < |ids| ==> HandedOut(w.db.desk, ids[i], lease, w.now + length) in v.jobs)
    decreases |ids|
  {
    hide WorldAfter, ValidRun, Next, Possible, Claimed, Claimable, ClaimOf, ClaimedRow;
    if ids != [] {
      var init, last := ids[..|ids| - 1], ids[|ids| - 1];
      AfterTakings(c, r, init, lease, length);
      assert ids == init + [last] && last !in init;
      var w := WorldAfter(c, r);
      StillClaimable(w.db.desk, init, lease, w.now + length, last, w.now);
      ClaimEffect(c, WorldAfter(c, Takings(r, init, lease, length)), last, lease, length);
      Advance(c, Takings(r, init, lease, length), ClaimRow(last, lease, length));
    }
  }

  /** What a sweep claims is still claimable after what it retires. */
  lemma SweepIsClaimable(d: Desk, expired: seq<Uuid>, picked: seq<Uuid>, now: Time)
    requires forall i :: 0 <= i < |expired| ==> expired[i] in d.escalations
    requires forall i :: 0 <= i < |picked| ==> picked[i] in d.escalations && Claimable(d, picked[i], now) && picked[i] !in expired
    ensures var r := ExhaustAll(d, expired);
            forall i :: 0 <= i < |picked| ==> picked[i] in r.escalations && Claimable(r, picked[i], now)
  {
    ExhaustKeepsOthers(d, expired);
    hide ExhaustAll;
  }

  /** A sweep is a run of row operations, and every claim it returns is a job. */
  lemma AfterSweep(c: Config, r: Run, expired: seq<Uuid>, picked: seq<Uuid>, lease: Uuid, length: nat,
                   locked: set<Uuid>, limit: nat)
    requires ValidRun(c, r) && length >= c.lease
    requires FirstBy(expired, ExhaustibleRows(WorldAfter(c, r).db.desk, WorldAfter(c, r).now, locked),
                     LeaseEnds(WorldAfter(c, r).db.desk), limit)
    requires FirstBy(picked, ClaimableRows(WorldAfter(c, r).db.desk, WorldAfter(c, r).now, locked),
                     DueTimes(WorldAfter(c, r).db.desk), limit)
    ensures forall i :: 0 <= i < |expired| ==> expired[i] in WorldAfter(c, r).db.desk.escalations
    ensures forall i :: 0 <= i < |picked| ==> picked[i] in WorldAfter(c, r).db.desk.escalations
    ensures var q := Takings(Retirements(r, expired), picked, lease, length);
            var w, v := WorldAfter(c, r), WorldAfter(c, q);
            && ValidRun(c, q)
            && v == w.(db := w.db.(desk := ClaimAll(ExhaustAll(w.db.desk, expired), picked, lease, w.now + length)), jobs := v.jobs)
            && (forall i :: 0 <= i < |picked| ==>
                  picked[i] in v.db.desk.escalations && Job(ClaimOf(v.db.desk.escalations[picked[i]], Open), Held) in v.jobs)
  {
    hide WorldAfter, ValidRun, FirstBy, Claimable, Exhaustible, ClaimOf, ClaimedRow, ExhaustibleRows, ClaimableRows, LeaseEnds,
         DueTimes, ExhaustAll, ClaimAll, Takings, Retirements, IncidentOpen, Relayable;
    var w := WorldAfter(c, r);
    SweepHalvesAreDisjoint(w.db.desk, expired, picked, w.now, locked, limit);
    AfterRetirements(c, r, expired);
    SweepIsClaimable(w.db.desk, expired, picked, w.now);
    AfterTakings(c, Retirements(r, expired), picked, lease, length);
    ClaimTakesEach(ExhaustAll(w.db.desk, expired), picked, lease, w.now + length);
  }

  // ---- ingestion ----

  lemma IngestEffect(c: Config, w: World, a: Action, receipt: Receipt)
    requires Possible(c, w, a) && a.Ingest?
    requires forall x, y, tenant, key :: UsedBy(w.db.alerts, x, tenant, key) && UsedBy(w.db.alerts, y, tenant, key) ==> x == y
    requires (!ValidInput(Trimmed(a.input)) || a.key == "") ==> receipt == Rejected(InvalidInput)
    requires forall id :: ValidInput(Trimmed(a.input)) && a.key != "" && UsedBy(w.db.alerts, id, a.tenant, a.key)
               ==> receipt == if w.db.alerts[id].requestHash == c.hash(Trimmed(a.input)) then Receipt(id, true) else Rejected(Conflict)
    requires (ValidInput(Trimmed(a.input)) && a.key != "" && forall id :: !UsedBy(w.db.alerts, id, a.tenant, a.key))
             ==> receipt == Receipt(a.alert, false)
    ensures receipt == ReceiptFor(c, w.db.alerts, a.tenant, a.key, a.input, a.alert)
    ensures receipt != Receipt(a.alert, false) ==> NewAlert(c, w, a).None?
    ensures (ValidInput(Trimmed(a.input)) && a.key != "" && forall id :: !UsedBy(w.db.alerts, id, a.tenant, a.key)) ==>
              NewAlert(c, w, a) == Some(AlertRow(a.alert, a.tenant, a.key, Trimmed(a.input),
                                                 Fingerprint(Trimmed(a.input), c.digest), c.hash(Trimmed(a.input)), w.now))
  {
    hide ValidInput, Trimmed, Fingerprint;
  }

  lemma IngestFields(c: Config, w: World, a: Action)
    requires a.Ingest?
    ensures Next(c, w, a) == w.(db := w.db.(alerts := NextAlerts(c, w, a), outbox := NextOutbox(c, w, a)),
                                receipts := NextReceipts(c, w, a))
  {
    hide NextAlerts, NextReceipts, Step, NewAlert, EventRow;
  }

  // ---- the programs ----

  /** One database and one stream, driven by any number of replicas.  The ghost `run` is the history of what they
      did; it is what ties the tables and the stream to the run model. */
  class Deployment {
    const config: Config
    const store: Store
    const broker: Broker
    ghost var run: Run

    ghost function Now(): World
      reads this
    {
      WorldAfter(config, run)
    }

    /** The history is a run of the model, and the tables and the stream are what that run leaves. */
    ghost predicate Valid()
      reads this, store, broker
    {
      && ValidRun(config, run)
      && UniqueKeys(store.alerts)
      && store.Snapshot() == Now().db
      && broker.Contents() == Now().bus
    }

    constructor (c: Config)
      ensures Valid() && config == c && run == Start && fresh(store) && fresh(broker)
    {
      config := c;
      store := new Store();
      broker := new Broker();
      run := Start;
    }

    /** A request to store an alert. */
    method Accept(tenant: Uuid, key: string, input: AlertInput, now: Time, freshAlert: Uuid, freshEvent: Uuid)
      returns (receipt: Receipt)
      requires Valid() && now >= Now().now
      requires tenant != NIL && freshAlert != NIL && freshEvent != NIL
      requires freshAlert !in store.alerts && freshEvent !in store.outbox
      modifies this`run, store
      ensures Valid()
      ensures run == Do(Do(old(run), Tick(now)), Ingest(tenant, key, input, freshAlert, freshEvent))
      ensures Now().receipts == old(Now()).receipts + [IngestRecord(tenant, key, Trimmed(input), now, receipt)]
    {
      hide WorldAfter, ValidRun, Next, Possible, ValidInput, Trimmed, Fingerprint;
      ghost var a := Ingest(tenant, key, input, freshAlert, freshEvent);
      ghost var w := Now();
      TickEffect(config, w, now);
      Advance(config, run, Tick(now));
      run := Do(run, Tick(now));
      w := w.(now := now);
      receipt := store.IngestAlert(tenant, key, input, now, freshAlert, freshEvent, config.digest, config.hash);
      assert Possible(config, w, a) by { Requestable(config, w, a); }
      Advance(config, run, a);
      IngestEffect(config, w, a, receipt);
      IngestFields(config, w, a);
      run := Do(run, a);
    }

    /** Relay: publish a leased event, then mark or release it. */
    method Relay(event: OutboxClaim, reply: PublishReply, jitter: nat, now: Time)
      requires Valid() && now >= Now().now && jitter < 500
      requires RelayJob(event, Leased) in Now().relays
      modifies this`run, store, broker
      ensures Valid()
      ensures var phase := if reply == Stored then Confirmed else Unconfirmed;
              run == Do(Do(Do(old(run), Tick(now)), Publish(RelayJob(event, Leased), reply)), Mark(RelayJob(event, phase), jitter))
      ensures !LeaseHeld(old(store.outbox), event) ==> store.outbox == old(store.outbox)
      ensures LeaseHeld(old(store.outbox), event) ==>
                if reply == Stored then MarkShows(old(store.outbox), store.outbox, event.id, now)
                else ReleaseShows(old(store.outbox), store.outbox, event.id, now + RetryDelay(event.attempts + 1, jitter))
    {
      hide WorldAfter, ValidRun, Next, Possible, Published, NextRelays, LeaseHeld, MarkShows, ReleaseShows;
      ghost var w := Now();
      assert event.id == event.payload.id by { LeasedEventsAreNamed(config, run, event); }
      TickEffect(config, w, now);
      Advance(config, run, Tick(now));
      run := Do(run, Tick(now));
      PublishEffect(config, Now(), event, reply);
      Advance(config, run, Publish(RelayJob(event, Leased), reply));
      run := Do(run, Publish(RelayJob(event, Leased), reply));
      var ok := broker.Publish(event, reply, now);
      w := Now();
      ghost var relay := RelayJob(event, if reply == Stored then Confirmed else Unconfirmed);
      MarkEffect(config, w, relay, jitter);
      Advance(config, run, Mark(relay, jitter));
      run := Do(run, Mark(relay, jitter));
      var verdict;
      if !ok {
        verdict := store.MarkOutboxFailed(event, RetryDelay(event.attempts + 1, jitter), now);
      } else {
        verdict := store.MarkOutboxPublished(event, now);
      }
    }

    /** The relay's claim of a batch: each event becomes a job in its memory. */
    method ClaimEvents(limit: nat, lease: Uuid, length: nat, now: Time, locked: set<Uuid>) returns (events: seq<OutboxClaim>)
      requires Valid() && now >= Now().now
      modifies this`run, store
      ensures Valid()
      ensures exists ids :: run == Leases(Do(old(run), Tick(now)), ids, lease, length)
                            && LeasesOldest(old(store.outbox), store.outbox, ids, events, lease, now + length, now, locked, limit)
      ensures forall i :: 0 <= i < |events| ==> RelayJob(events[i], Leased) in Now().relays
    {
      hide WorldAfter, ValidRun, Next, Possible, Leases, LeasedEvent, OutboxClaimOf, LeasesOldest, LeasedAll;
      TickEffect(config, Now(), now);
      Advance(config, run, Tick(now));
      run := Do(run, Tick(now));
      ghost var ids;
      events, ids := store.ClaimOutbox(limit, length, lease, now, locked);
      assert forall i :: 0 <= i < |ids| ==> ids[i] in Now().db.outbox && Relayable(Now().db.outbox, ids[i], now);
      AfterLeases(config, run, ids, lease, length);
      run := Leases(run, ids, lease, length);
    }

    /** The scheduler's sweep: each claim becomes a job in its memory. */
    method Sweep(limit: nat, lease: Uuid, length: nat, now: Time, locked: set<Uuid>) returns (claims: seq<Claim>)
      requires Valid() && now >= Now().now && length >= config.lease
      modifies this`run, store
      ensures Valid()
      ensures exists expired, picked ::
                && run == Takings(Retirements(Do(old(run), Tick(now)), expired), picked, lease, length)
                && |picked| == |claims|
                && RetiresFirstExpired(old(store.DeskNow()), expired, now, locked, limit)
                && TakesFirstDue(old(store.DeskNow()), picked, now, locked, limit)
                && SweepShows(old(store.DeskNow()), store.DeskNow(), expired, picked, lease, now + length)
                && forall i :: 0 <= i < |claims| ==> picked[i] in store.escalations && Describes(claims[i], store.escalations[picked[i]])
      ensures forall i :: 0 <= i < |claims| ==> Job(claims[i], Held) in Now().jobs
    {
      hide WorldAfter, ValidRun, Next, Possible, Takings, Retirements, FirstBy, Claimable, Exhaustible, ClaimOf, ClaimedRow,
           ExhaustibleRows, ClaimableRows, LeaseEnds, DueTimes, ExhaustAll, ClaimAll,
           RetiresFirstExpired, TakesFirstDue, SweepShows, Describes;
      TickEffect(config, Now(), now);
      Advance(config, run, Tick(now));
      run := Do(run, Tick(now));
      ghost var w := Now();
      ghost var expired, picked;
      claims, expired, picked := store.ClaimEscalations(limit, length, lease, now, locked);
      AfterSweep(config, run, expired, picked, lease, length, locked, limit);
      run := Takings(Retirements(run, expired), picked, lease, length);
    }

    /** What a scheduler does with one claim.  `delivered`: the receiver has seen the request; `replied`: it
        answered in time with success.  The recording sink is one of the receivers. */
    method Process(c: Claim, delivered: bool, replied: bool, jitter: nat, now: Time) returns (sent: Option<Notification>)
      requires Valid() && now >= Now().now && jitter < 500
      requires Job(c, Held) in Now().jobs && (replied ==> delivered)
      modifies this`run, store
      ensures Valid()
      ensures c.incidentStatus != Open ==> sent == None && run == old(run)
      ensures c.incidentStatus == Open ==>
                && sent == Some(NotificationOf(c))
                && sent.value.incident == c.incident && sent.value.title == c.title && sent.value.severity == c.severity
                && sent.value.step == c.step && sent.value.key == UuidText(c.incident) + ":" + Decimal(c.step)
                && run == Do(Do(Do(old(run), Tick(now)), Notify(Job(c, Held), replied, c.target == config.sink && delivered)),
                             Finish(Job(c, if replied then NotifiedOk else NotifiedErr), jitter))
      ensures store.deliveries == old(store.deliveries) +
                (if sent.Some? && c.target == config.sink && delivered
                    && forall i :: 0 <= i < |old(store.deliveries)| ==> old(store.deliveries)[i].key != sent.value.key
                 then [sent.value] else [])
      ensures c.incidentStatus == Open && !Fenced(old(store.DeskNow()), c) ==> store.DeskNow() == old(store.DeskNow())
      ensures c.incidentStatus == Open && Fenced(old(store.DeskNow()), c) ==>
                if replied then CompletionShows(old(store.DeskNow()), store.DeskNow(), c, now)
                else FailureShows(old(store.DeskNow()), store.DeskNow(), c, RetryDelay(c.attempts, jitter), now)
    {
      hide WorldAfter, ValidRun, Next, Possible, NextDeliveries, NextJobs, NextCalls, Completed, Failed, Recorded, RetryDelay,
           CompletionShows, FailureShows, Fenced, UuidText, Decimal;
      if c.incidentStatus != Open {
        return None;
      }
      TickEffect(config, Now(), now);
      Advance(config, run, Tick(now));
      run := Do(run, Tick(now));
      var notification := NotificationOf(c);
      var recorded := c.target == config.sink && delivered;
      ghost var notify := Notify(Job(c, Held), replied, recorded);
      NotifyEffect(config, Now(), c, replied, recorded);
      Advance(config, run, notify);
      assert NextDeliveries(Now(), notify) ==
        if recorded then Recorded(Now().db.deliveries, notification) else Now().db.deliveries by {
        DeliveriesOfNotify(Now(), notify);
      }
      run := Do(run, notify);
      if recorded {
        var created := store.RecordNotification(notification);
      }
      ghost var job := Job(c, if replied then NotifiedOk else NotifiedErr);
      FinishEffect(config, Now(), job, jitter);
      Advance(config, run, Finish(job, jitter));
      run := Do(run, Finish(job, jitter));
      if replied {
        var verdict := store.CompleteEscalation(c, now);
      } else {
        var verdict, dead := store.FailEscalation(c, RetryDelay(c.attempts, jitter), now);
      }
      return Some(notification);
    }

    /** An operator's request. */
    method Operator(tenant: Uuid, command: TransitionCommand, now: Time) returns (verdict: Verdict)
      requires Valid() && now >= Now().now
      modifies this`run, store
      ensures Valid()
      ensures verdict == TransitionVerdict(old(Now()).db.desk, tenant, command)
      ensures if verdict == Accepted then MoveShows(old(store.DeskNow()), store.DeskNow(), tenant, command, now)
              else store.DeskNow() == old(store.DeskNow())
      ensures run == if verdict == Accepted then Do(Do(old(run), Tick(now)), Operate(tenant, command)) else Do(old(run), Tick(now))
    {
      hide WorldAfter, ValidRun, Next, Possible, TransitionVerdict, Moved, MoveShows;
      TickEffect(config, Now(), now);
      Advance(config, run, Tick(now));
      run := Do(run, Tick(now));
      ghost var w := Now();
      var result;
      verdict, result := store.TransitionIncident(tenant, command, now);
      if verdict == Accepted {
        AcceptedIsKnown(w.db.desk, tenant, command);
        OperateEffect(config, w, tenant, command);
        Advance(config, run, Operate(tenant, command));
        run := Do(run, Operate(tenant, command));
      }
    }

    /** The correlator's handler.  `outage` says how the database call goes wrong, if it does. */
    static method Handle(store: Store, e: Envelope, outage: Outage, window: nat,
                         freshIncident: Uuid, policy: seq<PolicyStep>, freshRows: seq<Uuid>)
      returns (ok: bool, ghost choice: Choice)
      requires FreshFor(store.DeskNow(), freshIncident, policy, freshRows)
      modifies store
      ensures var known := e.alert.Some? && e.alert.value in old(store.alerts) && old(store.alerts)[e.alert.value].tenant == e.tenant;
              var seen := e.alert.Some? && InboxKey(CONSUMER, e.id) in old(store.inbox);
              && (ok <==> outage == Healthy && (seen || known))
              && (if outage == RolledBack || seen || !known then store.Snapshot() == old(store.Snapshot())
                  else && Admissible(old(store.DeskNow()), old(store.alerts)[e.alert.value], window, choice)
                       && Resolvable(old(store.DeskNow()), choice)
                       && store.Snapshot() == old(store.Snapshot()).(
                            inbox := old(store.inbox) + {InboxKey(CONSUMER, e.id)},
                            desk := Correlated(old(store.DeskNow()), old(store.alerts)[e.alert.value], choice)))
    {
      hide Admissible, Resolvable, Correlated, FreshFor;
      choice := Merge(freshIncident);
      if e.alert.None? || outage == RolledBack {
        return false, choice;
      }
      var outcome;
      outcome, choice := store.CorrelateAlert(CONSUMER, e.id, e.tenant, e.alert.value, window, freshIncident, policy, freshRows);
      return outcome != Unknown && outage == Healthy, choice;
    }

    /** One delivery of a message.  `confirmed` says whether the stream receives the answer. */
    method Consume(number: nat, delivered: Option<nat>, outage: Outage, confirmed: bool,
                   freshIncident: Uuid, policy: seq<PolicyStep>, freshRows: seq<Uuid>)
      returns (reply: Reply, ghost choice: Choice)
      requires Valid() && number in broker.stored
      requires FreshFor(store.DeskNow(), freshIncident, policy, freshRows)
      modifies this`run, store, broker
      ensures Valid()
      ensures Poison(old(broker.stored)[number]) ==>
                reply == Term && run == if confirmed then Do(old(run), Terminate(number)) else old(run)
      ensures !Poison(old(broker.stored)[number]) ==>
                && reply == (if outage == Healthy && Succeeds(old(Now()), number) then Acked else Nak(RedeliveryDelay(delivered)))
                && (reply != Acked || !confirmed ==> number in broker.stored)
                && run == (if outage == RolledBack then old(run)
                           else var tried := Do(old(run), Deliver(number, choice, outage == Healthy));
                                if reply == Acked && confirmed then Do(tried, Ack(number)) else tried)
      ensures reply == Term <==> !Usable(old(broker.stored)[number])
      ensures reply == Acked <==>
                && Usable(old(broker.stored)[number]) && outage == Healthy
                && var e := old(broker.stored)[number].envelope;
                   || InboxKey("incident-correlator-v1", e.id) in old(store.inbox)
                   || (e.alert.value in old(store.alerts) && old(store.alerts)[e.alert.value].tenant == e.tenant)
      ensures reply == Acked ==> InboxKey("incident-correlator-v1", old(broker.stored)[number].envelope.id) in store.inbox
      ensures broker.stored == if confirmed && !reply.Nak? then old(broker.stored) - {number} else old(broker.stored)
    {
      hide WorldAfter, ValidRun, Next, Possible, Admissible, Resolvable, Correlated, FreshFor, RedeliveryDelay;
      choice := Merge(freshIncident);
      var message := broker.stored[number];
      if message.Malformed? || !message.envelope.Valid() {
        TerminateEffect(config, Now(), number);
        if confirmed {
          Advance(config, run, Terminate(number));
          run := Do(run, Terminate(number));
          broker.Remove(number);
        }
        return Term, choice;
      }
      ghost var w := Now();
      var ok;
      ok, choice := Handle(store, message.envelope, outage, config.window, freshIncident, policy, freshRows);
      if outage != RolledBack {
        DeliverEffect(config, w, number, choice, outage == Healthy);
        Advance(config, run, Deliver(number, choice, outage == Healthy));
        run := Do(run, Deliver(number, choice, outage == Healthy));
      }
      if !ok {
        return Nak(RedeliveryDelay(delivered)), choice;
      }
      if confirmed {
        AckEffect(config, Now(), number);
        Advance(config, run, Ack(number));
        run := Do(run, Ack(number));
        broker.Remove(number);
      }
      return Acked, choice;
    }
  }

  lemma DeliveriesOfNotify(w: World, a: Action)
    requires a.Notify?
    ensures NextDeliveries(w, a) == if a.recorded then Recorded(w.db.deliveries, NotificationOf(a.job.claim)) else w.db.deliveries
  {
  }

  lemma Requestable(c: Config, w: World, a: Action)
    requires a.Ingest? && a.tenant != NIL && a.alert != NIL && a.event != NIL && a.alert !in w.db.alerts && a.event !in w.db.outbox
    ensures Possible(c, w, a)
  {
  }

  /** A relay publishes under the id the event carries. */
  lemma LeasedEventsAreNamed(c: Config, r: Run, event: OutboxClaim)
    requires ValidRun(c, r) && RelayJob(event, Leased) in WorldAfter(c, r).relays
    ensures event.id == event.payload.id
  {
    NothingIsLost(c, r);
    hide WorldAfter, ValidRun;
  }

  // ---- what the programs leave in the tables ----

  /** Once every outbox row is marked and the stream holds no more events, the incidents of a key count exactly its
      accepted alerts, whatever the programs went through. */
  lemma TablesCountEveryAlert(d: Deployment, key: CorrelationKey)
    requires d.Valid()
    requires forall id :: id in d.store.outbox ==> d.store.outbox[id].publishedAt.Some?
    requires forall n :: n in d.broker.stored ==> Poison(d.broker.stored[n])
    ensures Occurrences(d.store.DeskNow(), key) == |AcceptedAlerts(d.store.alerts, key)|
  {
    hide WorldAfter, ValidRun, Occurrences, AcceptedAlerts, Conserved, Plumbing;
    QuiescentCountsEveryAlert(d.config, d.run, key);
  }

  /** At any moment every row is sound, and no incident that is not open has escalation work left. */
  lemma TablesAreSound(d: Deployment, row: Uuid)
    requires d.Valid() && row in d.store.escalations
    ensures Sound(d.store.DeskNow())
    ensures var e := d.store.escalations[row];
            && e.token == e.attempts <= e.maxAttempts
            && e.incident in d.store.incidents
            && (d.store.incidents[e.incident].status != Open ==> !e.Live())
  {
    hide WorldAfter, ValidRun, DeskTrace;
    RunsAreTraces(d.config, d.run);
    TraceIsSound(DeskTrace(d.config, d.run), d.config.window);
    assert RowPlaced(d.store.DeskNow(), row);
  }
}
