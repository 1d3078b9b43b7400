/** The whole system as a transition system: the tables, the broker's stream, and what relays, correlators and
    schedulers hold in memory.  Crashes need no action of their own: a worker that crashes is one that takes no
    further step with what it holds.  Redelivery, delay, lost replies and overtaking are ordinary interleavings. */
module Worlds {
  import opened Domain
  import opened Tables
  import opened Traces
  import opened Backoff
  import opened Keys

  const CONSUMER := "incident-correlator-v1"

  /** How long the stream remembers message ids. */
  const DEDUPLICATION: int := 600 * SECOND

  /** `lease` is the shortest lease a scheduler replica is configured with, `sink` the address of the recording sink. */
  datatype Config = Config(window: nat, lease: nat, digest: Canonical -> string, hash: AlertInput -> string, sink: string)

  datatype Message = Malformed | Event(envelope: Envelope)

  predicate Poison(m: Message) {
    m.Malformed? || !m.envelope.Valid()
  }

  /** The work-queue stream: messages not yet acknowledged, and the message ids seen with the time they were stored. */
  datatype Bus = Bus(stored: map<nat, Message>, next: nat, seen: map<Uuid, Time>)

  /** Publishing under a message id: within the deduplication interval the stream keeps only the first copy. */
  function Published(bus: Bus, e: Envelope, now: Time): Bus {
    if e.id in bus.seen && now - bus.seen[e.id] < DEDUPLICATION then bus
    else Bus(bus.stored[bus.next := Event(e)], bus.next + 1, bus.seen[e.id := now])
  }

  datatype RelayPhase = Leased | Confirmed | Unconfirmed
  datatype RelayJob = RelayJob(claim: OutboxClaim, phase: RelayPhase)

  datatype JobPhase = Held | NotifiedOk | NotifiedErr
  datatype Job = Job(claim: Claim, phase: JobPhase)

  datatype Call = Call(row: Uuid, token: int, target: string, ok: bool, notification: Notification)

  /** A request, when it was handled, and what it was told. */
  datatype IngestRecord = IngestRecord(tenant: Uuid, key: string, payload: AlertInput, at: Time, receipt: Receipt)

  datatype World = World(
    now: Time,
    db: Db,
    bus: Bus,
    relays: set<RelayJob>,
    handled: set<nat>,
    jobs: set<Job>,
    calls: seq<Call>,
    receipts: seq<IngestRecord>)

  /** What the relay learns from publishing: success, an error although the message was stored, or an error. */
  datatype PublishReply = Stored | StoredUnseen | NotStored

  datatype Action =
    | Tick(to: Time)
    | Ingest(tenant: Uuid, key: string, input: AlertInput, alert: Uuid, event: Uuid)
    | Lease(event: Uuid, lease: Uuid, length: nat)
    | Publish(relay: RelayJob, reply: PublishReply)
    | Mark(relay: RelayJob, jitter: nat)
    | Inject(message: Message)
    | Terminate(number: nat)
    | Deliver(number: nat, choice: Choice, reported: bool)
    | Ack(number: nat)
    | Operate(tenant: Uuid, command: TransitionCommand)
    | Retire(row: Uuid)
    | ClaimRow(row: Uuid, lease: Uuid, length: nat)
    | Notify(job: Job, ok: bool, recorded: bool)
    | Finish(job: Job, jitter: nat)

  // ---- ingestion ----

  /** The receipt for a request, given the alerts stored so far. */
  ghost function ReceiptFor(c: Config, alerts: map<Uuid, Alert>, tenant: Uuid, key: string, input: AlertInput, newId: Uuid): Receipt {
    if !ValidInput(Trimmed(input)) || key == "" then Rejected(InvalidInput)
    else if exists id :: UsedBy(alerts, id, tenant, key) then
      var stored :| UsedBy(alerts, stored, tenant, key);
      if alerts[stored].requestHash == c.hash(Trimmed(input)) then Receipt(stored, true) else Rejected(Conflict)
    else Receipt(newId, false)
  }

  ghost function NewAlert(c: Config, w: World, a: Action): Option<Alert>
    requires a.Ingest?
  {
    if ReceiptFor(c, w.db.alerts, a.tenant, a.key, a.input, a.alert) == Receipt(a.alert, false) && ValidInput(Trimmed(a.input))
    then Some(AlertRow(a.alert, a.tenant, a.key, Trimmed(a.input), Fingerprint(Trimmed(a.input), c.digest),
                       c.hash(Trimmed(a.input)), w.now))
    else None
  }

  // ---- delivery ----

  /** The delivered message is applied, not skipped: it is an event not in the inbox for an alert that exists. */
  predicate Applies(w: World, number: nat) {
    && number in w.bus.stored && w.bus.stored[number].Event? && w.bus.stored[number].envelope.Valid()
    && var e := w.bus.stored[number].envelope;
    && InboxKey(CONSUMER, e.id) !in w.db.inbox
    && e.alert.value in w.db.alerts && w.db.alerts[e.alert.value].tenant == e.tenant
  }

  /** The handler returns no error: the event was applied now or earlier. */
  predicate Succeeds(w: World, number: nat) {
    || Applies(w, number)
    || (number in w.bus.stored && w.bus.stored[number].Event? && InboxKey(CONSUMER, w.bus.stored[number].envelope.id) in w.db.inbox)
  }

  // ---- the transaction an action commits on the incident tables ----

  ghost function OpOf(w: World, a: Action): Option<Op> {
    match a
    case Deliver(number, choice, _) =>
      if Applies(w, number) then Some(Correlate(w.db.alerts[w.bus.stored[number].envelope.alert.value], choice)) else None
    case Operate(tenant, command) => Some(Move(tenant, command, w.now))
    case Retire(row) => Some(Exhaust(row, w.now))
    case ClaimRow(row, lease, length) => Some(Take(row, lease, w.now + length, w.now))
    case Finish(job, jitter) =>
      if !Holds(w.db.desk, job.claim) then None
      else if job.phase == NotifiedOk then Some(Complete(job.claim, w.now))
      else Some(Fail(job.claim, RetryDelay(job.claim.attempts, jitter), w.now))
    case _ => None
  }

  // ---- the effect of an action, table by table ----

  ghost function NextDesk(w: World, a: Action): Desk {
    var op := OpOf(w, a);
    if op.Some? then Step(w.db.desk, op.value) else w.db.desk
  }

  ghost function NextAlerts(c: Config, w: World, a: Action): map<Uuid, Alert> {
    if a.Ingest? && NewAlert(c, w, a).Some? then w.db.alerts[a.alert := NewAlert(c, w, a).value] else w.db.alerts
  }

  ghost function NextOutbox(c: Config, w: World, a: Action): map<Uuid, OutboxEvent> {
    match a
    case Ingest(_, _, _, _, event) =>
      if NewAlert(c, w, a).Some? then w.db.outbox[event := EventRow(event, NewAlert(c, w, a).value, w.now)] else w.db.outbox
    case Lease(event, lease, length) =>
      if event in w.db.outbox then w.db.outbox[event := LeasedEvent(w.db.outbox[event], lease, w.now + length)] else w.db.outbox
    case Mark(relay, jitter) =>
      if !HoldsEvent(w.db.outbox, relay.claim) then w.db.outbox
      else if relay.phase == Confirmed then
        w.db.outbox[relay.claim.id := PublishedEvent(w.db.outbox[relay.claim.id], w.now)]
      else
        w.db.outbox[relay.claim.id :=
          ReleasedEvent(w.db.outbox[relay.claim.id], w.now + RetryDelay(relay.claim.attempts + 1, jitter))]
    case _ => w.db.outbox
  }

  function NextInbox(w: World, a: Action): set<InboxKey> {
    if a.Deliver? && Applies(w, a.number) then w.db.inbox + {InboxKey(CONSUMER, w.bus.stored[a.number].envelope.id)}
    else w.db.inbox
  }

  function NotificationOf(c: Claim): Notification {
    Notification(NotificationKey(c.incident, c.step), c.incident, c.title, c.severity, c.step)
  }

  function NextDeliveries(w: World, a: Action): seq<Notification> {
    if a.Notify? && a.recorded then Recorded(w.db.deliveries, NotificationOf(a.job.claim)) else w.db.deliveries
  }

  function NextBus(w: World, a: Action): Bus {
    match a
    case Publish(relay, reply) => if reply == NotStored then w.bus else Published(w.bus, relay.claim.payload, w.now)
    case Inject(message) => w.bus.(stored := w.bus.stored[w.bus.next := message], next := w.bus.next + 1)
    case Terminate(number) => w.bus.(stored := w.bus.stored - {number})
    case Ack(number) => w.bus.(stored := w.bus.stored - {number})
    case _ => w.bus
  }

  function NextRelays(w: World, a: Action): set<RelayJob> {
    match a
    case Lease(event, lease, _) =>
      if event in w.db.outbox then w.relays + {RelayJob(OutboxClaimOf(w.db.outbox[event], lease), Leased)} else w.relays
    case Publish(relay, reply) => w.relays - {relay} + {RelayJob(relay.claim, if reply == Stored then Confirmed else Unconfirmed)}
    case Mark(relay, _) => w.relays - {relay}
    case _ => w.relays
  }

  function NextHandled(w: World, a: Action): set<nat> {
    if a.Deliver? && a.reported && Succeeds(w, a.number) then w.handled + {a.number} else w.handled
  }

  function NextJobs(w: World, a: Action): set<Job> {
    match a
    case ClaimRow(row, lease, length) =>
      if row in w.db.desk.escalations
      then w.jobs + {Job(ClaimOf(ClaimedRow(w.db.desk.escalations[row], lease, w.now + length), Open), Held)}
      else w.jobs
    case Notify(job, ok, _) => w.jobs - {job} + {Job(job.claim, if ok then NotifiedOk else NotifiedErr)}
    case Finish(job, _) => w.jobs - {job}
    case _ => w.jobs
  }

  function NextCalls(w: World, a: Action): seq<Call> {
    if a.Notify? then w.calls + [Call(a.job.claim.id, a.job.claim.token, a.job.claim.target, a.ok, NotificationOf(a.job.claim))]
    else w.calls
  }

  ghost function NextReceipts(c: Config, w: World, a: Action): seq<IngestRecord> {
    if a.Ingest? then
      w.receipts + [IngestRecord(a.tenant, a.key, Trimmed(a.input), w.now, ReceiptFor(c, w.db.alerts, a.tenant, a.key, a.input, a.alert))]
    else w.receipts
  }

  ghost function Next(c: Config, w: World, a: Action): World {
    World(if a.Tick? then a.to else w.now,
          Db(NextAlerts(c, w, a), NextOutbox(c, w, a), NextInbox(w, a), NextDesk(w, a), NextDeliveries(w, a)),
          NextBus(w, a), NextRelays(w, a), NextHandled(w, a), NextJobs(w, a), NextCalls(w, a), NextReceipts(c, w, a))
  }

  // ---- when an action can happen ----

  ghost predicate Possible(c: Config, w: World, a: Action) {
    match a
    case Tick(to) => to >= w.now
    case Ingest(tenant, _, _, alert, event) =>
      tenant != NIL && alert != NIL && event != NIL && alert !in w.db.alerts && event !in w.db.outbox
    case Lease(event, _, _) => Relayable(w.db.outbox, event, w.now)
    case Publish(relay, _) => relay in w.relays && relay.phase == Leased
    case Mark(relay, jitter) => relay in w.relays && relay.phase != Leased && jitter < 500
    case Inject(message) => Poison(message)
    case Terminate(number) => number in w.bus.stored && Poison(w.bus.stored[number])
    case Deliver(number, choice, _) =>
      && number in w.bus.stored && !Poison(w.bus.stored[number])
      && (Applies(w, number) ==>
            Admissible(w.db.desk, w.db.alerts[w.bus.stored[number].envelope.alert.value], c.window, choice))
    case Ack(number) => number in w.handled
    case Operate(tenant, command) => TransitionVerdict(w.db.desk, tenant, command) == Accepted
    case Retire(row) => Exhaustible(w.db.desk, row, w.now)
    case ClaimRow(row, _, length) => Claimable(w.db.desk, row, w.now) && length >= c.lease
    case Notify(job, ok, recorded) =>
      && job in w.jobs && job.phase == Held
      && (if job.claim.target == c.sink then ok ==> recorded else !recorded)
    case Finish(job, jitter) => job in w.jobs && job.phase != Held && jitter < 500
  }

  // ---- runs ----

  datatype Run = Start | Do(past: Run, action: Action)

  const INITIAL := World(0, EMPTY_DB, Bus(map[], 0, map[]), {}, {}, {}, [], [])

  ghost function WorldAfter(c: Config, r: Run): World {
    match r
    case Start => INITIAL
    case Do(past, a) => Next(c, WorldAfter(c, past), a)
  }

  ghost predicate ValidRun(c: Config, r: Run) {
    r.Do? ==> ValidRun(c, r.past) && Possible(c, WorldAfter(c, r.past), r.action)
  }

  /** The transactions a run commits on the incident tables. */
  ghost function DeskTrace(c: Config, r: Run): Trace {
    match r
    case Start => Boot
    case Do(past, a) =>
      var op := OpOf(WorldAfter(c, past), a);
      if op.Some? then Then(DeskTrace(c, past), op.value) else DeskTrace(c, past)
  }

  /** Every job in a scheduler's memory was handed out by a sweep of this run. */
  ghost predicate JobsIssued(w: World, t: Trace) {
    forall job :: job in w.jobs ==> Issued(t, job.claim)
  }

  lemma OpIsEnabled(c: Config, w: World, t: Trace, a: Action)
    requires Possible(c, w, a) && w.db.desk == State(t) && JobsIssued(w, t) && OpOf(w, a).Some?
    ensures Enabled(t, OpOf(w, a).value, c.window)
  {
    hide State, Issued;
  }

  /** Every run of the system is, on the incident tables, a valid trace.  Whatever was proved of traces therefore
      holds of the system. */
  lemma {:induction false} RunsAreTraces(c: Config, r: Run)
    requires ValidRun(c, r)
    ensures WorldAfter(c, r).db.desk == State(DeskTrace(c, r))
    ensures Valid(DeskTrace(c, r), c.window)
    ensures JobsIssued(WorldAfter(c, r), DeskTrace(c, r))
  {
    if r.Do? {
      RunsAreTraces(c, r.past);
      var w, a := WorldAfter(c, r.past), r.action;
      var op := OpOf(w, a);
      if op.Some? {
        OpIsEnabled(c, w, DeskTrace(c, r.past), a);
      }
      forall job | job in NextJobs(w, a)
        ensures Issued(DeskTrace(c, r), job.claim)
      {
      }
    }
  }

  /** The clock of the system paces its traces, so the spacing of claims holds of every run. */
  lemma {:induction false} RunsArePaced(c: Config, r: Run)
    requires ValidRun(c, r)
    ensures Paced(DeskTrace(c, r), c.lease)
    ensures Before(DeskTrace(c, r), WorldAfter(c, r).now)
  {
    if r.Do? {
      RunsArePaced(c, r.past);
      var op := OpOf(WorldAfter(c, r.past), r.action);
      if op.Some? && op.value.Fail? {
        ClaimTimesBefore(DeskTrace(c, r.past), op.value.claim.id, WorldAfter(c, r.past).now);
      }
      BeforeLater(DeskTrace(c, r.past), WorldAfter(c, r.past).now, WorldAfter(c, r).now);
    }
  }

  lemma {:induction false} BeforeLater(t: Trace, now: Time, later: Time)
    requires Before(t, now) && now <= later
    ensures Before(t, later)
  {
    if t.Then? {
      BeforeLater(t.past, now, later);
    }
  }
}
