/** The rows kept in PostgreSQL, and what each statement of the incident tables does to them.  The functions here
    are the meaning of one committed transaction; the `Store` class runs them, the traces reason about them. */
module Tables {
  import opened Domain

  // ---- rows ----

  datatype Kind =
    | IncidentOpened(alert: Uuid, externalId: string, occurrences: int)
    | AlertCorrelated(alert: Uuid, externalId: string, occurrences: int)
    | IncidentMoved(to: IncidentStatus, note: string, version: int)
    | EscalationSent(step: nat, attempt: int)
    | EscalationRetryScheduled(step: nat, attempt: int, retryAfter: int)
    | EscalationDead(step: nat, attempt: int)

  /** A row of the audit timeline.  Rows are appended; their position plays the part of the serial id. */
  datatype Entry = Entry(tenant: Uuid, incident: Uuid, actor: string, kind: Kind)

  datatype PolicyStep = PolicyStep(number: nat, delay: nat, target: string, maxAttempts: nat)

  /** The steps of a default policy: numbered uniquely, each allowing at least one attempt. */
  predicate ValidPolicy(steps: seq<PolicyStep>) {
    && (forall i :: 0 <= i < |steps| ==> steps[i].maxAttempts > 0)
    && (forall i, j :: 0 <= i < j < |steps| ==> steps[i].number != steps[j].number)
  }

  datatype EscalationStatus = Pending | Running | Sent | Cancelled | Dead

  datatype Escalation = Escalation(
    id: Uuid,
    tenant: Uuid,
    incident: Uuid,
    step: nat,
    target: string,
    title: string,
    severity: Severity,
    status: EscalationStatus,
    dueAt: Time,
    attempts: int,
    maxAttempts: int,
    leaseId: Option<Uuid>,
    leaseUntil: Option<Time>,
    token: int,
    sentAt: Option<Time>)
  {
    predicate Live() {
      status == Pending || status == Running
    }
  }

  /** What a worker holds in memory after claiming an escalation. */
  datatype Claim = Claim(
    id: Uuid,
    tenant: Uuid,
    incident: Uuid,
    step: nat,
    target: string,
    attempts: int,
    maxAttempts: int,
    dueAt: Time,
    token: int,
    title: string,
    incidentStatus: IncidentStatus,
    severity: Severity)

  datatype OutboxEvent = OutboxEvent(
    id: Uuid,
    tenant: Uuid,
    topic: string,
    partitionKey: string,
    payload: Envelope,
    createdAt: Time,
    availableAt: Time,
    publishedAt: Option<Time>,
    attempts: nat,
    leaseId: Option<Uuid>,
    leaseUntil: Option<Time>)

  /** What a relay holds in memory after claiming an outbox event. */
  datatype OutboxClaim = OutboxClaim(
    id: Uuid,
    tenant: Uuid,
    topic: string,
    partitionKey: string,
    payload: Envelope,
    attempts: nat,
    leaseId: Uuid)

  type Alerts = map<Uuid, Alert>
  type Outbox = map<Uuid, OutboxEvent>

  datatype InboxKey = InboxKey(consumer: string, message: Uuid)

  datatype Notification = Notification(key: string, incident: Uuid, title: string, severity: Severity, step: nat)

  /** The incident tables: incidents, incident_escalations and incident_timeline. */
  datatype Desk = Desk(
    incidents: map<Uuid, Incident>,
    escalations: map<Uuid, Escalation>,
    timeline: seq<Entry>)

  const EMPTY_DESK := Desk(map[], map[], [])

  datatype Db = Db(
    alerts: map<Uuid, Alert>,
    outbox: map<Uuid, OutboxEvent>,
    inbox: set<InboxKey>,
    desk: Desk,
    deliveries: seq<Notification>)

  const EMPTY_DB := Db(map[], map[], {}, EMPTY_DESK, [])

  datatype Error = NotFound | Conflict | InvalidTransition | InvalidInput

  datatype Receipt = Receipt(alert: Uuid, duplicate: bool) | Rejected(error: Error)

  datatype CorrelateOutcome = Duplicate | Applied(incident: Incident) | Unknown

  // ---- correlation ----

  /** The WHERE clause of the correlation query. */
  predicate Matches(i: Incident, key: CorrelationKey, at: Time, window: nat) {
    && i.Key() == key
    && i.status != Resolved
    && i.lastSeenAt >= at - window
    && i.firstSeenAt <= at + window
  }

  ghost predicate NoMatch(incidents: map<Uuid, Incident>, key: CorrelationKey, at: Time, window: nat) {
    forall id :: id in incidents ==> !Matches(incidents[id], key, at, window)
  }

  /** A row that ORDER BY last_seen_at DESC LIMIT 1 may return; ties are broken arbitrarily. */
  ghost predicate IsLatestMatch(incidents: map<Uuid, Incident>, id: Uuid, key: CorrelationKey, at: Time, window: nat) {
    && id in incidents
    && Matches(incidents[id], key, at, window)
    && forall other :: other in incidents && Matches(incidents[other], key, at, window)
                       ==> incidents[other].lastSeenAt <= incidents[id].lastSeenAt
  }

  /** The outcome of the search: merge into an existing incident, or open one with fresh identifiers for itself
      and for the rows of the policy in force. */
  datatype Choice =
    | Merge(id: Uuid)
    | Create(id: Uuid, steps: seq<PolicyStep>, rows: seq<Uuid>)

  ghost predicate FreshFor(d: Desk, id: Uuid, steps: seq<PolicyStep>, rows: seq<Uuid>) {
    && id !in d.incidents
    && ValidPolicy(steps)
    && |rows| == |steps|
    && (forall i :: 0 <= i < |rows| ==> rows[i] !in d.escalations)
    && (forall i, j :: 0 <= i < j < |rows| ==> rows[i] != rows[j])
  }

  ghost predicate Admissible(d: Desk, alert: Alert, window: nat, choice: Choice) {
    match choice
    case Merge(id) => IsLatestMatch(d.incidents, id, KeyOf(alert), alert.receivedAt, window)
    case Create(id, steps, rows) =>
      NoMatch(d.incidents, KeyOf(alert), alert.receivedAt, window) && FreshFor(d, id, steps, rows)
  }

  function OpenedIncident(id: Uuid, alert: Alert): Incident {
    Incident(id, alert.tenant, alert.fingerprint, alert.service, alert.title, alert.severity, Open,
             1, alert.receivedAt, alert.receivedAt, None, None, 1)
  }

  function MergedIncident(i: Incident, alert: Alert): Incident {
    i.(severity := MaxSeverity(i.severity, alert.severity),
       occurrenceCount := i.occurrenceCount + 1,
       firstSeenAt := if alert.receivedAt < i.firstSeenAt then alert.receivedAt else i.firstSeenAt,
       lastSeenAt := if alert.receivedAt > i.lastSeenAt then alert.receivedAt else i.lastSeenAt,
       version := i.version + 1)
  }

  function ScheduledRow(id: Uuid, incident: Uuid, alert: Alert, step: PolicyStep): Escalation {
    Escalation(id, alert.tenant, incident, step.number, step.target, alert.title, alert.severity, Pending,
               alert.receivedAt + step.delay * SECOND, 0, step.maxAttempts, None, None, 0, None)
  }

  function ScheduledRows(incident: Uuid, alert: Alert, steps: seq<PolicyStep>, rows: seq<Uuid>): (m: map<Uuid, Escalation>)
    requires |rows| == |steps|
    requires forall i, j :: 0 <= i < j < |rows| ==> rows[i] != rows[j]
    ensures forall i :: 0 <= i < |rows| ==> rows[i] in m && m[rows[i]] == ScheduledRow(rows[i], incident, alert, steps[i])
    ensures forall id :: id in m ==> exists i :: 0 <= i < |rows| && rows[i] == id
  {
    map i | 0 <= i < |rows| :: rows[i] := ScheduledRow(rows[i], incident, alert, steps[i])
  }

  function CorrelationEntry(alert: Alert, created: bool, incident: Incident): Entry {
    Entry(alert.tenant, incident.id, "correlator",
          if created then IncidentOpened(alert.id, alert.externalId, incident.occurrenceCount)
          else AlertCorrelated(alert.id, alert.externalId, incident.occurrenceCount))
  }

  predicate Resolvable(d: Desk, choice: Choice) {
    match choice
    case Merge(id) => id in d.incidents
    case Create(id, steps, rows) =>
      |rows| == |steps| && forall i, j :: 0 <= i < j < |rows| ==> rows[i] != rows[j]
  }

  function Correlated(d: Desk, alert: Alert, choice: Choice): Desk
    requires Resolvable(d, choice)
  {
    match choice
    case Merge(id) =>
      var incident := MergedIncident(d.incidents[id], alert);
      d.(incidents := d.incidents[id := incident],
         timeline := d.timeline + [CorrelationEntry(alert, false, incident)])
    case Create(id, steps, rows) =>
      var incident := OpenedIncident(id, alert);
      Desk(d.incidents[id := incident],
           d.escalations + ScheduledRows(id, alert, steps, rows),
           d.timeline + [CorrelationEntry(alert, true, incident)])
  }

  // ---- operator transitions ----

  datatype Verdict = Accepted | Refused(error: Error)

  function TransitionVerdict(d: Desk, tenant: Uuid, command: TransitionCommand): Verdict {
    if command.incident !in d.incidents || d.incidents[command.incident].tenant != tenant then Refused(NotFound)
    else
      var incident := d.incidents[command.incident];
      if command.expected.Some? && incident.version != command.expected.value then Refused(Conflict)
      else if !incident.CanTransition(command.to) then Refused(InvalidTransition)
      else Accepted
  }

  function MovedIncident(i: Incident, to: IncidentStatus, now: Time): Incident {
    i.(status := to,
       version := i.version + 1,
       acknowledgedAt := if to == Acknowledged then Some(now) else i.acknowledgedAt,
       resolvedAt := if to == Resolved then Some(now) else i.resolvedAt)
  }

  function CancelledRow(e: Escalation): Escalation {
    e.(status := Cancelled, leaseId := None, leaseUntil := None)
  }

  function CancelLive(escalations: map<Uuid, Escalation>, incident: Uuid): map<Uuid, Escalation> {
    map id | id in escalations ::
      if escalations[id].incident == incident && escalations[id].Live() then CancelledRow(escalations[id])
      else escalations[id]
  }

  function Moved(d: Desk, tenant: Uuid, command: TransitionCommand, now: Time): Desk
    requires command.incident in d.incidents
  {
    var incident := MovedIncident(d.incidents[command.incident], command.to, now);
    Desk(d.incidents[command.incident := incident],
         CancelLive(d.escalations, command.incident),
         d.timeline + [Entry(tenant, command.incident, command.actor,
                             IncidentMoved(command.to, command.note, incident.version))])
  }

  // ---- escalation work ----

  predicate IncidentOpen(d: Desk, e: Escalation) {
    e.incident in d.incidents && d.incidents[e.incident].status == Open
  }

  predicate LeaseExpired(e: Escalation, now: Time) {
    e.leaseUntil.Some? && e.leaseUntil.value < now
  }

  /** Rows the sweep retires: the lease ran out after the last allowed attempt. */
  predicate Exhaustible(d: Desk, id: Uuid, now: Time) {
    && id in d.escalations
    && var e := d.escalations[id];
    && IncidentOpen(d, e)
    && e.status == Running && LeaseExpired(e, now)
    && e.attempts >= e.maxAttempts
  }

  /** Rows a worker may take: due, or abandoned by the previous holder. */
  predicate Claimable(d: Desk, id: Uuid, now: Time) {
    && id in d.escalations
    && var e := d.escalations[id];
    && IncidentOpen(d, e)
    && e.attempts < e.maxAttempts
    && ((e.status == Pending && e.dueAt <= now) || (e.status == Running && LeaseExpired(e, now)))
  }

  /** The candidates of the two halves of a sweep; rows locked by other sessions are skipped. */
  function ExhaustibleRows(d: Desk, now: Time, locked: set<Uuid>): set<Uuid> {
    set id | id in d.escalations && Exhaustible(d, id, now) && id !in locked
  }

  function ClaimableRows(d: Desk, now: Time, locked: set<Uuid>): set<Uuid> {
    set id | id in d.escalations && Claimable(d, id, now) && id !in locked
  }

  function LeaseEnds(d: Desk): map<Uuid, Time> {
    map id | id in d.escalations && d.escalations[id].leaseUntil.Some? :: d.escalations[id].leaseUntil.value
  }

  function DueTimes(d: Desk): map<Uuid, Time> {
    map id | id in d.escalations :: d.escalations[id].dueAt
  }

  lemma CandidatesHaveKeys(d: Desk, now: Time, locked: set<Uuid>)
    ensures ExhaustibleRows(d, now, locked) <= LeaseEnds(d).Keys
    ensures ClaimableRows(d, now, locked) <= DueTimes(d).Keys
  {
  }

  function ExhaustedRow(e: Escalation): Escalation {
    e.(status := Dead, leaseId := None, leaseUntil := None)
  }

  function Exhausted(d: Desk, id: Uuid): Desk
    requires id in d.escalations
  {
    var e := d.escalations[id];
    d.(escalations := d.escalations[id := ExhaustedRow(e)],
       timeline := d.timeline + [Entry(e.tenant, e.incident, "scheduler", EscalationDead(e.step, e.attempts))])
  }

  function ClaimedRow(e: Escalation, lease: Uuid, until: Time): Escalation {
    e.(status := Running, leaseId := Some(lease), leaseUntil := Some(until), token := e.token + 1, attempts := e.attempts + 1)
  }

  function Claimed(d: Desk, id: Uuid, lease: Uuid, until: Time): Desk
    requires id in d.escalations
  {
    d.(escalations := d.escalations[id := ClaimedRow(d.escalations[id], lease, until)])
  }

  /** The record returned for a claimed row, with the status of its incident as the statement saw it. */
  function ClaimOf(e: Escalation, status: IncidentStatus): Claim {
    Claim(e.id, e.tenant, e.incident, e.step, e.target, e.attempts, e.maxAttempts, e.dueAt, e.token,
          e.title, status, e.severity)
  }

  /** The fence: the row is still running under the token the caller was given. */
  predicate Holds(d: Desk, c: Claim) {
    c.id in d.escalations && d.escalations[c.id].status == Running && d.escalations[c.id].token == c.token
  }

  function CompletedRow(e: Escalation, now: Time): Escalation {
    e.(status := Sent, sentAt := Some(now), leaseId := None, leaseUntil := None)
  }

  function Completed(d: Desk, c: Claim, now: Time): Desk
    requires c.id in d.escalations
  {
    d.(escalations := d.escalations[c.id := CompletedRow(d.escalations[c.id], now)],
       timeline := d.timeline + [Entry(c.tenant, c.incident, "scheduler", EscalationSent(c.step, c.attempts))])
  }

  predicate LastAttempt(e: Escalation) {
    e.attempts >= e.maxAttempts
  }

  function FailedRow(e: Escalation, dueAt: Time): Escalation {
    e.(status := if LastAttempt(e) then Dead else Pending, dueAt := dueAt, leaseId := None, leaseUntil := None)
  }

  function Failed(d: Desk, c: Claim, retryAfter: int, now: Time): Desk
    requires c.id in d.escalations
  {
    var e := d.escalations[c.id];
    d.(escalations := d.escalations[c.id := FailedRow(e, now + retryAfter)],
       timeline := d.timeline +
         [Entry(c.tenant, c.incident, "scheduler",
                if LastAttempt(e) then EscalationDead(c.step, e.attempts)
                else EscalationRetryScheduled(c.step, e.attempts, retryAfter))])
  }

  /** A sweep retires rows and then claims rows, one after the other. */
  function ExhaustAll(d: Desk, ids: seq<Uuid>): (r: Desk)
    requires forall i :: 0 <= i < |ids| ==> ids[i] in d.escalations
    ensures r.escalations.Keys == d.escalations.Keys
    decreases |ids|
  {
    if ids == [] then d else Exhausted(ExhaustAll(d, ids[..|ids| - 1]), ids[|ids| - 1])
  }

  function ClaimAll(d: Desk, ids: seq<Uuid>, lease: Uuid, until: Time): (r: Desk)
    requires forall i :: 0 <= i < |ids| ==> ids[i] in d.escalations
    ensures r.escalations.Keys == d.escalations.Keys
    decreases |ids|
  {
    if ids == [] then d else Claimed(ClaimAll(d, ids[..|ids| - 1], lease, until), ids[|ids| - 1], lease, until)
  }

  lemma {:induction false} ExhaustKeepsOthers(d: Desk, ids: seq<Uuid>)
    requires forall i :: 0 <= i < |ids| ==> ids[i] in d.escalations
    ensures ExhaustAll(d, ids).incidents == d.incidents
    ensures forall id :: id in d.escalations && id !in ids ==> ExhaustAll(d, ids).escalations[id] == d.escalations[id]
    ensures forall id :: id in d.escalations ==> ExhaustAll(d, ids).escalations[id].incident == d.escalations[id].incident
    decreases |ids|
  {
    if ids != [] {
      ExhaustKeepsOthers(d, ids[..|ids| - 1]);
    }
  }

  /** Claiming takes each of the rows claimed once, and touches no other. */
  lemma {:induction false} ClaimTakesEach(d: Desk, ids: seq<Uuid>, lease: Uuid, until: Time)
    requires forall i :: 0 <= i < |ids| ==> ids[i] in d.escalations
    requires forall i, j :: 0 <= i < j < |ids| ==> ids[i] != ids[j]
    ensures ClaimAll(d, ids, lease, until).incidents == d.incidents
    ensures forall id :: id in d.escalations ==>
              ClaimAll(d, ids, lease, until).escalations[id] ==
                if id in ids then ClaimedRow(d.escalations[id], lease, until) else d.escalations[id]
    decreases |ids|
  {
    if ids != [] {
      var init, last := ids[..|ids| - 1], ids[|ids| - 1];
      ClaimTakesEach(d, init, lease, until);
      assert ids == init + [last] && last !in init;
      hide ClaimedRow;
    }
  }

  lemma {:induction false} ClaimKeepsOthers(d: Desk, ids: seq<Uuid>, lease: Uuid, until: Time)
    requires forall i :: 0 <= i < |ids| ==> ids[i] in d.escalations
    ensures ClaimAll(d, ids, lease, until).incidents == d.incidents
    ensures forall id :: id in d.escalations && id !in ids ==> ClaimAll(d, ids, lease, until).escalations[id] == d.escalations[id]
    decreases |ids|
  {
    if ids != [] {
      ClaimKeepsOthers(d, ids[..|ids| - 1], lease, until);
    }
  }

  lemma ClaimNone(d: Desk, lease: Uuid, until: Time)
    ensures ClaimAll(d, [], lease, until) == d
  {
  }

  lemma ClaimOneMore(d: Desk, ids: seq<Uuid>, i: nat, lease: Uuid, until: Time)
    requires i < |ids| && forall j :: 0 <= j < |ids| ==> ids[j] in d.escalations
    requires forall j, k :: 0 <= j < k < |ids| ==> ids[j] != ids[k]
    ensures var r := ClaimAll(d, ids[..i], lease, until);
            && r.incidents == d.incidents && r.timeline == d.timeline
            && ids[i] in r.escalations && r.escalations[ids[i]] == d.escalations[ids[i]]
            && ClaimAll(d, ids[..i + 1], lease, until)
               == Desk(d.incidents, r.escalations[ids[i] := ClaimedRow(d.escalations[ids[i]], lease, until)], d.timeline)
  {
    ClaimTakesEach(d, ids[..i], lease, until);
    ClaimKeepsTimeline(d, ids[..i], lease, until);
    hide ClaimedRow;
    assert ids[..i + 1][..i] == ids[..i];
  }

  lemma {:induction false} ClaimKeepsTimeline(d: Desk, ids: seq<Uuid>, lease: Uuid, until: Time)
    requires forall i :: 0 <= i < |ids| ==> ids[i] in d.escalations
    ensures ClaimAll(d, ids, lease, until).timeline == d.timeline
    decreases |ids|
  {
    if ids != [] {
      ClaimKeepsTimeline(d, ids[..|ids| - 1], lease, until);
    }
  }

  /** `chosen` is what ORDER BY key LIMIT n may return from `eligible`: the n first, in order, ties arbitrary. */
  ghost predicate FirstBy(chosen: seq<Uuid>, eligible: set<Uuid>, key: map<Uuid, Time>, limit: nat) {
    && eligible <= key.Keys
    && (forall i :: 0 <= i < |chosen| ==> chosen[i] in eligible)
    && (forall i, j :: 0 <= i < j < |chosen| ==> chosen[i] != chosen[j] && key[chosen[i]] <= key[chosen[j]])
    && |chosen| <= limit
    && (forall id, i :: id in eligible && id !in chosen && 0 <= i < |chosen| ==> key[chosen[i]] <= key[id])
    && (|chosen| < limit ==> forall id :: id in eligible ==> id in chosen)
  }

  /** The rows a sweep claims are untouched by the rows it retires, so both halves may run in either order. */
  lemma SweepHalvesAreDisjoint(d: Desk, expired: seq<Uuid>, picked: seq<Uuid>, now: Time, locked: set<Uuid>, limit: nat)
    requires FirstBy(expired, ExhaustibleRows(d, now, locked), LeaseEnds(d), limit)
    requires FirstBy(picked, ClaimableRows(d, now, locked), DueTimes(d), limit)
    ensures forall i :: 0 <= i < |expired| ==> expired[i] in d.escalations && Exhaustible(d, expired[i], now)
    ensures forall i :: 0 <= i < |picked| ==> picked[i] in d.escalations && Claimable(d, picked[i], now)
    ensures forall i :: 0 <= i < |picked| ==> picked[i] !in expired
    ensures forall i, j :: 0 <= i < j < |picked| ==> picked[i] != picked[j]
    ensures forall i, j :: 0 <= i < j < |expired| ==> expired[i] != expired[j]
    ensures var r := ExhaustAll(d, expired);
            forall i :: 0 <= i < |picked| ==> picked[i] in r.escalations && r.escalations[picked[i]] == d.escalations[picked[i]]
                                              && IncidentOpen(r, r.escalations[picked[i]])
  {
    ExhaustKeepsOthers(d, expired);
    forall i | 0 <= i < |picked|
      ensures picked[i] !in expired
    {
      assert Claimable(d, picked[i], now);
    }
  }

  // ---- outbox ----

  predicate Relayable(outbox: map<Uuid, OutboxEvent>, id: Uuid, now: Time) {
    && id in outbox
    && outbox[id].publishedAt.None?
    && outbox[id].availableAt <= now
    && (outbox[id].leaseUntil.None? || outbox[id].leaseUntil.value < now)
  }

  function LeasedEvent(e: OutboxEvent, lease: Uuid, until: Time): OutboxEvent {
    e.(leaseId := Some(lease), leaseUntil := Some(until))
  }

  ghost function LeasedAll(outbox: map<Uuid, OutboxEvent>, ids: seq<Uuid>, lease: Uuid, until: Time): map<Uuid, OutboxEvent> {
    map id | id in outbox :: if id in ids then LeasedEvent(outbox[id], lease, until) else outbox[id]
  }

  lemma LeaseNone(outbox: map<Uuid, OutboxEvent>, lease: Uuid, until: Time)
    ensures LeasedAll(outbox, [], lease, until) == outbox
  {
  }

  lemma LeaseOneMore(outbox: map<Uuid, OutboxEvent>, ids: seq<Uuid>, id: Uuid, lease: Uuid, until: Time)
    requires id in outbox && id !in ids
    ensures var leased := LeasedAll(outbox, ids, lease, until);
            && id in leased && leased[id] == outbox[id]
            && LeasedAll(outbox, ids + [id], lease, until) == leased[id := LeasedEvent(outbox[id], lease, until)]
  {
    hide LeasedEvent;
  }

  function OutboxClaimOf(e: OutboxEvent, lease: Uuid): OutboxClaim {
    OutboxClaim(e.id, e.tenant, e.topic, e.partitionKey, e.payload, e.attempts, lease)
  }

  predicate HoldsEvent(outbox: map<Uuid, OutboxEvent>, c: OutboxClaim) {
    c.id in outbox && outbox[c.id].leaseId == Some(c.leaseId) && outbox[c.id].publishedAt.None?
  }

  function PublishedEvent(e: OutboxEvent, now: Time): OutboxEvent {
    e.(publishedAt := Some(now), leaseId := None, leaseUntil := None)
  }

  function ReleasedEvent(e: OutboxEvent, availableAt: Time): OutboxEvent {
    e.(attempts := e.attempts + 1, availableAt := availableAt, leaseId := None, leaseUntil := None)
  }

  // ---- ingestion ----

  /** The row an accepted alert becomes; `fingerprint` and `hash` are computed from the trimmed input. */
  function AlertRow(id: Uuid, tenant: Uuid, key: string, input: AlertInput, fingerprint: string, hash: string, now: Time): Alert {
    Alert(id, tenant, key, input.externalId, fingerprint, input.service, input.title, input.severity, input.labels,
          input.details, if input.occurredAt.Some? then input.occurredAt.value.instant else now, now, hash)
  }

  function EventRow(id: Uuid, alert: Alert, now: Time): OutboxEvent {
    OutboxEvent(id, alert.tenant, ALERT_RECEIVED_TOPIC, alert.fingerprint,
                NewAlertReceivedEnvelope(id, alert.tenant, alert.id, now), now, now, None, 0, None, None)
  }

  predicate UsedBy(alerts: map<Uuid, Alert>, id: Uuid, tenant: Uuid, key: string) {
    id in alerts && alerts[id].tenant == tenant && alerts[id].idempotencyKey == key
  }

  /** The UNIQUE constraint the idempotency lookup relies on. */
  ghost predicate UniqueKeys(alerts: Alerts) {
    forall a, b, tenant, key :: UsedBy(alerts, a, tenant, key) && UsedBy(alerts, b, tenant, key) ==> a == b
  }

  function Ingested(db: Db, alert: Alert, event: OutboxEvent): Db {
    db.(alerts := db.alerts[alert.id := alert], outbox := db.outbox[event.id := event])
  }

  // ---- notification sink ----

  predicate Delivered(deliveries: seq<Notification>, key: string) {
    exists n :: n in deliveries && n.key == key
  }

  function Recorded(deliveries: seq<Notification>, n: Notification): seq<Notification> {
    if Delivered(deliveries, n.key) then deliveries else deliveries + [n]
  }
}
