/** What each operation does, read off the columns of the tables.  The predicates here are written independently of the
    functions in `Tables`, in terms of column values only; the lemmas tie the two together. */
module Columns {
  import opened Domain
  import opened Tables

  // ---- correlation ----

  /** The alert and the incident agree in tenant and fingerprint, and are near enough in time. */
  predicate Reaches(i: Incident, a: Alert, window: nat) {
    && i.tenant == a.tenant && i.fingerprint == a.fingerprint
    && i.status != Resolved
    && a.receivedAt - i.lastSeenAt <= window && i.firstSeenAt - a.receivedAt <= window
  }

  lemma MatchesOnColumns(i: Incident, a: Alert, window: nat)
    ensures Matches(i, KeyOf(a), a.receivedAt, window) <==> Reaches(i, a, window)
  {
  }

  /** The alert goes to the incident seen last among those in reach, and to a new one exactly if none is. */
  ghost predicate WellPlaced(d: Desk, a: Alert, window: nat, choice: Choice) {
    && (choice.Create? ==> choice.id !in d.incidents && forall id :: id in d.incidents ==> !Reaches(d.incidents[id], a, window))
    && (choice.Merge? ==>
          && choice.id in d.incidents && Reaches(d.incidents[choice.id], a, window)
          && forall id :: id in d.incidents && Reaches(d.incidents[id], a, window)
                          ==> d.incidents[id].lastSeenAt <= d.incidents[choice.id].lastSeenAt)
  }

  lemma AdmissibleOnColumns(d: Desk, a: Alert, window: nat, choice: Choice)
    requires Admissible(d, a, window, choice)
    ensures WellPlaced(d, a, window, choice)
  {
    forall id | id in d.incidents
      ensures Matches(d.incidents[id], KeyOf(a), a.receivedAt, window) <==> Reaches(d.incidents[id], a, window)
    {
      MatchesOnColumns(d.incidents[id], a, window);
    }
    hide Matches, Reaches;
  }

  /** One occurrence and one version more, the interval stretched over the alert, the worse severity; the rest stays. */
  ghost predicate Absorbs(i: Incident, j: Incident, a: Alert) {
    && j.id == i.id && j.tenant == i.tenant && j.fingerprint == i.fingerprint && j.service == i.service && j.title == i.title
    && j.status == i.status && j.acknowledgedAt == i.acknowledgedAt && j.resolvedAt == i.resolvedAt
    && j.occurrenceCount == i.occurrenceCount + 1 && j.version == i.version + 1
    && j.firstSeenAt <= a.receivedAt <= j.lastSeenAt
    && (j.firstSeenAt == i.firstSeenAt <= a.receivedAt || j.firstSeenAt == a.receivedAt <= i.firstSeenAt)
    && (j.lastSeenAt == i.lastSeenAt >= a.receivedAt || j.lastSeenAt == a.receivedAt >= i.lastSeenAt)
    && j.severity == (if a.severity.Rank() > i.severity.Rank() then a.severity else i.severity)
  }

  ghost predicate Begins(j: Incident, id: Uuid, a: Alert) {
    && j.id == id && j.tenant == a.tenant && j.fingerprint == a.fingerprint && j.service == a.service && j.title == a.title
    && j.severity == a.severity && j.status == Open && j.acknowledgedAt == None && j.resolvedAt == None
    && j.occurrenceCount == 1 && j.version == 1 && j.firstSeenAt == a.receivedAt && j.lastSeenAt == a.receivedAt
  }

  /** A pending escalation for one step of the policy, due the step's delay after the alert was received. */
  ghost predicate StartsStep(e: Escalation, id: Uuid, incident: Uuid, a: Alert, step: PolicyStep) {
    && e.id == id && e.tenant == a.tenant && e.incident == incident && e.step == step.number && e.target == step.target
    && e.title == a.title && e.severity == a.severity && e.status == Pending
    && e.dueAt == a.receivedAt + step.delay * 1_000_000
    && e.attempts == 0 && e.maxAttempts == step.maxAttempts && e.token == 0
    && e.leaseId == None && e.leaseUntil == None && e.sentAt == None
  }

  ghost predicate CorrelationShows(d: Desk, next: Desk, a: Alert, choice: Choice) {
    && choice.id in next.incidents
    && next.incidents.Keys == d.incidents.Keys + {choice.id}
    && (forall id :: id in d.incidents && id != choice.id ==> id in next.incidents && next.incidents[id] == d.incidents[id])
    && var j := next.incidents[choice.id];
    && match choice
       case Merge(id) =>
         && id in d.incidents && Absorbs(d.incidents[id], j, a)
         && next.escalations == d.escalations
         && next.timeline == d.timeline + [Entry(a.tenant, j.id, "correlator", AlertCorrelated(a.id, a.externalId, j.occurrenceCount))]
       case Create(id, steps, rows) =>
         && Begins(j, id, a)
         && |rows| == |steps|
         && next.escalations.Keys == d.escalations.Keys + (set k | 0 <= k < |rows| :: rows[k])
         && (forall row :: row in d.escalations ==> row in next.escalations && next.escalations[row] == d.escalations[row])
         && (forall k :: 0 <= k < |rows| ==> rows[k] in next.escalations && StartsStep(next.escalations[rows[k]], rows[k], id, a, steps[k]))
         && next.timeline == d.timeline + [Entry(a.tenant, id, "correlator", IncidentOpened(a.id, a.externalId, 1))]
  }

  lemma MergeOnColumns(d: Desk, a: Alert, id: Uuid)
    requires id in d.incidents
    ensures CorrelationShows(d, Correlated(d, a, Merge(id)), a, Merge(id))
  {
  }

  lemma ScheduledOnColumns(d: Desk, a: Alert, choice: Choice)
    requires choice.Create? && FreshFor(d, choice.id, choice.steps, choice.rows)
    ensures var rows, added := choice.rows, ScheduledRows(choice.id, a, choice.steps, choice.rows);
            && added.Keys == (set k | 0 <= k < |rows| :: rows[k]) && added.Keys !! d.escalations.Keys
            && forall k :: 0 <= k < |rows| ==> StartsStep(added[rows[k]], rows[k], choice.id, a, choice.steps[k])
  {
  }

  lemma CreateOnColumns(d: Desk, a: Alert, choice: Choice)
    requires choice.Create? && FreshFor(d, choice.id, choice.steps, choice.rows)
    ensures CorrelationShows(d, Correlated(d, a, choice), a, choice)
  {
    ScheduledOnColumns(d, a, choice);
    hide ScheduledRows, StartsStep, ValidPolicy;
  }

  lemma CorrelationOnColumns(d: Desk, a: Alert, window: nat, choice: Choice)
    requires Admissible(d, a, window, choice)
    ensures Resolvable(d, choice) && CorrelationShows(d, Correlated(d, a, choice), a, choice)
  {
    hide Correlated, CorrelationShows, Matches;
    if choice.Create? {
      CreateOnColumns(d, a, choice);
    } else {
      MergeOnColumns(d, a, choice.id);
    }
  }

  // ---- operator transitions ----

  predicate MayMove(from: IncidentStatus, to: IncidentStatus) {
    (from == Open && to == Acknowledged) || (from == Open && to == Resolved) || (from == Acknowledged && to == Resolved)
  }

  predicate Known(d: Desk, tenant: Uuid, incident: Uuid) {
    incident in d.incidents && d.incidents[incident].tenant == tenant
  }

  /** The caller named no version, or the one the row has. */
  predicate Current(d: Desk, command: TransitionCommand)
    requires command.incident in d.incidents
  {
    match command.expected
    case None => true
    case Some(v) => d.incidents[command.incident].version == v
  }

  /** A transition is accepted if and only if the incident is the tenant's, the version is current and the pair of
      statuses is one of the three allowed; otherwise the first of these that fails decides the error. */
  lemma VerdictOnColumns(d: Desk, tenant: Uuid, command: TransitionCommand)
    ensures var verdict := TransitionVerdict(d, tenant, command);
            && (verdict == Refused(NotFound) <==> !Known(d, tenant, command.incident))
            && (verdict == Refused(Conflict) <==> Known(d, tenant, command.incident) && !Current(d, command))
            && (verdict == Refused(InvalidTransition) <==>
                  Known(d, tenant, command.incident) && Current(d, command)
                  && !MayMove(d.incidents[command.incident].status, command.to))
            && (verdict == Accepted <==>
                  Known(d, tenant, command.incident) && Current(d, command)
                  && MayMove(d.incidents[command.incident].status, command.to))
  {
  }

  ghost predicate Moves(i: Incident, j: Incident, to: IncidentStatus, now: Time) {
    && j.id == i.id && j.tenant == i.tenant && j.fingerprint == i.fingerprint && j.service == i.service && j.title == i.title
    && j.severity == i.severity && j.occurrenceCount == i.occurrenceCount
    && j.firstSeenAt == i.firstSeenAt && j.lastSeenAt == i.lastSeenAt
    && j.status == to && j.version == i.version + 1
    && j.acknowledgedAt == (if to == Acknowledged then Some(now) else i.acknowledgedAt)
    && j.resolvedAt == (if to == Resolved then Some(now) else i.resolvedAt)
  }

  ghost predicate SameBut(e: Escalation, f: Escalation, status: EscalationStatus, dueAt: Time, attempts: int, token: int) {
    && f.id == e.id && f.tenant == e.tenant && f.incident == e.incident && f.step == e.step && f.target == e.target
    && f.title == e.title && f.severity == e.severity && f.maxAttempts == e.maxAttempts
    && f.status == status && f.dueAt == dueAt && f.attempts == attempts && f.token == token
  }

  ghost predicate NoLease(e: Escalation) {
    e.leaseId == None && e.leaseUntil == None
  }

  ghost predicate MoveShows(d: Desk, next: Desk, tenant: Uuid, command: TransitionCommand, now: Time) {
    && command.incident in d.incidents && command.incident in next.incidents
    && next.incidents == d.incidents[command.incident := next.incidents[command.incident]]
    && Moves(d.incidents[command.incident], next.incidents[command.incident], command.to, now)
    && next.escalations.Keys == d.escalations.Keys
    && (forall id :: id in d.escalations ==>
          var e, f := d.escalations[id], next.escalations[id];
          if e.incident == command.incident && (e.status == Pending || e.status == Running)
          then SameBut(e, f, Cancelled, e.dueAt, e.attempts, e.token) && NoLease(f) && f.sentAt == e.sentAt
          else f == e)
    && next.timeline == d.timeline + [Entry(tenant, command.incident, command.actor,
                                            IncidentMoved(command.to, command.note, d.incidents[command.incident].version + 1))]
  }

  lemma MoveOnColumns(d: Desk, tenant: Uuid, command: TransitionCommand, now: Time)
    requires command.incident in d.incidents
    ensures MoveShows(d, Moved(d, tenant, command, now), tenant, command, now)
  {
  }

  // ---- sweeps ----

  predicate OnOpenIncident(d: Desk, e: Escalation) {
    e.incident in d.incidents && d.incidents[e.incident].status == Open
  }

  predicate Abandoned(e: Escalation, now: Time) {
    e.status == Running && e.leaseUntil.Some? && e.leaseUntil.value < now
  }

  predicate Takeable(d: Desk, id: Uuid, now: Time) {
    && id in d.escalations
    && OnOpenIncident(d, d.escalations[id])
    && d.escalations[id].attempts < d.escalations[id].maxAttempts
    && (Abandoned(d.escalations[id], now) || (d.escalations[id].status == Pending && now >= d.escalations[id].dueAt))
  }

  predicate Exhausting(d: Desk, id: Uuid, now: Time) {
    && id in d.escalations
    && OnOpenIncident(d, d.escalations[id])
    && d.escalations[id].attempts >= d.escalations[id].maxAttempts
    && Abandoned(d.escalations[id], now)
  }

  lemma CandidatesOnColumns(d: Desk, id: Uuid, now: Time)
    ensures Claimable(d, id, now) <==> Takeable(d, id, now)
    ensures Exhaustible(d, id, now) <==> Exhausting(d, id, now)
  {
  }

  /** The rows taken are takeable and not locked, in the order of their due times, at most `limit`; and a takeable row
      that was left over is due no earlier than any taken and was left because the limit was reached. */
  ghost predicate TakesFirstDue(d: Desk, ids: seq<Uuid>, now: Time, locked: set<Uuid>, limit: nat) {
    && |ids| <= limit
    && (forall i :: 0 <= i < |ids| ==> Takeable(d, ids[i], now) && ids[i] !in locked)
    && (forall i, j :: 0 <= i < j < |ids| ==> ids[i] != ids[j] && d.escalations[ids[i]].dueAt <= d.escalations[ids[j]].dueAt)
    && (forall id :: Takeable(d, id, now) && id !in locked && id !in ids ==>
          |ids| == limit && forall i :: 0 <= i < |ids| ==> d.escalations[ids[i]].dueAt <= d.escalations[id].dueAt)
  }

  /** The same for the rows retired, by the end of their leases. */
  ghost predicate RetiresFirstExpired(d: Desk, ids: seq<Uuid>, now: Time, locked: set<Uuid>, limit: nat) {
    && |ids| <= limit
    && (forall i :: 0 <= i < |ids| ==> Exhausting(d, ids[i], now) && ids[i] !in locked)
    && (forall i, j :: 0 <= i < j < |ids| ==>
          ids[i] != ids[j] && d.escalations[ids[i]].leaseUntil.value <= d.escalations[ids[j]].leaseUntil.value)
    && (forall id :: Exhausting(d, id, now) && id !in locked && id !in ids ==>
          |ids| == limit && forall i :: 0 <= i < |ids| ==> d.escalations[ids[i]].leaseUntil.value <= d.escalations[id].leaseUntil.value)
  }

  lemma TakenOnColumns(d: Desk, ids: seq<Uuid>, now: Time, locked: set<Uuid>, limit: nat)
    requires FirstBy(ids, ClaimableRows(d, now, locked), DueTimes(d), limit)
    ensures TakesFirstDue(d, ids, now, locked, limit)
  {
    forall id
      ensures Claimable(d, id, now) <==> Takeable(d, id, now)
    {
      CandidatesOnColumns(d, id, now);
    }
    hide Takeable, Claimable;
    assert forall id :: id in ClaimableRows(d, now, locked) <==> id in d.escalations && Claimable(d, id, now) && id !in locked;
  }

  lemma RetiredOnColumns(d: Desk, ids: seq<Uuid>, now: Time, locked: set<Uuid>, limit: nat)
    requires FirstBy(ids, ExhaustibleRows(d, now, locked), LeaseEnds(d), limit)
    ensures RetiresFirstExpired(d, ids, now, locked, limit)
  {
    forall id
      ensures Exhaustible(d, id, now) <==> Exhausting(d, id, now)
    {
      CandidatesOnColumns(d, id, now);
    }
    hide Exhaustible;
    assert forall id :: id in ExhaustibleRows(d, now, locked) <==> id in d.escalations && Exhaustible(d, id, now) && id !in locked;
  }

  /** Running under a new lease, with one attempt and one token more. */
  ghost predicate Taken(e: Escalation, f: Escalation, lease: Uuid, until: Time) {
    SameBut(e, f, Running, e.dueAt, e.attempts + 1, e.token + 1)
    && f.leaseId == Some(lease) && f.leaseUntil == Some(until) && f.sentAt == e.sentAt
  }

  ghost predicate Retired(e: Escalation, f: Escalation) {
    SameBut(e, f, Dead, e.dueAt, e.attempts, e.token) && NoLease(f) && f.sentAt == e.sentAt
  }

  /** The record says what the row says, and that its incident was open. */
  ghost predicate Describes(c: Claim, e: Escalation) {
    && c.id == e.id && c.tenant == e.tenant && c.incident == e.incident && c.step == e.step && c.target == e.target
    && c.attempts == e.attempts && c.maxAttempts == e.maxAttempts && c.dueAt == e.dueAt && c.token == e.token
    && c.title == e.title && c.severity == e.severity && c.incidentStatus == Open
  }

  lemma ClaimRecordOnColumns(e: Escalation)
    ensures Describes(ClaimOf(e, Open), e)
  {
  }

  /** One entry for each row retired, in order. */
  ghost predicate LogsRetired(d: Desk, next: Desk, ids: seq<Uuid>) {
    && |next.timeline| == |d.timeline| + |ids| && d.timeline <= next.timeline
    && forall i :: 0 <= i < |ids| ==>
         ids[i] in d.escalations
         && var e := d.escalations[ids[i]];
            next.timeline[|d.timeline| + i] == Entry(e.tenant, e.incident, "scheduler", EscalationDead(e.step, e.attempts))
  }

  ghost predicate SweepShows(d: Desk, next: Desk, expired: seq<Uuid>, picked: seq<Uuid>, lease: Uuid, until: Time) {
    && next.incidents == d.incidents
    && next.escalations.Keys == d.escalations.Keys
    && (forall id :: id in d.escalations ==>
          var e, f := d.escalations[id], next.escalations[id];
          if id in picked then Taken(e, f, lease, until) else if id in expired then Retired(e, f) else f == e)
    && LogsRetired(d, next, expired)
  }

  lemma {:induction false} ExhaustAllTakesEach(d: Desk, ids: seq<Uuid>)
    requires forall i :: 0 <= i < |ids| ==> ids[i] in d.escalations
    requires forall i, j :: 0 <= i < j < |ids| ==> ids[i] != ids[j]
    ensures ExhaustAll(d, ids).incidents == d.incidents
    ensures forall id :: id in d.escalations ==>
              ExhaustAll(d, ids).escalations[id] == if id in ids then ExhaustedRow(d.escalations[id]) else d.escalations[id]
    decreases |ids|
  {
    if ids != [] {
      var init, last := ids[..|ids| - 1], ids[|ids| - 1];
      ExhaustAllTakesEach(d, init);
      assert ids == init + [last] && last !in init;
      hide ExhaustedRow;
    }
  }

  lemma {:induction false} ExhaustAllLogs(d: Desk, ids: seq<Uuid>)
    requires forall i :: 0 <= i < |ids| ==> ids[i] in d.escalations
    requires forall i, j :: 0 <= i < j < |ids| ==> ids[i] != ids[j]
    ensures LogsRetired(d, ExhaustAll(d, ids), ids)
    decreases |ids|
  {
    if ids != [] {
      var init, last := ids[..|ids| - 1], ids[|ids| - 1];
      ExhaustAllLogs(d, init);
      ExhaustAllTakesEach(d, init);
      assert last !in init;
    }
  }

  lemma SweepOnColumns(d: Desk, expired: seq<Uuid>, picked: seq<Uuid>, lease: Uuid, until: Time)
    requires forall i :: 0 <= i < |expired| ==> expired[i] in d.escalations
    requires forall i :: 0 <= i < |picked| ==> picked[i] in d.escalations && picked[i] !in expired
    requires forall i, j :: 0 <= i < j < |expired| ==> expired[i] != expired[j]
    requires forall i, j :: 0 <= i < j < |picked| ==> picked[i] != picked[j]
    ensures SweepShows(d, ClaimAll(ExhaustAll(d, expired), picked, lease, until), expired, picked, lease, until)
  {
    var mid := ExhaustAll(d, expired);
    ExhaustAllTakesEach(d, expired);
    ExhaustAllLogs(d, expired);
    ClaimTakesEach(mid, picked, lease, until);
    ClaimKeepsTimeline(mid, picked, lease, until);
    var next := ClaimAll(mid, picked, lease, until);
    assert LogsRetired(d, next, expired);
    hide ExhaustAll, ClaimAll, Taken, Retired, ExhaustedRow, ClaimedRow, LogsRetired;
    forall id | id in d.escalations
      ensures var e, f := d.escalations[id], next.escalations[id];
              if id in picked then Taken(e, f, lease, until) else if id in expired then Retired(e, f) else f == e
    {
      RowsOnColumns(d.escalations[id], lease, until);
    }
  }

  lemma RowsOnColumns(e: Escalation, lease: Uuid, until: Time)
    ensures Taken(e, ClaimedRow(e, lease, until), lease, until)
    ensures Retired(e, ExhaustedRow(e))
  {
  }

  // ---- reports ----

  predicate Fenced(d: Desk, c: Claim) {
    c.id in d.escalations && d.escalations[c.id].token == c.token && d.escalations[c.id].status == Running
  }

  lemma FenceOnColumns(d: Desk, c: Claim)
    ensures Holds(d, c) <==> Fenced(d, c)
  {
  }

  ghost predicate ReportShows(d: Desk, next: Desk, c: Claim, kind: Kind) {
    && c.id in d.escalations && c.id in next.escalations
    && next.incidents == d.incidents
    && next.escalations == d.escalations[c.id := next.escalations[c.id]]
    && next.timeline == d.timeline + [Entry(c.tenant, c.incident, "scheduler", kind)]
  }

  ghost predicate CompletionShows(d: Desk, next: Desk, c: Claim, now: Time) {
    && ReportShows(d, next, c, EscalationSent(c.step, c.attempts))
    && var e, f := d.escalations[c.id], next.escalations[c.id];
       SameBut(e, f, Sent, e.dueAt, e.attempts, e.token) && NoLease(f) && f.sentAt == Some(now)
  }

  lemma CompletionOnColumns(d: Desk, c: Claim, now: Time)
    requires c.id in d.escalations
    ensures CompletionShows(d, Completed(d, c, now), c, now)
  {
  }

  /** Due again exactly `retryAfter` from now if attempts are left, and dead if not. */
  ghost predicate FailureShows(d: Desk, next: Desk, c: Claim, retryAfter: int, now: Time) {
    && c.id in d.escalations
    && var e := d.escalations[c.id];
    && ReportShows(d, next, c, if e.attempts < e.maxAttempts then EscalationRetryScheduled(c.step, e.attempts, retryAfter)
                               else EscalationDead(c.step, e.attempts))
    && var f := next.escalations[c.id];
       SameBut(e, f, if e.attempts < e.maxAttempts then Pending else Dead, now + retryAfter, e.attempts, e.token)
       && NoLease(f) && f.sentAt == e.sentAt
  }

  lemma FailureOnColumns(d: Desk, c: Claim, retryAfter: int, now: Time)
    requires c.id in d.escalations
    ensures FailureShows(d, Failed(d, c, retryAfter, now), c, retryAfter, now)
  {
  }

  // ---- outbox ----

  predicate Publishable(outbox: Outbox, id: Uuid, now: Time) {
    && id in outbox
    && outbox[id].publishedAt == None && now >= outbox[id].availableAt
    && match outbox[id].leaseUntil
       case None => true
       case Some(end) => end < now
  }

  lemma RelayableOnColumns(outbox: Outbox, id: Uuid, now: Time)
    ensures Relayable(outbox, id, now) <==> Publishable(outbox, id, now)
  {
  }

  ghost predicate SameEvent(e: OutboxEvent, f: OutboxEvent) {
    && f.id == e.id && f.tenant == e.tenant && f.topic == e.topic && f.partitionKey == e.partitionKey
    && f.payload == e.payload && f.createdAt == e.createdAt
  }

  ghost predicate Unleased(e: OutboxEvent) {
    e.leaseId == None && e.leaseUntil == None
  }

  /** The oldest publishable events, at most `limit`, get the lease; the others stay; the records describe them. */
  ghost predicate LeasesOldest(outbox: Outbox, next: Outbox, ids: seq<Uuid>, claims: seq<OutboxClaim>, lease: Uuid, until: Time,
                               now: Time, locked: set<Uuid>, limit: nat) {
    && |ids| <= limit && |claims| == |ids|
    && (forall i :: 0 <= i < |ids| ==> Publishable(outbox, ids[i], now) && ids[i] !in locked)
    && (forall i, j :: 0 <= i < j < |ids| ==> ids[i] != ids[j] && outbox[ids[i]].createdAt <= outbox[ids[j]].createdAt)
    && (forall id :: Publishable(outbox, id, now) && id !in locked && id !in ids ==>
          |ids| == limit && forall i :: 0 <= i < |ids| ==> outbox[ids[i]].createdAt <= outbox[id].createdAt)
    && next.Keys == outbox.Keys
    && (forall id :: id in outbox ==> if id in ids then LeaseShows(outbox[id], next[id], lease, until) else next[id] == outbox[id])
    && forall i :: 0 <= i < |ids| ==> RecordShows(claims[i], outbox[ids[i]], lease)
  }

  ghost predicate LeaseShows(e: OutboxEvent, f: OutboxEvent, lease: Uuid, until: Time) {
    && SameEvent(e, f) && f.availableAt == e.availableAt && f.publishedAt == e.publishedAt && f.attempts == e.attempts
    && f.leaseId == Some(lease) && f.leaseUntil == Some(until)
  }

  ghost predicate RecordShows(c: OutboxClaim, e: OutboxEvent, lease: Uuid) {
    && c.id == e.id && c.tenant == e.tenant && c.topic == e.topic && c.partitionKey == e.partitionKey
    && c.payload == e.payload && c.attempts == e.attempts && c.leaseId == lease
  }

  lemma LeasesOnColumns(outbox: Outbox, ids: seq<Uuid>, claims: seq<OutboxClaim>, lease: Uuid, until: Time,
                        now: Time, locked: set<Uuid>, limit: nat)
    requires FirstBy(ids, set id | id in outbox && Relayable(outbox, id, now) && id !in locked,
                     map id | id in outbox :: outbox[id].createdAt, limit)
    requires |claims| == |ids| && forall i :: 0 <= i < |ids| ==> ids[i] in outbox && claims[i] == OutboxClaimOf(outbox[ids[i]], lease)
    ensures LeasesOldest(outbox, LeasedAll(outbox, ids, lease, until), ids, claims, lease, until, now, locked, limit)
  {
    forall id
      ensures Relayable(outbox, id, now) <==> Publishable(outbox, id, now)
    {
      RelayableOnColumns(outbox, id, now);
    }
    hide Relayable, Publishable;
  }

  /** The caller still holds the lease of a row that is not marked yet. */
  predicate LeaseHeld(outbox: Outbox, c: OutboxClaim) {
    c.id in outbox && outbox[c.id].publishedAt == None && outbox[c.id].leaseId == Some(c.leaseId)
  }

  ghost predicate MarkShows(outbox: Outbox, next: Outbox, id: Uuid, now: Time) {
    && id in outbox && id in next && next == outbox[id := next[id]]
    && var e, f := outbox[id], next[id];
       SameEvent(e, f) && Unleased(f) && f.publishedAt == Some(now) && f.attempts == e.attempts && f.availableAt == e.availableAt
  }

  ghost predicate ReleaseShows(outbox: Outbox, next: Outbox, id: Uuid, availableAt: Time) {
    && id in outbox && id in next && next == outbox[id := next[id]]
    && var e, f := outbox[id], next[id];
       SameEvent(e, f) && Unleased(f) && f.publishedAt == e.publishedAt && f.attempts == e.attempts + 1 && f.availableAt == availableAt
  }

  lemma OutboxOnColumns(outbox: Outbox, c: OutboxClaim, availableAt: Time, now: Time)
    ensures HoldsEvent(outbox, c) <==> LeaseHeld(outbox, c)
    ensures c.id in outbox ==>
              && MarkShows(outbox, outbox[c.id := PublishedEvent(outbox[c.id], now)], c.id, now)
              && ReleaseShows(outbox, outbox[c.id := ReleasedEvent(outbox[c.id], availableAt)], c.id, availableAt)
  {
  }

  // ---- ingestion ----

  /** The row of an accepted alert.  It is received when the clock says so, whatever time the request claims. */
  ghost predicate RowShows(a: Alert, id: Uuid, tenant: Uuid, key: string, trimmed: AlertInput, fingerprint: string, hash: string, now: Time) {
    && a.id == id && a.tenant == tenant && a.idempotencyKey == key
    && a.externalId == trimmed.externalId && a.service == trimmed.service && a.title == trimmed.title
    && a.severity == trimmed.severity && a.labels == trimmed.labels && a.details == trimmed.details
    && a.fingerprint == fingerprint && a.requestHash == hash
    && a.receivedAt == now
    && a.occurredAt == (match trimmed.occurredAt case None => now case Some(stamp) => stamp.instant)
  }

  ghost predicate EventShows(e: OutboxEvent, id: Uuid, a: Alert, now: Time) {
    && e.id == id && e.tenant == a.tenant && e.topic == "alerts.received.v1" && e.partitionKey == a.fingerprint
    && e.createdAt == now && e.availableAt == now && e.publishedAt == None && e.attempts == 0 && Unleased(e)
    && e.payload.id == id && e.payload.topic == "alerts.received.v1" && e.payload.version == 1
    && e.payload.tenant == a.tenant && e.payload.alert == Some(a.id) && e.payload.occurredAt == Some(now)
  }

  lemma RowOnColumns(id: Uuid, tenant: Uuid, key: string, trimmed: AlertInput, fingerprint: string, hash: string, now: Time, event: Uuid)
    ensures var a := AlertRow(id, tenant, key, trimmed, fingerprint, hash, now);
            RowShows(a, id, tenant, key, trimmed, fingerprint, hash, now) && EventShows(EventRow(event, a, now), event, a, now)
  {
  }
}
