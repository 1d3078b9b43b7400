/** The operations of the database package over tables that are updated in place.  Each method is one
    transaction; its contract says which `Tables` function the committed effect is, and that a refused call
    leaves every table as it was.  Fresh identifiers, the clock and the rows locked by other sessions are
    parameters. */
module StoreClass {
  import opened Domain
  import opened Tables
  import opened Columns

  class Store {
    var alerts: map<Uuid, Alert>
    var outbox: map<Uuid, OutboxEvent>
    var inbox: set<InboxKey>
    var incidents: map<Uuid, Incident>
    var escalations: map<Uuid, Escalation>
    var timeline: seq<Entry>
    var deliveries: seq<Notification>

    ghost function DeskNow(): Desk
      reads this
    {
      Desk(incidents, escalations, timeline)
    }

    ghost function Snapshot(): Db
      reads this
    {
      Db(alerts, outbox, inbox, DeskNow(), deliveries)
    }

    constructor ()
      ensures Snapshot() == EMPTY_DB && UniqueKeys(alerts)
    {
      alerts, outbox, inbox, incidents, escalations, timeline, deliveries := map[], map[], {}, map[], map[], [], [];
    }

    /** Validation and the values computed from the trimmed input before the transaction starts. */
    static method Prepare(input: AlertInput, digest: Canonical -> string, hash: AlertInput -> string)
      returns (accepted: bool, trimmed: AlertInput, fingerprint: string, requestHash: string)
      ensures trimmed == Trimmed(input)
      ensures accepted <==> ValidInput(Trimmed(input))
      ensures accepted ==> fingerprint == Fingerprint(trimmed, digest) && requestHash == hash(trimmed)
    {
      trimmed := Trimmed(input);
      accepted := Validate(trimmed);
      hide Fingerprint, Trimmed;
      fingerprint := NormalizedFingerprint(trimmed, digest);
      requestHash := hash(trimmed);
    }

    method IngestAlert(tenant: Uuid, idempotencyKey: string, input: AlertInput, now: Time,
                       freshAlert: Uuid, freshEvent: Uuid,
                       digest: Canonical -> string, hash: AlertInput -> string)
      returns (receipt: Receipt)
      requires UniqueKeys(alerts)
      requires freshAlert !in alerts && freshEvent !in outbox
      modifies this
      ensures UniqueKeys(alerts)
      ensures (!ValidInput(Trimmed(input)) || idempotencyKey == "")
              ==> receipt == Rejected(InvalidInput) && Snapshot() == old(Snapshot())
      ensures forall id ::
                ValidInput(Trimmed(input)) && idempotencyKey != "" && UsedBy(old(alerts), id, tenant, idempotencyKey)
                ==> (receipt == if old(alerts)[id].requestHash == hash(Trimmed(input)) then Receipt(id, true)
                                else Rejected(Conflict))
                    && Snapshot() == old(Snapshot())
      ensures ValidInput(Trimmed(input)) && idempotencyKey != ""
              && (forall id :: !UsedBy(old(alerts), id, tenant, idempotencyKey))
              ==> var alert := AlertRow(freshAlert, tenant, idempotencyKey, Trimmed(input),
                                        Fingerprint(Trimmed(input), digest), hash(Trimmed(input)), now);
                  && receipt == Receipt(freshAlert, false)
                  && Snapshot() == Ingested(old(Snapshot()), alert, EventRow(freshEvent, alert, now))
      ensures receipt.Receipt? ==>
                && receipt.alert in alerts
                && alerts[receipt.alert].tenant == tenant && alerts[receipt.alert].idempotencyKey == idempotencyKey
                && alerts[receipt.alert].requestHash == hash(Trimmed(input))
                && receipt.duplicate == (receipt.alert in old(alerts))
      ensures receipt.Receipt? && !receipt.duplicate ==>
                && receipt.alert == freshAlert
                && (forall id :: id in old(alerts) ==> old(alerts)[id].tenant != tenant || old(alerts)[id].idempotencyKey != idempotencyKey)
                && ValidInput(Trimmed(input))
                && RowShows(alerts[freshAlert], freshAlert, tenant, idempotencyKey, Trimmed(input),
                            Fingerprint(Trimmed(input), digest), hash(Trimmed(input)), now)
                && freshEvent in outbox && EventShows(outbox[freshEvent], freshEvent, alerts[freshAlert], now)
      ensures receipt == Rejected(Conflict) ==>
                exists id :: && id in old(alerts) && old(alerts)[id].tenant == tenant && old(alerts)[id].idempotencyKey == idempotencyKey
                             && old(alerts)[id].requestHash != hash(Trimmed(input))
    {
      var valid, trimmed, fingerprint, requestHash := Prepare(input, digest, hash);
      hide Fingerprint, ValidInput, Trimmed;
      if !valid || idempotencyKey == "" {
        return Rejected(InvalidInput);
      }
      if exists id :: id in alerts && UsedBy(alerts, id, tenant, idempotencyKey) {
        var stored :| stored in alerts && UsedBy(alerts, stored, tenant, idempotencyKey);
        if alerts[stored].requestHash != requestHash {
          return Rejected(Conflict);
        }
        return Receipt(stored, true);
      }
      assert forall id :: id in alerts ==> !UsedBy(alerts, id, tenant, idempotencyKey);
      var alert := AlertRow(freshAlert, tenant, idempotencyKey, trimmed, fingerprint, requestHash, now);
      RowOnColumns(freshAlert, tenant, idempotencyKey, trimmed, fingerprint, requestHash, now, freshEvent);
      alerts := alerts[freshAlert := alert];
      assert forall a, t, k :: UsedBy(alerts, a, t, k) ==>
        if a == freshAlert then t == tenant && k == idempotencyKey else UsedBy(old(alerts), a, t, k);
      outbox := outbox[freshEvent := EventRow(freshEvent, alert, now)];
      return Receipt(freshAlert, false);
    }

    /** The search of the correlation query: the matching row seen last, if any row matches. */
    method FindIncident(key: CorrelationKey, at: Time, window: nat) returns (found: Option<Uuid>)
      ensures found.None? ==> NoMatch(incidents, key, at, window)
      ensures found.Some? ==> IsLatestMatch(incidents, found.value, key, at, window)
      ensures forall id :: id in incidents && incidents[id].tenant == key.tenant && incidents[id].fingerprint == key.fingerprint
                           && incidents[id].status != Resolved
                           && at - window <= incidents[id].lastSeenAt && incidents[id].firstSeenAt <= at + window
                ==> found.Some? && incidents[id].lastSeenAt <= incidents[found.value].lastSeenAt
    {
      found := None;
      var remaining := incidents.Keys;
      while remaining != {}
        invariant remaining <= incidents.Keys
        invariant found.None? ==> forall id :: id in incidents && id !in remaining ==> !Matches(incidents[id], key, at, window)
        invariant found.Some? ==>
          && found.value in incidents && Matches(incidents[found.value], key, at, window)
          && forall id :: id in incidents && id !in remaining && Matches(incidents[id], key, at, window)
                          ==> incidents[id].lastSeenAt <= incidents[found.value].lastSeenAt
        decreases remaining
      {
        var id :| id in remaining;
        if Matches(incidents[id], key, at, window)
           && (found.None? || incidents[id].lastSeenAt > incidents[found.value].lastSeenAt) {
          found := Some(id);
        }
        remaining := remaining - {id};
      }
    }

    method CorrelateAlert(consumer: string, message: Uuid, tenant: Uuid, alertId: Uuid, window: nat,
                          freshIncident: Uuid, policy: seq<PolicyStep>, freshRows: seq<Uuid>)
      returns (outcome: CorrelateOutcome, ghost choice: Choice)
      requires FreshFor(DeskNow(), freshIncident, policy, freshRows)
      modifies this
      ensures InboxKey(consumer, message) in old(inbox) ==> outcome == Duplicate && Snapshot() == old(Snapshot())
      ensures InboxKey(consumer, message) !in old(inbox) && !(alertId in old(alerts) && old(alerts)[alertId].tenant == tenant)
              ==> outcome == Unknown && Snapshot() == old(Snapshot())
      ensures InboxKey(consumer, message) !in old(inbox) && alertId in old(alerts) && old(alerts)[alertId].tenant == tenant
              ==> && Admissible(old(DeskNow()), old(alerts)[alertId], window, choice)
                  && Resolvable(old(DeskNow()), choice)
                  && (choice.Create? ==> choice == Create(freshIncident, policy, freshRows))
                  && Snapshot() == old(Snapshot()).(inbox := old(inbox) + {InboxKey(consumer, message)},
                                                    desk := Correlated(old(DeskNow()), old(alerts)[alertId], choice))
                  && choice.id in incidents && outcome == Applied(incidents[choice.id])
                  && WellPlaced(old(DeskNow()), old(alerts)[alertId], window, choice)
                  && CorrelationShows(old(DeskNow()), DeskNow(), old(alerts)[alertId], choice)
    {
      hide WellPlaced, CorrelationShows;
      choice := Merge(freshIncident);
      var before := inbox;
      if InboxKey(consumer, message) in inbox {
        return Duplicate, choice;
      }
      inbox := inbox + {InboxKey(consumer, message)};
      if alertId !in alerts || alerts[alertId].tenant != tenant {
        inbox := before;  // rollback
        return Unknown, choice;
      }
      var alert := alerts[alertId];
      var found := FindIncident(KeyOf(alert), alert.receivedAt, window);
      var incident: Incident;
      var created := found.None?;
      if created {
        incident := OpenedIncident(freshIncident, alert);
        escalations := escalations + ScheduledRows(freshIncident, alert, policy, freshRows);
        choice := Create(freshIncident, policy, freshRows);
      } else {
        incident := incidents[found.value];
        incident := incident.(severity := MaxSeverity(incident.severity, alert.severity),
                              occurrenceCount := incident.occurrenceCount + 1);
        if alert.receivedAt < incident.firstSeenAt {
          incident := incident.(firstSeenAt := alert.receivedAt);
        }
        if alert.receivedAt > incident.lastSeenAt {
          incident := incident.(lastSeenAt := alert.receivedAt);
        }
        incident := incident.(version := incident.version + 1);
        choice := Merge(found.value);
      }
      incidents := incidents[if created then freshIncident else found.value := incident];
      timeline := timeline + [CorrelationEntry(alert, created, incident)];
      AdmissibleOnColumns(old(DeskNow()), alert, window, choice);
      CorrelationOnColumns(old(DeskNow()), alert, window, choice);
      return Applied(incident), choice;
    }

    method TransitionIncident(tenant: Uuid, command: TransitionCommand, now: Time)
      returns (verdict: Verdict, result: Option<Incident>)
      modifies this
      ensures verdict == TransitionVerdict(old(DeskNow()), tenant, command)
      ensures verdict.Refused? ==> result.None? && Snapshot() == old(Snapshot())
      ensures verdict.Accepted? ==> && command.incident in incidents && result == Some(incidents[command.incident])
                                    && Snapshot() == old(Snapshot()).(desk := Moved(old(DeskNow()), tenant, command, now))
      ensures verdict.Accepted? <==> Known(old(DeskNow()), tenant, command.incident) && Current(old(DeskNow()), command)
                                     && MayMove(old(incidents)[command.incident].status, command.to)
      ensures Known(old(DeskNow()), tenant, command.incident) && !Current(old(DeskNow()), command) ==> verdict == Refused(Conflict)
      ensures verdict.Accepted? ==> MoveShows(old(DeskNow()), DeskNow(), tenant, command, now)
    {
      VerdictOnColumns(DeskNow(), tenant, command);
      hide MoveShows;
      if command.incident !in incidents || incidents[command.incident].tenant != tenant {
        return Refused(NotFound), None;
      }
      var incident := incidents[command.incident];
      if command.expected.Some? && incident.version != command.expected.value {
        return Refused(Conflict), None;
      }
      if !incident.CanTransition(command.to) {
        return Refused(InvalidTransition), None;
      }
      incident := incident.(status := command.to, version := incident.version + 1);
      if command.to == Acknowledged {
        incident := incident.(acknowledgedAt := Some(now));
      } else if command.to == Resolved {
        incident := incident.(resolvedAt := Some(now));
      }
      incidents := incidents[command.incident := incident];
      escalations := CancelLive(escalations, command.incident);
      timeline := timeline + [Entry(tenant, command.incident, command.actor,
                                    IncidentMoved(command.to, command.note, incident.version))];
      MoveOnColumns(old(DeskNow()), tenant, command, now);
      return Accepted, Some(incident);
    }

    /** ORDER BY key LIMIT n over a set of candidate rows. */
    static method Earliest(eligible: set<Uuid>, key: map<Uuid, Time>, limit: nat) returns (chosen: seq<Uuid>)
      requires eligible <= key.Keys
      ensures FirstBy(chosen, eligible, key, limit)
    {
      chosen := [];
      var rest := eligible;
      while |chosen| < limit && rest != {}
        invariant rest <= eligible
        invariant forall id :: id in eligible ==> (id in rest <==> id !in chosen)
        invariant forall i :: 0 <= i < |chosen| ==> chosen[i] in eligible
        invariant |chosen| <= limit
        invariant forall i, j :: 0 <= i < j < |chosen| ==> chosen[i] != chosen[j] && key[chosen[i]] <= key[chosen[j]]
        invariant forall id, i :: id in rest && 0 <= i < |chosen| ==> key[chosen[i]] <= key[id]
        decreases rest
      {
        var first :| first in rest;
        var others := rest - {first};
        while others != {}
          invariant others <= rest && first in rest
          invariant forall id :: id in rest && id !in others ==> key[first] <= key[id]
          decreases others
        {
          var id :| id in others;
          if key[id] < key[first] {
            first := id;
          }
          others := others - {id};
        }
        chosen := chosen + [first];
        rest := rest - {first};
      }
    }

    method ClaimEscalations(limit: nat, lease: int, leaseId: Uuid, now: Time, locked: set<Uuid>)
      returns (claims: seq<Claim>, ghost expired: seq<Uuid>, ghost picked: seq<Uuid>)
      modifies this
      ensures FirstBy(expired, ExhaustibleRows(old(DeskNow()), now, locked), LeaseEnds(old(DeskNow())), limit)
      ensures FirstBy(picked, ClaimableRows(old(DeskNow()), now, locked), DueTimes(old(DeskNow())), limit)
      ensures Snapshot() == old(Snapshot()).(desk :=
                ClaimAll(ExhaustAll(old(DeskNow()), expired), picked, leaseId, now + lease))
      ensures |claims| == |picked|
      ensures forall i :: 0 <= i < |claims| ==> picked[i] in escalations && claims[i] == ClaimOf(escalations[picked[i]], Open)
      ensures RetiresFirstExpired(old(DeskNow()), expired, now, locked, limit)
      ensures TakesFirstDue(old(DeskNow()), picked, now, locked, limit)
      ensures SweepShows(old(DeskNow()), DeskNow(), expired, picked, leaseId, now + lease)
      ensures forall i :: 0 <= i < |claims| ==> picked[i] in escalations && Describes(claims[i], escalations[picked[i]])
    {
      var desk := Desk(incidents, escalations, timeline);
      CandidatesHaveKeys(desk, now, locked);
      hide FirstBy, ExhaustAll, ClaimAll, ExhaustibleRows, ClaimableRows, LeaseEnds, DueTimes, Exhaustible, Claimable,
           RetiresFirstExpired, TakesFirstDue, SweepShows, Describes, ClaimOf;
      var dead := Earliest(ExhaustibleRows(desk, now, locked), LeaseEnds(desk), limit);
      var due := Earliest(ClaimableRows(desk, now, locked), DueTimes(desk), limit);
      expired, picked := dead, due;
      SweepHalvesAreDisjoint(desk, dead, due, now, locked, limit);
      RetireRows(dead);
      claims := TakeRows(due, leaseId, now + lease);
      RetiredOnColumns(desk, dead, now, locked, limit);
      TakenOnColumns(desk, due, now, locked, limit);
      SweepOnColumns(desk, dead, due, leaseId, now + lease);
      forall i | 0 <= i < |claims|
        ensures Describes(claims[i], escalations[picked[i]])
      {
        ClaimRecordOnColumns(escalations[picked[i]]);
      }
    }

    /** The UPDATE and INSERT of the exhausted rows. */
    method RetireRows(ids: seq<Uuid>)
      requires forall i :: 0 <= i < |ids| ==> ids[i] in escalations
      modifies this`escalations, this`timeline
      ensures DeskNow() == ExhaustAll(old(DeskNow()), ids)
    {
      var i := 0;
      while i < |ids|
        invariant 0 <= i <= |ids|
        invariant escalations.Keys == old(escalations).Keys
        invariant DeskNow() == ExhaustAll(old(DeskNow()), ids[..i])
      {
        assert ids[..i + 1][..i] == ids[..i];
        var e := escalations[ids[i]];
        escalations := escalations[ids[i] := ExhaustedRow(e)];
        timeline := timeline + [Entry(e.tenant, e.incident, "scheduler", EscalationDead(e.step, e.attempts))];
        i := i + 1;
      }
      assert ids[..i] == ids;
    }

    /** The UPDATE of the claimed rows, and the loop that scans what it returns. */
    method TakeRows(ids: seq<Uuid>, leaseId: Uuid, until: Time) returns (claims: seq<Claim>)
      requires forall i :: 0 <= i < |ids| ==> ids[i] in escalations && IncidentOpen(DeskNow(), escalations[ids[i]])
      requires forall i, j :: 0 <= i < j < |ids| ==> ids[i] != ids[j]
      modifies this`escalations
      ensures DeskNow() == ClaimAll(old(DeskNow()), ids, leaseId, until)
      ensures |claims| == |ids|
      ensures forall i :: 0 <= i < |claims| ==> ids[i] in escalations && claims[i] == ClaimOf(escalations[ids[i]], Open)
    {
      hide ClaimAll, ClaimOf;
      claims := [];
      var i := 0;
      assert DeskNow() == ClaimAll(DeskNow(), ids[..0], leaseId, until) by { ClaimNone(DeskNow(), leaseId, until); }
      while i < |ids|
        invariant 0 <= i <= |ids|
        invariant DeskNow() == ClaimAll(old(DeskNow()), ids[..i], leaseId, until)
        invariant |claims| == i
        invariant forall j :: 0 <= j < i ==> claims[j] == ClaimOf(ClaimedRow(old(escalations)[ids[j]], leaseId, until), Open)
      {
        ClaimOneMore(old(DeskNow()), ids, i, leaseId, until);
        var e := ClaimedRow(escalations[ids[i]], leaseId, until);
        claims := claims + [ClaimOf(e, incidents[e.incident].status)];
        escalations := escalations[ids[i] := e];
        i := i + 1;
      }
      assert ids[..i] == ids;
      ClaimTakesEach(old(DeskNow()), ids, leaseId, until);
    }

    method CompleteEscalation(c: Claim, now: Time) returns (verdict: Verdict)
      modifies this
      ensures verdict == if Holds(old(DeskNow()), c) then Accepted else Refused(Conflict)
      ensures verdict.Refused? ==> Snapshot() == old(Snapshot())
      ensures verdict.Accepted? ==> Snapshot() == old(Snapshot()).(desk := Completed(old(DeskNow()), c, now))
      ensures verdict.Accepted? <==> Fenced(old(DeskNow()), c)
      ensures verdict.Accepted? ==> CompletionShows(old(DeskNow()), DeskNow(), c, now)
    {
      FenceOnColumns(DeskNow(), c);
      if !(c.id in escalations && escalations[c.id].status == Running && escalations[c.id].token == c.token) {
        return Refused(Conflict);
      }
      escalations := escalations[c.id := CompletedRow(escalations[c.id], now)];
      timeline := timeline + [Entry(c.tenant, c.incident, "scheduler", EscalationSent(c.step, c.attempts))];
      CompletionOnColumns(old(DeskNow()), c, now);
      return Accepted;
    }

    method FailEscalation(c: Claim, retryAfter: int, now: Time) returns (verdict: Verdict, dead: bool)
      modifies this
      ensures verdict == if Holds(old(DeskNow()), c) then Accepted else Refused(Conflict)
      ensures verdict.Refused? ==> !dead && Snapshot() == old(Snapshot())
      ensures verdict.Accepted? ==> && Snapshot() == old(Snapshot()).(desk := Failed(old(DeskNow()), c, retryAfter, now))
                                    && (dead <==> LastAttempt(old(escalations)[c.id]))
      ensures verdict.Accepted? <==> Fenced(old(DeskNow()), c)
      ensures verdict.Accepted? ==> FailureShows(old(DeskNow()), DeskNow(), c, retryAfter, now)
      ensures verdict.Accepted? ==> (dead <==> escalations[c.id].status == Dead)
    {
      FenceOnColumns(DeskNow(), c);
      if !(c.id in escalations && escalations[c.id].status == Running && escalations[c.id].token == c.token) {
        return Refused(Conflict), false;
      }
      var e := escalations[c.id];
      dead := e.attempts >= e.maxAttempts;
      escalations := escalations[c.id := e.(status := if dead then Dead else Pending, dueAt := now + retryAfter,
                                            leaseId := None, leaseUntil := None)];
      timeline := timeline + [Entry(c.tenant, c.incident, "scheduler",
                                    if dead then EscalationDead(c.step, e.attempts)
                                    else EscalationRetryScheduled(c.step, e.attempts, retryAfter))];
      FailureOnColumns(old(DeskNow()), c, retryAfter, now);
      return Accepted, dead;
    }

    method ClaimOutbox(limit: nat, lease: int, leaseId: Uuid, now: Time, locked: set<Uuid>)
      returns (claims: seq<OutboxClaim>, ghost picked: seq<Uuid>)
      modifies this`outbox
      ensures FirstBy(picked,
                      set id | id in old(outbox) && Relayable(old(outbox), id, now) && id !in locked,
                      map id | id in old(outbox) :: old(outbox)[id].createdAt, limit)
      ensures outbox == LeasedAll(old(outbox), picked, leaseId, now + lease)
      ensures |claims| == |picked|
      ensures forall i :: 0 <= i < |claims| ==> claims[i] == OutboxClaimOf(old(outbox)[picked[i]], leaseId)
      ensures LeasesOldest(old(outbox), outbox, picked, claims, leaseId, now + lease, now, locked, limit)
    {
      var due := Earliest(set id | id in outbox && Relayable(outbox, id, now) && id !in locked,
                          map id | id in outbox :: outbox[id].createdAt, limit);
      picked := due;
      hide FirstBy, LeasedAll, Relayable;
      claims := LeaseEvents(due, leaseId, now + lease);
      hide LeasesOldest, OutboxClaimOf;
      LeasesOnColumns(old(outbox), due, claims, leaseId, now + lease, now, locked, limit);
    }

    /** The UPDATE of the claimed events, and the loop that scans what it returns. */
    method LeaseEvents(ids: seq<Uuid>, leaseId: Uuid, until: Time) returns (claims: seq<OutboxClaim>)
      requires forall i :: 0 <= i < |ids| ==> ids[i] in outbox
      requires forall i, j :: 0 <= i < j < |ids| ==> ids[i] != ids[j]
      modifies this`outbox
      ensures outbox == LeasedAll(old(outbox), ids, leaseId, until)
      ensures |claims| == |ids|
      ensures forall i :: 0 <= i < |claims| ==> claims[i] == OutboxClaimOf(old(outbox)[ids[i]], leaseId)
    {
      hide LeasedAll, LeasedEvent, OutboxClaimOf;
      claims := [];
      var i := 0;
      assert outbox == LeasedAll(outbox, ids[..0], leaseId, until) by { LeaseNone(outbox, leaseId, until); }
      while i < |ids|
        invariant 0 <= i <= |ids|
        invariant |claims| == i
        invariant outbox == LeasedAll(old(outbox), ids[..i], leaseId, until)
        invariant forall j :: 0 <= j < i ==> claims[j] == OutboxClaimOf(old(outbox)[ids[j]], leaseId)
      {
        assert ids[..i + 1] == ids[..i] + [ids[i]];
        LeaseOneMore(old(outbox), ids[..i], ids[i], leaseId, until);
        claims := claims + [OutboxClaimOf(outbox[ids[i]], leaseId)];
        outbox := outbox[ids[i] := LeasedEvent(outbox[ids[i]], leaseId, until)];
        i := i + 1;
      }
      assert ids[..i] == ids;
    }

    method MarkOutboxPublished(c: OutboxClaim, now: Time) returns (verdict: Verdict)
      modifies this`outbox
      ensures verdict == if HoldsEvent(old(outbox), c) then Accepted else Refused(Conflict)
      ensures verdict.Refused? ==> outbox == old(outbox)
      ensures verdict.Accepted? ==> outbox == old(outbox)[c.id := PublishedEvent(old(outbox)[c.id], now)]
      ensures verdict.Accepted? <==> LeaseHeld(old(outbox), c)
      ensures verdict.Accepted? ==> MarkShows(old(outbox), outbox, c.id, now)
    {
      OutboxOnColumns(outbox, c, now, now);
      if !HoldsEvent(outbox, c) {
        return Refused(Conflict);
      }
      outbox := outbox[c.id := PublishedEvent(outbox[c.id], now)];
      return Accepted;
    }

    method MarkOutboxFailed(c: OutboxClaim, retryAfter: int, now: Time) returns (verdict: Verdict)
      modifies this`outbox
      ensures verdict == if HoldsEvent(old(outbox), c) then Accepted else Refused(Conflict)
      ensures verdict.Refused? ==> outbox == old(outbox)
      ensures verdict.Accepted? ==> outbox == old(outbox)[c.id := ReleasedEvent(old(outbox)[c.id], now + retryAfter)]
      ensures verdict.Accepted? <==> LeaseHeld(old(outbox), c)
      ensures verdict.Accepted? ==> ReleaseShows(old(outbox), outbox, c.id, now + retryAfter)
    {
      OutboxOnColumns(outbox, c, now + retryAfter, now);
      if !HoldsEvent(outbox, c) {
        return Refused(Conflict);
      }
      outbox := outbox[c.id := ReleasedEvent(outbox[c.id], now + retryAfter)];
      return Accepted;
    }

    method RecordNotification(n: Notification) returns (created: bool)
      modifies this`deliveries
      ensures created <==> !Delivered(old(deliveries), n.key)
      ensures deliveries == Recorded(old(deliveries), n)
      ensures created <==> forall i :: 0 <= i < |old(deliveries)| ==> old(deliveries)[i].key != n.key
      ensures deliveries == old(deliveries) + (if created then [n] else [])
    {
      created := !(exists d :: d in deliveries && d.key == n.key);
      if created {
        deliveries := deliveries + [n];
      }
    }
  }
}
