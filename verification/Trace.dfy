/** Runs of the incident tables.  A trace is the list of committed transactions, newest last; its state is the
    effect of running them in order.  A trace is valid when every transaction found the guard of its SQL
    statement true and every completion or failure was reported by a worker that really was given that claim. */
module Traces {
  import opened Domain
  import opened Tables

  datatype Op =
    | Correlate(alert: Alert, choice: Choice)
    | Move(tenant: Uuid, command: TransitionCommand, now: Time)
    | Exhaust(id: Uuid, now: Time)
    | Take(id: Uuid, lease: Uuid, until: Time, now: Time)
    | Complete(claim: Claim, now: Time)
    | Fail(claim: Claim, retryAfter: int, now: Time)

  datatype Trace = Boot | Then(past: Trace, op: Op)

  predicate Applicable(d: Desk, op: Op) {
    match op
    case Correlate(_, choice) => Resolvable(d, choice)
    case Move(_, command, _) => command.incident in d.incidents
    case Exhaust(id, _) => id in d.escalations
    case Take(id, _, _, _) => id in d.escalations
    case Complete(c, _) => c.id in d.escalations
    case Fail(c, _, _) => c.id in d.escalations
  }

  function Step(d: Desk, op: Op): Desk {
    if !Applicable(d, op) then d
    else match op
      case Correlate(alert, choice) => Correlated(d, alert, choice)
      case Move(tenant, command, now) => Moved(d, tenant, command, now)
      case Exhaust(id, _) => Exhausted(d, id)
      case Take(id, lease, until, _) => Claimed(d, id, lease, until)
      case Complete(c, now) => Completed(d, c, now)
      case Fail(c, retryAfter, now) => Failed(d, c, retryAfter, now)
  }

  function State(t: Trace): Desk {
    match t
    case Boot => EMPTY_DESK
    case Then(past, op) => Step(State(past), op)
  }

  /** The claim record was returned by a sweep of this run; the worker may since have been overtaken. */
  ghost predicate Issued(t: Trace, c: Claim) {
    t.Then? &&
    ((t.op.Take? && t.op.id in State(t).escalations && c == ClaimOf(State(t).escalations[t.op.id], Open)) || Issued(t.past, c))
  }

  /** The condition under which the statement of a transaction takes effect. */
  ghost predicate Guard(d: Desk, op: Op, window: nat) {
    match op
    case Correlate(alert, choice) => Admissible(d, alert, window, choice)
    case Move(tenant, command, _) => TransitionVerdict(d, tenant, command) == Accepted
    case Exhaust(id, now) => Exhaustible(d, id, now)
    case Take(id, _, _, now) => Claimable(d, id, now)
    case Complete(c, _) => Holds(d, c)
    case Fail(c, _, _) => Holds(d, c)
  }

  /** Completions and failures are reported for claims that were handed out, however long ago. */
  ghost predicate Reported(t: Trace, op: Op) {
    && (op.Complete? ==> Issued(t, op.claim))
    && (op.Fail? ==> Issued(t, op.claim))
  }

  ghost predicate Enabled(t: Trace, op: Op, window: nat) {
    Guard(State(t), op, window) && Reported(t, op)
  }

  ghost predicate Valid(t: Trace, window: nat) {
    t.Then? ==> Valid(t.past, window) && Enabled(t.past, t.op, window)
  }

  /** `t` continues `s`. */
  ghost predicate Extends(t: Trace, s: Trace) {
    t == s || (t.Then? && Extends(t.past, s))
  }

  lemma GuardIsApplicable(d: Desk, op: Op, window: nat)
    requires Guard(d, op, window)
    ensures Applicable(d, op)
  {
  }

  lemma LastStep(t: Trace, window: nat)
    requires Valid(t, window) && t.Then?
    ensures Valid(t.past, window) && State(t) == Step(State(t.past), t.op) && Guard(State(t.past), t.op, window)
    ensures Applicable(State(t.past), t.op) && Enabled(t.past, t.op, window)
  {
    hide Step, Guard;
    GuardIsApplicable(State(t.past), t.op, window);
  }

  // ---- what every transaction keeps ----

  /** The version counts the correlated alerts and the operator actions, and the action timestamps agree with
      the status. */
  ghost predicate LedgerHolds(i: Incident) {
    && i.occurrenceCount >= 1
    && i.firstSeenAt <= i.lastSeenAt
    && i.version == i.occurrenceCount + (if i.acknowledgedAt.Some? then 1 else 0) + (if i.resolvedAt.Some? then 1 else 0)
    && (i.status == Open <==> i.acknowledgedAt.None? && i.resolvedAt.None?)
    && (i.status == Resolved <==> i.resolvedAt.Some?)
  }

  ghost predicate IncidentsSound(d: Desk) {
    forall id :: id in d.incidents ==> d.incidents[id].id == id && LedgerHolds(d.incidents[id])
  }

  /** The states a row of incident_escalations can be in. */
  ghost predicate RowSound(e: Escalation) {
    && e.token == e.attempts
    && 0 <= e.attempts <= e.maxAttempts
    && (e.status == Pending ==> e.attempts < e.maxAttempts)
    && (e.status == Running <==> e.leaseUntil.Some?)
    && (e.leaseId.Some? <==> e.leaseUntil.Some?)
    && (e.status == Running ==> e.attempts >= 1)
    && (e.status == Sent ==> e.attempts >= 1)
    && (e.status == Dead ==> e.attempts == e.maxAttempts)
  }

  /** Rows are sound, name an existing incident of their tenant, and have work left only while it is open. */
  ghost predicate RowPlaced(d: Desk, id: Uuid)
    requires id in d.escalations
  {
    var e := d.escalations[id];
    && e.id == id
    && RowSound(e)
    && e.incident in d.incidents
    && d.incidents[e.incident].tenant == e.tenant
    && (e.Live() ==> d.incidents[e.incident].status == Open)
  }

  ghost predicate StepsUnique(d: Desk) {
    forall a, b :: a in d.escalations && b in d.escalations
                   && d.escalations[a].incident == d.escalations[b].incident && d.escalations[a].step == d.escalations[b].step
                   ==> a == b
  }

  ghost predicate EscalationsSound(d: Desk) {
    && (forall id :: id in d.escalations ==> RowPlaced(d, id))
    && StepsUnique(d)
  }

  ghost predicate Sound(d: Desk) {
    IncidentsSound(d) && EscalationsSound(d)
  }

  lemma AddedRowsAreNew(d: Desk, alert: Alert, choice: Choice)
    requires choice.Create? && FreshFor(d, choice.id, choice.steps, choice.rows)
    ensures var added := ScheduledRows(choice.id, alert, choice.steps, choice.rows);
            forall id :: id in added ==> id !in d.escalations && added[id].incident == choice.id && added[id].id == id
                                         && added[id].tenant == alert.tenant && added[id].status == Pending
                                         && added[id].leaseUntil.None? && added[id].leaseId.None?
                                         && added[id].token == added[id].attempts == 0 < added[id].maxAttempts
  {
  }

  lemma CreateKeepsRows(d: Desk, alert: Alert, choice: Choice)
    requires Sound(d) && choice.Create? && FreshFor(d, choice.id, choice.steps, choice.rows)
    ensures forall id :: id in Correlated(d, alert, choice).escalations ==> RowPlaced(Correlated(d, alert, choice), id)
  {
    var next := Correlated(d, alert, choice);
    var added := ScheduledRows(choice.id, alert, choice.steps, choice.rows);
    AddedRowsAreNew(d, alert, choice);
    forall id | id in next.escalations
      ensures RowPlaced(next, id)
    {
      if id !in added {
        assert RowPlaced(d, id);
      }
    }
  }

  lemma AddedStepsDiffer(d: Desk, alert: Alert, choice: Choice, a: Uuid, b: Uuid)
    requires choice.Create? && FreshFor(d, choice.id, choice.steps, choice.rows)
    requires var added := ScheduledRows(choice.id, alert, choice.steps, choice.rows);
             a in added && b in added && added[a].step == added[b].step
    ensures a == b
  {
    var i :| 0 <= i < |choice.rows| && choice.rows[i] == a;
    var j :| 0 <= j < |choice.rows| && choice.rows[j] == b;
    assert choice.steps[i].number == choice.steps[j].number;
  }

  lemma CreateKeepsStepsUnique(d: Desk, alert: Alert, choice: Choice)
    requires Sound(d) && choice.Create? && FreshFor(d, choice.id, choice.steps, choice.rows)
    ensures StepsUnique(Correlated(d, alert, choice))
  {
    var next := Correlated(d, alert, choice);
    var added := ScheduledRows(choice.id, alert, choice.steps, choice.rows);
    AddedRowsAreNew(d, alert, choice);
    forall a, b | a in next.escalations && b in next.escalations
                  && next.escalations[a].incident == next.escalations[b].incident
                  && next.escalations[a].step == next.escalations[b].step
      ensures a == b
    {
      if a in added && b in added {
        AddedStepsDiffer(d, alert, choice, a, b);
      } else {
        assert a !in added ==> RowPlaced(d, a);
        assert b !in added ==> RowPlaced(d, b);
      }
    }
  }

  /** Rewriting rows in place keeps step numbers unique. */
  lemma SameRowsKeepStepsUnique(d: Desk, next: Desk)
    requires StepsUnique(d)
    requires next.escalations.Keys == d.escalations.Keys
    requires forall id :: id in d.escalations ==>
               && next.escalations[id].incident == d.escalations[id].incident
               && next.escalations[id].step == d.escalations[id].step
    ensures StepsUnique(next)
  {
  }

  lemma MoveKeepsSound(d: Desk, tenant: Uuid, command: TransitionCommand, now: Time)
    requires Sound(d) && TransitionVerdict(d, tenant, command) == Accepted
    ensures Sound(Moved(d, tenant, command, now))
  {
    var next := Moved(d, tenant, command, now);
    SameRowsKeepStepsUnique(d, next);
    forall id | id in next.escalations
      ensures RowPlaced(next, id)
    {
      assert RowPlaced(d, id);
    }
  }

  lemma MergeKeepsSound(d: Desk, alert: Alert, choice: Choice, window: nat)
    requires Sound(d) && choice.Merge? && Admissible(d, alert, window, choice)
    ensures Sound(Correlated(d, alert, choice))
  {
    var next := Correlated(d, alert, choice);
    forall id | id in next.escalations
      ensures RowPlaced(next, id)
    {
      assert RowPlaced(d, id);
    }
  }

  /** Replacing one row, with its lease and counters in order, keeps the tables sound. */
  lemma RowUpdateKeepsSound(d: Desk, next: Desk, id: Uuid)
    requires Sound(d) && id in d.escalations
    requires next.incidents == d.incidents && next.escalations.Keys == d.escalations.Keys
    requires forall other :: other in d.escalations && other != id ==> next.escalations[other] == d.escalations[other]
    requires var e, f := d.escalations[id], next.escalations[id];
             && f.id == e.id && f.incident == e.incident && f.tenant == e.tenant && f.step == e.step
             && RowSound(f) && (f.Live() ==> IncidentOpen(d, e))
    ensures Sound(next)
  {
    SameRowsKeepStepsUnique(d, next);
    forall other | other in next.escalations
      ensures RowPlaced(next, other)
    {
      assert RowPlaced(d, other);
    }
  }

  /** The row an operation on a single escalation rewrites. */
  function RowOf(op: Op): Option<Uuid> {
    match op
    case Exhaust(id, _) => Some(id)
    case Take(id, _, _, _) => Some(id)
    case Complete(c, _) => Some(c.id)
    case Fail(c, _, _) => Some(c.id)
    case _ => None
  }

  /** The new contents of that row. */
  function RowAfter(e: Escalation, op: Op): Escalation {
    match op
    case Exhaust(_, _) => ExhaustedRow(e)
    case Take(_, lease, until, _) => ClaimedRow(e, lease, until)
    case Complete(_, now) => CompletedRow(e, now)
    case Fail(_, retryAfter, now) => FailedRow(e, now + retryAfter)
    case _ => e
  }

  lemma RowStep(d: Desk, op: Op, window: nat)
    requires Guard(d, op, window) && RowOf(op).Some?
    ensures RowOf(op).value in d.escalations
    ensures Step(d, op).incidents == d.incidents
    ensures Step(d, op).escalations == d.escalations[RowOf(op).value := RowAfter(d.escalations[RowOf(op).value], op)]
    ensures IncidentOpen(d, d.escalations[RowOf(op).value]) || op.Complete? || op.Fail?
  {
  }

  /** Any other transaction leaves a row alone or, if it moves the row's incident, cancels it. */
  lemma OtherRowStep(d: Desk, op: Op, id: Uuid, window: nat)
    requires Guard(d, op, window) && id in d.escalations && RowOf(op) != Some(id)
    ensures id in Step(d, op).escalations
    ensures var e, f := d.escalations[id], Step(d, op).escalations[id];
            f == if op.Move? && e.incident == op.command.incident && e.Live() then CancelledRow(e) else e
  {
    if op.Correlate? && op.choice.Create? {
      AddedRowsAreNew(d, op.alert, op.choice);
      hide ScheduledRows;
    }
  }

  lemma RowOpKeepsSound(d: Desk, op: Op, window: nat)
    requires Sound(d) && Guard(d, op, window) && RowOf(op).Some?
    ensures Sound(Step(d, op))
  {
    RowStep(d, op, window);
    var id := RowOf(op).value;
    assert RowPlaced(d, id);
    assert RowSound(RowAfter(d.escalations[id], op));
    hide Guard, Step, RowAfter, RowOf;
    RowUpdateKeepsSound(d, Step(d, op), id);
  }

  lemma StepKeepsSound(d: Desk, op: Op, window: nat)
    requires Sound(d) && Guard(d, op, window)
    ensures Sound(Step(d, op))
  {
    if op.Correlate? {
      if op.choice.Create? {
        CreateKeepsRows(d, op.alert, op.choice);
        CreateKeepsStepsUnique(d, op.alert, op.choice);
      } else {
        MergeKeepsSound(d, op.alert, op.choice, window);
      }
    } else if op.Move? {
      MoveKeepsSound(d, op.tenant, op.command, op.now);
    } else {
      RowOpKeepsSound(d, op, window);
    }
  }

  lemma {:induction false} TraceIsSound(t: Trace, window: nat)
    requires Valid(t, window)
    ensures Sound(State(t))
  {
    if t.Then? {
      TraceIsSound(t.past, window);
      StepKeepsSound(State(t.past), t.op, window);
    }
  }
}
