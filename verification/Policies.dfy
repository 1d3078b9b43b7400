/** Escalations and the policy they come from: every row is a step of the policy that was in force when its incident
    was opened, with the wording and severity of the opening alert, and nobody claims it before its delay is over. */
module Policies {
  import opened Domain
  import opened Tables
  import opened Traces
  import opened History
  import opened Backoff

  datatype Origin = Origin(alert: Alert, incident: Uuid, step: PolicyStep)

  /** The transaction opened an incident for this alert and scheduled this step of the policy as this row. */
  ghost predicate Schedules(op: Op, id: Uuid, o: Origin) {
    && op.Correlate? && op.choice.Create? && op.alert == o.alert && op.choice.id == o.incident
    && exists i :: 0 <= i < |op.choice.rows| && i < |op.choice.steps| && op.choice.rows[i] == id && op.choice.steps[i] == o.step
  }

  ghost predicate ComesFrom(t: Trace, id: Uuid, o: Origin) {
    t.Then? && (Schedules(t.op, id, o) || ComesFrom(t.past, id, o))
  }

  function Due(o: Origin): Time {
    o.alert.receivedAt + o.step.delay * SECOND
  }

  /** The row is still the step that was scheduled; claimed as often as it counts; first claimed when due. */
  ghost predicate Keeps(e: Escalation, o: Origin, claims: seq<Time>) {
    && e.tenant == o.alert.tenant && e.incident == o.incident
    && e.step == o.step.number && e.target == o.step.target && e.maxAttempts == o.step.maxAttempts
    && e.title == o.alert.title && e.severity == o.alert.severity
    && |claims| == e.attempts
    && (e.attempts == 0 ==> e.dueAt == Due(o))
    && (claims != [] ==> claims[0] >= Due(o))
  }

  lemma NewRowKeeps(d: Desk, op: Op, id: Uuid, window: nat) returns (o: Origin)
    requires Guard(d, op, window) && id !in d.escalations && id in Step(d, op).escalations
    ensures Schedules(op, id, o) && Keeps(Step(d, op).escalations[id], o, [])
  {
    assert RowOf(op).None? by { if RowOf(op).Some? { RowStep(d, op, window); } }
    assert op.Correlate? && op.choice.Create?;
    var rows, steps := op.choice.rows, op.choice.steps;
    var i :| 0 <= i < |rows| && rows[i] == id;
    o := Origin(op.alert, op.choice.id, steps[i]);
    ScheduledRowKeeps(d, op, i, window);
  }

  lemma ScheduledRowKeeps(d: Desk, op: Op, i: nat, window: nat)
    requires Guard(d, op, window) && op.Correlate? && op.choice.Create? && i < |op.choice.rows|
    ensures op.choice.rows[i] in Step(d, op).escalations && i < |op.choice.steps|
    ensures Keeps(Step(d, op).escalations[op.choice.rows[i]], Origin(op.alert, op.choice.id, op.choice.steps[i]), [])
  {
  }

  lemma RowOpKeeps(d: Desk, op: Op, id: Uuid, o: Origin, claims: seq<Time>, window: nat)
    requires Sound(d) && Guard(d, op, window) && RowOf(op) == Some(id)
    requires id in d.escalations && Keeps(d.escalations[id], o, claims)
    ensures id in Step(d, op).escalations
    ensures Keeps(Step(d, op).escalations[id], o, if op.Take? then claims + [op.now] else claims)
  {
    RowStep(d, op, window);
    assert RowPlaced(d, id);
    hide Step, StepsUnique, IncidentsSound;
  }

  lemma OtherOpKeeps(d: Desk, op: Op, id: Uuid, o: Origin, claims: seq<Time>, window: nat)
    requires Guard(d, op, window) && RowOf(op) != Some(id)
    requires id in d.escalations && Keeps(d.escalations[id], o, claims)
    ensures id in Step(d, op).escalations && Keeps(Step(d, op).escalations[id], o, claims)
  {
    OtherRowStep(d, op, id, window);
    hide Step, Guard;
  }

  /** In every reachable state each row is a step of the policy its incident was opened under, carries the title and
      severity of the alert that opened the incident, however severe the incident has become since, and was first
      claimed no sooner than the step's delay after that alert was received. */
  lemma {:induction false} RowsKeepTheirPolicy(t: Trace, id: Uuid, window: nat) returns (o: Origin)
    requires Valid(t, window) && id in State(t).escalations
    ensures ComesFrom(t, id, o)
    ensures Keeps(State(t).escalations[id], o, ClaimTimes(t, id))
  {
    hide Keeps, Schedules, Valid, State, Guard, Step, Sound;
    LastStepOf(t, id, window);
    TraceIsSound(t.past, window);
    if id in State(t.past).escalations {
      o := RowsKeepTheirPolicy(t.past, id, window);
      if RowOf(t.op) == Some(id) {
        RowOpKeeps(State(t.past), t.op, id, o, ClaimTimes(t.past, id), window);
      } else {
        OtherOpKeeps(State(t.past), t.op, id, o, ClaimTimes(t.past, id), window);
      }
    } else {
      o := NewRowKeeps(State(t.past), t.op, id, window);
      UnseenHasNoClaims(t.past, id, window);
      AbsentIsNotTaken(State(t.past), t.op, id, window);
    }
  }

  lemma LastStepOf(t: Trace, id: Uuid, window: nat)
    requires Valid(t, window) && id in State(t).escalations
    ensures t.Then? && Valid(t.past, window) && State(t) == Step(State(t.past), t.op) && Guard(State(t.past), t.op, window)
  {
    LastStep(t, window);
  }

  lemma AbsentIsNotTaken(d: Desk, op: Op, id: Uuid, window: nat)
    requires Guard(d, op, window) && id !in d.escalations
    ensures RowOf(op) != Some(id)
  {
  }

  // ---- and conversely ----

  ghost predicate Occurs(t: Trace, op: Op) {
    t.Then? && (t.op == op || Occurs(t.past, op))
  }

  /** The rows of the incident are the steps of the policy, one row a step. */
  ghost predicate Covers(d: Desk, op: Op)
    requires op.Correlate? && op.choice.Create?
  {
    var incident, steps, rows := op.choice.id, op.choice.steps, op.choice.rows;
    && incident in d.incidents && |rows| == |steps|
    && (forall i :: 0 <= i < |rows| ==>
          rows[i] in d.escalations && SameWork(ScheduledRow(rows[i], incident, op.alert, steps[i]), d.escalations[rows[i]]))
    && (forall id :: id in d.escalations && d.escalations[id].incident == incident ==> id in rows)
  }

  /** No other row of the incident carries the number of a step. */
  ghost predicate OneRowEach(d: Desk, op: Op)
    requires op.Correlate? && op.choice.Create?
  {
    var incident, steps, rows := op.choice.id, op.choice.steps, op.choice.rows;
    && |rows| == |steps|
    && forall i, id ::
         (0 <= i < |steps| && id in d.escalations && d.escalations[id].incident == incident && d.escalations[id].step == steps[i].number)
         ==> id == rows[i]
  }

  lemma OpeningCovers(d: Desk, op: Op, window: nat)
    requires Sound(d) && Guard(d, op, window) && op.Correlate? && op.choice.Create?
    ensures Covers(Step(d, op), op)
  {
    assert forall id :: id in d.escalations ==> RowPlaced(d, id);
    hide RowSound, IncidentsSound, StepsUnique;
  }

  lemma CoversLater(d: Desk, next: Desk, op: Op)
    requires Follows(d, next) && op.Correlate? && op.choice.Create? && Covers(d, op)
    ensures Covers(next, op)
  {
    RowsPersist(d, next);
    hide IncidentFollows, EscalationFollows;
  }

  /** Whenever an incident was opened under a policy, in every later state its escalations are exactly the steps of that
      policy: each step has one row, that row alone has the step's number, and there is no other row. */
  lemma {:induction false} EveryStepIsScheduled(t: Trace, op: Op, window: nat)
    requires Valid(t, window) && Occurs(t, op) && op.Correlate? && op.choice.Create?
    ensures Covers(State(t), op) && OneRowEach(State(t), op)
  {
    hide Covers, Valid, State, Guard, Step, Sound, Follows;
    LastStep(t, window);
    TraceIsSound(t.past, window);
    if t.op == op {
      OpeningCovers(State(t.past), op, window);
    } else {
      EveryStepIsScheduled(t.past, op, window);
      StepFollows(State(t.past), t.op, window);
      CoversLater(State(t.past), State(t), op);
    }
    TraceIsSound(t, window);
    OneRowPerStep(State(t), op);
  }

  lemma OneRowPerStep(d: Desk, op: Op)
    requires Sound(d) && op.Correlate? && op.choice.Create? && Covers(d, op)
    ensures OneRowEach(d, op)
  {
    hide IncidentsSound, RowPlaced;
  }
}
