/** How long escalation work can go on: every claim, takeover, failure, completion, retirement and cancellation
    uses up part of a finite budget; sweeps make progress; and attempts are accounted for. */
module Escalations {
  import opened Domain
  import opened Tables
  import opened Traces
  import opened History
  import opened Audit
  import opened Sums

  // ---- a sweep is a run of row operations ----

  function ThenExhaust(t: Trace, ids: seq<Uuid>, now: Time): Trace {
    if ids == [] then t else Then(ThenExhaust(t, ids[..|ids| - 1], now), Exhaust(ids[|ids| - 1], now))
  }

  function ThenTake(t: Trace, ids: seq<Uuid>, lease: Uuid, until: Time, now: Time): Trace {
    if ids == [] then t else Then(ThenTake(t, ids[..|ids| - 1], lease, until, now), Take(ids[|ids| - 1], lease, until, now))
  }

  lemma {:induction false} ExhaustRun(t: Trace, ids: seq<Uuid>, now: Time, window: nat)
    requires Valid(t, window)
    requires forall i :: 0 <= i < |ids| ==> ids[i] in State(t).escalations && Exhaustible(State(t), ids[i], now)
    requires forall i, j :: 0 <= i < j < |ids| ==> ids[i] != ids[j]
    ensures Valid(ThenExhaust(t, ids, now), window) && Extends(ThenExhaust(t, ids, now), t)
    ensures State(ThenExhaust(t, ids, now)) == ExhaustAll(State(t), ids)
    decreases |ids|
  {
    if ids != [] {
      var init, last := ids[..|ids| - 1], ids[|ids| - 1];
      ExhaustRun(t, init, now, window);
      ExhaustKeepsOthers(State(t), init);
      assert last !in init;
    }
  }

  lemma {:induction false} TakeRun(t: Trace, ids: seq<Uuid>, lease: Uuid, until: Time, now: Time, window: nat)
    requires Valid(t, window)
    requires forall i :: 0 <= i < |ids| ==> ids[i] in State(t).escalations && Claimable(State(t), ids[i], now)
    requires forall i, j :: 0 <= i < j < |ids| ==> ids[i] != ids[j]
    ensures var r := ThenTake(t, ids, lease, until, now);
            && Valid(r, window) && Extends(r, t)
            && State(r) == ClaimAll(State(t), ids, lease, until)
            && State(r).incidents == State(t).incidents
            && (forall id :: id in State(t).escalations && id !in ids ==>
                  id in State(r).escalations && State(r).escalations[id] == State(t).escalations[id])
    decreases |ids|
  {
    if ids != [] {
      var init, last := ids[..|ids| - 1], ids[|ids| - 1];
      TakeRun(t, init, lease, until, now, window);
      assert last !in init;
    }
  }

  lemma {:induction false} TakeIssues(t: Trace, ids: seq<Uuid>, lease: Uuid, until: Time, now: Time, i: nat)
    requires i < |ids| && forall j, k :: 0 <= j < k < |ids| ==> ids[j] != ids[k]
    requires forall j :: 0 <= j < |ids| ==> ids[j] in State(t).escalations
    ensures var r := ThenTake(t, ids, lease, until, now);
            && r.Then? && State(r).escalations.Keys == State(t).escalations.Keys
            && Issued(r, ClaimOf(State(r).escalations[ids[i]], Open))
    decreases |ids|
  {
    var init := ids[..|ids| - 1];
    TakeKeepsKeys(t, init, lease, until, now);
    if i < |init| {
      assert init[i] == ids[i];
      TakeIssues(t, init, lease, until, now, i);
    }
  }

  lemma {:induction false} TakeKeepsKeys(t: Trace, ids: seq<Uuid>, lease: Uuid, until: Time, now: Time)
    requires forall j :: 0 <= j < |ids| ==> ids[j] in State(t).escalations
    ensures State(ThenTake(t, ids, lease, until, now)).escalations.Keys == State(t).escalations.Keys
    decreases |ids|
  {
    if ids != [] {
      TakeKeepsKeys(t, ids[..|ids| - 1], lease, until, now);
    }
  }

  /** What `ClaimEscalations` commits is a run of row operations, each finding its guard true, and the records it
      returns are claims issued by that run.  All properties of traces hold of the batched statement. */
  lemma SweepIsRun(t: Trace, expired: seq<Uuid>, picked: seq<Uuid>, lease: Uuid, until: Time, now: Time,
                   locked: set<Uuid>, limit: nat, window: nat) returns (r: Trace)
    requires Valid(t, window)
    requires FirstBy(expired, ExhaustibleRows(State(t), now, locked), LeaseEnds(State(t)), limit)
    requires FirstBy(picked, ClaimableRows(State(t), now, locked), DueTimes(State(t)), limit)
    ensures r == ThenTake(ThenExhaust(t, expired, now), picked, lease, until, now)
    ensures Valid(r, window) && Extends(r, t)
    ensures forall i :: 0 <= i < |expired| ==> expired[i] in State(t).escalations
    ensures forall i :: 0 <= i < |picked| ==> picked[i] in State(t).escalations
    ensures State(r) == ClaimAll(ExhaustAll(State(t), expired), picked, lease, until)
    ensures forall i :: 0 <= i < |picked| ==>
              picked[i] in State(r).escalations && Issued(r, ClaimOf(State(r).escalations[picked[i]], Open))
  {
    SweepHalvesAreDisjoint(State(t), expired, picked, now, locked, limit);
    hide FirstBy, ExhaustibleRows, ClaimableRows, LeaseEnds, DueTimes;
    ExhaustRun(t, expired, now, window);
    var mid := ThenExhaust(t, expired, now);
    forall i | 0 <= i < |picked|
      ensures picked[i] in State(mid).escalations && Claimable(State(mid), picked[i], now)
    {
    }
    TakeRun(mid, picked, lease, until, now, window);
    r := ThenTake(mid, picked, lease, until, now);
    ExtendsIsTransitive(r, mid, t);
    forall i | 0 <= i < |picked|
      ensures picked[i] in State(r).escalations && Issued(r, ClaimOf(State(r).escalations[picked[i]], Open))
    {
      TakeIssues(mid, picked, lease, until, now, i);
    }
  }

  lemma {:induction false} ExtendsIsTransitive(t: Trace, s: Trace, r: Trace)
    requires Extends(t, s) && Extends(s, r)
    ensures Extends(t, r)
  {
    if t != s {
      ExtendsIsTransitive(t.past, s, r);
    }
  }

  // ---- the budget ----

  /** How many more steps a row can take: none when finished, otherwise two per attempt that is left, plus one
      while pending or two while running. */
  function RowWork(e: Escalation): (r: int)
    ensures r >= 0
  {
    if !e.Live() || e.attempts > e.maxAttempts then 0
    else 2 * (e.maxAttempts - e.attempts) + (if e.status == Pending then 1 else 2)
  }

  ghost function Work(d: Desk): int {
    Total(d.escalations, RowWork)
  }

  function LiveRows(escalations: map<Uuid, Escalation>, incident: Uuid): set<Uuid> {
    set id | id in escalations && escalations[id].incident == incident && escalations[id].Live()
  }

  /** The number of row steps in a run: one per claim, retirement, completion and failure, and one per row
      cancelled by an operator action. */
  ghost function RowSteps(t: Trace): nat {
    match t
    case Boot => 0
    case Then(past, op) =>
      RowSteps(past) + (match op
                        case Correlate(_, _) => 0
                        case Move(_, command, _) => |LiveRows(State(past).escalations, command.incident)|
                        case _ => 1)
  }

  /** The budget brought in by the rows of newly opened incidents. */
  ghost function Minted(t: Trace): int {
    match t
    case Boot => 0
    case Then(past, op) =>
      Minted(past) + (if op.Correlate? && op.choice.Create? && Resolvable(State(past), op.choice)
                      then Total(ScheduledRows(op.choice.id, op.alert, op.choice.steps, op.choice.rows), RowWork)
                      else 0)
  }

  lemma {:induction false} CancelPays(m: map<Uuid, Escalation>, incident: Uuid)
    requires forall id :: id in m ==> RowSound(m[id])
    ensures Total(CancelLive(m, incident), RowWork) + |LiveRows(m, incident)| <= Total(m, RowWork)
    decreases |m|
  {
    var cancelled := CancelLive(m, incident);
    if m == map[] {
      assert cancelled == map[];
    } else {
      var k :| k in m;
      TotalSplit(m, RowWork, k);
      CancelPays(m - {k}, incident);
      CancelWithout(m, incident, k);
      LiveWithout(m, incident, k);
      hide CancelLive, LiveRows;
      TotalSplit(cancelled, RowWork, k);
    }
  }

  lemma CancelWithout(m: map<Uuid, Escalation>, incident: Uuid, k: Uuid)
    requires k in m
    ensures CancelLive(m, incident) - {k} == CancelLive(m - {k}, incident)
    ensures k in CancelLive(m, incident)
    ensures CancelLive(m, incident)[k] == if m[k].incident == incident && m[k].Live() then CancelledRow(m[k]) else m[k]
  {
  }

  lemma LiveWithout(m: map<Uuid, Escalation>, incident: Uuid, k: Uuid)
    requires k in m
    ensures |LiveRows(m, incident)|
            == |LiveRows(m - {k}, incident)| + (if m[k].incident == incident && m[k].Live() then 1 else 0)
  {
    var rest := LiveRows(m - {k}, incident);
    assert LiveRows(m, incident) == if m[k].incident == incident && m[k].Live() then rest + {k} else rest;
  }

  lemma RowOpPays(d: Desk, op: Op, window: nat)
    requires Sound(d) && Guard(d, op, window) && RowOf(op).Some?
    ensures Work(Step(d, op)) + 1 <= Work(d)
  {
    RowStep(d, op, window);
    var id := RowOf(op).value;
    assert RowPlaced(d, id);
    TotalUpdate(d.escalations, RowWork, id, RowAfter(d.escalations[id], op));
  }

  lemma CreateMints(d: Desk, alert: Alert, choice: Choice)
    requires choice.Create? && FreshFor(d, choice.id, choice.steps, choice.rows)
    ensures Work(Correlated(d, alert, choice))
            == Work(d) + Total(ScheduledRows(choice.id, alert, choice.steps, choice.rows), RowWork)
  {
    AddedRowsAreNew(d, alert, choice);
    TotalUnion(d.escalations, ScheduledRows(choice.id, alert, choice.steps, choice.rows), RowWork);
  }

  /** Row steps are paid for: whatever the interleaving, a run that opens no further incident takes at most
      `Work` more of them, and every one of them makes the remaining budget smaller. */
  lemma {:induction false} EscalationTerminates(t: Trace, s: Trace, window: nat)
    requires Valid(t, window) && Extends(t, s)
    ensures RowSteps(t) - RowSteps(s) + Work(State(t)) <= Work(State(s)) + Minted(t) - Minted(s)
    ensures RowSteps(t) >= RowSteps(s)
    ensures Work(State(t)) >= 0
  {
    TotalNonNegative(State(t).escalations, RowWork);
    if t != s {
      EscalationTerminates(t.past, s, window);
      TraceIsSound(t.past, window);
      var d, op := State(t.past), t.op;
      if op.Correlate? {
        if op.choice.Create? {
          CreateMints(d, op.alert, op.choice);
        }
      } else if op.Move? {
        assert forall id :: id in d.escalations ==> RowPlaced(d, id);
        CancelPays(d.escalations, op.command.incident);
      } else {
        RowOpPays(d, op, window);
      }
    }
  }

  // ---- progress ----

  /** A row with work left is eligible as soon as it is due and its lease, if it has one, has run out. */
  lemma LiveRowBecomesEligible(d: Desk, id: Uuid, now: Time)
    requires Sound(d) && id in d.escalations && d.escalations[id].Live()
    requires d.escalations[id].dueAt <= now || d.escalations[id].status == Running
    requires d.escalations[id].leaseUntil.Some? ==> d.escalations[id].leaseUntil.value < now
    ensures Claimable(d, id, now) || Exhaustible(d, id, now)
  {
    assert RowPlaced(d, id);
  }

  /** A sweep with room for one row, run while no other session holds locks, uses up part of the budget whenever
      some row is eligible; sweeps repeated after the leases run out therefore finish all escalation work. */
  lemma SweepMakesProgress(t: Trace, expired: seq<Uuid>, picked: seq<Uuid>, lease: Uuid, until: Time, now: Time,
                           limit: nat, window: nat, row: Uuid)
    requires Valid(t, window) && limit >= 1
    requires FirstBy(expired, ExhaustibleRows(State(t), now, {}), LeaseEnds(State(t)), limit)
    requires FirstBy(picked, ClaimableRows(State(t), now, {}), DueTimes(State(t)), limit)
    requires row in State(t).escalations && (Claimable(State(t), row, now) || Exhaustible(State(t), row, now))
    ensures var r := ThenTake(ThenExhaust(t, expired, now), picked, lease, until, now);
            Valid(r, window) && Extends(r, t) && Work(State(r)) < Work(State(t))
  {
    var r := SweepIsRun(t, expired, picked, lease, until, now, {}, limit, window);
    assert row in ClaimableRows(State(t), now, {}) || row in ExhaustibleRows(State(t), now, {});
    assert |expired| + |picked| >= 1;
    EscalationTerminates(r, t, window);
    ExhaustSteps(t, expired, now);
    TakeSteps(ThenExhaust(t, expired, now), picked, lease, until, now);
  }

  lemma {:induction false} ExhaustSteps(t: Trace, ids: seq<Uuid>, now: Time)
    ensures RowSteps(ThenExhaust(t, ids, now)) == RowSteps(t) + |ids|
    ensures Minted(ThenExhaust(t, ids, now)) == Minted(t)
    decreases |ids|
  {
    if ids != [] {
      ExhaustSteps(t, ids[..|ids| - 1], now);
    }
  }

  lemma {:induction false} TakeSteps(t: Trace, ids: seq<Uuid>, lease: Uuid, until: Time, now: Time)
    ensures RowSteps(ThenTake(t, ids, lease, until, now)) == RowSteps(t) + |ids|
    ensures Minted(ThenTake(t, ids, lease, until, now)) == Minted(t)
    decreases |ids|
  {
    if ids != [] {
      TakeSteps(t, ids[..|ids| - 1], lease, until, now);
    }
  }

  // ---- attempts ----

  /** How often the row was taken over from a holder whose lease had run out. */
  ghost function Takeovers(t: Trace, id: Uuid): nat {
    match t
    case Boot => 0
    case Then(past, op) =>
      Takeovers(past, id)
      + (if op.Take? && op.id == id && id in State(past).escalations && State(past).escalations[id].status == Running
         then 1 else 0)
  }

  /** How often an operator action cancelled the row while a worker held it. */
  ghost function CancelledInHand(t: Trace, id: Uuid): nat {
    match t
    case Boot => 0
    case Then(past, op) =>
      CancelledInHand(past, id)
      + (if op.Move? && id in State(past).escalations && State(past).escalations[id].status == Running
            && State(past).escalations[id].incident == op.command.incident
         then 1 else 0)
  }

  ghost predicate AttemptsAdd(t: Trace, id: Uuid)
    requires id in State(t).escalations
  {
    var d := State(t);
    var e := d.escalations[id];
    && e.attempts == Tally(d.timeline, e.incident, RetryMark, Some(e.step)) + Takeovers(t, id) + CancelledInHand(t, id)
                     + (if e.status == Running || e.status == Sent || e.status == Dead then 1 else 0)
    && CancelledInHand(t, id) <= (if e.status == Cancelled then 1 else 0)
  }

  /** Every attempt is accounted for: it was retried, taken over, cancelled in a worker's hands, or is the one
      that is running or that ended the row. */
  lemma {:induction false} AttemptsAccounted(t: Trace, id: Uuid, window: nat)
    requires Valid(t, window) && id in State(t).escalations
    ensures AttemptsAdd(t, id)
  {
    TraceIsSound(t.past, window);
    if id !in State(t.past).escalations {
      NewRowAttempts(t, id, window);
    } else {
      AttemptsAccounted(t.past, id, window);
      if RowOf(t.op).Some? {
        RowOpAttempts(t, id, window);
      } else {
        DeskOpAttempts(t, id, window);
      }
    }
  }

  lemma NewRowAttempts(t: Trace, id: Uuid, window: nat)
    requires Valid(t, window) && t.Then? && id in State(t).escalations && id !in State(t.past).escalations
    ensures AttemptsAdd(t, id)
  {
    hide Valid, State, Guard, Takeovers, CancelledInHand, Step, Sound, Tally, Accounted, Logs, HasRow;
    var d, op := State(t.past), t.op;
    LastStep(t, window);
    TraceIsSound(t.past, window);
    NewRowUntouched(t, id, window);
    OutcomesAccounted(t.past, window);
    NewRowIsBlank(d, op, id, window);
    DeskOpIsNotLogged(d, op, window);
    var e := State(t).escalations[id];
    NothingLogged(d, State(t), e.incident, e.step);
  }

  lemma NothingLogged(d: Desk, next: Desk, incident: Uuid, step: nat)
    requires Accounted(d) && Logs(d, next, NIL, 0, None) && !HasRow(d, incident, step)
    ensures Tally(next.timeline, incident, RetryMark, Some(step)) == 0
  {
    hide Tally, HasRow, RowLogged;
    assert Tally(d.timeline, incident, RetryMark, Some(step)) == 0;
  }

  lemma NewRowUntouched(t: Trace, id: Uuid, window: nat)
    requires Valid(t, window) && t.Then? && id !in State(t.past).escalations
    ensures Takeovers(t, id) == 0 && CancelledInHand(t, id) == 0
  {
    NeverSeen(t.past, id, window);
    hide State, Valid;
  }

  lemma NewRowIsBlank(d: Desk, op: Op, id: Uuid, window: nat)
    requires Sound(d) && Guard(d, op, window) && id !in d.escalations && id in Step(d, op).escalations
    ensures RowOf(op).None?
    ensures var e := Step(d, op).escalations[id]; e.status == Pending && e.attempts == 0 && !HasRow(d, e.incident, e.step)
  {
    if RowOf(op).Some? {
      RowStep(d, op, window);
    } else {
      assert op.Correlate? && op.choice.Create?;
      AddedRowsAreNew(d, op.alert, op.choice);
      NewRowsHaveNewSteps(d, op.alert, op.choice);
      hide ScheduledRows, HasRow, Sound;
    }
  }

  lemma RowOpAttempts(t: Trace, id: Uuid, window: nat)
    requires Valid(t, window) && t.Then? && RowOf(t.op).Some?
    requires id in State(t.past).escalations && id in State(t).escalations && AttemptsAdd(t.past, id)
    ensures AttemptsAdd(t, id)
  {
    var d, op := State(t.past), t.op;
    TraceIsSound(t.past, window);
    RowOpIsLogged(t.past, op, window);
    RowStep(d, op, window);
    var row := RowOf(op).value;
    hide Valid, Issued, Step, Guard;
    if row == id {
      ThisRowAttempts(t, id);
    } else {
      OtherRowAttempts(t, id, row);
    }
  }

  lemma ThisRowAttempts(t: Trace, id: Uuid)
    requires t.Then? && RowOf(t.op) == Some(id)
    requires id in State(t.past).escalations && Sound(State(t.past)) && AttemptsAdd(t.past, id)
    requires var d, e := State(t.past), State(t.past).escalations[id];
             && State(t).escalations == d.escalations[id := RowAfter(e, t.op)]
             && Logs(d, State(t), e.incident, e.step, MarkOf(e, t.op))
             && (if t.op.Take? then e.Live() else e.status == Running)
    ensures AttemptsAdd(t, id)
  {
    assert RowPlaced(State(t.past), id);
    hide State, Tally;
  }

  lemma OtherRowAttempts(t: Trace, id: Uuid, row: Uuid)
    requires t.Then? && RowOf(t.op) == Some(row) && row != id
    requires id in State(t.past).escalations && row in State(t.past).escalations
    requires Sound(State(t.past)) && AttemptsAdd(t.past, id)
    requires var d, e := State(t.past), State(t.past).escalations[row];
             && State(t).escalations == d.escalations[row := RowAfter(e, t.op)]
             && Logs(d, State(t), e.incident, e.step, MarkOf(e, t.op))
    ensures AttemptsAdd(t, id)
  {
    var d := State(t.past);
    hide State, Tally;
    assert StepsUnique(d);
    assert d.escalations[row].incident != d.escalations[id].incident || d.escalations[row].step != d.escalations[id].step;
  }

  lemma DeskOpAttempts(t: Trace, id: Uuid, window: nat)
    requires Valid(t, window) && t.Then? && RowOf(t.op).None?
    requires id in State(t.past).escalations && id in State(t).escalations && AttemptsAdd(t.past, id)
    ensures AttemptsAdd(t, id)
  {
    var d, op := State(t.past), t.op;
    hide Tally, Valid, Issued, Step, Guard, State, Sound;
    LastStep(t, window);
    TraceIsSound(t.past, window);
    assert RowPlaced(d, id) by { SoundRow(d, id); }
    DeskOpIsNotLogged(d, op, window);
    OtherRowStep(d, op, id, window);
  }

  lemma SoundRow(d: Desk, id: Uuid)
    requires Sound(d) && id in d.escalations
    ensures RowPlaced(d, id)
  {
  }

  lemma {:induction false} NeverSeen(t: Trace, id: Uuid, window: nat)
    requires Valid(t, window) && id !in State(t).escalations
    ensures Takeovers(t, id) == 0 && CancelledInHand(t, id) == 0
  {
    if t.Then? {
      TraceIsSound(t.past, window);
      StepFollows(State(t.past), t.op, window);
      RowsPersist(State(t.past), State(t));
      NeverSeen(t.past, id, window);
    }
  }
}
