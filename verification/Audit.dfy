/** The timeline tells the truth: replaying it rebuilds each incident, its entries agree with the rows they
    speak of, and it accounts for every sent, dead and retried escalation. */
module Audit {
  import opened Domain
  import opened Tables
  import opened Traces
  import opened History

  // ---- replay ----

  datatype Summary = Absent | Summary(status: IncidentStatus, occurrences: int, version: int)

  function Replayed(s: Summary, kind: Kind): Summary {
    match kind
    case IncidentOpened(_, _, _) => Summary(Open, 1, 1)
    case AlertCorrelated(_, _, _) =>
      if s.Absent? then s else s.(occurrences := s.occurrences + 1, version := s.version + 1)
    case IncidentMoved(to, _, _) =>
      if s.Absent? then s else s.(status := to, version := s.version + 1)
    case _ => s
  }

  /** Folds the entries of one incident, oldest first, counting events and ignoring the numbers stored in them. */
  function Replay(timeline: seq<Entry>, incident: Uuid): Summary {
    if timeline == [] then Absent
    else
      var before := Replay(timeline[..|timeline| - 1], incident);
      var last := timeline[|timeline| - 1];
      if last.incident == incident then Replayed(before, last.kind) else before
  }

  /** The number stored in an entry is the running value of the fold. */
  predicate NumberIs(kind: Kind, after: Summary) {
    match kind
    case IncidentOpened(_, _, n) => after.Summary? && n == after.occurrences
    case AlertCorrelated(_, _, n) => after.Summary? && n == after.occurrences
    case IncidentMoved(to, _, n) => after.Summary? && n == after.version && to == after.status
    case _ => true
  }

  predicate NumberAgrees(timeline: seq<Entry>, i: nat)
    requires i < |timeline|
  {
    NumberIs(timeline[i].kind, Replay(timeline[..i + 1], timeline[i].incident))
  }

  function SummaryOf(d: Desk, id: Uuid): Summary {
    if id in d.incidents then Summary(d.incidents[id].status, d.incidents[id].occurrenceCount, d.incidents[id].version)
    else Absent
  }

  ghost predicate Replays(d: Desk) {
    && (forall id :: Replay(d.timeline, id) == SummaryOf(d, id))
    && (forall i :: 0 <= i < |d.timeline| ==> NumberAgrees(d.timeline, i))
  }

  /** An entry that describes the change made to its incident keeps the timeline replayable. */
  lemma AppendReplays(d: Desk, next: Desk, e: Entry)
    requires Replays(d) && next.timeline == d.timeline + [e]
    requires forall id :: SummaryOf(next, id) ==
                          if e.incident == id then Replayed(SummaryOf(d, id), e.kind) else SummaryOf(d, id)
    requires NumberIs(e.kind, SummaryOf(next, e.incident))
    ensures Replays(next)
  {
    assert next.timeline[..|d.timeline|] == d.timeline;
    forall id
      ensures Replay(next.timeline, id) == SummaryOf(next, id)
    {
      assert Replay(d.timeline, id) == SummaryOf(d, id);
    }
    forall i | 0 <= i < |next.timeline|
      ensures NumberAgrees(next.timeline, i)
    {
      if i < |d.timeline| {
        assert NumberAgrees(d.timeline, i);
        assert next.timeline[..i + 1] == d.timeline[..i + 1];
      } else {
        assert next.timeline[..i + 1] == next.timeline;
      }
    }
  }

  /** Every transaction appends exactly one entry, except a claim, which appends none. */
  lemma TimelineStep(d: Desk, op: Op, window: nat)
    requires Guard(d, op, window)
    ensures op.Take? ==> Step(d, op).timeline == d.timeline
    ensures !op.Take? ==> |Step(d, op).timeline| == |d.timeline| + 1
                          && Step(d, op).timeline == d.timeline + [Step(d, op).timeline[|d.timeline|]]
  {
  }

  /** The appended entry describes the change the transaction makes to its incident. */
  lemma StepIsLogged(d: Desk, op: Op, window: nat)
    requires Sound(d) && Guard(d, op, window)
    ensures op.Take? ==> forall id :: SummaryOf(Step(d, op), id) == SummaryOf(d, id)
    ensures !op.Take? && |Step(d, op).timeline| == |d.timeline| + 1 ==>
              var e := Step(d, op).timeline[|d.timeline|];
              && (forall id :: SummaryOf(Step(d, op), id) ==
                               if e.incident == id then Replayed(SummaryOf(d, id), e.kind) else SummaryOf(d, id))
              && NumberIs(e.kind, SummaryOf(Step(d, op), e.incident))
  {
  }

  lemma StepReplays(d: Desk, op: Op, window: nat)
    requires Sound(d) && Guard(d, op, window) && Replays(d)
    ensures Replays(Step(d, op))
  {
    TimelineStep(d, op, window);
    StepIsLogged(d, op, window);
    hide Step, SummaryOf;
    if !op.Take? {
      AppendReplays(d, Step(d, op), Step(d, op).timeline[|d.timeline|]);
    }
  }

  /** In every reachable state the timeline alone determines status, occurrence count and version of every
      incident, and every number it stores is right at the point where it was written. */
  lemma {:induction false} TimelineReplays(t: Trace, window: nat)
    requires Valid(t, window)
    ensures Replays(State(t))
  {
    if t.Then? {
      TimelineReplays(t.past, window);
      TraceIsSound(t.past, window);
      StepReplays(State(t.past), t.op, window);
    }
  }

  // ---- accounting for escalation work ----

  datatype Mark = SentMark | DeadMark | RetryMark

  predicate Within(n: nat, step: Option<nat>) {
    step.None? || step.value == n
  }

  /** The entry records an outcome for an incident, for the given step if one is given. */
  predicate Marks(e: Entry, incident: Uuid, mark: Mark, step: Option<nat>) {
    && e.incident == incident
    && match e.kind
       case EscalationSent(n, _) => mark == SentMark && Within(n, step)
       case EscalationDead(n, _) => mark == DeadMark && Within(n, step)
       case EscalationRetryScheduled(n, _, _) => mark == RetryMark && Within(n, step)
       case _ => false
  }

  /** How often the timeline records an outcome for an incident: for one step of it, or in all. */
  function Tally(timeline: seq<Entry>, incident: Uuid, mark: Mark, step: Option<nat>): nat {
    if timeline == [] then 0
    else Tally(timeline[..|timeline| - 1], incident, mark, step)
         + (if Marks(timeline[|timeline| - 1], incident, mark, step) then 1 else 0)
  }

  lemma TallyAppend(timeline: seq<Entry>, e: Entry)
    ensures forall incident, mark, step :: Tally(timeline + [e], incident, mark, step) ==
              Tally(timeline, incident, mark, step) + (if Marks(e, incident, mark, step) then 1 else 0)
  {
    var longer := timeline + [e];
    assert longer[..|longer| - 1] == timeline;
  }

  /** Per row: sent rows are logged sent once, dead rows dead once, and nothing else is. */
  ghost predicate RowLogged(d: Desk, id: Uuid)
    requires id in d.escalations
  {
    var e := d.escalations[id];
    && Tally(d.timeline, e.incident, SentMark, Some(e.step)) == (if e.status == Sent then 1 else 0)
    && Tally(d.timeline, e.incident, DeadMark, Some(e.step)) == (if e.status == Dead then 1 else 0)
  }

  /** Outcomes are only logged for steps that have a row. */
  ghost predicate HasRow(d: Desk, incident: Uuid, step: nat) {
    exists id :: id in d.escalations && d.escalations[id].incident == incident && d.escalations[id].step == step
  }

  ghost predicate OnlyRowsLogged(d: Desk) {
    forall incident, mark, step :: Tally(d.timeline, incident, mark, Some(step)) > 0 ==> HasRow(d, incident, step)
  }

  ghost predicate Accounted(d: Desk) {
    && (forall id :: id in d.escalations ==> RowLogged(d, id))
    && OnlyRowsLogged(d)
  }

  /** The outcome a row operation logs, if it logs one. */
  function MarkOf(e: Escalation, op: Op): Option<Mark> {
    match op
    case Exhaust(_, _) => Some(DeadMark)
    case Complete(_, _) => Some(SentMark)
    case Fail(_, _, _) => Some(if LastAttempt(e) then DeadMark else RetryMark)
    case _ => None
  }

  /** `next` logs the given outcome once more for the given step, and nothing else. */
  ghost predicate Logs(d: Desk, next: Desk, incident: Uuid, step: nat, mark: Option<Mark>) {
    forall i, m, n :: Tally(next.timeline, i, m, n) ==
                      Tally(d.timeline, i, m, n) + (if mark == Some(m) && i == incident && Within(step, n) then 1 else 0)
  }

  lemma AppendLogs(d: Desk, next: Desk, e: Entry, incident: Uuid, step: nat, mark: Option<Mark>)
    requires next.timeline == d.timeline + [e]
    requires forall i, m, n :: Marks(e, i, m, n) <==> mark == Some(m) && i == incident && Within(step, n)
    ensures Logs(d, next, incident, step, mark)
  {
    TallyAppend(d.timeline, e);
  }

  /** An operation on a row logs its outcome under the incident and step of that very row. */
  lemma RowOpIsLogged(t: Trace, op: Op, window: nat)
    requires Valid(t, window) && Enabled(t, op, window) && RowOf(op).Some?
    ensures RowOf(op).value in State(t).escalations
    ensures var e := State(t).escalations[RowOf(op).value];
            Logs(State(t), Step(State(t), op), e.incident, e.step, MarkOf(e, op))
  {
    var d, next := State(t), Step(State(t), op);
    TimelineStep(d, op, window);
    if op.Complete? || op.Fail? {
      ClaimMatchesRow(t, op.claim, window);
    }
    hide State, Valid, Issued, Tally;
    if !op.Take? {
      var e := d.escalations[RowOf(op).value];
      AppendLogs(d, next, next.timeline[|d.timeline|], e.incident, e.step, MarkOf(e, op));
    }
  }

  lemma DeskOpIsNotLogged(d: Desk, op: Op, window: nat)
    requires Guard(d, op, window) && RowOf(op).None?
    ensures Logs(d, Step(d, op), NIL, 0, None)
  {
    TimelineStep(d, op, window);
    AppendLogs(d, Step(d, op), Step(d, op).timeline[|d.timeline|], NIL, 0, None);
  }

  ghost predicate Finished(e: Escalation, mark: Option<Mark>) {
    && (mark == Some(SentMark) <==> e.status == Sent)
    && (mark == Some(DeadMark) <==> e.status == Dead)
  }

  /** Moving one row to the status that is logged keeps the accounts. */
  lemma RowKeepsAccounts(d: Desk, next: Desk, row: Uuid, mark: Option<Mark>)
    requires StepsUnique(d) && Accounted(d)
    requires row in d.escalations && Finished(d.escalations[row], None)
    requires row in next.escalations && next.escalations == d.escalations[row := next.escalations[row]]
    requires next.escalations[row].incident == d.escalations[row].incident
    requires next.escalations[row].step == d.escalations[row].step
    requires Finished(next.escalations[row], mark)
    requires Logs(d, next, d.escalations[row].incident, d.escalations[row].step, mark)
    ensures Accounted(next)
  {
    hide Tally;
    forall id | id in next.escalations
      ensures RowLogged(next, id)
    {
      assert RowLogged(d, id);
    }
    forall incident, m, step | Tally(next.timeline, incident, m, Some(step)) > 0
      ensures HasRow(next, incident, step)
    {
      if Tally(d.timeline, incident, m, Some(step)) > 0 {
        var id :| id in d.escalations && d.escalations[id].incident == incident && d.escalations[id].step == step;
        assert next.escalations[id].incident == incident && next.escalations[id].step == step;
      } else {
        assert next.escalations[row].incident == incident && next.escalations[row].step == step;
      }
    }
  }

  /** Adding pending rows for new steps, or cancelling live ones, keeps the accounts. */
  lemma DeskKeepsAccounts(d: Desk, next: Desk)
    requires Accounted(d) && Logs(d, next, NIL, 0, None)
    requires forall id :: id in d.escalations ==>
               && id in next.escalations
               && next.escalations[id].incident == d.escalations[id].incident
               && next.escalations[id].step == d.escalations[id].step
               && (next.escalations[id].status == Sent <==> d.escalations[id].status == Sent)
               && (next.escalations[id].status == Dead <==> d.escalations[id].status == Dead)
    requires forall id :: id in next.escalations && id !in d.escalations ==>
               && next.escalations[id].status == Pending
               && !HasRow(d, next.escalations[id].incident, next.escalations[id].step)
    ensures Accounted(next)
  {
    hide Tally;
    forall id | id in next.escalations
      ensures RowLogged(next, id)
    {
      if id in d.escalations {
        assert RowLogged(d, id);
      }
    }
    forall incident, m, step | Tally(next.timeline, incident, m, Some(step)) > 0
      ensures HasRow(next, incident, step)
    {
      assert HasRow(d, incident, step);
      var id :| id in d.escalations && d.escalations[id].incident == incident && d.escalations[id].step == step;
      assert next.escalations[id].incident == incident;
    }
  }

  lemma NewRowsHaveNewSteps(d: Desk, alert: Alert, choice: Choice)
    requires Sound(d) && choice.Create? && FreshFor(d, choice.id, choice.steps, choice.rows)
    ensures var next := Correlated(d, alert, choice);
            && (forall id :: id in d.escalations ==> id in next.escalations && next.escalations[id] == d.escalations[id])
            && (forall id :: id in next.escalations && id !in d.escalations ==>
                  && next.escalations[id].status == Pending
                  && !HasRow(d, next.escalations[id].incident, next.escalations[id].step))
  {
    AddedRowsAreNew(d, alert, choice);
    assert forall other :: other in d.escalations ==> RowPlaced(d, other);
  }

  lemma DeskOpKeepsAccounts(d: Desk, op: Op, window: nat)
    requires Sound(d) && Accounted(d) && Guard(d, op, window) && RowOf(op).None?
    ensures Accounted(Step(d, op))
  {
    DeskOpIsNotLogged(d, op, window);
    forall id | id in d.escalations
      ensures id in Step(d, op).escalations
      ensures var e, f := d.escalations[id], Step(d, op).escalations[id];
              f == if op.Move? && e.incident == op.command.incident && e.Live() then CancelledRow(e) else e
    {
      OtherRowStep(d, op, id, window);
    }
    if op.Correlate? && op.choice.Create? {
      NewRowsHaveNewSteps(d, op.alert, op.choice);
    } else {
      assert Step(d, op).escalations.Keys == d.escalations.Keys;
    }
    hide Accounted, Logs, HasRow, Sound, Guard, Step;
    DeskKeepsAccounts(d, Step(d, op));
  }

  lemma RowOpKeepsAccounts(t: Trace, op: Op, window: nat)
    requires Valid(t, window) && Enabled(t, op, window) && RowOf(op).Some?
    requires Sound(State(t)) && Accounted(State(t))
    ensures Accounted(Step(State(t), op))
  {
    RowOpIsLogged(t, op, window);
    RowStep(State(t), op, window);
    var row := RowOf(op).value;
    assert RowPlaced(State(t), row);
    var e := State(t).escalations[row];
    assert Finished(e, None) && Finished(RowAfter(e, op), MarkOf(e, op));
    hide State, Valid, Issued, Reported, Logs, Accounted, Step, Guard, Finished;
    RowKeepsAccounts(State(t), Step(State(t), op), row, MarkOf(e, op));
  }

  /** In every reachable state each row is logged sent exactly when it is sent and dead exactly when it is dead,
      each at most once, whichever path ended it. */
  lemma {:induction false} OutcomesAccounted(t: Trace, window: nat)
    requires Valid(t, window)
    ensures Accounted(State(t))
  {
    if t.Then? {
      OutcomesAccounted(t.past, window);
      TraceIsSound(t.past, window);
      if RowOf(t.op).Some? {
        RowOpKeepsAccounts(t.past, t.op, window);
      } else {
        DeskOpKeepsAccounts(State(t.past), t.op, window);
      }
    }
  }
}
