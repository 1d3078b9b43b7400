/** Outcomes per incident: the audit trail of an incident records as many sent and as many dead escalations as the
    incident has. */
module Outcomes {
  import opened Domain
  import opened Tables
  import opened Traces
  import opened Audit

  predicate EndsAs(e: Escalation, incident: Uuid, mark: Mark) {
    e.incident == incident && ((mark == SentMark && e.status == Sent) || (mark == DeadMark && e.status == Dead))
  }

  /** The rows of an incident that ended the way a mark says. */
  function Ended(d: Desk, incident: Uuid, mark: Mark): set<Uuid> {
    set id | id in d.escalations && EndsAs(d.escalations[id], incident, mark)
  }

  ghost predicate OutcomesMatch(d: Desk, incident: Uuid) {
    && Tally(d.timeline, incident, SentMark, None) == |Ended(d, incident, SentMark)|
    && Tally(d.timeline, incident, DeadMark, None) == |Ended(d, incident, DeadMark)|
  }

  lemma RowOpEnds(d: Desk, next: Desk, row: Uuid, incident: Uuid, mark: Mark, outcome: Option<Mark>)
    requires row in d.escalations && row in next.escalations && next.escalations == d.escalations[row := next.escalations[row]]
    requires next.escalations[row].incident == d.escalations[row].incident
    requires Finished(d.escalations[row], None) && Finished(next.escalations[row], outcome)
    requires mark != RetryMark
    ensures |Ended(next, incident, mark)| ==
              |Ended(d, incident, mark)| + (if incident == d.escalations[row].incident && outcome == Some(mark) then 1 else 0)
  {
    assert !EndsAs(d.escalations[row], incident, mark);
    assert EndsAs(next.escalations[row], incident, mark) <==> incident == d.escalations[row].incident && outcome == Some(mark);
    hide EndsAs, Finished;
    if incident == d.escalations[row].incident && outcome == Some(mark) {
      assert Ended(next, incident, mark) == Ended(d, incident, mark) + {row};
    } else {
      assert Ended(next, incident, mark) == Ended(d, incident, mark);
    }
  }

  lemma RowOpFinishes(d: Desk, op: Op, window: nat)
    requires Sound(d) && Guard(d, op, window) && RowOf(op).Some?
    ensures RowOf(op).value in d.escalations
    ensures var e := d.escalations[RowOf(op).value];
            && Finished(e, None) && Finished(RowAfter(e, op), MarkOf(e, op))
            && RowAfter(e, op).incident == e.incident
  {
    RowStep(d, op, window);
    assert RowPlaced(d, RowOf(op).value);
  }

  lemma RowOpMatches(t: Trace, op: Op, incident: Uuid, window: nat)
    requires Valid(t, window) && Enabled(t, op, window) && RowOf(op).Some?
    requires Sound(State(t)) && OutcomesMatch(State(t), incident)
    ensures OutcomesMatch(Step(State(t), op), incident)
  {
    hide State, Valid, Issued, Step, Reported, Finished, Ended, Tally, Sound, Guard;
    var d, next := State(t), Step(State(t), op);
    RowStep(d, op, window);
    var row := RowOf(op).value;
    var e := d.escalations[row];
    RowOpFinishes(d, op, window);
    RowOpIsLogged(t, op, window);
    RowOpEnds(d, next, row, incident, SentMark, MarkOf(e, op));
    RowOpEnds(d, next, row, incident, DeadMark, MarkOf(e, op));
  }

  lemma OtherOpMatches(d: Desk, op: Op, incident: Uuid, window: nat)
    requires Guard(d, op, window) && RowOf(op).None? && OutcomesMatch(d, incident)
    ensures OutcomesMatch(Step(d, op), incident)
  {
    hide Guard, Step, Ended, Tally;
    DeskOpIsNotLogged(d, op, window);
    OtherOpEnds(d, op, incident, SentMark, window);
    OtherOpEnds(d, op, incident, DeadMark, window);
  }

  lemma OtherOpEnds(d: Desk, op: Op, incident: Uuid, mark: Mark, window: nat)
    requires Guard(d, op, window) && RowOf(op).None?
    ensures Ended(Step(d, op), incident, mark) == Ended(d, incident, mark)
  {
    var next := Step(d, op);
    forall id | id in d.escalations
      ensures id in next.escalations
      ensures EndsAs(next.escalations[id], incident, mark) <==> EndsAs(d.escalations[id], incident, mark)
    {
      OtherRowStep(d, op, id, window);
      hide Step, Guard;
    }
    forall id | id in next.escalations && id !in d.escalations
      ensures !EndsAs(next.escalations[id], incident, mark)
    {
      AddedRowIsPending(d, op, id, window);
    }
    hide Guard, Step, EndsAs;
  }

  lemma AddedRowIsPending(d: Desk, op: Op, id: Uuid, window: nat)
    requires Guard(d, op, window) && RowOf(op).None? && id in Step(d, op).escalations && id !in d.escalations
    ensures Step(d, op).escalations[id].status == Pending
  {
    assert op.Correlate? && op.choice.Create?;
    AddedRowsAreNew(d, op.alert, op.choice);
    hide ScheduledRows;
  }

  /** In every reachable state the timeline of every incident holds one `escalation_sent` entry per sent row and one
      `escalation_dead` entry per dead row of that incident. */
  lemma {:induction false} TimelineCountsOutcomes(t: Trace, incident: Uuid, window: nat)
    requires Valid(t, window)
    ensures OutcomesMatch(State(t), incident)
  {
    if t.Then? {
      TimelineCountsOutcomes(t.past, incident, window);
      TraceIsSound(t.past, window);
      if RowOf(t.op).Some? {
        RowOpMatches(t.past, t.op, incident, window);
      } else {
        OtherOpMatches(State(t.past), t.op, incident, window);
      }
    }
  }
}
