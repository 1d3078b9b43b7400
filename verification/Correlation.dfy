/** What an incident knows about the alerts correlated into it, for alerts arriving in any order. */
module Correlation {
  import opened Domain
  import opened Tables
  import opened Traces
  import opened History
  import opened Columns

  /** The alerts merged into an incident, in the order they were correlated. */
  function Members(t: Trace, id: Uuid): seq<Alert> {
    match t
    case Boot => []
    case Then(past, op) =>
      if op.Correlate? && op.choice.id == id then Members(past, id) + [op.alert] else Members(past, id)
  }

  /** Alerts seen in this order, each a candidate to continue a session: every alert that is not the last is
      followed within the window by a later one. */
  ghost predicate Chained(alerts: seq<Alert>, last: Time, window: nat) {
    forall i :: 0 <= i < |alerts| && alerts[i].receivedAt < last ==> HasNext(alerts, alerts[i].receivedAt, window)
  }

  ghost predicate HasNext(alerts: seq<Alert>, at: Time, window: nat) {
    exists j :: 0 <= j < |alerts| && at < alerts[j].receivedAt <= at + window
  }

  ghost predicate IsMin(alerts: seq<Alert>, first: Time) {
    && (forall i :: 0 <= i < |alerts| ==> first <= alerts[i].receivedAt)
    && (exists i :: 0 <= i < |alerts| && alerts[i].receivedAt == first)
  }

  ghost predicate IsMax(alerts: seq<Alert>, last: Time) {
    && (forall i :: 0 <= i < |alerts| ==> alerts[i].receivedAt <= last)
    && (exists i :: 0 <= i < |alerts| && alerts[i].receivedAt == last)
  }

  ghost predicate IsWorst(alerts: seq<Alert>, severity: Severity) {
    && (forall i :: 0 <= i < |alerts| ==> alerts[i].severity.Rank() <= severity.Rank())
    && (exists i :: 0 <= i < |alerts| && alerts[i].severity == severity)
  }

  /** The row of an incident summarises its alerts: the count, the interval they span, the worst severity, and
      the wording of the alert that opened it. */
  ghost predicate Summarises(i: Incident, alerts: seq<Alert>) {
    && |alerts| == i.occurrenceCount >= 1
    && (forall k :: 0 <= k < |alerts| ==> KeyOf(alerts[k]) == i.Key())
    && IsMin(alerts, i.firstSeenAt)
    && IsMax(alerts, i.lastSeenAt)
    && IsWorst(alerts, i.severity)
    && i.title == alerts[0].title && i.service == alerts[0].service
  }

  lemma OpenedSummarises(id: Uuid, alert: Alert)
    ensures Summarises(OpenedIncident(id, alert), [alert])
  {
    assert [alert][0].receivedAt == alert.receivedAt;
  }

  lemma MergedSummarises(i: Incident, alerts: seq<Alert>, alert: Alert)
    requires Summarises(i, alerts) && KeyOf(alert) == i.Key()
    ensures Summarises(MergedIncident(i, alert), alerts + [alert])
  {
    var more := alerts + [alert];
    assert more[|alerts|] == alert;
    assert forall k :: 0 <= k < |alerts| ==> more[k] == alerts[k];
    var merged := MergedIncident(i, alert);
    var first :| 0 <= first < |alerts| && alerts[first].receivedAt == i.firstSeenAt;
    assert more[first].receivedAt == i.firstSeenAt;
    var last :| 0 <= last < |alerts| && alerts[last].receivedAt == i.lastSeenAt;
    assert more[last].receivedAt == i.lastSeenAt;
    var worst :| 0 <= worst < |alerts| && alerts[worst].severity == i.severity;
    assert more[worst].severity == i.severity;
  }

  /** Merging extends the chain by at most one window in either direction. */
  lemma MergedChained(i: Incident, alerts: seq<Alert>, alert: Alert, window: nat)
    requires Summarises(i, alerts) && Chained(alerts, i.lastSeenAt, window)
    requires i.lastSeenAt >= alert.receivedAt - window && i.firstSeenAt <= alert.receivedAt + window
    ensures Chained(alerts + [alert], MergedIncident(i, alert).lastSeenAt, window)
  {
    var more := alerts + [alert];
    var n := |alerts|;
    var at := alert.receivedAt;
    assert more[n] == alert;
    forall k | 0 <= k < |more| && more[k].receivedAt < MergedIncident(i, alert).lastSeenAt
      ensures HasNext(more, more[k].receivedAt, window)
    {
      if k < n && more[k].receivedAt < i.lastSeenAt {
        assert HasNext(alerts, alerts[k].receivedAt, window);
        NextInLonger(alerts, alert, more[k].receivedAt, window);
      } else if k == n {
        var j := NextMember(i, alerts, at, window);
        NextInLonger(alerts, alert, at, window);
      }
    }
  }

  lemma NextInLonger(alerts: seq<Alert>, alert: Alert, at: Time, window: nat)
    requires HasNext(alerts, at, window)
    ensures HasNext(alerts + [alert], at, window)
  {
    var j :| 0 <= j < |alerts| && at < alerts[j].receivedAt <= at + window;
    assert (alerts + [alert])[j] == alerts[j];
  }

  /** A time that lies before the end of a chain, and not too far before its start, has a successor in it. */
  lemma {:induction false} NextMember(i: Incident, alerts: seq<Alert>, at: Time, window: nat) returns (j: nat)
    requires Summarises(i, alerts) && Chained(alerts, i.lastSeenAt, window)
    requires at < i.lastSeenAt && i.firstSeenAt <= at + window
    ensures j < |alerts| && at < alerts[j].receivedAt <= at + window
  {
    // walk along the chain from its start until the time is passed
    j :| 0 <= j < |alerts| && alerts[j].receivedAt == i.firstSeenAt;
    while alerts[j].receivedAt <= at
      invariant 0 <= j < |alerts| && alerts[j].receivedAt <= at + window
      decreases at - alerts[j].receivedAt
    {
      assert alerts[j].receivedAt < i.lastSeenAt;
      assert HasNext(alerts, alerts[j].receivedAt, window);
      var k :| 0 <= k < |alerts| && alerts[j].receivedAt < alerts[k].receivedAt <= alerts[j].receivedAt + window;
      j := k;
    }
  }

  /** What is true of every incident, whatever the order in which its alerts were delivered. */
  ghost predicate Fits(i: Incident, alerts: seq<Alert>, window: nat) {
    && Summarises(i, alerts)
    && Chained(alerts, i.lastSeenAt, window)
    && i.lastSeenAt - i.firstSeenAt <= SpanLimit(i.occurrenceCount, window)
  }

  /** The longest interval that many alerts can span without leaving a gap wider than the window. */
  function SpanLimit(count: int, window: nat): int {
    (count - 1) * window
  }

  lemma OpenedFits(id: Uuid, alert: Alert, window: nat)
    ensures Fits(OpenedIncident(id, alert), [alert], window)
  {
    OpenedSummarises(id, alert);
  }

  lemma MergedFits(i: Incident, alerts: seq<Alert>, alert: Alert, window: nat)
    requires Fits(i, alerts, window) && Matches(i, KeyOf(alert), alert.receivedAt, window)
    ensures Fits(MergedIncident(i, alert), alerts + [alert], window)
  {
    hide SpanLimit, Summarises, Chained;
    MergedSummarises(i, alerts, alert);
    MergedChained(i, alerts, alert, window);
    FirstBeforeLast(i, alerts);
    SpanGrows(i.firstSeenAt, i.lastSeenAt, i.occurrenceCount, alert.receivedAt, window);
  }

  lemma FirstBeforeLast(i: Incident, alerts: seq<Alert>)
    requires Summarises(i, alerts)
    ensures i.firstSeenAt <= i.lastSeenAt
  {
  }

  lemma SpanGrows(first: Time, last: Time, count: int, at: Time, window: nat)
    requires first <= last && last - first <= SpanLimit(count, window)
    requires last >= at - window && first <= at + window
    ensures Max(last, at) - Min(first, at) <= SpanLimit(count + 1, window)
  {
    assert (count + 1 - 1) * window == (count - 1) * window + window;
  }


  lemma MovedFits(i: Incident, alerts: seq<Alert>, to: IncidentStatus, now: Time, window: nat)
    requires Fits(i, alerts, window)
    ensures Fits(MovedIncident(i, to, now), alerts, window)
  {
    hide Chained, IsMin, IsMax, IsWorst, SpanLimit;
    assert Summarises(MovedIncident(i, to, now), alerts);
  }

  lemma {:induction false} UnknownHasNoMembers(t: Trace, id: Uuid, window: nat)
    requires Valid(t, window) && id !in State(t).incidents
    ensures Members(t, id) == []
  {
    if t.Then? {
      TraceIsSound(t.past, window);
      StepFollows(State(t.past), t.op, window);
      RowsPersist(State(t.past), State(t));
      UnknownHasNoMembers(t.past, id, window);
    }
  }

  /** Only transitions of the incident itself touch its row besides correlation, and they leave times, count,
      severity and wording alone. */
  lemma OtherIncidentStep(d: Desk, op: Op, id: Uuid, window: nat)
    requires Guard(d, op, window) && id in d.incidents && !(op.Correlate? && op.choice.id == id)
    ensures id in Step(d, op).incidents
    ensures var i, j := d.incidents[id], Step(d, op).incidents[id];
            j == if op.Move? && op.command.incident == id then MovedIncident(i, op.command.to, op.now) else i
  {
  }

  /** For alerts in any order: the row of every incident summarises exactly the alerts correlated into it, those
      alerts form a chain without a gap longer than the window, and the interval is bounded accordingly. */
  lemma {:induction false} IncidentsSummariseMembers(t: Trace, id: Uuid, window: nat)
    requires Valid(t, window) && id in State(t).incidents
    ensures Fits(State(t).incidents[id], Members(t, id), window)
  {
    var past, op := t.past, t.op;
    hide Fits;
    if op.Correlate? && op.choice.id == id {
      if op.choice.Create? {
        UnknownHasNoMembers(past, id, window);
        OpenedFits(id, op.alert, window);
        assert Members(t, id) == [op.alert];
      } else {
        IncidentsSummariseMembers(past, id, window);
        MergedFits(State(past).incidents[id], Members(past, id), op.alert, window);
      }
    } else {
      if id !in State(past).incidents {
        OnlyCreateAdds(State(past), op, id, window);
      }
      IncidentsSummariseMembers(past, id, window);
      OtherIncidentStep(State(past), op, id, window);
      hide Step, Guard;
      if op.Move? && op.command.incident == id {
        MovedFits(State(past).incidents[id], Members(past, id), op.command.to, op.now, window);
      }
    }
  }

  lemma OnlyCreateAdds(d: Desk, op: Op, id: Uuid, window: nat)
    requires Guard(d, op, window) && id in Step(d, op).incidents && id !in d.incidents
    ensures op.Correlate? && op.choice.Create? && op.choice.id == id
  {
  }

  /** An incident only ever takes alerts of its own tenant and fingerprint. */
  lemma MembersShareTenantAndFingerprint(t: Trace, id: Uuid, k: nat, window: nat)
    requires Valid(t, window) && id in State(t).incidents && k < |Members(t, id)|
    ensures Members(t, id)[k].tenant == State(t).incidents[id].tenant
    ensures Members(t, id)[k].fingerprint == State(t).incidents[id].fingerprint
  {
    IncidentsSummariseMembers(t, id, window);
    var alerts, i := Members(t, id), State(t).incidents[id];
    hide Members, Valid, State, Chained, IsMin, IsMax, IsWorst;
    assert KeyOf(alerts[k]) == i.Key();
  }

  /** Each correlation of a run put its alert where it belongs: into the incident seen last among the unresolved ones of
      its tenant and fingerprint in reach, or, exactly if there was none, into a new one. */
  lemma CorrelationsAreWellPlaced(t: Trace, window: nat)
    requires Valid(t, window) && t.Then? && t.op.Correlate?
    ensures WellPlaced(State(t.past), t.op.alert, window, t.op.choice)
    ensures CorrelationShows(State(t.past), State(t), t.op.alert, t.op.choice)
  {
    LastStep(t, window);
    AdmissibleOnColumns(State(t.past), t.op.alert, window, t.op.choice);
    CorrelationOnColumns(State(t.past), t.op.alert, window, t.op.choice);
    hide Valid, State, WellPlaced, CorrelationShows, Correlated, Admissible;
  }
}
