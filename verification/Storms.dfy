/** Alerts of one key that arrive within a window of each other: whatever order they are delivered in, they become
    one incident, determined by them. */
module Storms {
  import opened Domain
  import opened Tables
  import opened Traces
  import opened History
  import opened Correlation

  /** The alerts of a key correlated between two points of a run, in delivery order. */
  ghost function Since(t: Trace, s: Trace, key: CorrelationKey): seq<Alert>
    requires Extends(t, s)
  {
    if t == s then []
    else if t.op.Correlate? && KeyOf(t.op.alert) == key then Since(t.past, s, key) + [t.op.alert]
    else Since(t.past, s, key)
  }

  /** No incident of the key can receive alerts. */
  ghost predicate AllResolved(d: Desk, key: CorrelationKey) {
    forall id :: id in d.incidents && d.incidents[id].Key() == key ==> d.incidents[id].status == Resolved
  }

  /** None of the key's incidents opened since `s` has been resolved by now. */
  ghost predicate NothingResolved(t: Trace, s: Trace, key: CorrelationKey) {
    forall id :: id in State(t).incidents && id !in State(s).incidents && State(t).incidents[id].Key() == key
      ==> State(t).incidents[id].status != Resolved
  }

  ghost predicate WithinWindow(alerts: seq<Alert>, window: nat) {
    forall i, j :: 0 <= i < |alerts| && 0 <= j < |alerts| ==> alerts[i].receivedAt - alerts[j].receivedAt <= window
  }

  /** The key has exactly one incident since `s`, made of the given alerts. */
  ghost predicate SingleIncident(t: Trace, s: Trace, key: CorrelationKey, alerts: seq<Alert>, id: Uuid) {
    && id in State(t).incidents && id !in State(s).incidents
    && State(t).incidents[id].Key() == key
    && Members(t, id) == alerts
    && forall other :: other in State(t).incidents && other !in State(s).incidents && State(t).incidents[other].Key() == key
                       ==> other == id
  }

  ghost predicate NoNewIncident(t: Trace, s: Trace, key: CorrelationKey) {
    forall id :: id in State(t).incidents && State(t).incidents[id].Key() == key ==> id in State(s).incidents
  }

  /** Resolution is permanent, so what is not resolved now was not resolved before. */
  lemma PastNotResolved(t: Trace, s: Trace, key: CorrelationKey, window: nat)
    requires Valid(t, window) && t.Then? && Extends(t.past, s) && NothingResolved(t, s, key)
    ensures NothingResolved(t.past, s, key)
  {
    TraceIsSound(t.past, window);
    StepFollows(State(t.past), t.op, window);
    forall id | id in State(t.past).incidents && id !in State(s).incidents && State(t.past).incidents[id].Key() == key
      ensures State(t.past).incidents[id].status != Resolved
    {
      assert IncidentFollows(State(t.past), State(t), id);
    }
  }

  lemma OldStayResolved(t: Trace, s: Trace, key: CorrelationKey, id: Uuid, window: nat)
    requires Valid(t, window) && Extends(t, s) && AllResolved(State(s), key)
    requires id in State(s).incidents && id in State(t).incidents && State(t).incidents[id].Key() == key
    ensures State(t).incidents[id].status == Resolved
  {
    RunFollows(t, s, window);
    assert IncidentFollows(State(s), State(t), id);
  }

  /** A storm, in any delivery order and with any other work in between, becomes one incident. */
  lemma {:induction false} StormMakesOneIncident(t: Trace, s: Trace, key: CorrelationKey, window: nat) returns (id: Uuid)
    requires Valid(t, window) && Extends(t, s)
    requires AllResolved(State(s), key) && NothingResolved(t, s, key)
    requires WithinWindow(Since(t, s, key), window)
    ensures Since(t, s, key) == [] ==> NoNewIncident(t, s, key)
    ensures Since(t, s, key) != [] ==> SingleIncident(t, s, key, Since(t, s, key), id)
  {
    id := NIL;
    if t == s {
      return;
    }
    var past, op := t.past, t.op;
    var before, after := Since(past, s, key), Since(t, s, key);
    assert forall i :: 0 <= i < |before| ==> before[i] == after[i];
    PastNotResolved(t, s, key, window);
    id := StormMakesOneIncident(past, s, key, window);
    if op.Correlate? && KeyOf(op.alert) == key {
      id := StormArrival(t, s, key, before, id, window);
    } else {
      StormOther(t, s, key, before, id, window);
    }
  }

  lemma StormArrival(t: Trace, s: Trace, key: CorrelationKey, before: seq<Alert>, single: Uuid, window: nat) returns (id: Uuid)
    requires Valid(t, window) && t.Then? && Extends(t.past, s) && t.op.Correlate? && KeyOf(t.op.alert) == key
    requires AllResolved(State(s), key) && NothingResolved(t.past, s, key)
    requires before == [] ==> NoNewIncident(t.past, s, key)
    requires before != [] ==> SingleIncident(t.past, s, key, before, single)
    requires WithinWindow(before + [t.op.alert], window)
    ensures SingleIncident(t, s, key, before + [t.op.alert], id)
  {
    var past, alert, choice := t.past, t.op.alert, t.op.choice;
    id := choice.id;
    TraceIsSound(past, window);
    forall other | other in State(past).incidents && other in State(s).incidents && State(past).incidents[other].Key() == key
      ensures State(past).incidents[other].status == Resolved
    {
      OldStayResolved(past, s, key, other, window);
    }
    RunFollows(past, s, window);
    RowsPersist(State(s), State(past));
    if before == [] {
      assert NoMatch(State(past).incidents, key, alert.receivedAt, window);
      UnknownHasNoMembers(past, id, window);
      assert before + [alert] == [alert];
    } else {
      SingleMatches(past, before, alert, single, window);
      assert choice == Merge(single);
    }
  }

  /** An alert of the storm fits the incident the storm has made so far. */
  lemma SingleMatches(t: Trace, before: seq<Alert>, alert: Alert, id: Uuid, window: nat)
    requires Valid(t, window) && id in State(t).incidents && Members(t, id) == before && before != []
    requires State(t).incidents[id].status != Resolved && State(t).incidents[id].Key() == KeyOf(alert)
    requires WithinWindow(before + [alert], window)
    ensures Matches(State(t).incidents[id], KeyOf(alert), alert.receivedAt, window)
  {
    IncidentsSummariseMembers(t, id, window);
    var i := State(t).incidents[id];
    var all := before + [alert];
    assert all[|before|] == alert;
    var first :| 0 <= first < |before| && before[first].receivedAt == i.firstSeenAt;
    var last :| 0 <= last < |before| && before[last].receivedAt == i.lastSeenAt;
    assert all[first] == before[first] && all[last] == before[last];
  }

  lemma StormOther(t: Trace, s: Trace, key: CorrelationKey, before: seq<Alert>, id: Uuid, window: nat)
    requires Valid(t, window) && t.Then? && Extends(t.past, s) && !(t.op.Correlate? && KeyOf(t.op.alert) == key)
    requires before == [] ==> NoNewIncident(t.past, s, key)
    requires before != [] ==> SingleIncident(t.past, s, key, before, id)
    ensures before == [] ==> NoNewIncident(t, s, key)
    ensures before != [] ==> SingleIncident(t, s, key, before, id)
  {
    OtherKeyKeepsIncidents(t, key, window);
  }

  /** Work on other keys, operator actions and escalation work add no incident of the key and no member to one. */
  lemma OtherKeyKeepsIncidents(t: Trace, key: CorrelationKey, window: nat)
    requires Valid(t, window) && t.Then? && !(t.op.Correlate? && KeyOf(t.op.alert) == key)
    ensures forall id :: id in State(t).incidents && State(t).incidents[id].Key() == key ==>
              && id in State(t.past).incidents && State(t.past).incidents[id].Key() == key
              && Members(t, id) == Members(t.past, id)
              && State(t).incidents[id].firstSeenAt == State(t.past).incidents[id].firstSeenAt
              && State(t).incidents[id].lastSeenAt == State(t.past).incidents[id].lastSeenAt
    ensures forall id :: id in State(t.past).incidents && State(t.past).incidents[id].Key() == key ==>
              id in State(t).incidents && State(t).incidents[id].Key() == key
  {
    TraceIsSound(t.past, window);
    StepFollows(State(t.past), t.op, window);
    RowsPersist(State(t.past), State(t));
    hide Step, Sound;
    forall id | id in State(t).incidents && State(t).incidents[id].Key() == key
      ensures && id in State(t.past).incidents && State(t.past).incidents[id].Key() == key
              && Members(t, id) == Members(t.past, id)
              && State(t).incidents[id].firstSeenAt == State(t.past).incidents[id].firstSeenAt
              && State(t).incidents[id].lastSeenAt == State(t.past).incidents[id].lastSeenAt
    {
      if id !in State(t.past).incidents {
        OnlyCreateAdds(State(t.past), t.op, id, window);
      }
      OtherIncidentStep(State(t.past), t.op, id, window);
    }
  }

  /** The incident a storm makes has the storm's count, interval and worst severity. */
  lemma StormSummary(t: Trace, s: Trace, key: CorrelationKey, window: nat) returns (id: Uuid)
    requires Valid(t, window) && Extends(t, s)
    requires AllResolved(State(s), key) && NothingResolved(t, s, key)
    requires WithinWindow(Since(t, s, key), window) && Since(t, s, key) != []
    ensures SingleIncident(t, s, key, Since(t, s, key), id) && id in State(t).incidents
    ensures Fits(State(t).incidents[id], Since(t, s, key), window)
    ensures State(t).incidents[id].occurrenceCount == |Since(t, s, key)|
  {
    id := StormMakesOneIncident(t, s, key, window);
    IncidentsSummariseMembers(t, id, window);
    FitsCount(State(t).incidents[id], Since(t, s, key), window);
  }

  /** Confluence: two runs from the same state that deliver the same storm, in whatever orders and with whatever
      else in between, end with incidents that agree in count, interval and severity. */
  lemma StormsAreConfluent(t: Trace, u: Trace, s: Trace, key: CorrelationKey, window: nat) returns (i: Uuid, j: Uuid)
    requires Valid(t, window) && Valid(u, window) && Extends(t, s) && Extends(u, s)
    requires AllResolved(State(s), key) && NothingResolved(t, s, key) && NothingResolved(u, s, key)
    requires multiset(Since(t, s, key)) == multiset(Since(u, s, key)) && Since(t, s, key) != []
    requires WithinWindow(Since(t, s, key), window)
    ensures SingleIncident(t, s, key, Since(t, s, key), i) && SingleIncident(u, s, key, Since(u, s, key), j)
    ensures var a, b := State(t).incidents[i], State(u).incidents[j];
            && a.occurrenceCount == b.occurrenceCount == |Since(t, s, key)|
            && a.firstSeenAt == b.firstSeenAt && a.lastSeenAt == b.lastSeenAt
            && a.severity.Rank() == b.severity.Rank()
  {
    hide *;
    var x, y := Since(t, s, key), Since(u, s, key);
    SameStorm(x, y, window);
    i := StormSummary(t, s, key, window);
    j := StormSummary(u, s, key, window);
    SameStormSameRow(State(t).incidents[i], x, State(u).incidents[j], y, window);
  }

  lemma SameStorm(x: seq<Alert>, y: seq<Alert>, window: nat)
    requires multiset(x) == multiset(y) && x != [] && WithinWindow(x, window)
    ensures y != [] && WithinWindow(y, window)
  {
    SameElements(y, x);
    SameSpan(x, y, window);
    assert |y| == |multiset(y)| == |multiset(x)| == |x|;
  }

  lemma SameStormSameRow(i: Incident, x: seq<Alert>, j: Incident, y: seq<Alert>, window: nat)
    requires multiset(x) == multiset(y) && Fits(i, x, window) && Fits(j, y, window)
    ensures i.occurrenceCount == j.occurrenceCount
    ensures i.firstSeenAt == j.firstSeenAt && i.lastSeenAt == j.lastSeenAt && i.severity.Rank() == j.severity.Rank()
  {
    SameElements(x, y);
    SameElements(y, x);
    assert |y| == |multiset(y)| == |multiset(x)| == |x|;
    FitsCount(i, x, window);
    FitsCount(j, y, window);
    hide *;
    SameSummary(i, x, j, y, window);
    SameSummary(j, y, i, x, window);
  }

  /** Every alert of `x` is one of `y`. */
  ghost predicate Contains(y: seq<Alert>, x: seq<Alert>) {
    forall k :: 0 <= k < |x| ==> x[k] in y
  }

  lemma FitsCount(i: Incident, alerts: seq<Alert>, window: nat)
    requires Fits(i, alerts, window)
    ensures i.occurrenceCount == |alerts|
  {
  }

  lemma SameSpan(x: seq<Alert>, y: seq<Alert>, window: nat)
    requires Contains(x, y) && WithinWindow(x, window)
    ensures WithinWindow(y, window)
  {
    forall k, l | 0 <= k < |y| && 0 <= l < |y|
      ensures y[k].receivedAt - y[l].receivedAt <= window
    {
      assert y[k] in x && y[l] in x;
    }
  }

  lemma SameElements(x: seq<Alert>, y: seq<Alert>)
    requires multiset(x) == multiset(y)
    ensures Contains(y, x)
  {
    forall k | 0 <= k < |x|
      ensures x[k] in y
    {
      assert x[k] in multiset(x);
      assert x[k] in multiset(y);
    }
  }

  lemma SameSummary(i: Incident, x: seq<Alert>, j: Incident, y: seq<Alert>, window: nat)
    requires Fits(i, x, window) && Fits(j, y, window) && Contains(y, x)
    ensures j.firstSeenAt <= i.firstSeenAt && i.lastSeenAt <= j.lastSeenAt
    ensures i.severity.Rank() <= j.severity.Rank()
  {
    var first :| 0 <= first < |x| && x[first].receivedAt == i.firstSeenAt;
    assert x[first] in y;
    var last :| 0 <= last < |x| && x[last].receivedAt == i.lastSeenAt;
    assert x[last] in y;
    var worst :| 0 <= worst < |x| && x[worst].severity == i.severity;
    assert x[worst] in y;
  }
}
