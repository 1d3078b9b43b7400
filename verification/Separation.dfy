/** When unresolved incidents of one key stay apart.  The search picks one incident and never joins two, so an alert
    that arrives late between two incidents may leave them within a window of each other, or one inside the other.
    Exactly those alerts do it that match more than one incident. */
module Separation {
  import opened Domain
  import opened Tables
  import opened Traces

  /** More than a window lies between the two incidents. */
  predicate Apart(i: Incident, j: Incident, window: nat) {
    i.firstSeenAt - j.lastSeenAt > window || j.firstSeenAt - i.lastSeenAt > window
  }

  predicate Unresolved(d: Desk, id: Uuid, key: CorrelationKey) {
    id in d.incidents && d.incidents[id].Key() == key && d.incidents[id].status != Resolved
  }

  ghost predicate Separated(d: Desk, key: CorrelationKey, window: nat) {
    forall a, b :: Unresolved(d, a, key) && Unresolved(d, b, key) && a != b ==> Apart(d.incidents[a], d.incidents[b], window)
  }

  /** What a caller can check before correlating: the search has at most one candidate. */
  ghost predicate LoneMatch(d: Desk, alert: Alert, window: nat) {
    forall a, b :: (&& a in d.incidents && b in d.incidents
                    && Matches(d.incidents[a], KeyOf(alert), alert.receivedAt, window)
                    && Matches(d.incidents[b], KeyOf(alert), alert.receivedAt, window)) ==> a == b
  }

  /** An incident stretched over the alert stays apart from any other the alert does not match. */
  lemma StretchedIsApart(i: Incident, j: Incident, alert: Alert, window: nat)
    requires i.firstSeenAt <= i.lastSeenAt && j.firstSeenAt <= j.lastSeenAt
    requires Apart(i, j, window) && Matches(i, KeyOf(alert), alert.receivedAt, window)
    requires j.Key() == KeyOf(alert) && j.status != Resolved
    ensures Apart(MergedIncident(i, alert), j, window) <==> !Matches(j, KeyOf(alert), alert.receivedAt, window)
  {
  }

  lemma OpenedIsApart(id: Uuid, j: Incident, alert: Alert, window: nat)
    requires j.Key() == KeyOf(alert) && j.status != Resolved && !Matches(j, KeyOf(alert), alert.receivedAt, window)
    ensures Apart(OpenedIncident(id, alert), j, window)
  {
  }

  /** Correlating an alert keeps the incidents of its key apart if and only if it matches no more than one of them. */
  lemma CorrelationKeepsSeparation(d: Desk, alert: Alert, choice: Choice, window: nat)
    requires IncidentsSound(d) && Separated(d, KeyOf(alert), window) && Admissible(d, alert, window, choice)
    ensures Resolvable(d, choice)
    ensures Separated(Correlated(d, alert, choice), KeyOf(alert), window) <==> LoneMatch(d, alert, window)
  {
    var key := KeyOf(alert);
    var next := Correlated(d, alert, choice);
    var id := choice.id;
    hide Matches, Apart;
    forall other | Unresolved(d, other, key) && other != id
      ensures Apart(next.incidents[id], next.incidents[other], window) <==>
              !(choice.Merge? && Matches(d.incidents[other], key, alert.receivedAt, window))
      ensures Apart(next.incidents[other], next.incidents[id], window) <==> Apart(next.incidents[id], next.incidents[other], window)
    {
      assert next.incidents[other] == d.incidents[other];
      ApartIsSymmetric(next.incidents[id], next.incidents[other], window);
      if choice.Merge? {
        assert Unresolved(d, id, key) by { MatchIsUnresolved(d.incidents[id], key, alert.receivedAt, window); }
        StretchedIsApart(d.incidents[id], d.incidents[other], alert, window);
      } else {
        OpenedIsApart(id, d.incidents[other], alert, window);
      }
    }
    forall other
      ensures Unresolved(next, other, key) <==> Unresolved(d, other, key) || other == id
    {
      if choice.Merge? {
        MatchIsUnresolved(d.incidents[id], key, alert.receivedAt, window);
      }
    }
    forall other | other in d.incidents && Matches(d.incidents[other], key, alert.receivedAt, window)
      ensures Unresolved(d, other, key)
    {
      MatchIsUnresolved(d.incidents[other], key, alert.receivedAt, window);
    }
    if LoneMatch(d, alert, window) {
      forall a, b | Unresolved(next, a, key) && Unresolved(next, b, key) && a != b
        ensures Apart(next.incidents[a], next.incidents[b], window)
      {
      }
    } else {
      var a, b :| a in d.incidents && b in d.incidents && a != b
                  && Matches(d.incidents[a], key, alert.receivedAt, window)
                  && Matches(d.incidents[b], key, alert.receivedAt, window);
      var other := if a == id then b else a;
      assert !Apart(next.incidents[id], next.incidents[other], window);
    }
  }

  lemma ApartIsSymmetric(i: Incident, j: Incident, window: nat)
    ensures Apart(i, j, window) <==> Apart(j, i, window)
  {
  }

  lemma MatchIsUnresolved(i: Incident, key: CorrelationKey, at: Time, window: nat)
    ensures Matches(i, key, at, window) ==> i.Key() == key && i.status != Resolved
  {
  }

  // ---- over runs ----

  ghost predicate AlwaysSeparated(t: Trace, key: CorrelationKey, window: nat) {
    Separated(State(t), key, window) && (t.Then? ==> AlwaysSeparated(t.past, key, window))
  }

  ghost predicate AlwaysLone(t: Trace, key: CorrelationKey, window: nat) {
    t.Then? ==>
      && AlwaysLone(t.past, key, window)
      && (t.op.Correlate? && KeyOf(t.op.alert) == key ==> LoneMatch(State(t.past), t.op.alert, window))
  }

  /** Transactions other than correlations of the key bring no two of its incidents closer. */
  lemma OtherStepKeepsSeparation(t: Trace, op: Op, key: CorrelationKey, window: nat)
    requires Valid(t, window) && Enabled(t, op, window) && Separated(State(t), key, window)
    requires op.Correlate? ==> KeyOf(op.alert) != key
    ensures Separated(State(Then(t, op)), key, window)
  {
    var d, next := State(t), State(Then(t, op));
    assert next == Step(d, op) && Guard(d, op, window);
    hide State, Valid;
    forall id | Unresolved(next, id, key)
      ensures Unresolved(d, id, key) && next.incidents[id].firstSeenAt == d.incidents[id].firstSeenAt
              && next.incidents[id].lastSeenAt == d.incidents[id].lastSeenAt
    {
    }
  }

  /** Over a whole run the incidents of a key are apart at every moment if and only if no alert of the key ever
      matched two of them. */
  lemma {:induction false} ApartExactlyWhenLone(t: Trace, key: CorrelationKey, window: nat)
    requires Valid(t, window)
    ensures AlwaysSeparated(t, key, window) <==> AlwaysLone(t, key, window)
  {
    if t.Then? {
      ApartExactlyWhenLone(t.past, key, window);
      TraceIsSound(t.past, window);
      hide Separated, LoneMatch, Guard, Sound;
      if Separated(State(t.past), key, window) {
        SeparationStep(t.past, t.op, key, window);
      }
    }
  }

  lemma SeparationStep(t: Trace, op: Op, key: CorrelationKey, window: nat)
    requires Valid(t, window) && Enabled(t, op, window) && Separated(State(t), key, window) && Sound(State(t))
    ensures Separated(State(Then(t, op)), key, window) <==>
            (op.Correlate? && KeyOf(op.alert) == key ==> LoneMatch(State(t), op.alert, window))
  {
    hide Valid, Separated, LoneMatch;
    if op.Correlate? && KeyOf(op.alert) == key {
      CorrelationKeepsSeparation(State(t), op.alert, op.choice, window);
    } else {
      OtherStepKeepsSeparation(t, op, key, window);
    }
  }

  /** Whatever the window, five alerts of one key, delivered out of order, leave two unresolved incidents one inside the
      other. */
  lemma LateAlertsNestIncidents(alerts: seq<Alert>, at: Time, x: Uuid, y: Uuid, window: nat) returns (t: Trace)
    requires |alerts| == 5 && x != y && window > 0
    requires forall i :: 0 <= i < 5 ==> KeyOf(alerts[i]) == KeyOf(alerts[0])
    requires alerts[0].receivedAt == at && alerts[1].receivedAt == at + window + 1
    requires alerts[2].receivedAt == at + 1 && alerts[3].receivedAt == at && alerts[4].receivedAt == at - 1
    ensures Valid(t, window) && State(t).incidents.Keys == {x, y}
    ensures var i, j := State(t).incidents[x], State(t).incidents[y];
            && i.Key() == j.Key() == KeyOf(alerts[0]) && i.status == j.status == Open
            && j.firstSeenAt < i.firstSeenAt && i.lastSeenAt < j.lastSeenAt
  {
    t := FarApart(alerts[0], alerts[1], x, y, window);
    hide Valid, State, Matches;
    var i, j := OpenedIncident(x, alerts[0]), OpenedIncident(y, alerts[1]);
    for k := 2 to 5
      invariant Valid(t, window) && State(t).incidents == map[x := i, y := j]
      invariant j.Key() == KeyOf(alerts[0]) && j.status == Open && j.lastSeenAt == at + window + 1
      invariant j.firstSeenAt == if k == 2 then j.lastSeenAt else alerts[k - 1].receivedAt
    {
      StretchNext(t, alerts[k], x, y, i, j, window);
      t := Then(t, Correlate(alerts[k], Merge(y)));
      j := MergedIncident(j, alerts[k]);
    }
  }

  /** Two alerts more than a window apart open two incidents. */
  lemma FarApart(a: Alert, b: Alert, x: Uuid, y: Uuid, window: nat) returns (t: Trace)
    requires KeyOf(a) == KeyOf(b) && b.receivedAt > a.receivedAt + window && x != y
    ensures Valid(t, window) && State(t).incidents == map[x := OpenedIncident(x, a), y := OpenedIncident(y, b)]
  {
    var none: map<Uuid, Incident> := map[];
    assert Valid(Boot, window) && State(Boot).incidents == none;
    hide Valid, State, Matches;
    OpenNext(Boot, a, x, none, window);
    t := Then(Boot, Correlate(a, Create(x, [], [])));
    NearEnough(OpenedIncident(x, a), KeyOf(b), b.receivedAt, window);
    OpenNext(t, b, y, map[x := OpenedIncident(x, a)], window);
    t := Then(t, Correlate(b, Create(y, [], [])));
  }

  /** An alert shortly before the incident seen last stretches it backwards. */
  lemma StretchNext(t: Trace, a: Alert, x: Uuid, y: Uuid, i: Incident, j: Incident, window: nat)
    requires Valid(t, window) && State(t).incidents == map[x := i, y := j] && x != y && i.lastSeenAt <= j.lastSeenAt
    requires j.Key() == KeyOf(a) && j.status == Open
    requires a.receivedAt <= j.firstSeenAt <= a.receivedAt + window && j.firstSeenAt <= j.lastSeenAt
    ensures var next, k := Then(t, Correlate(a, Merge(y))), MergedIncident(j, a);
            && Valid(next, window) && State(next).incidents == map[x := i, y := k]
            && k.Key() == KeyOf(a) && k.status == Open && k.firstSeenAt == a.receivedAt && k.lastSeenAt == j.lastSeenAt
  {
    hide Valid, State, Matches;
    NearEnough(j, KeyOf(a), a.receivedAt, window);
    MergeNext(t, a, x, y, i, j, window);
  }

  lemma NearEnough(i: Incident, key: CorrelationKey, at: Time, window: nat)
    ensures Matches(i, key, at, window) <==>
            i.Key() == key && i.status != Resolved && i.lastSeenAt >= at - window && i.firstSeenAt <= at + window
  {
  }

  lemma OpenNext(t: Trace, a: Alert, x: Uuid, incidents: map<Uuid, Incident>, window: nat)
    requires Valid(t, window) && State(t).incidents == incidents && x !in incidents
    requires forall id :: id in incidents ==> !Matches(incidents[id], KeyOf(a), a.receivedAt, window)
    ensures var next := Then(t, Correlate(a, Create(x, [], [])));
            Valid(next, window) && State(next).incidents == incidents[x := OpenedIncident(x, a)]
  {
    hide Matches;
  }

  lemma MergeNext(t: Trace, a: Alert, x: Uuid, y: Uuid, i: Incident, j: Incident, window: nat)
    requires Valid(t, window) && State(t).incidents == map[x := i, y := j] && x != y
    requires Matches(j, KeyOf(a), a.receivedAt, window) && i.lastSeenAt <= j.lastSeenAt
    ensures var next := Then(t, Correlate(a, Merge(y)));
            Valid(next, window) && State(next).incidents == map[x := i, y := MergedIncident(j, a)]
  {
    hide Matches;
  }
}
