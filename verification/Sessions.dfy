/** Streams delivered in order of arrival: the incidents are the session windows of the stream, cut exactly where
    the gap between neighbours exceeds the window. */
module Sessions {
  import opened Domain
  import opened Tables
  import opened Traces
  import opened History
  import opened Correlation
  import opened Storms
  import opened Separation

  function Flatten(parts: seq<seq<Alert>>): seq<Alert> {
    if parts == [] then [] else Flatten(parts[..|parts| - 1]) + parts[|parts| - 1]
  }

  ghost predicate InOrder(alerts: seq<Alert>) {
    forall i, j :: 0 <= i < j < |alerts| ==> alerts[i].receivedAt <= alerts[j].receivedAt
  }

  /** Neighbours inside a part are at most a window apart; the step to the next part is longer than the window. */
  ghost predicate SessionWindows(parts: seq<seq<Alert>>, window: nat) {
    && (forall p :: 0 <= p < |parts| ==> parts[p] != [])
    && (forall p, i :: 0 <= p < |parts| && 0 <= i && i + 1 < |parts[p]|
          ==> parts[p][i + 1].receivedAt - parts[p][i].receivedAt <= window)
    && (forall p :: 0 <= p && p + 1 < |parts|
          ==> parts[p + 1][0].receivedAt - parts[p][|parts[p]| - 1].receivedAt > window)
  }

  lemma FlattenAppendPart(parts: seq<seq<Alert>>, a: Alert)
    ensures Flatten(parts + [[a]]) == Flatten(parts) + [a]
  {
    assert (parts + [[a]])[..|parts|] == parts;
  }

  lemma FlattenExtendLast(parts: seq<seq<Alert>>, a: Alert)
    requires parts != []
    ensures Flatten(parts[|parts| - 1 := parts[|parts| - 1] + [a]]) == Flatten(parts) + [a]
  {
    var n := |parts| - 1;
    var longer := parts[n := parts[n] + [a]];
    assert longer[..n] == parts[..n];
  }

  /** The session windows of a stream are determined by the stream. */
  lemma {:induction false} SessionWindowsAreUnique(x: seq<seq<Alert>>, y: seq<seq<Alert>>, window: nat)
    requires SessionWindows(x, window) && SessionWindows(y, window) && Flatten(x) == Flatten(y)
    ensures x == y
    decreases |Flatten(x)|
  {
    if x != [] {
      LastIsLast(x);
      assert y != [];
      LastIsLast(y);
      DropLastFlattens(x, window);
      DropLastFlattens(y, window);
      SessionWindowsAreUnique(DropLast(x), DropLast(y), window);
      Reattach(x, window);
      Reattach(y, window);
    } else if y != [] {
      LastIsLast(y);
      assert false;
    }
  }

  /** A partition without its last element; a part that becomes empty is dropped. */
  function DropLast(x: seq<seq<Alert>>): seq<seq<Alert>>
    requires x != [] && x[|x| - 1] != []
  {
    var n := |x| - 1;
    if |x[n]| == 1 then x[..n] else x[n := x[n][..|x[n]| - 1]]
  }

  lemma LastIsLast(x: seq<seq<Alert>>)
    requires x != [] && x[|x| - 1] != []
    ensures Flatten(x) != [] && Flatten(x)[|Flatten(x)| - 1] == x[|x| - 1][|x[|x| - 1]| - 1]
  {
  }

  lemma DropLastFlattens(x: seq<seq<Alert>>, window: nat)
    requires x != [] && SessionWindows(x, window)
    ensures Flatten(x) != [] && Flatten(DropLast(x)) == Flatten(x)[..|Flatten(x)| - 1]
    ensures SessionWindows(DropLast(x), window)
  {
    DropLastFlat(x);
    DropLastIsSessions(x, window);
  }

  lemma DropLastFlat(x: seq<seq<Alert>>)
    requires x != [] && x[|x| - 1] != []
    ensures Flatten(x) != [] && Flatten(DropLast(x)) == Flatten(x)[..|Flatten(x)| - 1]
  {
    var n := |x| - 1;
    var y := DropLast(x);
    assert Flatten(x) == Flatten(x[..n]) + x[n];
    if |x[n]| > 1 {
      assert y[..n] == x[..n];
    }
  }

  lemma DropLastIsSessions(x: seq<seq<Alert>>, window: nat)
    requires x != [] && SessionWindows(x, window)
    ensures SessionWindows(DropLast(x), window)
  {
    var n := |x| - 1;
    var y: seq<seq<Alert>> := DropLast(x);
    forall p | 0 <= p < |y|
      ensures y[p] != [] && |y[p]| <= |x[p]| && y[p] == x[p][..|y[p]|] && (p < n ==> y[p] == x[p])
    {
    }
    forall p, i | 0 <= p < |y| && 0 <= i && i + 1 < |y[p]|
      ensures y[p][i + 1].receivedAt - y[p][i].receivedAt <= window
    {
      assert y[p][i] == x[p][i] && y[p][i + 1] == x[p][i + 1];
    }
    forall p | 0 <= p && p + 1 < |y|
      ensures y[p + 1][0].receivedAt - y[p][|y[p]| - 1].receivedAt > window
    {
      assert y[p + 1][0] == x[p + 1][0];
    }
  }

  /** Appends an element to a partition: to the last part if it is near enough, else as a part of its own. */
  function Attach(d: seq<seq<Alert>>, a: Alert, window: nat): seq<seq<Alert>>
    requires d != [] ==> d[|d| - 1] != []
  {
    if d != [] && a.receivedAt - d[|d| - 1][|d[|d| - 1]| - 1].receivedAt <= window
    then d[|d| - 1 := d[|d| - 1] + [a]]
    else d + [[a]]
  }

  /** The last element can only have been attached in one way. */
  lemma Reattach(x: seq<seq<Alert>>, window: nat)
    requires x != [] && SessionWindows(x, window)
    ensures SessionWindows(DropLast(x), window)
    ensures x == Attach(DropLast(x), x[|x| - 1][|x[|x| - 1]| - 1], window)
  {
    DropLastFlattens(x, window);
    if |x[|x| - 1]| == 1 {
      ReattachPart(x, window);
    } else {
      ReattachElement(x, window);
    }
  }

  lemma ReattachPart(x: seq<seq<Alert>>, window: nat)
    requires x != [] && SessionWindows(x, window) && |x[|x| - 1]| == 1
    ensures |x| > 1 ==> x[|x| - 2] != []
    ensures x == Attach(x[..|x| - 1], x[|x| - 1][0], window)
  {
    var m := |x| - 1;
    if m > 0 {
      assert x[m - 1] != [] && x[m - 1 + 1][0].receivedAt - x[m - 1][|x[m - 1]| - 1].receivedAt > window;
    }
    hide SessionWindows;
    assert x[m] == [x[m][0]];
    assert x == x[..m] + [x[m]];
  }

  lemma ReattachElement(x: seq<seq<Alert>>, window: nat)
    requires x != [] && SessionWindows(x, window) && |x[|x| - 1]| > 1
    ensures var part := x[|x| - 1];
            x == Attach(x[|x| - 1 := part[..|part| - 1]], part[|part| - 1], window)
  {
    var m := |x| - 1;
    var part := x[m];
    var n := |part| - 1;
    assert part[n - 1 + 1].receivedAt - part[n - 1].receivedAt <= window;
    hide SessionWindows;
    var d := x[m := part[..n]];
    assert |d| == |x| && d[m] == part[..n] && d[m][|d[m]| - 1] == part[n - 1];
    assert d[m] + [part[n]] == part;
    assert Attach(d, part[n], window) == d[m := part];
    assert d[m := part] == x;
  }

  // ---- incidents as sessions ----

  /** The incidents of the key, one per session, with the session's alerts and interval. */
  ghost predicate Represents(t: Trace, key: CorrelationKey, ids: seq<Uuid>, parts: seq<seq<Alert>>) {
    && |ids| == |parts|
    && (forall p :: 0 <= p < |ids| ==> IsSession(t, key, ids[p], parts[p]))
    && (forall p, q :: 0 <= p < q < |ids| ==> ids[p] != ids[q])
    && (forall id :: id in State(t).incidents && State(t).incidents[id].Key() == key ==> id in ids)
  }

  ghost predicate IsSession(t: Trace, key: CorrelationKey, id: Uuid, part: seq<Alert>) {
    && part != []
    && id in State(t).incidents
    && State(t).incidents[id].Key() == key
    && Members(t, id) == part
    && State(t).incidents[id].firstSeenAt == part[0].receivedAt
    && State(t).incidents[id].lastSeenAt == part[|part| - 1].receivedAt
  }

  ghost predicate NoIncident(d: Desk, key: CorrelationKey) {
    forall id :: id in d.incidents ==> d.incidents[id].Key() != key
  }

  /** Delivered in order, and while nothing is resolved, the alerts of a key unknown before are grouped exactly
      into their session windows. */
  lemma {:induction false} InOrderMakesSessions(t: Trace, s: Trace, key: CorrelationKey, window: nat)
    returns (ids: seq<Uuid>, parts: seq<seq<Alert>>)
    requires Valid(t, window) && Extends(t, s)
    requires NoIncident(State(s), key) && NothingResolved(t, s, key)
    requires InOrder(Since(t, s, key))
    ensures SessionWindows(parts, window) && Flatten(parts) == Since(t, s, key)
    ensures Represents(t, key, ids, parts)
  {
    if t == s {
      ids, parts := [], [];
      return;
    }
    var before, after := Since(t.past, s, key), Since(t, s, key);
    assert forall i :: 0 <= i < |before| ==> before[i] == after[i];
    PastNotResolved(t, s, key, window);
    ids, parts := InOrderMakesSessions(t.past, s, key, window);
    if t.op.Correlate? && KeyOf(t.op.alert) == key {
      assert after == before + [t.op.alert];
      ids, parts := NextInOrder(t, s, key, before, ids, parts, window);
    } else {
      hide *;
      OtherKeepsSessions(t, key, ids, parts, window);
    }
  }

  lemma OtherKeepsSessions(t: Trace, key: CorrelationKey, ids: seq<Uuid>, parts: seq<seq<Alert>>, window: nat)
    requires Valid(t, window) && t.Then? && !(t.op.Correlate? && KeyOf(t.op.alert) == key)
    requires Represents(t.past, key, ids, parts)
    ensures Represents(t, key, ids, parts)
  {
    OtherKeyKeepsIncidents(t, key, window);
    hide State, Step, Guard, Members;
    forall p | 0 <= p < |ids|
      ensures IsSession(t, key, ids[p], parts[p])
    {
      assert IsSession(t.past, key, ids[p], parts[p]);
    }
  }

  lemma NextInOrder(t: Trace, s: Trace, key: CorrelationKey, before: seq<Alert>, ids: seq<Uuid>, parts: seq<seq<Alert>>, window: nat)
    returns (ids': seq<Uuid>, parts': seq<seq<Alert>>)
    requires Valid(t, window) && t.Then? && Extends(t.past, s) && t.op.Correlate? && KeyOf(t.op.alert) == key
    requires NoIncident(State(s), key) && NothingResolved(t.past, s, key)
    requires InOrder(before + [t.op.alert])
    requires SessionWindows(parts, window) && Flatten(parts) == before && Represents(t.past, key, ids, parts)
    ensures SessionWindows(parts', window) && Flatten(parts') == before + [t.op.alert]
    ensures Represents(t, key, ids', parts')
  {
    var alert := t.op.alert;
    if parts != [] && alert.receivedAt - parts[|parts| - 1][|parts[|parts| - 1]| - 1].receivedAt <= window {
      ids', parts' := ids, parts[|parts| - 1 := parts[|parts| - 1] + [alert]];
      hide *;
      NextContinues(t, s, key, before, ids, parts, window);
    } else {
      ids', parts' := ids + [t.op.choice.id], parts + [[alert]];
      hide *;
      NextStarts(t, key, before, ids, parts, window);
    }
  }

  lemma NextContinues(t: Trace, s: Trace, key: CorrelationKey, before: seq<Alert>, ids: seq<Uuid>, parts: seq<seq<Alert>>, window: nat)
    requires Valid(t, window) && t.Then? && Extends(t.past, s) && t.op.Correlate? && KeyOf(t.op.alert) == key
    requires NoIncident(State(s), key) && NothingResolved(t.past, s, key)
    requires InOrder(before + [t.op.alert])
    requires SessionWindows(parts, window) && Flatten(parts) == before && Represents(t.past, key, ids, parts)
    requires parts != []
    requires var last := parts[|parts| - 1]; t.op.alert.receivedAt - last[|last| - 1].receivedAt <= window
    ensures var parts' := parts[|parts| - 1 := parts[|parts| - 1] + [t.op.alert]];
            && SessionWindows(parts', window) && Flatten(parts') == before + [t.op.alert]
            && Represents(t, key, ids, parts')
  {
    hide Valid, NoIncident, NothingResolved, Represents, SessionWindows, Flatten, InOrder, Extends;
    ContinuesLast(t, s, key, before, ids, parts, window);
    StreamBefore(before, t.op.alert, parts);
    FlattenExtendLast(parts, t.op.alert);
    ExtendedIsSessions(parts, t.op.alert, window);
    MergedRepresents(t, key, ids, parts, window);
  }

  lemma NextStarts(t: Trace, key: CorrelationKey, before: seq<Alert>, ids: seq<Uuid>, parts: seq<seq<Alert>>, window: nat)
    requires Valid(t, window) && t.Then? && t.op.Correlate? && KeyOf(t.op.alert) == key
    requires InOrder(before + [t.op.alert])
    requires SessionWindows(parts, window) && Flatten(parts) == before && Represents(t.past, key, ids, parts)
    requires parts != [] ==> var last := parts[|parts| - 1]; t.op.alert.receivedAt - last[|last| - 1].receivedAt > window
    ensures SessionWindows(parts + [[t.op.alert]], window) && Flatten(parts + [[t.op.alert]]) == before + [t.op.alert]
    ensures Represents(t, key, ids + [t.op.choice.id], parts + [[t.op.alert]])
  {
    hide Valid, Represents, SessionWindows, Flatten, InOrder;
    StartsNew(t, key, before, ids, parts, window);
    FlattenAppendPart(parts, t.op.alert);
    AppendedIsSessions(parts, t.op.alert, window);
    CreatedRepresents(t, key, ids, parts, window);
  }

  lemma ExtendedIsSessions(parts: seq<seq<Alert>>, a: Alert, window: nat)
    requires SessionWindows(parts, window) && parts != []
    requires var last := parts[|parts| - 1]; a.receivedAt - last[|last| - 1].receivedAt <= window
    ensures SessionWindows(parts[|parts| - 1 := parts[|parts| - 1] + [a]], window)
  {
  }

  lemma AppendedIsSessions(parts: seq<seq<Alert>>, a: Alert, window: nat)
    requires SessionWindows(parts, window)
    requires parts != [] ==> var last := parts[|parts| - 1]; a.receivedAt - last[|last| - 1].receivedAt > window
    ensures SessionWindows(parts + [[a]], window)
  {
    var longer, n := parts + [[a]], |parts|;
    assert longer[n] == [a] && forall p :: 0 <= p < n ==> longer[p] == parts[p];
    forall p | 0 <= p && p + 1 < |longer|
      ensures longer[p + 1][0].receivedAt - longer[p][|longer[p]| - 1].receivedAt > window
    {
      if p + 1 < n {
        assert parts[p + 1][0].receivedAt - parts[p][|parts[p]| - 1].receivedAt > window;
      }
    }
  }

  /** Every element of every part is somewhere in the stream. */
  lemma {:induction false} AllBefore(parts: seq<seq<Alert>>, at: Time)
    requires forall k :: 0 <= k < |Flatten(parts)| ==> Flatten(parts)[k].receivedAt <= at
    ensures forall p, i :: 0 <= p < |parts| && 0 <= i < |parts[p]| ==> parts[p][i].receivedAt <= at
  {
    if parts != [] {
      var n := |parts| - 1;
      var init := Flatten(parts[..n]);
      assert Flatten(parts) == init + parts[n];
      assert forall k :: 0 <= k < |init| ==> Flatten(parts)[k] == init[k];
      assert forall i :: 0 <= i < |parts[n]| ==> Flatten(parts)[|init| + i] == parts[n][i];
      AllBefore(parts[..n], at);
    }
  }

  /** Of all sessions so far only the last can still receive an alert that arrives after them. */
  lemma OnlyLastMatches(t: Trace, key: CorrelationKey, ids: seq<Uuid>, parts: seq<seq<Alert>>, id: Uuid, at: Time, window: nat)
    requires SessionWindows(parts, window) && Represents(t, key, ids, parts)
    requires forall p, i :: 0 <= p < |parts| && 0 <= i < |parts[p]| ==> parts[p][i].receivedAt <= at
    requires id in State(t).incidents && Matches(State(t).incidents[id], key, at, window)
    ensures parts != [] && id == ids[|ids| - 1]
    ensures var last := parts[|parts| - 1]; at - last[|last| - 1].receivedAt <= window
  {
    hide State, Members;
    var p :| 0 <= p < |ids| && ids[p] == id;
    assert IsSession(t, key, ids[p], parts[p]);
    if p + 1 < |ids| {
      EarlierIsTooOld(parts, p, at, window);
    }
  }

  lemma EarlierIsTooOld(parts: seq<seq<Alert>>, p: nat, at: Time, window: nat)
    requires SessionWindows(parts, window) && p + 1 < |parts|
    requires forall p, i :: 0 <= p < |parts| && 0 <= i < |parts[p]| ==> parts[p][i].receivedAt <= at
    ensures parts[p] != [] && parts[p][|parts[p]| - 1].receivedAt < at - window
  {
    assert parts[p + 1][0].receivedAt <= at;
  }

  /** The incidents of a key that is new since `s` are all unresolved. */
  lemma NoneResolved(t: Trace, s: Trace, key: CorrelationKey, id: Uuid, window: nat)
    requires Valid(t, window) && Extends(t, s) && NoIncident(State(s), key) && NothingResolved(t, s, key)
    requires id in State(t).incidents && State(t).incidents[id].Key() == key
    ensures State(t).incidents[id].status != Resolved
  {
    RunFollows(t, s, window);
    RowsPersist(State(s), State(t));
  }

  lemma StreamBefore(before: seq<Alert>, alert: Alert, parts: seq<seq<Alert>>)
    requires InOrder(before + [alert]) && Flatten(parts) == before
    ensures forall p, i :: 0 <= p < |parts| && 0 <= i < |parts[p]| ==> parts[p][i].receivedAt <= alert.receivedAt
  {
    var all := before + [alert];
    assert all[|before|] == alert;
    forall k | 0 <= k < |before|
      ensures Flatten(parts)[k].receivedAt <= alert.receivedAt
    {
      assert all[k] == before[k];
    }
    AllBefore(parts, alert.receivedAt);
  }

  lemma ContinuesLast(t: Trace, s: Trace, key: CorrelationKey, before: seq<Alert>, ids: seq<Uuid>, parts: seq<seq<Alert>>, window: nat)
    requires Valid(t, window) && t.Then? && Extends(t.past, s) && t.op.Correlate? && KeyOf(t.op.alert) == key
    requires NoIncident(State(s), key) && NothingResolved(t.past, s, key)
    requires InOrder(before + [t.op.alert])
    requires SessionWindows(parts, window) && Flatten(parts) == before && Represents(t.past, key, ids, parts)
    requires parts != []
    requires var last := parts[|parts| - 1]; t.op.alert.receivedAt - last[|last| - 1].receivedAt <= window
    ensures t.op.choice == Merge(ids[|ids| - 1])
  {
    var at, last := t.op.alert.receivedAt, ids[|ids| - 1];
    StreamBefore(before, t.op.alert, parts);
    assert IsSession(t.past, key, last, parts[|parts| - 1]);
    NoneResolved(t.past, s, key, last, window);
    assert Matches(State(t.past).incidents[last], key, at, window);
    assert t.op.choice.Merge?;
    OnlyLastMatches(t.past, key, ids, parts, t.op.choice.id, at, window);
  }

  lemma StartsNew(t: Trace, key: CorrelationKey, before: seq<Alert>, ids: seq<Uuid>, parts: seq<seq<Alert>>, window: nat)
    requires Valid(t, window) && t.Then? && t.op.Correlate? && KeyOf(t.op.alert) == key
    requires InOrder(before + [t.op.alert])
    requires SessionWindows(parts, window) && Flatten(parts) == before && Represents(t.past, key, ids, parts)
    requires parts != [] ==> var last := parts[|parts| - 1]; t.op.alert.receivedAt - last[|last| - 1].receivedAt > window
    ensures t.op.choice.Create?
  {
    StreamBefore(before, t.op.alert, parts);
    if t.op.choice.Merge? {
      OnlyLastMatches(t.past, key, ids, parts, t.op.choice.id, t.op.alert.receivedAt, window);
    }
  }

  lemma MergedRepresents(t: Trace, key: CorrelationKey, ids: seq<Uuid>, parts: seq<seq<Alert>>, window: nat)
    requires Valid(t, window) && t.Then? && t.op.Correlate? && KeyOf(t.op.alert) == key
    requires Represents(t.past, key, ids, parts) && parts != [] && t.op.choice == Merge(ids[|ids| - 1])
    requires forall p, i :: 0 <= p < |parts| && 0 <= i < |parts[p]| ==> parts[p][i].receivedAt <= t.op.alert.receivedAt
    ensures Represents(t, key, ids, parts[|parts| - 1 := parts[|parts| - 1] + [t.op.alert]])
  {
    var n := |parts| - 1;
    LastGrows(t, key, ids[n], parts[n], window) by {
      assert IsSession(t.past, key, ids[n], parts[n]);
    }
    forall p | 0 <= p < n
      ensures IsSession(t, key, ids[p], parts[p])
    {
      OtherSessionStays(t, key, ids[p], parts[p], window) by {
        assert IsSession(t.past, key, ids[p], parts[p]);
      }
    }
    assert State(t).incidents.Keys == State(t.past).incidents.Keys;
    forall id | id in State(t).incidents && State(t).incidents[id].Key() == key
      ensures id in ids
    {
      if id != t.op.choice.id {
        OtherIncidentStep(State(t.past), t.op, id, window);
      }
    }
    hide IsSession, State;
  }

  lemma LastGrows(t: Trace, key: CorrelationKey, id: Uuid, part: seq<Alert>, window: nat)
    requires Valid(t, window) && t.Then? && t.op.Correlate? && t.op.choice == Merge(id)
    requires IsSession(t.past, key, id, part)
    requires forall i :: 0 <= i < |part| ==> part[i].receivedAt <= t.op.alert.receivedAt
    ensures IsSession(t, key, id, part + [t.op.alert])
  {
  }

  lemma OtherSessionStays(t: Trace, key: CorrelationKey, id: Uuid, part: seq<Alert>, window: nat)
    requires Valid(t, window) && t.Then? && t.op.Correlate? && t.op.choice.id != id
    requires IsSession(t.past, key, id, part)
    ensures IsSession(t, key, id, part)
  {
    OtherIncidentStep(State(t.past), t.op, id, window);
  }

  lemma CreatedRepresents(t: Trace, key: CorrelationKey, ids: seq<Uuid>, parts: seq<seq<Alert>>, window: nat)
    requires Valid(t, window) && t.Then? && t.op.Correlate? && KeyOf(t.op.alert) == key
    requires Represents(t.past, key, ids, parts) && t.op.choice.Create?
    ensures Represents(t, key, ids + [t.op.choice.id], parts + [[t.op.alert]])
  {
    UnknownHasNoMembers(t.past, t.op.choice.id, window);
    assert IsSession(t, key, t.op.choice.id, [t.op.alert]);
    forall p | 0 <= p < |ids|
      ensures IsSession(t, key, ids[p], parts[p]) && ids[p] != t.op.choice.id
    {
      assert IsSession(t.past, key, ids[p], parts[p]);
      OtherSessionStays(t, key, ids[p], parts[p], window);
    }
    hide IsSession;
    forall id | id in State(t).incidents && State(t).incidents[id].Key() == key
      ensures id in ids + [t.op.choice.id]
    {
      if id != t.op.choice.id {
        assert id in State(t.past).incidents;
        assert id in ids;
      }
    }
  }

  // ---- separation ----

  lemma {:induction false} PartsInOrder(parts: seq<seq<Alert>>)
    requires InOrder(Flatten(parts))
    ensures forall p :: 0 <= p < |parts| ==> InOrder(parts[p])
  {
    if parts != [] {
      var n := |parts| - 1;
      var init := Flatten(parts[..n]);
      assert Flatten(parts) == init + parts[n];
      assert forall k :: 0 <= k < |init| ==> Flatten(parts)[k] == init[k];
      assert forall i :: 0 <= i < |parts[n]| ==> Flatten(parts)[|init| + i] == parts[n][i];
      PartsInOrder(parts[..n]);
    }
  }

  lemma {:induction false} SessionsApart(parts: seq<seq<Alert>>, window: nat, p: nat, q: nat)
    requires SessionWindows(parts, window) && (forall k :: 0 <= k < |parts| ==> InOrder(parts[k]))
    requires p < q < |parts|
    ensures parts[q][0].receivedAt - parts[p][|parts[p]| - 1].receivedAt > window
  {
    if p + 1 < q {
      SessionsApart(parts, window, p, q - 1);
      assert parts[q - 1][0].receivedAt <= parts[q - 1][|parts[q - 1]| - 1].receivedAt;
    }
  }

  /** Two incidents of a stream delivered in order never come within a window of each other. */
  lemma InOrderIncidentsAreApart(t: Trace, s: Trace, key: CorrelationKey, a: Uuid, b: Uuid, window: nat)
    requires Valid(t, window) && Extends(t, s)
    requires NoIncident(State(s), key) && NothingResolved(t, s, key)
    requires InOrder(Since(t, s, key))
    requires a in State(t).incidents && b in State(t).incidents && a != b
    requires State(t).incidents[a].Key() == key && State(t).incidents[b].Key() == key
    ensures Apart(State(t).incidents[a], State(t).incidents[b], window)
  {
    var ids, parts := InOrderMakesSessions(t, s, key, window);
    PartsInOrder(parts);
    var p :| 0 <= p < |ids| && ids[p] == a;
    var q :| 0 <= q < |ids| && ids[q] == b;
    assert IsSession(t, key, ids[p], parts[p]) && IsSession(t, key, ids[q], parts[q]);
    if p < q {
      SessionsApart(parts, window, p, q);
    } else {
      SessionsApart(parts, window, q, p);
    }
  }
}
