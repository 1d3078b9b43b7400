/** What notification targets observe over whole runs: repeated calls under one key never differ, their number is
    bounded by the policy, and with the recording sink a sent escalation is recorded exactly once. */
module Notifications {
  import opened Domain
  import opened Keys
  import opened Tables
  import opened Traces
  import opened History
  import opened Worlds
  import opened Text
  import opened Policies

  /** The notification a row stands for; it depends only on columns that never change. */
  function NotificationFor(e: Escalation): Notification {
    NotificationOf(ClaimOf(e, Open))
  }

  // ---- calls ----

  ghost predicate CallSound(d: Desk, call: Call) {
    && call.row in d.escalations
    && var e := d.escalations[call.row];
    && call.notification == NotificationFor(e) && call.target == e.target
    && 1 <= call.token <= e.token
  }

  /** Each claim has one job, makes at most one call, and makes it before anything else. */
  ghost predicate CallsSound(w: World) {
    && (forall i :: 0 <= i < |w.calls| ==> CallSound(w.db.desk, w.calls[i]))
    && (forall i, j :: 0 <= i < j < |w.calls| ==> w.calls[i].row != w.calls[j].row || w.calls[i].token != w.calls[j].token)
    && (forall j, k :: j in w.jobs && k in w.jobs && j.claim.id == k.claim.id && j.claim.token == k.claim.token ==> j == k)
    && (forall j, i :: j in w.jobs && j.phase == Held && 0 <= i < |w.calls|
          ==> w.calls[i].row != j.claim.id || w.calls[i].token != j.claim.token)
  }

  ghost predicate JobsMatch(w: World) {
    forall job :: job in w.jobs ==> Matching(w.db.desk, job.claim)
  }

  lemma JobsMatchRows(c: Config, r: Run)
    requires ValidRun(c, r)
    ensures JobsMatch(WorldAfter(c, r)) && Sound(WorldAfter(c, r).db.desk)
  {
    RunsAreTraces(c, r);
    TraceIsSound(DeskTrace(c, r), c.window);
    forall job | job in WorldAfter(c, r).jobs
      ensures Matching(WorldAfter(c, r).db.desk, job.claim)
    {
      ClaimMatchesRow(DeskTrace(c, r), job.claim, c.window);
    }
  }

  lemma DeskFollows(c: Config, r: Run)
    requires ValidRun(c, r) && r.Do?
    ensures Follows(WorldAfter(c, r.past).db.desk, WorldAfter(c, r).db.desk)
  {
    RunsAreTraces(c, r);
    RunsAreTraces(c, r.past);
    RunFollows(DeskTrace(c, r), DeskTrace(c, r.past), c.window);
  }

  lemma CallStaysSound(d: Desk, next: Desk, call: Call)
    requires Follows(d, next) && CallSound(d, call)
    ensures CallSound(next, call)
  {
    assert EscalationFollows(d, next, call.row);
  }

  lemma NotifyKeepsCalls(c: Config, w: World, a: Action)
    requires CallsSound(w) && JobsMatch(w) && Possible(c, w, a) && a.Notify?
    ensures CallsSound(Next(c, w, a))
  {
    var v := Next(c, w, a);
    assert v.db.desk == w.db.desk;
    assert Matching(w.db.desk, a.job.claim);
    hide NotificationKey, Next, NextDesk;
    assert v.calls == w.calls + [Call(a.job.claim.id, a.job.claim.token, a.job.claim.target, a.ok, NotificationOf(a.job.claim))]
           && v.jobs == NextJobs(w, a) by { FieldsOfNext(c, w, a); }
    assert CallSound(w.db.desk, v.calls[|w.calls|]);
  }

  lemma FieldsOfNext(c: Config, w: World, a: Action)
    ensures Next(c, w, a).calls == NextCalls(w, a) && Next(c, w, a).jobs == NextJobs(w, a)
    ensures Next(c, w, a).db.desk == NextDesk(w, a) && Next(c, w, a).db.deliveries == NextDeliveries(w, a)
  {
  }

  lemma ClaimKeepsCalls(c: Config, w: World, a: Action)
    requires CallsSound(w) && JobsMatch(w) && Sound(w.db.desk) && Possible(c, w, a) && a.ClaimRow?
    requires Follows(w.db.desk, NextDesk(w, a))
    ensures CallsSound(Next(c, w, a))
  {
    var v := Next(c, w, a);
    FieldsOfNext(c, w, a);
    hide Next, NextDesk, NotificationKey, Follows, RowSound, IncidentsSound, StepsUnique;
    forall i | 0 <= i < |v.calls|
      ensures CallSound(v.db.desk, v.calls[i]) && v.calls[i].token <= w.db.desk.escalations[v.calls[i].row].token
    {
      assert CallSound(w.db.desk, w.calls[i]);
      CallStaysSound(w.db.desk, v.db.desk, w.calls[i]);
    }
    var added := Job(ClaimOf(ClaimedRow(w.db.desk.escalations[a.row], a.lease, w.now + a.length), Open), Held);
    assert v.jobs == w.jobs + {added} && added.claim.token == w.db.desk.escalations[a.row].token + 1;
    forall job | job in w.jobs
      ensures job.claim.id != added.claim.id || job.claim.token != added.claim.token
    {
      assert Matching(w.db.desk, job.claim);
      assert RowPlaced(w.db.desk, a.row);
    }
    assert added.claim.id == a.row by { assert RowPlaced(w.db.desk, a.row); }
  }

  lemma OtherKeepsCalls(c: Config, w: World, a: Action)
    requires CallsSound(w) && Possible(c, w, a) && !a.Notify? && !a.ClaimRow?
    requires Follows(w.db.desk, NextDesk(w, a))
    ensures CallsSound(Next(c, w, a))
  {
    var v := Next(c, w, a);
    FieldsOfNext(c, w, a);
    hide Next, NextDesk, NotificationKey, Possible;
    forall i | 0 <= i < |v.calls|
      ensures CallSound(v.db.desk, v.calls[i])
    {
      assert CallSound(w.db.desk, w.calls[i]);
      CallStaysSound(w.db.desk, v.db.desk, w.calls[i]);
    }
  }

  lemma {:induction false} CallsAreSound(c: Config, r: Run)
    requires ValidRun(c, r)
    ensures CallsSound(WorldAfter(c, r))
  {
    if r.Do? {
      CallsAreSound(c, r.past);
      JobsMatchRows(c, r.past);
      DeskFollows(c, r);
      var w, a := WorldAfter(c, r.past), r.action;
      FieldsOfNext(c, w, a);
      hide CallsSound, JobsMatch, Follows, Next, NextDesk, Sound;
      if a.Notify? {
        NotifyKeepsCalls(c, w, a);
      } else if a.ClaimRow? {
        ClaimKeepsCalls(c, w, a);
      } else {
        OtherKeepsCalls(c, w, a);
      }
    }
  }

  /** Two rows with the same idempotency key are the same row. */
  lemma KeyDeterminesRow(d: Desk, a: Uuid, b: Uuid)
    requires Sound(d) && a in d.escalations && b in d.escalations
    requires NotificationFor(d.escalations[a]).key == NotificationFor(d.escalations[b]).key
    ensures a == b
  {
    KeysAreDistinct(d.escalations[a].incident, d.escalations[a].step, d.escalations[b].incident, d.escalations[b].step);
  }

  /** Receivers may rely on the key: any two calls of a run that carry the same idempotency key carry the same
      notification to the same target, however the incident has changed in between. */
  lemma SameKeySamePayload(c: Config, r: Run, i: nat, j: nat)
    requires ValidRun(c, r) && i < |WorldAfter(c, r).calls| && j < |WorldAfter(c, r).calls|
    requires WorldAfter(c, r).calls[i].notification.key == WorldAfter(c, r).calls[j].notification.key
    ensures WorldAfter(c, r).calls[i].notification == WorldAfter(c, r).calls[j].notification
    ensures WorldAfter(c, r).calls[i].target == WorldAfter(c, r).calls[j].target
    ensures WorldAfter(c, r).calls[i].row == WorldAfter(c, r).calls[j].row
  {
    CallsAreSound(c, r);
    JobsMatchRows(c, r);
    var w := WorldAfter(c, r);
    hide WorldAfter, ValidRun, NotificationKey, JobsMatch;
    assert CallSound(w.db.desk, w.calls[i]) && CallSound(w.db.desk, w.calls[j]);
    KeyDeterminesRow(w.db.desk, w.calls[i].row, w.calls[j].row);
  }

  /** How many calls carry a key. */
  function CallsWith(calls: seq<Call>, key: string): nat {
    if calls == [] then 0
    else CallsWith(calls[..|calls| - 1], key) + (if calls[|calls| - 1].notification.key == key then 1 else 0)
  }

  function TokensWith(calls: seq<Call>, key: string): set<int> {
    set i | 0 <= i < |calls| && calls[i].notification.key == key :: calls[i].token
  }

  lemma {:induction false} CallsAreTokens(calls: seq<Call>, key: string)
    requires forall i, j :: 0 <= i < j < |calls| && calls[i].notification.key == key && calls[j].notification.key == key
                            ==> calls[i].token != calls[j].token
    ensures CallsWith(calls, key) == |TokensWith(calls, key)|
  {
    if calls != [] {
      var n := |calls| - 1;
      CallsAreTokens(calls[..n], key);
      TokensStep(calls, key);
      hide TokensWith;
    }
  }

  lemma TokensStep(calls: seq<Call>, key: string)
    requires calls != []
    requires forall i, j :: 0 <= i < j < |calls| && calls[i].notification.key == key && calls[j].notification.key == key
                            ==> calls[i].token != calls[j].token
    ensures var n := |calls| - 1;
            |TokensWith(calls, key)| == |TokensWith(calls[..n], key)| + (if calls[n].notification.key == key then 1 else 0)
  {
    var n := |calls| - 1;
    var fewer := TokensWith(calls[..n], key);
    if calls[n].notification.key == key {
      TokensPlus(calls, key);
    } else {
      assert TokensWith(calls, key) == fewer;
    }
  }

  lemma TokensPlus(calls: seq<Call>, key: string)
    requires calls != [] && calls[|calls| - 1].notification.key == key
    requires forall i, j :: 0 <= i < j < |calls| && calls[i].notification.key == key && calls[j].notification.key == key
                            ==> calls[i].token != calls[j].token
    ensures var n := |calls| - 1;
            TokensWith(calls, key) == TokensWith(calls[..n], key) + {calls[n].token} && calls[n].token !in TokensWith(calls[..n], key)
  {
    var n := |calls| - 1;
    var fewer := TokensWith(calls[..n], key);
    forall token | token in TokensWith(calls, key)
      ensures token in fewer || token == calls[n].token
    {
      var i :| 0 <= i < |calls| && calls[i].notification.key == key && calls[i].token == token;
      if i < n {
        assert calls[..n][i] == calls[i];
      }
    }
    forall token | token in fewer
      ensures token in TokensWith(calls, key) && token != calls[n].token
    {
      var i :| 0 <= i < n && calls[..n][i].notification.key == key && calls[..n][i].token == token;
      assert calls[i].token == token;
    }
  }

  lemma {:induction false} BoundedSet(s: set<int>, n: nat)
    requires forall x :: x in s ==> 1 <= x <= n
    ensures |s| <= n
  {
    if n == 0 {
      assert forall x :: x !in s;
      assert |s| == 0;
    } else {
      BoundedSet(s - {n}, n - 1);
    }
  }

  /** A row's key is used in at most as many calls as the policy allows attempts, over the whole run. */
  lemma CallsAreBounded(c: Config, r: Run, row: Uuid)
    requires ValidRun(c, r) && row in WorldAfter(c, r).db.desk.escalations
    ensures var e := WorldAfter(c, r).db.desk.escalations[row];
            CallsWith(WorldAfter(c, r).calls, NotificationFor(e).key) <= e.attempts <= e.maxAttempts
  {
    CallsAreSound(c, r);
    JobsMatchRows(c, r);
    var w := WorldAfter(c, r);
    hide WorldAfter, ValidRun, NotificationKey, JobsMatch;
    var e := w.db.desk.escalations[row];
    var key := NotificationFor(e).key;
    assert RowPlaced(w.db.desk, row);
    forall i | 0 <= i < |w.calls| && w.calls[i].notification.key == key
      ensures w.calls[i].row == row && 1 <= w.calls[i].token <= e.attempts
    {
      assert CallSound(w.db.desk, w.calls[i]);
      KeyDeterminesRow(w.db.desk, w.calls[i].row, row);
    }
    hide CallSound, Sound;
    CallsAreTokens(w.calls, key);
    BoundedSet(TokensWith(w.calls, key), e.attempts);
  }

  /** Field by field: what a receiver is told is the incident, step number, title and severity of the row, under the key
      made of its incident and step. */
  predicate Tells(n: Notification, e: Escalation) {
    && n.incident == e.incident && n.title == e.title && n.severity == e.severity && n.step == e.step
    && n.key == UuidText(e.incident) + ":" + Decimal(e.step)
  }

  lemma NotificationTells(e: Escalation)
    ensures Tells(NotificationFor(e), e)
  {
  }

  /** The notification carries the title and severity of the alert that opened the incident and the number of the policy
      step. */
  predicate TellsOf(n: Notification, o: Origin) {
    n.incident == o.incident && n.title == o.alert.title && n.severity == o.alert.severity && n.step == o.step.number
  }

  lemma RowTellsOf(c: Config, r: Run, row: Uuid, n: Notification) returns (o: Origin)
    requires ValidRun(c, r) && row in WorldAfter(c, r).db.desk.escalations
    requires Tells(n, WorldAfter(c, r).db.desk.escalations[row])
    ensures ComesFrom(DeskTrace(c, r), row, o) && TellsOf(n, o)
    ensures WorldAfter(c, r).db.desk.escalations[row].target == o.step.target
  {
    RunsAreTraces(c, r);
    hide WorldAfter, ValidRun, DeskTrace, Valid, State, ComesFrom, UuidText, Decimal;
    o := RowsKeepTheirPolicy(DeskTrace(c, r), row, c.window);
  }

  /** Every call of a run tells the receiver of its row what the row says, and so what the opening alert and the policy
      said. */
  lemma CallsTellTheirRow(c: Config, r: Run, i: nat) returns (o: Origin)
    requires ValidRun(c, r) && i < |WorldAfter(c, r).calls|
    ensures var call, d := WorldAfter(c, r).calls[i], WorldAfter(c, r).db.desk;
            && call.row in d.escalations && Tells(call.notification, d.escalations[call.row])
            && ComesFrom(DeskTrace(c, r), call.row, o) && TellsOf(call.notification, o)
            && call.target == o.step.target
  {
    CallsAreSound(c, r);
    var w := WorldAfter(c, r);
    assert CallSound(w.db.desk, w.calls[i]);
    hide WorldAfter, ValidRun, DeskTrace, ComesFrom, Tells, TellsOf, CallsSound, NotificationFor;
    NotificationTells(w.db.desk.escalations[w.calls[i].row]);
    o := RowTellsOf(c, r, w.calls[i].row, w.calls[i].notification);
  }

  // ---- the recording sink ----

  /** Recorded deliveries have distinct keys. */
  ghost predicate KeysUnique(deliveries: seq<Notification>) {
    forall i, j :: 0 <= i < j < |deliveries| ==> deliveries[i].key != deliveries[j].key
  }

  /** Every recorded delivery is the notification of a row addressed to the sink. */
  ghost predicate Genuine(c: Config, d: Desk, n: Notification) {
    exists row :: row in d.escalations && d.escalations[row].target == c.sink && NotificationFor(d.escalations[row]) == n
  }

  ghost predicate SinkSound(c: Config, w: World) {
    && KeysUnique(w.db.deliveries)
    && (forall n :: n in w.db.deliveries ==> Genuine(c, w.db.desk, n))
    && (forall job :: job in w.jobs && job.phase == NotifiedOk && job.claim.target == c.sink
          ==> Delivered(w.db.deliveries, NotificationOf(job.claim).key))
    && (forall row :: row in w.db.desk.escalations && w.db.desk.escalations[row].status == Sent
                      && w.db.desk.escalations[row].target == c.sink
          ==> Delivered(w.db.deliveries, NotificationFor(w.db.desk.escalations[row]).key))
  }

  lemma GenuineLater(c: Config, d: Desk, next: Desk, n: Notification)
    requires Follows(d, next) && Genuine(c, d, n)
    ensures Genuine(c, next, n)
  {
    var row :| row in d.escalations && d.escalations[row].target == c.sink && NotificationFor(d.escalations[row]) == n;
    assert EscalationFollows(d, next, row);
    assert NotificationFor(next.escalations[row]) == n;
  }

  lemma NotifyKeepsSink(c: Config, w: World, a: Action)
    requires SinkSound(c, w) && JobsMatch(w) && Possible(c, w, a) && a.Notify?
    ensures SinkSound(c, Next(c, w, a))
  {
    var v := Next(c, w, a);
    FieldsOfNext(c, w, a);
    var claim := a.job.claim;
    assert v.db.desk == w.db.desk;
    assert Matching(w.db.desk, claim);
    var n := NotificationOf(claim);
    assert NotificationFor(w.db.desk.escalations[claim.id]) == n;
    hide Next, NextDesk, NotificationKey, JobsMatch, Matching, NotificationOf, ClaimOf, NextCalls;
    assert forall key :: Delivered(w.db.deliveries, key) ==> Delivered(v.db.deliveries, key);
    if a.recorded {
      assert n in v.db.deliveries || Delivered(w.db.deliveries, n.key);
      assert Delivered(v.db.deliveries, n.key);
      assert Genuine(c, w.db.desk, n);
      RecordedKeepsUnique(w.db.deliveries, n);
    }
  }

  lemma RecordedKeepsUnique(deliveries: seq<Notification>, n: Notification)
    requires KeysUnique(deliveries)
    ensures KeysUnique(Recorded(deliveries, n))
    ensures forall m :: m in Recorded(deliveries, n) ==> m in deliveries || m == n
  {
    if !Delivered(deliveries, n.key) {
      assert forall i :: 0 <= i < |deliveries| ==> deliveries[i] in deliveries;
    }
  }

  /** A row becomes sent only when a job whose call succeeded completes it. */
  lemma SentStep(c: Config, w: World, a: Action, row: Uuid)
    requires Possible(c, w, a) && Sound(w.db.desk) && row in NextDesk(w, a).escalations
    requires NextDesk(w, a).escalations[row].status == Sent
    ensures || (row in w.db.desk.escalations && w.db.desk.escalations[row].status == Sent)
            || (a.Finish? && a.job in w.jobs && a.job.phase == NotifiedOk && a.job.claim.id == row)
  {
    var op := OpOf(w, a);
    if op.Some? {
      GuardOf(c, w, a);
      if RowOf(op.value) == Some(row) {
        RowStep(w.db.desk, op.value, c.window);
      } else if row in w.db.desk.escalations {
        OtherRowStep(w.db.desk, op.value, row, c.window);
      } else if RowOf(op.value).Some? {
        RowStep(w.db.desk, op.value, c.window);
      } else {
        AddedRowsAreNew(w.db.desk, op.value.alert, op.value.choice);
      }
    }
  }

  lemma GuardOf(c: Config, w: World, a: Action)
    requires Possible(c, w, a) && OpOf(w, a).Some?
    ensures Guard(w.db.desk, OpOf(w, a).value, c.window)
  {
  }

  lemma OtherKeepsSink(c: Config, w: World, a: Action)
    requires SinkSound(c, w) && JobsMatch(w) && Possible(c, w, a) && !a.Notify? && Sound(w.db.desk)
    requires Follows(w.db.desk, NextDesk(w, a))
    ensures SinkSound(c, Next(c, w, a))
  {
    var v := Next(c, w, a);
    FieldsOfNext(c, w, a);
    assert v.db.deliveries == w.db.deliveries;
    OtherJobs(w, a);
    hide Next, NextDesk, NextJobs, Possible, NextDeliveries, NotificationKey, OpOf, Genuine, Delivered;
    forall n | n in v.db.deliveries
      ensures Genuine(c, v.db.desk, n)
    {
      GenuineLater(c, w.db.desk, v.db.desk, n);
    }
    forall row | row in v.db.desk.escalations && v.db.desk.escalations[row].status == Sent
                 && v.db.desk.escalations[row].target == c.sink
      ensures Delivered(v.db.deliveries, NotificationFor(v.db.desk.escalations[row]).key)
    {
      SentWasDelivered(c, w, a, row);
    }
  }

  lemma OtherJobs(w: World, a: Action)
    requires !a.Notify?
    ensures forall job :: job in NextJobs(w, a) && job.phase == NotifiedOk ==> job in w.jobs
  {
    hide ClaimOf, ClaimedRow;
  }

  lemma SentWasDelivered(c: Config, w: World, a: Action, row: Uuid)
    requires SinkSound(c, w) && JobsMatch(w) && Possible(c, w, a) && !a.Notify? && Sound(w.db.desk)
    requires Follows(w.db.desk, NextDesk(w, a))
    requires row in NextDesk(w, a).escalations && NextDesk(w, a).escalations[row].status == Sent
    requires NextDesk(w, a).escalations[row].target == c.sink
    ensures Delivered(w.db.deliveries, NotificationFor(NextDesk(w, a).escalations[row]).key)
  {
    hide NextDesk, NotificationKey, OpOf, Delivered, Genuine, KeysUnique;
    SentStep(c, w, a, row);
    if a.Finish? && a.job in w.jobs && a.job.phase == NotifiedOk && a.job.claim.id == row {
      assert Matching(w.db.desk, a.job.claim);
    }
    assert EscalationFollows(w.db.desk, NextDesk(w, a), row);
  }

  lemma {:induction false} SinkIsSound(c: Config, r: Run)
    requires ValidRun(c, r)
    ensures SinkSound(c, WorldAfter(c, r))
  {
    if r.Do? {
      SinkIsSound(c, r.past);
      JobsMatchRows(c, r.past);
      DeskFollows(c, r);
      var w, a := WorldAfter(c, r.past), r.action;
      FieldsOfNext(c, w, a);
      hide SinkSound, JobsMatch, Follows, Next, NextDesk, Sound;
      if a.Notify? {
        NotifyKeepsSink(c, w, a);
      } else {
        OtherKeepsSink(c, w, a);
      }
    }
  }

  /** With the recording sink as target, a sent escalation has exactly one recorded delivery under its key, and it
      is the escalation's notification. */
  lemma SentIsRecordedOnce(c: Config, r: Run, row: Uuid) returns (i: nat)
    requires ValidRun(c, r) && row in WorldAfter(c, r).db.desk.escalations
    requires WorldAfter(c, r).db.desk.escalations[row].status == Sent
    requires WorldAfter(c, r).db.desk.escalations[row].target == c.sink
    ensures i < |WorldAfter(c, r).db.deliveries|
    ensures WorldAfter(c, r).db.deliveries[i] == NotificationFor(WorldAfter(c, r).db.desk.escalations[row])
    ensures forall j :: 0 <= j < |WorldAfter(c, r).db.deliveries| && j != i
              ==> WorldAfter(c, r).db.deliveries[j].key != NotificationFor(WorldAfter(c, r).db.desk.escalations[row]).key
  {
    SinkIsSound(c, r);
    JobsMatchRows(c, r);
    var w := WorldAfter(c, r);
    hide WorldAfter, ValidRun, NotificationKey, JobsMatch;
    var key := NotificationFor(w.db.desk.escalations[row]).key;
    assert Delivered(w.db.deliveries, key);
    var n :| n in w.db.deliveries && n.key == key;
    i :| 0 <= i < |w.db.deliveries| && w.db.deliveries[i] == n;
    assert Genuine(c, w.db.desk, n);
    var other :| other in w.db.desk.escalations && NotificationFor(w.db.desk.escalations[other]) == n;
    KeyDeterminesRow(w.db.desk, other, row);
  }

  /** So does every delivery recorded by the sink. */
  lemma DeliveriesTellTheirRow(c: Config, r: Run, i: nat) returns (row: Uuid, o: Origin)
    requires ValidRun(c, r) && i < |WorldAfter(c, r).db.deliveries|
    ensures var n, d := WorldAfter(c, r).db.deliveries[i], WorldAfter(c, r).db.desk;
            && row in d.escalations && d.escalations[row].target == c.sink && Tells(n, d.escalations[row])
            && ComesFrom(DeskTrace(c, r), row, o) && TellsOf(n, o)
  {
    SinkIsSound(c, r);
    var w := WorldAfter(c, r);
    assert Genuine(c, w.db.desk, w.db.deliveries[i]);
    hide WorldAfter, ValidRun, DeskTrace, ComesFrom, Tells, TellsOf, SinkSound, NotificationFor;
    row :| row in w.db.desk.escalations && w.db.desk.escalations[row].target == c.sink
           && NotificationFor(w.db.desk.escalations[row]) == w.db.deliveries[i];
    NotificationTells(w.db.desk.escalations[row]);
    o := RowTellsOf(c, r, row, w.db.deliveries[i]);
  }
}
