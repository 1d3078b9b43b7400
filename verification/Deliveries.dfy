/** The inbox under concurrency.  Whatever sessions deliver, redeliver, abort and commit statement by statement, the
    committed inbox and the committed incidents agree: each message in the inbox was correlated once, and nothing else
    was. */
module Deliveries {
  import opened Domain
  import opened Tables
  import opened Traces
  import opened Escalations
  import opened Interleaving
  import opened Serializability
  import Pipeline

  /** How many correlations of a trace concern an alert with the given property. */
  function Applied(t: Trace, p: Alert -> bool): nat {
    match t
    case Boot => 0
    case Then(past, op) => Applied(past, p) + (if op.Correlate? && p(op.alert) then 1 else 0)
  }

  /** The messages in the inbox that are about such an alert; `source` is the alert a message names. */
  function Received(f: Engine, source: InboxKey -> Uuid, p: Alert -> bool): set<InboxKey> {
    set k | k in f.inbox && source(k) in f.alerts && p(f.alerts[source(k)])
  }

  predicate NamesItsAlert(me: Session, source: InboxKey -> Uuid) {
    me.Correlating? ==> me.alertId == source(me.key)
  }

  /** Deliveries of one message name one alert: its payload does not change. */
  ghost predicate Delivers(r: Schedule, source: InboxKey -> Uuid) {
    r.Next? ==> Delivers(r.past, source) && (r.event.Begin? ==> NamesItsAlert(r.event.session, source))
  }

  ghost predicate Sourced(f: Engine, source: InboxKey -> Uuid) {
    && (forall s :: s in f.sessions ==> NamesItsAlert(f.sessions[s], source))
    && (forall id :: id in f.alerts ==> f.alerts[id].id == id)
    && (forall k :: k in f.inbox ==> source(k) in f.alerts)
  }

  // ---- what a commit adds ----

  lemma {:induction false} ExhaustAppliesNothing(t: Trace, ids: seq<Uuid>, now: Time, p: Alert -> bool)
    ensures Applied(ThenExhaust(t, ids, now), p) == Applied(t, p)
    decreases |ids|
  {
    if ids != [] {
      ExhaustAppliesNothing(t, ids[..|ids| - 1], now, p);
    }
  }

  lemma {:induction false} TakeAppliesNothing(t: Trace, ids: seq<Uuid>, lease: Uuid, until: Time, now: Time, p: Alert -> bool)
    ensures Applied(ThenTake(t, ids, lease, until, now), p) == Applied(t, p)
    decreases |ids|
  {
    if ids != [] {
      TakeAppliesNothing(t, ids[..|ids| - 1], lease, until, now, p);
    }
  }

  /** The alert a committing session applies, if it does. */
  function AppliedBy(me: Session): Option<Alert> {
    if me.Correlating? && me.stage.Written? then Some(me.stage.alert) else None
  }

  lemma CommitApplies(d: Desk, t: Trace, me: Session, p: Alert -> bool)
    requires Committable(d, me)
    ensures Applied(AtomicOps(t, me), p) == Applied(t, p) + (if AppliedBy(me).Some? && p(AppliedBy(me).value) then 1 else 0)
  {
    if me.Sweeping? {
      ExhaustAppliesNothing(t, me.expired, me.now, p);
      TakeAppliesNothing(ThenExhaust(t, me.expired, me.now), me.picked, me.lease, me.until, me.now, p);
    }
  }

  /** A session that applies an alert puts its message into the inbox, where it was not; others leave the inbox. */
  lemma CommitInbox(c: Setup, f: Engine, s: nat, source: InboxKey -> Uuid)
    requires s in f.sessions && Committable(f.desk, f.sessions[s]) && SessionSound(c, f, f.sessions[s]) && Sourced(f, source)
    ensures var me, g := f.sessions[s], After(c, f, Event.Commit(s));
            && g.alerts == f.alerts && g.sessions == f.sessions - {s}
            && (if AppliedBy(me).Some?
                then && me.key !in f.inbox && g.inbox == f.inbox + {me.key}
                     && source(me.key) in f.alerts && f.alerts[source(me.key)] == AppliedBy(me).value
                else g.inbox == f.inbox)
  {
    hide Committed, Returned, StageSound, MovingSound, SweepingSound, SettlingSound;
  }

  lemma CommitReceives(c: Setup, f: Engine, s: nat, source: InboxKey -> Uuid, p: Alert -> bool)
    requires s in f.sessions && Committable(f.desk, f.sessions[s]) && SessionSound(c, f, f.sessions[s]) && Sourced(f, source)
    ensures var me, g := f.sessions[s], After(c, f, Event.Commit(s));
            && Sourced(g, source)
            && |Received(g, source, p)|
               == |Received(f, source, p)| + (if AppliedBy(me).Some? && p(AppliedBy(me).value) then 1 else 0)
  {
    hide SessionSound, After, Committable, NamesItsAlert;
    CommitInbox(c, f, s, source);
    var me, g := f.sessions[s], After(c, f, Event.Commit(s));
    if AppliedBy(me).Some? && p(AppliedBy(me).value) {
      assert Received(g, source, p) == Received(f, source, p) + {me.key};
    } else {
      assert Received(g, source, p) == Received(f, source, p);
    }
  }

  lemma OtherEvents(c: Setup, f: Engine, e: Event, source: InboxKey -> Uuid, p: Alert -> bool)
    requires Interleaving.Possible(c, f, e) && !e.Commit? && Sourced(f, source)
    requires e.Begin? ==> NamesItsAlert(e.session, source)
    ensures Sourced(After(c, f, e), source) && Received(After(c, f, e), source, p) == Received(f, source, p)
  {
    var g := After(c, f, e);
    if e.Run? {
      RunKeepsSource(c, f, e.s, e.statement, source);
      hide Ran, CanRun;
    }
    assert g.inbox == f.inbox;
  }

  lemma RunKeepsSource(c: Setup, f: Engine, s: nat, q: Statement, source: InboxKey -> Uuid)
    requires s in f.sessions && CanRun(c, f, s, q) && NamesItsAlert(f.sessions[s], source)
    ensures NamesItsAlert(Ran(c, f, s, q), source)
  {
  }

  /** Exactly the messages in the inbox have been correlated, each once, in every state of every schedule: for any
      property of alerts there are as many correlations of such alerts as messages about them. */
  lemma {:induction false} InboxCountsCorrelations(c: Setup, r: Schedule, source: InboxKey -> Uuid, p: Alert -> bool)
    requires Delivers(r, source)
    ensures Sourced(EngineAfter(c, r), source)
    ensures Applied(CommitTrace(c, r), p) == |Received(EngineAfter(c, r), source, p)|
  {
    if r.Next? {
      InboxCountsCorrelations(c, r.past, source, p);
      SchedulesAreTraces(c, r.past);
      var f, t, e := EngineAfter(c, r.past), CommitTrace(c, r.past), r.event;
      hide Received, Sourced, SessionSound, AtomicOps, Applied, Valid, Exclusive, Sound, NamesItsAlert;
      if Interleaving.Possible(c, f, e) {
        hide Interleaving.Possible, After;
        if e.Commit? {
          assert e.s in f.sessions && Committable(f.desk, f.sessions[e.s]) by { CommitIsPossible(c, f, e.s); }
          CommitApplies(f.desk, t, f.sessions[e.s], p);
          CommitReceives(c, f, e.s, source, p);
        } else {
          OtherEvents(c, f, e, source, p);
        }
      }
    }
  }

  lemma CommitIsPossible(c: Setup, f: Engine, s: nat)
    requires Interleaving.Possible(c, f, Event.Commit(s))
    ensures s in f.sessions && Committable(f.desk, f.sessions[s])
  {
  }

  // ---- one alert, one key ----

  function About(alert: Uuid): Alert -> bool {
    (a: Alert) => a.id == alert
  }

  function WithKey(key: CorrelationKey): Alert -> bool {
    (a: Alert) => KeyOf(a) == key
  }

  lemma {:induction false} AppliedIsCorrelations(t: Trace, alert: Uuid)
    ensures Applied(t, About(alert)) == Pipeline.Correlations(t, alert)
  {
    if t.Then? {
      AppliedIsCorrelations(t.past, alert);
    }
  }

  /** If no other message in the inbox is about the same alert, then under any schedule of concurrent deliveries and
      redeliveries the alert is correlated once if the message is in the inbox, and not at all otherwise. */
  lemma MessagesApplyOnce(c: Setup, r: Schedule, source: InboxKey -> Uuid, key: InboxKey)
    requires Delivers(r, source)
    requires forall k :: k in EngineAfter(c, r).inbox && source(k) == source(key) ==> k == key
    ensures Pipeline.Correlations(CommitTrace(c, r), source(key)) == (if key in EngineAfter(c, r).inbox then 1 else 0)
  {
    var p := About(source(key));
    InboxCountsCorrelations(c, r, source, p);
    AppliedIsCorrelations(CommitTrace(c, r), source(key));
    var f := EngineAfter(c, r);
    hide EngineAfter, CommitTrace, Applied, Pipeline.Correlations, Delivers;
    assert Received(f, source, p) == if key in f.inbox then {key} else {};
  }

  lemma {:induction false} OccurrencesCountCorrelations(t: Trace, key: CorrelationKey, window: nat)
    requires Valid(t, window)
    ensures Pipeline.Occurrences(Traces.State(t), key) == Applied(t, WithKey(key))
  {
    if t.Then? {
      OccurrencesCountCorrelations(t.past, key, window);
      LastStep(t, window);
      hide Valid, Traces.State, Pipeline.Occurrences;
      if t.op.Correlate? {
        Pipeline.CorrelationAddsOne(Traces.State(t.past), t.op.alert, t.op.choice, window, key);
      } else {
        Pipeline.OthersAddNothing(Traces.State(t.past), t.op, window, key);
      }
    }
  }

  /** Conservation under concurrency: in every state of every schedule the occurrence counts of a key's incidents add up
      to the number of messages in the inbox that are about its alerts. */
  lemma OccurrencesCountMessages(c: Setup, r: Schedule, source: InboxKey -> Uuid, key: CorrelationKey)
    requires Delivers(r, source)
    ensures Pipeline.Occurrences(EngineAfter(c, r).desk, key) == |Received(EngineAfter(c, r), source, WithKey(key))|
  {
    hide *;
    InboxCountsCorrelations(c, r, source, WithKey(key));
    SchedulesAreTraces(c, r);
    OccurrencesCountCorrelations(CommitTrace(c, r), key, c.window);
  }
}
