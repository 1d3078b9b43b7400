/** Time under concurrency.  A transaction reads the clock when it starts and may commit much later, so transactions
    commit out of the order of their times.  The spacing of claims holds all the same: it needs only that a worker
    starts to report a failure after the sweep that gave it the claim has committed. */
module Clocks {
  import opened Domain
  import opened Tables
  import opened Traces
  import opened History
  import opened Backoff
  import opened Escalations
  import opened Interleaving
  import opened Serializability

  /** A session reads the clock as it begins; its lease lasts at least `lease`, its retry delay is that of the attempt. */
  ghost predicate BegunAt(me: Session, now: Time, lease: nat) {
    match me
    case Correlating(_, _, _, _) => true
    case Moving(_, _, at, _) => at == now
    case Sweeping(at, _, until, _, _, _) => at == now && until >= now + lease
    case Settling(op, _) => TimeOf(op) == Some(now) && (op.Fail? ==> RescheduledBy(op))
  }

  /** `times[i]` is when event i happened.  The clock never goes back. */
  ghost predicate Timed(r: Schedule, times: seq<Time>, lease: nat) {
    match r
    case Idle => times == []
    case Next(past, e) =>
      && times != []
      && var n := |times| - 1;
      && Timed(past, times[..n], lease)
      && (n > 0 ==> times[n - 1] <= times[n])
      && (e.Begin? ==> BegunAt(e.session, times[n], lease))
  }

  // ---- what is known of sessions at work ----

  ghost predicate ClaimsBy(t: Trace, now: Time) {
    forall id, i :: 0 <= i < |ClaimTimes(t, id)| ==> ClaimTimes(t, id)[i] <= now
  }

  /** The claim a failure reports is among the claims of the trace, and was made before the report began. */
  ghost predicate Reports(t: Trace, op: Op)
    requires op.Fail?
  {
    op.claim.token <= |ClaimTimes(t, op.claim.id)| && ReportsLater(t, op)
  }

  ghost predicate SessionTimed(t: Trace, me: Session, now: Time, lease: nat) {
    match me
    case Sweeping(at, _, until, _, _, _) => at <= now && until >= at + lease
    case Settling(op, _) => op.Fail? ==> Reports(t, op) && RescheduledBy(op)
    case _ => true
  }

  ghost predicate EngineTimed(f: Engine, t: Trace, now: Time, lease: nat) {
    && Paced(t, lease)
    && ClaimsBy(t, now)
    && forall s :: s in f.sessions ==> SessionTimed(t, f.sessions[s], now, lease)
  }

  /** `longer` has the claims of `t` first. */
  ghost predicate Continues(longer: Trace, t: Trace) {
    forall id :: ClaimTimes(t, id) <= ClaimTimes(longer, id)
  }

  // ---- statements ----

  lemma RunKeepsTimes(c: Setup, f: Engine, s: nat, q: Statement, t: Trace, now: Time, lease: nat)
    requires s in f.sessions && CanRun(c, f, s, q) && SessionTimed(t, f.sessions[s], now, lease)
    ensures SessionTimed(t, Ran(c, f, s, q), now, lease)
  {
    hide Reports, RescheduledBy;
  }

  lemma SessionLater(t: Trace, longer: Trace, me: Session, now: Time, later: Time, lease: nat)
    requires SessionTimed(t, me, now, lease) && now <= later && Continues(longer, t)
    ensures SessionTimed(longer, me, later, lease)
  {
    if me.Settling? && me.op.Fail? {
      assert ClaimTimes(t, me.op.claim.id) <= ClaimTimes(longer, me.op.claim.id);
    }
    hide ClaimTimes, RescheduledBy;
  }

  /** A report begins with a claim that some committed sweep returned. */
  lemma BeginIsTimed(c: Setup, f: Engine, t: Trace, me: Session, now: Time, lease: nat)
    requires Fresh(f, me) && BegunAt(me, now, lease)
    requires Valid(t, c.window) && Paced(t, lease) && ClaimsBy(t, now)
    requires forall claim :: claim in f.issued ==> Issued(t, claim)
    ensures SessionTimed(t, me, now, lease)
  {
    hide Paced, Valid, Issued, ClaimTimes, RescheduledBy;
    if me.Settling? && me.op.Fail? {
      var claim := me.op.claim;
      ClaimMatchesRow(t, claim, c.window);
      ClaimsAreSpaced(t, claim.id, lease, c.window);
      TraceIsSound(t, c.window);
      assert RowPlaced(Traces.State(t), claim.id);
    }
  }

  // ---- commits ----

  lemma {:induction false} ExhaustKeepsTimes(t: Trace, ids: seq<Uuid>, now: Time, lease: nat)
    requires Paced(t, lease)
    ensures Paced(ThenExhaust(t, ids, now), lease)
    ensures forall id :: ClaimTimes(ThenExhaust(t, ids, now), id) == ClaimTimes(t, id)
    decreases |ids|
  {
    if ids != [] {
      ExhaustKeepsTimes(t, ids[..|ids| - 1], now, lease);
    }
  }

  lemma {:induction false} TakeKeepsTimes(t: Trace, ids: seq<Uuid>, lease: Uuid, until: Time, at: Time, now: Time, length: nat)
    requires Paced(t, length) && ClaimsBy(t, now) && at <= now && until >= at + length
    ensures var longer := ThenTake(t, ids, lease, until, at);
            Paced(longer, length) && ClaimsBy(longer, now) && Continues(longer, t)
    decreases |ids|
  {
    if ids != [] {
      TakeKeepsTimes(t, ids[..|ids| - 1], lease, until, at, now, length);
    }
  }

  lemma CommitKeepsTimes(d: Desk, t: Trace, me: Session, now: Time, lease: nat)
    requires Committable(d, me) && SessionTimed(t, me, now, lease) && Paced(t, lease) && ClaimsBy(t, now)
    ensures var longer := AtomicOps(t, me);
            Paced(longer, lease) && ClaimsBy(longer, now) && Continues(longer, t)
  {
    if me.Sweeping? {
      ExhaustKeepsTimes(t, me.expired, me.now, lease);
      TakeKeepsTimes(ThenExhaust(t, me.expired, me.now), me.picked, me.lease, me.until, me.now, now, lease);
    }
  }

  lemma EventKeepsTimes(c: Setup, f: Engine, t: Trace, e: Event, now: Time, later: Time, lease: nat)
    requires Interleaving.Possible(c, f, e) && EngineTimed(f, t, now, lease) && now <= later
    requires e.Begin? ==> BegunAt(e.session, later, lease)
    requires Valid(t, c.window) && forall claim :: claim in f.issued ==> Issued(t, claim)
    ensures var longer := if e.Commit? then AtomicOps(t, f.sessions[e.s]) else t;
            EngineTimed(After(c, f, e), longer, later, lease)
  {
    var g := After(c, f, e);
    hide Paced, Valid, Issued, SessionTimed, BegunAt, AtomicOps, Continues, Fresh, CanRun, Ran, ClaimTimes, Committed, Returned;
    var longer := if e.Commit? then AtomicOps(t, f.sessions[e.s]) else t;
    assert ClaimsBy(t, later);
    assert Continues(t, t) by { SameClaims(t); }
    if e.Commit? {
      SessionLater(t, t, f.sessions[e.s], now, later, lease);
      CommitKeepsTimes(f.desk, t, f.sessions[e.s], later, lease);
    }
    forall s | s in g.sessions
      ensures SessionTimed(longer, g.sessions[s], later, lease)
    {
      if e.Begin? && s == e.s {
        BeginIsTimed(c, f, t, e.session, later, lease);
      } else {
        if e.Run? && s == e.s {
          RunKeepsTimes(c, f, s, e.statement, t, now, lease);
        }
        SessionLater(t, longer, g.sessions[s], now, later, lease);
      }
    }
  }

  lemma SameClaims(t: Trace)
    ensures Continues(t, t)
  {
  }

  /** Under one clock that never goes back, whatever the order in which concurrent transactions commit, their trace
      meets the hypotheses of the spacing of claims. */
  lemma {:induction false} SchedulesArePaced(c: Setup, r: Schedule, times: seq<Time>, lease: nat)
    requires Timed(r, times, lease)
    ensures Paced(CommitTrace(c, r), lease)
    ensures r.Next? ==> EngineTimed(EngineAfter(c, r), CommitTrace(c, r), times[|times| - 1], lease)
  {
    if r.Next? {
      var n := |times| - 1;
      SchedulesArePaced(c, r.past, times[..n], lease);
      SchedulesAreTraces(c, r.past);
      var f, t, e := EngineAfter(c, r.past), CommitTrace(c, r.past), r.event;
      var before := if n > 0 then times[n - 1] else times[n];
      hide EngineSound, Valid, Issued, Paced, BegunAt, SessionTimed, AtomicOps, Sound, ClaimsBy;
      assert EngineTimed(f, t, before, lease) by { if r.past.Idle? { IdleIsTimed(c, before, lease); } }
      if Interleaving.Possible(c, f, e) {
        hide Interleaving.Possible, After;
        EventKeepsTimes(c, f, t, e, before, times[n], lease);
      } else {
        EngineLater(f, t, before, times[n], lease);
      }
    }
  }

  lemma IdleIsTimed(c: Setup, now: Time, lease: nat)
    ensures EngineTimed(EngineAfter(c, Idle), CommitTrace(c, Idle), now, lease)
  {
  }

  lemma EngineLater(f: Engine, t: Trace, now: Time, later: Time, lease: nat)
    requires EngineTimed(f, t, now, lease) && now <= later
    ensures EngineTimed(f, t, later, lease)
  {
    SameClaims(t);
    hide Paced, SessionTimed, Continues;
    forall s | s in f.sessions
      ensures SessionTimed(t, f.sessions[s], later, lease)
    {
      SessionLater(t, t, f.sessions[s], now, later, lease);
    }
  }

  /** The claims of an escalation are spaced by backoff and lease under any schedule of concurrent sessions. */
  lemma ConcurrentClaimsAreSpaced(c: Setup, r: Schedule, times: seq<Time>, id: Uuid, n: nat, lease: nat)
    requires Timed(r, times, lease) && id in EngineAfter(c, r).desk.escalations
    requires 1 <= n <= EngineAfter(c, r).desk.escalations[id].attempts
    ensures var claims := ClaimTimes(CommitTrace(c, r), id);
            && |claims| == EngineAfter(c, r).desk.escalations[id].attempts
            && Spaced(claims, lease)
            && claims[n - 1] - claims[0] >= MinimumSpan(n, lease)
  {
    SchedulesArePaced(c, r, times, lease);
    SchedulesAreTraces(c, r);
    hide EngineAfter, CommitTrace, Timed, Valid, Paced, ClaimTimes, Spaced, MinimumSpan, EngineSound, EngineTimed;
    ClaimsAreSpaced(CommitTrace(c, r), id, lease, c.window);
    NthClaimIsLate(CommitTrace(c, r), id, n, lease, c.window);
  }
}
