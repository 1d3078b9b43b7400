/** Retry delays, and how far apart the claims of one escalation are as a consequence. */
module Backoff {
  import opened Domain
  import opened Tables
  import opened Traces
  import opened History
  import opened Columns

  function Pow2(n: nat): (r: int)
    ensures r >= 1
  {
    if n == 0 then 1 else 2 * Pow2(n - 1)
  }

  const JITTER: int := 500 * MILLISECOND

  /** The delay of an attempt before jitter. */
  function Base(attempt: int): int {
    Pow2(Min(Max(attempt - 1, 0), 6)) * SECOND
  }

  /** `jitter` is the random number of milliseconds, below 500. */
  function RetryDelay(attempt: int, jitter: nat): int {
    Base(attempt) + jitter * MILLISECOND
  }

  /** The delay before a message that was negatively acknowledged is delivered again; `delivered` is None when the
      broker's metadata is not available. */
  function RedeliveryDelay(delivered: Option<nat>): int {
    var delivery := if delivered.Some? && delivered.value > 0 then delivered.value else 1;
    Pow2(Min(delivery - 1, 5)) * SECOND
  }

  lemma {:induction false} Pow2Grows(m: nat, n: nat)
    requires m <= n
    ensures Pow2(m) <= Pow2(n)
  {
    if m < n {
      Pow2Grows(m, n - 1);
    }
  }

  /** Delays double from one second up to 64 seconds, never shrink, and jitter keeps them below the next half
      second; redelivery delays stay between one and 32 seconds. */
  lemma DelaysAreBounded(attempt: int, later: int, jitter: nat, delivered: Option<nat>)
    requires attempt <= later && jitter < 500
    ensures 1 * SECOND <= Base(attempt) <= Base(later) <= 64 * SECOND
    ensures Base(attempt) <= RetryDelay(attempt, jitter) < Base(attempt) + JITTER
    ensures 1 <= attempt <= 6 ==> Base(attempt + 1) == 2 * Base(attempt)
    ensures attempt >= 7 ==> Base(attempt) == 64 * SECOND
    ensures RetryDelay(attempt, jitter) == Base(attempt) + jitter * 1_000
    ensures 1 * SECOND <= RedeliveryDelay(delivered) <= 32 * SECOND
    ensures delivered == None || delivered == Some(0) || delivered == Some(1) ==> RedeliveryDelay(delivered) == 1 * SECOND
    ensures delivered.Some? && delivered.value >= 1 ==>
              RedeliveryDelay(Some(delivered.value + 1)) == Min(2 * RedeliveryDelay(delivered), 32 * SECOND)
  {
    Pow2Grows(Min(Max(attempt - 1, 0), 6), Min(Max(later - 1, 0), 6));
    Pow2Grows(Min(Max(later - 1, 0), 6), 6);
    assert Pow2(6) == 64 by {
      assert Pow2(3) == 8;
    }
    var delivery := if delivered.Some? && delivered.value > 0 then delivered.value else 1;
    Pow2Grows(Min(delivery - 1, 5), 5);
    assert Pow2(5) == 32 by {
      assert Pow2(2) == 4;
    }
  }

  // ---- runs under one clock ----

  function TimeOf(op: Op): Option<Time> {
    match op
    case Correlate(_, _) => None
    case Move(_, _, now) => Some(now)
    case Exhaust(_, now) => Some(now)
    case Take(_, _, _, now) => Some(now)
    case Complete(_, now) => Some(now)
    case Fail(_, _, now) => Some(now)
  }

  /** Nothing in the run happened after `now`. */
  ghost predicate Before(t: Trace, now: Time) {
    t.Then? ==> Before(t.past, now) && (TimeOf(t.op).Some? ==> TimeOf(t.op).value <= now)
  }

  /** When the row was claimed, oldest first. */
  function ClaimTimes(t: Trace, id: Uuid): seq<Time> {
    match t
    case Boot => []
    case Then(past, op) => if op.Take? && op.id == id then ClaimTimes(past, id) + [op.now] else ClaimTimes(past, id)
  }

  /** A worker reports after it was given the claim: the claim with token k is the k-th of its row.  Nothing is said of
      the order of transactions of different rows, which need not commit in the order of their clock readings. */
  ghost predicate ReportsLater(t: Trace, op: Op)
    requires op.Fail?
  {
    var times := ClaimTimes(t, op.claim.id);
    0 < op.claim.token <= |times| ==> times[op.claim.token - 1] <= op.now
  }

  /** Leases last at least `lease`, and failures are rescheduled by the retry delay of the attempt that failed, counted
      from a moment after it was claimed. */
  ghost predicate Paced(t: Trace, lease: nat) {
    t.Then? ==>
      && Paced(t.past, lease)
      && (t.op.Take? ==> t.op.until >= t.op.now + lease)
      && (t.op.Fail? ==> ReportsLater(t.past, t.op) && RescheduledBy(t.op))
  }

  ghost predicate RescheduledBy(op: Op)
    requires op.Fail?
  {
    exists jitter: nat :: jitter < 500 && op.retryAfter == RetryDelay(op.claim.attempts, jitter)
  }

  /** The least distance between the k-th claim of a row and the next. */
  function Gap(k: nat, lease: nat): int {
    Min(Base(k), lease)
  }

  ghost predicate Spaced(times: seq<Time>, lease: nat) {
    forall i :: 0 <= i && i + 1 < |times| ==> times[i + 1] - times[i] >= Gap(i + 1, lease)
  }

  /** The earliest moment the row may be claimed again. */
  ghost predicate HeldBack(e: Escalation, times: seq<Time>, lease: nat) {
    && |times| == e.attempts
    && (times != [] && e.status == Running ==> e.leaseUntil.Some? && e.leaseUntil.value >= times[|times| - 1] + lease)
    && (times != [] && e.status == Pending ==> e.dueAt >= times[|times| - 1] + Base(|times|))
  }

  lemma {:induction false} ClaimTimesBefore(t: Trace, id: Uuid, now: Time)
    requires Before(t, now)
    ensures forall i :: 0 <= i < |ClaimTimes(t, id)| ==> ClaimTimes(t, id)[i] <= now
  {
    if t.Then? {
      ClaimTimesBefore(t.past, id, now);
    }
  }

  lemma {:induction false} UnseenHasNoClaims(t: Trace, id: Uuid, window: nat)
    requires Valid(t, window) && id !in State(t).escalations
    ensures ClaimTimes(t, id) == []
  {
    if t.Then? {
      TraceIsSound(t.past, window);
      StepFollows(State(t.past), t.op, window);
      RowsPersist(State(t.past), State(t));
      UnseenHasNoClaims(t.past, id, window);
    }
  }

  lemma TakeHoldsBack(e: Escalation, times: seq<Time>, lease: nat, id: Uuid, until: Time, now: Time)
    requires RowSound(e) && HeldBack(e, times, lease) && Spaced(times, lease)
    requires (e.status == Pending && e.dueAt <= now) || (e.status == Running && LeaseExpired(e, now))
    requires until >= now + lease
    ensures HeldBack(ClaimedRow(e, id, until), times + [now], lease)
    ensures Spaced(times + [now], lease)
  {
    hide Base;
  }

  lemma FailHoldsBack(e: Escalation, times: seq<Time>, lease: nat, jitter: nat, now: Time)
    requires RowSound(e) && HeldBack(e, times, lease) && e.status == Running
    requires times != [] ==> times[|times| - 1] <= now
    ensures HeldBack(FailedRow(e, now + RetryDelay(e.attempts, jitter)), times, lease)
  {
    hide Base;
  }

  lemma TakenWhenDue(d: Desk, op: Op, window: nat)
    requires Guard(d, op, window) && op.Take?
    ensures op.id in d.escalations
    ensures var e := d.escalations[op.id]; (e.status == Pending && e.dueAt <= op.now) || (e.status == Running && LeaseExpired(e, op.now))
  {
  }

  lemma FailedWhileHeld(t: Trace, op: Op, window: nat)
    requires Valid(t, window) && Enabled(t, op, window) && op.Fail?
    ensures Holds(State(t), op.claim) && op.claim.attempts == op.claim.token
  {
    ClaimMatchesRow(t, op.claim, window);
    hide State, Valid, Issued;
  }

  lemma RowOpHoldsBack(t: Trace, id: Uuid, lease: nat, window: nat)
    requires Valid(t, window) && Paced(t, lease) && t.Then? && RowOf(t.op) == Some(id)
    requires id in State(t.past).escalations
    requires HeldBack(State(t.past).escalations[id], ClaimTimes(t.past, id), lease)
    requires Spaced(ClaimTimes(t.past, id), lease)
    ensures id in State(t).escalations
    ensures HeldBack(State(t).escalations[id], ClaimTimes(t, id), lease)
    ensures Spaced(ClaimTimes(t, id), lease)
  {
    hide Spaced, Valid, State, Issued, Step, RetryDelay, ClaimOf;
    LastStep(t, window);
    TraceIsSound(t.past, window);
    var e, op := State(t.past).escalations[id], t.op;
    assert RowPlaced(State(t.past), id);
    RowStep(State(t.past), op, window);
    hide Sound, Guard;
    if op.Take? {
      hide HeldBack;
      assert (e.status == Pending && e.dueAt <= op.now) || (e.status == Running && LeaseExpired(e, op.now)) by {
        TakenWhenDue(State(t.past), op, window);
      }
      TakeHoldsBack(e, ClaimTimes(t.past, id), lease, op.lease, op.until, op.now);
    } else if op.Fail? {
      assert e.status == Running && e.token == op.claim.token && op.claim.attempts == op.claim.token by {
        FailedWhileHeld(t.past, op, window);
      }
      var jitter: nat :| jitter < 500 && op.retryAfter == RetryDelay(op.claim.attempts, jitter);
      FailHoldsBack(e, ClaimTimes(t.past, id), lease, jitter, op.now);
    }
  }

  /** Claims of one escalation are spaced: after the k-th, the next comes no sooner than the backoff of attempt k
      or the length of a lease, whichever is less; and there are exactly as many as the row counts attempts. */
  lemma {:induction false} ClaimsAreSpaced(t: Trace, id: Uuid, lease: nat, window: nat)
    requires Valid(t, window) && Paced(t, lease) && id in State(t).escalations
    ensures HeldBack(State(t).escalations[id], ClaimTimes(t, id), lease)
    ensures Spaced(ClaimTimes(t, id), lease)
  {
    var past, op := t.past, t.op;
    TraceIsSound(past, window);
    if id !in State(past).escalations {
      UnseenHasNoClaims(past, id, window);
      if RowOf(op).None? {
        AddedRowsAreNew(State(past), op.alert, op.choice);
      } else {
        RowStep(State(past), op, window);
      }
    } else {
      ClaimsAreSpaced(past, id, lease, window);
      if RowOf(op) == Some(id) {
        RowOpHoldsBack(t, id, lease, window);
      } else {
        OtherRowStep(State(past), op, id, window);
        hide Step, Guard;
      }
    }
  }

  /** The least time from the first claim to the n-th. */
  function MinimumSpan(n: nat, lease: nat): int {
    if n <= 1 then 0 else MinimumSpan(n - 1, lease) + Gap(n - 1, lease)
  }

  lemma {:induction false} SpanOfClaims(times: seq<Time>, n: nat, lease: nat)
    requires Spaced(times, lease) && 1 <= n <= |times|
    ensures times[n - 1] - times[0] >= MinimumSpan(n, lease)
  {
    if n > 1 {
      SpanOfClaims(times, n - 1, lease);
    }
  }

  /** An escalation cannot burn through its attempts: the n-th claim is at least the accumulated backoff after the
      first. */
  lemma NthClaimIsLate(t: Trace, id: Uuid, n: nat, lease: nat, window: nat)
    requires Valid(t, window) && Paced(t, lease) && id in State(t).escalations
    requires 1 <= n <= State(t).escalations[id].attempts
    ensures |ClaimTimes(t, id)| >= n
    ensures ClaimTimes(t, id)[n - 1] - ClaimTimes(t, id)[0] >= MinimumSpan(n, lease)
  {
    ClaimsAreSpaced(t, id, lease, window);
    SpanOfClaims(ClaimTimes(t, id), n, lease);
  }

  lemma {:induction false} SpanGrowsWithLease(n: nat, lease: nat, longer: nat)
    requires lease <= longer
    ensures MinimumSpan(n, lease) <= MinimumSpan(n, longer)
  {
    if n > 1 {
      SpanGrowsWithLease(n - 1, lease, longer);
    }
  }

  lemma SpanOfFive()
    ensures MinimumSpan(5, 10 * SECOND) == 15 * SECOND
  {
    assert MinimumSpan(2, 10 * SECOND) == 1 * SECOND;
    assert Base(2) == 2 * SECOND;
    assert Base(3) == 4 * SECOND by { assert Pow2(1) == 2; }
    assert Base(4) == 8 * SECOND by { assert Pow2(2) == 4; }
    assert MinimumSpan(3, 10 * SECOND) == 3 * SECOND;
    assert MinimumSpan(4, 10 * SECOND) == 7 * SECOND;
  }

  /** With the shipped policy of five attempts and the leases the configuration allows, ten seconds or more, an
      escalation is claimed for the last time at least 15 seconds after it was claimed first. */
  lemma FiveAttemptsTakeFifteenSeconds(t: Trace, id: Uuid, lease: nat, window: nat)
    requires Valid(t, window) && Paced(t, lease) && lease >= 10 * SECOND
    requires id in State(t).escalations && State(t).escalations[id].attempts >= 5
    ensures |ClaimTimes(t, id)| >= 5
    ensures ClaimTimes(t, id)[4] - ClaimTimes(t, id)[0] >= 15 * SECOND
  {
    NthClaimIsLate(t, id, 5, lease, window);
    SpanGrowsWithLease(5, 10 * SECOND, lease);
    SpanOfFive();
  }

  // ---- no later than ----

  /** A failure that takes effect makes the row due exactly `retryAfter` later if attempts are left, which is no sooner
      than the backoff of the failed attempt and less than half a second after it; otherwise the row is dead. */
  lemma FailureIsRescheduled(t: Trace, lease: nat, window: nat)
    requires Valid(t, window) && Paced(t, lease) && t.Then? && t.op.Fail?
    ensures var c, now := t.op.claim, t.op.now;
            && FailureShows(State(t.past), State(t), c, t.op.retryAfter, now)
            && State(t).escalations[c.id].dueAt == now + t.op.retryAfter
            && now + Base(c.attempts) <= State(t).escalations[c.id].dueAt < now + Base(c.attempts) + 500_000
            && State(t).escalations[c.id].attempts == c.attempts
            && State(t).escalations[c.id].status == (if c.attempts < State(t.past).escalations[c.id].maxAttempts then Pending else Dead)
  {
    hide Valid, State, Issued, Step, Base, Guard;
    var c := t.op.claim;
    LastStep(t, window);
    assert Holds(State(t.past), c) by { FailedWhileHeld(t.past, t.op, window); }
    assert State(t) == Failed(State(t.past), c, t.op.retryAfter, t.op.now) by { FailStep(State(t.past), t.op); }
    FailureOnColumns(State(t.past), c, t.op.retryAfter, t.op.now);
    assert c.attempts == State(t.past).escalations[c.id].attempts by { ClaimMatchesRow(t.past, c, window); }
    var jitter: nat :| jitter < 500 && t.op.retryAfter == RetryDelay(c.attempts, jitter);
  }

  lemma FailStep(d: Desk, op: Op)
    requires op.Fail? && op.claim.id in d.escalations
    ensures Step(d, op) == Failed(d, op.claim, op.retryAfter, op.now)
  {
  }

  /** A pending row that nobody claims stays as it is while its incident is open. */
  lemma {:induction false} WaitingRowStays(t: Trace, s: Trace, id: Uuid, window: nat)
    requires Valid(t, window) && Extends(t, s) && id in State(s).escalations && State(s).escalations[id].status == Pending
    requires id in State(t).escalations && State(t).escalations[id].token == State(s).escalations[id].token
    requires OnOpenIncident(State(t), State(t).escalations[id])
    ensures State(t).escalations[id] == State(s).escalations[id]
  {
    if t != s {
      hide Step, Guard, State;
      RunFollows(t.past, s, window);
      LastStep(t, window);
      TraceIsSound(t.past, window);
      StepFollows(State(t.past), t.op, window);
      assert id in State(t.past).escalations by { RowsPersist(State(s), State(t.past)); }
      assert EscalationFollows(State(s), State(t.past), id) && EscalationFollows(State(t.past), State(t), id);
      assert RowPlaced(State(t.past), id);
      assert IncidentFollows(State(t.past), State(t), State(t.past).escalations[id].incident);
      hide Follows, Sound, Valid;
      WaitingRowStays(t.past, s, id, window);
      WaitingStep(State(t.past), t.op, id, window);
    }
  }

  lemma WaitingStep(d: Desk, op: Op, id: Uuid, window: nat)
    requires Guard(d, op, window) && id in d.escalations && d.escalations[id].status == Pending
    requires id in Step(d, op).escalations && Step(d, op).escalations[id].token == d.escalations[id].token
    requires OnOpenIncident(Step(d, op), Step(d, op).escalations[id])
    ensures Step(d, op).escalations[id] == d.escalations[id]
  {
    if RowOf(op) == Some(id) {
      RowStep(d, op, window);
    } else {
      OtherRowStep(d, op, id, window);
      if op.Move? {
        VerdictOnColumns(d, op.tenant, op.command);
        MoveOnColumns(d, op.tenant, op.command, op.now);
      }
    }
  }

  /** A failed escalation with attempts left does not linger: whatever else happens, from the moment the backoff of the
      failed attempt and half a second have passed after the failure, a sweep may claim it, unless it was claimed again
      already or its incident is no longer open. */
  lemma RetryIsTimely(t: Trace, s: Trace, at: Time, lease: nat, window: nat)
    requires Valid(t, window) && Extends(t, s) && Valid(s, window) && Paced(s, lease) && s.Then? && s.op.Fail?
    requires var c := s.op.claim;
             && c.id in State(s.past).escalations && c.attempts < State(s.past).escalations[c.id].maxAttempts
             && c.id in State(t).escalations && State(t).escalations[c.id].token == c.token
             && OnOpenIncident(State(t), State(t).escalations[c.id])
             && at >= s.op.now + Base(c.attempts) + 500_000
    ensures Takeable(State(t), s.op.claim.id, at)
    ensures State(t).escalations[s.op.claim.id].dueAt == s.op.now + s.op.retryAfter
  {
    hide Valid, State, Base, Paced, Issued;
    FailureIsRescheduled(s, lease, window);
    assert s.op.claim.token == State(s.past).escalations[s.op.claim.id].token by { LastStep(s, window); }
    WaitingRowStays(t, s, s.op.claim.id, window);
    TraceIsSound(s, window);
    assert RowPlaced(State(s), s.op.claim.id);
  }
}
