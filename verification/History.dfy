/** What holds between any two points of one run: rows keep their identity, versions only grow and identify the
    row, finished escalation work stays finished, and an incident that left the open state stays cut off. */
module History {
  import opened Domain
  import opened Tables
  import opened Traces
  import opened Columns

  /** The columns of an incident that no transaction rewrites. */
  ghost predicate SameIncident(i: Incident, j: Incident) {
    i.id == j.id && i.tenant == j.tenant && i.fingerprint == j.fingerprint && i.service == j.service && i.title == j.title
  }

  ghost predicate StatusMayBecome(from: IncidentStatus, to: IncidentStatus) {
    from == to || from == Open || (from == Acknowledged && to == Resolved)
  }

  /** The columns of an escalation that no transaction rewrites: what a notification is made of. */
  ghost predicate SameWork(e: Escalation, f: Escalation) {
    && e.id == f.id && e.tenant == f.tenant && e.incident == f.incident && e.step == f.step && e.target == f.target
    && e.title == f.title && e.severity == f.severity && e.maxAttempts == f.maxAttempts
  }

  ghost predicate IncidentFollows(d: Desk, next: Desk, id: Uuid)
    requires id in d.incidents
  {
    && id in next.incidents
    && var i, j := d.incidents[id], next.incidents[id];
    && SameIncident(i, j)
    && StatusMayBecome(i.status, j.status)
    && i.version <= j.version && i.occurrenceCount <= j.occurrenceCount
    && j.firstSeenAt <= i.firstSeenAt && i.lastSeenAt <= j.lastSeenAt
    && i.severity.Rank() <= j.severity.Rank()
    && (i.version == j.version ==> i == j)
  }

  ghost predicate EscalationFollows(d: Desk, next: Desk, id: Uuid)
    requires id in d.escalations
  {
    && id in next.escalations
    && var e, f := d.escalations[id], next.escalations[id];
    && SameWork(e, f)
    && e.token <= f.token
    && (!e.Live() ==> e == f)
    && (e.token == f.token && e.status != Running ==> f.status != Running)
  }

  /** No rows of an existing incident appear later. */
  ghost predicate NoLateRows(d: Desk, next: Desk) {
    forall id :: id in next.escalations && next.escalations[id].incident in d.incidents ==> id in d.escalations
  }

  ghost predicate Follows(d: Desk, next: Desk) {
    && (forall id :: id in d.incidents ==> IncidentFollows(d, next, id))
    && (forall id :: id in d.escalations ==> EscalationFollows(d, next, id))
    && NoLateRows(d, next)
    && d.timeline <= next.timeline
  }

  lemma CreateFollows(d: Desk, alert: Alert, choice: Choice)
    requires choice.Create? && FreshFor(d, choice.id, choice.steps, choice.rows)
    ensures Follows(d, Correlated(d, alert, choice))
  {
    AddedRowsAreNew(d, alert, choice);
    var next := Correlated(d, alert, choice);
    assert d.timeline <= next.timeline;
    hide ScheduledRows, Correlated, FreshFor;
    GrowthFollows(d, next, choice.id);
  }

  lemma GrowthFollows(d: Desk, next: Desk, added: Uuid)
    requires added !in d.incidents && d.timeline <= next.timeline
    requires forall id :: id in d.incidents ==> id in next.incidents && next.incidents[id] == d.incidents[id]
    requires forall id :: id in d.escalations ==> id in next.escalations && next.escalations[id] == d.escalations[id]
    requires forall id :: id in next.escalations && id !in d.escalations ==> next.escalations[id].incident == added
    ensures Follows(d, next)
  {
  }

  lemma MergeFollows(d: Desk, alert: Alert, choice: Choice, window: nat)
    requires Sound(d) && choice.Merge? && Admissible(d, alert, window, choice)
    ensures Follows(d, Correlated(d, alert, choice))
  {
  }

  lemma MoveFollows(d: Desk, tenant: Uuid, command: TransitionCommand, now: Time)
    requires Sound(d) && TransitionVerdict(d, tenant, command) == Accepted
    ensures Follows(d, Moved(d, tenant, command, now))
  {
    var next := Moved(d, tenant, command, now);
    forall id | id in d.escalations
      ensures EscalationFollows(d, next, id)
    {
    }
    forall id | id in d.incidents
      ensures IncidentFollows(d, next, id)
    {
    }
    hide EscalationFollows, IncidentFollows;
    assert NoLateRows(d, next);
  }

  lemma RowOpFollows(d: Desk, op: Op, window: nat)
    requires Sound(d) && Guard(d, op, window) && RowOf(op).Some?
    ensures Follows(d, Step(d, op))
  {
    RowStep(d, op, window);
    assert d.timeline <= Step(d, op).timeline;
    assert EscalationFollows(d, Step(d, op), RowOf(op).value);
  }

  lemma StepFollows(d: Desk, op: Op, window: nat)
    requires Sound(d) && Guard(d, op, window)
    ensures Follows(d, Step(d, op))
  {
    hide Follows;
    if op.Correlate? {
      if op.choice.Create? {
        CreateFollows(d, op.alert, op.choice);
      } else {
        MergeFollows(d, op.alert, op.choice, window);
      }
    } else if op.Move? {
      MoveFollows(d, op.tenant, op.command, op.now);
    } else {
      RowOpFollows(d, op, window);
    }
  }

  lemma FollowsIsTransitive(a: Desk, b: Desk, c: Desk)
    requires Follows(a, b) && Follows(b, c)
    ensures Follows(a, c)
  {
    forall id | id in a.incidents
      ensures IncidentFollows(a, c, id)
    {
      assert IncidentFollows(a, b, id) && IncidentFollows(b, c, id);
    }
    forall id | id in a.escalations
      ensures EscalationFollows(a, c, id)
    {
      assert EscalationFollows(a, b, id) && EscalationFollows(b, c, id);
    }
    forall id | id in c.escalations && c.escalations[id].incident in a.incidents
      ensures id in a.escalations
    {
      var incident := c.escalations[id].incident;
      assert IncidentFollows(a, b, incident);
      assert id in b.escalations;
      assert EscalationFollows(b, c, id);
    }
  }

  lemma RowsPersist(d: Desk, next: Desk)
    requires Follows(d, next)
    ensures d.incidents.Keys <= next.incidents.Keys && d.escalations.Keys <= next.escalations.Keys
    ensures forall id :: id in d.escalations ==> SameWork(d.escalations[id], next.escalations[id])
    ensures forall id :: id in d.incidents ==> SameIncident(d.incidents[id], next.incidents[id])
  {
    assert forall id :: id in d.incidents ==> IncidentFollows(d, next, id);
    assert forall id :: id in d.escalations ==> EscalationFollows(d, next, id);
  }

  /** Any later state of a run follows any earlier one. */
  lemma {:induction false} RunFollows(t: Trace, s: Trace, window: nat)
    requires Valid(t, window) && Extends(t, s)
    ensures Valid(s, window)
    ensures Follows(State(s), State(t))
  {
    if t != s {
      RunFollows(t.past, s, window);
      TraceIsSound(t.past, window);
      StepFollows(State(t.past), t.op, window);
      FollowsIsTransitive(State(s), State(t.past), State(t));
    }
  }

  /** Optimistic locking is sound: if an operator's expected version matches, the whole incident row is the one
      that was read, however many transactions ran in between. */
  lemma VersionIdentifiesRow(t: Trace, s: Trace, id: Uuid, window: nat)
    requires Valid(t, window) && Extends(t, s)
    requires id in State(s).incidents && id in State(t).incidents
    ensures State(s).incidents[id] == State(t).incidents[id]
            <==> State(s).incidents[id].version == State(t).incidents[id].version
  {
    RunFollows(t, s, window);
    assert IncidentFollows(State(s), State(t), id);
  }

  /** A transition that names a version took effect only on that version: the row it found is the row of every earlier
      state in which the incident had the version, so the operator acted on what was read. */
  lemma AcceptedMoveWasCurrent(t: Trace, s: Trace, window: nat)
    requires Valid(t, window) && t.Then? && t.op.Move? && Extends(t.past, s)
    ensures var id, tenant, expected := t.op.command.incident, t.op.tenant, t.op.command.expected;
            && id in State(t.past).incidents
            && State(t.past).incidents[id].tenant == tenant
            && (expected.Some? ==> State(t.past).incidents[id].version == expected.value)
            && (expected.Some? && id in State(s).incidents && State(s).incidents[id].version == expected.value
                ==> State(s).incidents[id] == State(t.past).incidents[id])
            && MayMove(State(t.past).incidents[id].status, t.op.command.to)
            && MoveShows(State(t.past), State(t), tenant, t.op.command, t.op.now)
  {
    var d, id := State(t.past), t.op.command.incident;
    LastStep(t, window);
    VerdictOnColumns(d, t.op.tenant, t.op.command);
    MoveOnColumns(d, t.op.tenant, t.op.command, t.op.now);
    if id in State(s).incidents {
      VersionIdentifiesRow(t.past, s, id, window);
    }
    hide Valid, State, Extends, MoveShows, TransitionVerdict;
  }

  /** Acknowledging or resolving cuts escalation off for good: from then on the incident has exactly the rows it
      had, all finished, and no later transaction touches any of them. */
  lemma AcknowledgementCutsOffEscalation(t: Trace, s: Trace, incident: Uuid, window: nat)
    requires Valid(t, window) && Extends(t, s)
    requires incident in State(s).incidents && State(s).incidents[incident].status != Open
    ensures incident in State(t).incidents && State(t).incidents[incident].status != Open
    ensures forall id :: id in State(t).escalations && State(t).escalations[id].incident == incident ==>
              && id in State(s).escalations
              && State(s).escalations[id] == State(t).escalations[id]
              && !State(t).escalations[id].Live()
    ensures forall id, now :: id in State(t).escalations && State(t).escalations[id].incident == incident
              ==> !Claimable(State(t), id, now) && !Exhaustible(State(t), id, now)
    ensures forall c :: Issued(t, c) && c.incident == incident ==> !Holds(State(t), c)
  {
    RunFollows(t, s, window);
    TraceIsSound(s, window);
    assert IncidentFollows(State(s), State(t), incident);
    forall id | id in State(t).escalations && State(t).escalations[id].incident == incident
      ensures && id in State(s).escalations
              && State(s).escalations[id] == State(t).escalations[id]
              && !State(t).escalations[id].Live()
    {
      assert id in State(s).escalations;
      assert EscalationFollows(State(s), State(t), id);
      assert RowPlaced(State(s), id);
    }
    forall c | Issued(t, c) && c.incident == incident
      ensures !Holds(State(t), c)
    {
      ClaimMatchesRow(t, c, window);
    }
  }

  // ---- claims and fencing ----

  /** A claim that was handed out describes its row, and its token is one the row has carried. */
  ghost predicate Matching(d: Desk, c: Claim) {
    && c.id in d.escalations
    && var e := d.escalations[c.id];
    && c.tenant == e.tenant && c.incident == e.incident && c.step == e.step && c.target == e.target
    && c.maxAttempts == e.maxAttempts && c.title == e.title && c.severity == e.severity
    && c.incidentStatus == Open
    && c.attempts == c.token && 1 <= c.token <= e.token
  }

  lemma {:induction false} ClaimMatchesRow(t: Trace, c: Claim, window: nat)
    requires Valid(t, window) && Issued(t, c)
    ensures Matching(State(t), c)
    ensures Holds(State(t), c) ==> c.attempts == State(t).escalations[c.id].attempts
  {
    TraceIsSound(t, window);
    TraceIsSound(t.past, window);
    if t.op.Take? && t.op.id in State(t).escalations && c == ClaimOf(State(t).escalations[t.op.id], Open) {
      assert RowPlaced(State(t), t.op.id);
      assert RowPlaced(State(t.past), t.op.id);
    } else {
      ClaimMatchesRow(t.past, c, window);
      StepFollows(State(t.past), t.op, window);
      assert EscalationFollows(State(t.past), State(t), c.id);
      assert RowPlaced(State(t), c.id);
    }
  }

  /** The last transaction of the trace finished or failed the given row under the given token. */
  ghost predicate Settles(t: Trace, id: Uuid, token: int) {
    t.Then? && (t.op.Complete? || t.op.Fail?) && t.op.claim.id == id && t.op.claim.token == token
  }

  /** Once a token is settled, the row is either not running or has moved on to a larger token. */
  lemma SettledTokenIsSpent(t: Trace, s: Trace, id: Uuid, token: int, window: nat)
    requires Valid(t, window) && Extends(t, s) && Settles(s, id, token)
    ensures id in State(t).escalations
    ensures State(t).escalations[id].status != Running || State(t).escalations[id].token > token
  {
    RunFollows(t, s, window);
    assert Step(State(s.past), s.op) == State(s);
    assert EscalationFollows(State(s), State(t), id);
  }

  /** Fencing over whole runs: of all completions and failures ever reported for one claimed token, through any
      number of takeovers and delays, at most one takes effect, and those that do take effect carry strictly
      increasing tokens. */
  lemma TokenSettlesOnce(t: Trace, s: Trace, id: Uuid, earlier: int, later: int, window: nat)
    requires Valid(t, window) && t.Then? && Extends(t.past, s)
    requires Settles(s, id, earlier) && Settles(t, id, later)
    ensures earlier < later
  {
    SettledTokenIsSpent(t.past, s, id, earlier, window);
    assert Holds(State(t.past), t.op.claim);
  }

  /** A claim that was overtaken, or whose row was cancelled, is refused for ever. */
  lemma StaleClaimStaysRefused(t: Trace, s: Trace, c: Claim, window: nat)
    requires Valid(t, window) && Extends(t, s) && Issued(s, c)
    requires !Holds(State(s), c)
    ensures !Holds(State(t), c)
  {
    RunFollows(t, s, window);
    ClaimMatchesRow(s, c, window);
    assert EscalationFollows(State(s), State(t), c.id);
  }
}
