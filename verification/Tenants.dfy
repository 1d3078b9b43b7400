/** Tenant isolation.  What a tenant has in the tables is what it would have if it were alone: erase from any run the
    transactions of all other tenants, and the tenant's incidents, escalations and timeline are the same. */
module Tenants {
  import opened Domain
  import opened Tables
  import opened Traces
  import opened History

  /** On whose behalf a transaction runs. */
  function TenantOf(d: Desk, op: Op): Uuid {
    match op
    case Correlate(alert, _) => alert.tenant
    case Move(tenant, _, _) => tenant
    case Exhaust(id, _) => if id in d.escalations then d.escalations[id].tenant else NIL
    case Take(id, _, _, _) => if id in d.escalations then d.escalations[id].tenant else NIL
    case Complete(c, _) => c.tenant
    case Fail(c, _, _) => c.tenant
  }

  function IncidentsOf(m: map<Uuid, Incident>, tenant: Uuid): map<Uuid, Incident> {
    map id | id in m && m[id].tenant == tenant :: m[id]
  }

  function RowsOf(m: map<Uuid, Escalation>, tenant: Uuid): map<Uuid, Escalation> {
    map id | id in m && m[id].tenant == tenant :: m[id]
  }

  function EntriesOf(timeline: seq<Entry>, tenant: Uuid): seq<Entry> {
    if timeline == [] then []
    else EntriesOf(timeline[..|timeline| - 1], tenant)
         + (if timeline[|timeline| - 1].tenant == tenant then [timeline[|timeline| - 1]] else [])
  }

  /** The part of the tables that belongs to a tenant. */
  function Share(d: Desk, tenant: Uuid): Desk {
    Desk(IncidentsOf(d.incidents, tenant), RowsOf(d.escalations, tenant), EntriesOf(d.timeline, tenant))
  }

  /** The run with the transactions of all other tenants erased. */
  function Alone(t: Trace, tenant: Uuid): Trace {
    match t
    case Boot => Boot
    case Then(past, op) =>
      if TenantOf(State(past), op) == tenant then Then(Alone(past, tenant), op) else Alone(past, tenant)
  }

  // ---- one table at a time ----

  lemma IncidentsPut(m: map<Uuid, Incident>, id: Uuid, i: Incident, tenant: Uuid)
    requires id in m ==> m[id].tenant == i.tenant
    ensures IncidentsOf(m[id := i], tenant) == if i.tenant == tenant then IncidentsOf(m, tenant)[id := i] else IncidentsOf(m, tenant)
  {
  }

  lemma RowsPut(m: map<Uuid, Escalation>, id: Uuid, e: Escalation, tenant: Uuid)
    requires id in m && m[id].tenant == e.tenant
    ensures RowsOf(m[id := e], tenant) == if e.tenant == tenant then RowsOf(m, tenant)[id := e] else RowsOf(m, tenant)
  {
  }

  lemma RowsAdded(m: map<Uuid, Escalation>, added: map<Uuid, Escalation>, owner: Uuid, tenant: Uuid)
    requires m.Keys !! added.Keys && forall id :: id in added ==> added[id].tenant == owner
    ensures RowsOf(m + added, tenant) == if owner == tenant then RowsOf(m, tenant) + added else RowsOf(m, tenant)
  {
  }

  lemma RowsCancelled(m: map<Uuid, Escalation>, incident: Uuid, owner: Uuid, tenant: Uuid)
    requires forall id :: id in m && m[id].incident == incident ==> m[id].tenant == owner
    ensures RowsOf(CancelLive(m, incident), tenant) ==
              if owner == tenant then CancelLive(RowsOf(m, tenant), incident) else RowsOf(m, tenant)
  {
  }

  lemma EntriesAppend(timeline: seq<Entry>, e: Entry, tenant: Uuid)
    ensures EntriesOf(timeline + [e], tenant) == EntriesOf(timeline, tenant) + (if e.tenant == tenant then [e] else [])
  {
    assert (timeline + [e])[..|timeline|] == timeline;
  }

  // ---- one transaction at a time ----

  /** The share after the transaction, if it is the tenant's own and if it is not. */
  ghost predicate Isolated(d: Desk, op: Op, tenant: Uuid, window: nat) {
    if TenantOf(d, op) == tenant
    then Guard(Share(d, tenant), op, window) && Share(Step(d, op), tenant) == Step(Share(d, tenant), op)
    else Share(Step(d, op), tenant) == Share(d, tenant)
  }

  lemma MatchesInShare(d: Desk, alert: Alert, window: nat, tenant: Uuid)
    requires alert.tenant == tenant
    ensures forall id :: id in d.incidents && Matches(d.incidents[id], KeyOf(alert), alert.receivedAt, window)
              ==> id in IncidentsOf(d.incidents, tenant)
  {
  }

  lemma MergeIsolated(d: Desk, alert: Alert, id: Uuid, tenant: Uuid, window: nat)
    requires Guard(d, Correlate(alert, Merge(id)), window)
    ensures Isolated(d, Correlate(alert, Merge(id)), tenant, window)
  {
    var incident := MergedIncident(d.incidents[id], alert);
    assert incident.tenant == alert.tenant;
    IncidentsPut(d.incidents, id, incident, tenant);
    EntriesAppend(d.timeline, CorrelationEntry(alert, false, incident), tenant);
    MatchesInShare(d, alert, window, alert.tenant);
    hide Matches, MergedIncident, RowsOf, EntriesOf;
  }

  lemma CreateGuard(d: Desk, alert: Alert, choice: Choice, window: nat)
    requires choice.Create? && Guard(d, Correlate(alert, choice), window)
    ensures Guard(Share(d, alert.tenant), Correlate(alert, choice), window)
  {
    hide Matches, EntriesOf, ValidPolicy;
  }

  lemma CreatedShare(d: Desk, alert: Alert, choice: Choice, tenant: Uuid)
    requires choice.Create? && FreshFor(d, choice.id, choice.steps, choice.rows)
    ensures Share(Correlated(d, alert, choice), tenant) ==
              if alert.tenant == tenant then Correlated(Share(d, tenant), alert, choice) else Share(d, tenant)
  {
    var incident := OpenedIncident(choice.id, alert);
    AddedRowsAreNew(d, alert, choice);
    var added := ScheduledRows(choice.id, alert, choice.steps, choice.rows);
    IncidentsPut(d.incidents, choice.id, incident, tenant);
    RowsAdded(d.escalations, added, alert.tenant, tenant);
    EntriesAppend(d.timeline, CorrelationEntry(alert, true, incident), tenant);
    hide ScheduledRows, EntriesOf, IncidentsOf, RowsOf, FreshFor;
  }

  lemma CreateIsolated(d: Desk, alert: Alert, choice: Choice, tenant: Uuid, window: nat)
    requires choice.Create? && Guard(d, Correlate(alert, choice), window)
    ensures Isolated(d, Correlate(alert, choice), tenant, window)
  {
    CreateGuard(d, alert, choice, window);
    CreatedShare(d, alert, choice, tenant);
    hide Guard, Correlated, Share;
  }

  lemma MoveVerdict(d: Desk, owner: Uuid, command: TransitionCommand)
    requires TransitionVerdict(d, owner, command) == Accepted
    ensures command.incident in d.incidents && d.incidents[command.incident].tenant == owner
    ensures TransitionVerdict(Share(d, owner), owner, command) == Accepted
    ensures command.incident in IncidentsOf(d.incidents, owner)
  {
    hide RowsOf, EntriesOf;
  }

  lemma MovedShare(d: Desk, owner: Uuid, command: TransitionCommand, now: Time, tenant: Uuid)
    requires command.incident in d.incidents && d.incidents[command.incident].tenant == owner
    requires forall id :: id in d.escalations && d.escalations[id].incident == command.incident ==> d.escalations[id].tenant == owner
    ensures owner == tenant ==> command.incident in Share(d, tenant).incidents
    ensures Share(Moved(d, owner, command, now), tenant) ==
              if owner == tenant then Moved(Share(d, tenant), owner, command, now) else Share(d, tenant)
  {
    var incident := MovedIncident(d.incidents[command.incident], command.to, now);
    IncidentsPut(d.incidents, command.incident, incident, tenant);
    RowsCancelled(d.escalations, command.incident, owner, tenant);
    EntriesAppend(d.timeline, Entry(owner, command.incident, command.actor, IncidentMoved(command.to, command.note, incident.version)),
                  tenant);
    hide CancelLive, RowsOf, EntriesOf;
  }

  lemma MoveIsolated(d: Desk, owner: Uuid, command: TransitionCommand, now: Time, tenant: Uuid, window: nat)
    requires Sound(d) && Guard(d, Move(owner, command, now), window)
    ensures Isolated(d, Move(owner, command, now), tenant, window)
  {
    hide TransitionVerdict, Moved, Share, IncidentsOf, Sound;
    MoveVerdict(d, owner, command);
    forall id | id in d.escalations && d.escalations[id].incident == command.incident
      ensures d.escalations[id].tenant == owner
    {
      SoundRowTenant(d, id);
    }
    MovedShare(d, owner, command, now, tenant);
    assert owner == tenant ==> command.incident in Share(d, tenant).incidents;
  }

  lemma SoundRowTenant(d: Desk, id: Uuid)
    requires Sound(d) && id in d.escalations
    ensures d.escalations[id].incident in d.incidents
    ensures d.incidents[d.escalations[id].incident].tenant == d.escalations[id].tenant
  {
    assert RowPlaced(d, id);
  }

  /** A row and its incident belong to one tenant, and reports name the tenant of their row. */
  ghost predicate OwnRow(d: Desk, op: Op) {
    RowOf(op).Some? ==>
      && RowOf(op).value in d.escalations
      && d.escalations[RowOf(op).value].tenant == TenantOf(d, op)
      && d.escalations[RowOf(op).value].incident in d.incidents
      && d.incidents[d.escalations[RowOf(op).value].incident].tenant == TenantOf(d, op)
  }

  lemma RowOpShare(d: Desk, op: Op, tenant: Uuid, window: nat)
    requires RowOf(op).Some? && Guard(d, op, window) && OwnRow(d, op)
    ensures TenantOf(d, op) != tenant ==> Share(Step(d, op), tenant) == Share(d, tenant)
    ensures TenantOf(d, op) == tenant && Guard(Share(d, tenant), op, window) ==>
              Share(Step(d, op), tenant) == Step(Share(d, tenant), op)
  {
    var id := RowOf(op).value;
    RowStep(d, op, window);
    var e := d.escalations[id];
    RowsPut(d.escalations, id, RowAfter(e, op), tenant);
    var next := Step(d, op);
    if !op.Take? {
      assert next.timeline == d.timeline + [next.timeline[|d.timeline|]];
      EntriesAppend(d.timeline, next.timeline[|d.timeline|], tenant);
    }
    hide EntriesOf, Guard;
  }

  lemma RowOpGuard(d: Desk, op: Op, window: nat)
    requires RowOf(op).Some? && Guard(d, op, window) && OwnRow(d, op)
    ensures Guard(Share(d, TenantOf(d, op)), op, window)
  {
    hide EntriesOf;
  }

  lemma RowOpIsolated(d: Desk, op: Op, tenant: Uuid, window: nat)
    requires RowOf(op).Some? && Guard(d, op, window) && OwnRow(d, op)
    ensures Isolated(d, op, tenant, window)
  {
    hide Guard, OwnRow, Share, Step, TenantOf;
    RowOpGuard(d, op, window);
    RowOpShare(d, op, tenant, window);
  }

  /** A transaction of one tenant does not change the share of another, and does to its own share what it would do if
      there were nothing else. */
  lemma StepIsolated(d: Desk, op: Op, tenant: Uuid, window: nat)
    requires Sound(d) && Guard(d, op, window) && OwnRow(d, op)
    ensures Isolated(d, op, tenant, window)
  {
    hide Sound, Guard, OwnRow, Isolated;
    match op
    case Correlate(alert, choice) =>
      if choice.Create? {
        CreateIsolated(d, alert, choice, tenant, window);
      } else {
        MergeIsolated(d, alert, choice.id, tenant, window);
      }
    case Move(owner, command, now) => MoveIsolated(d, owner, command, now, tenant, window);
    case Exhaust(_, _) => RowOpIsolated(d, op, tenant, window);
    case Take(_, _, _, _) => RowOpIsolated(d, op, tenant, window);
    case Complete(_, _) => RowOpIsolated(d, op, tenant, window);
    case Fail(_, _, _) => RowOpIsolated(d, op, tenant, window);
  }

  lemma OpsOwnTheirRows(t: Trace, op: Op, window: nat)
    requires Valid(t, window) && Enabled(t, op, window)
    ensures OwnRow(State(t), op)
  {
    TraceIsSound(t, window);
    if RowOf(op).Some? {
      RowStep(State(t), op, window);
      assert RowPlaced(State(t), RowOf(op).value);
      if op.Complete? || op.Fail? {
        ClaimMatchesRow(t, op.claim, window);
      }
    }
  }

  /** Claims of the tenant are handed out in its own run too. */
  ghost predicate ClaimsKept(t: Trace, tenant: Uuid) {
    forall c :: Issued(t, c) && c.tenant == tenant ==> Issued(Alone(t, tenant), c)
  }

  /** Isolation over whole runs: the run a tenant would have alone is a valid run, and it leads to exactly the
      tenant's share of the tables, whatever the other tenants did in between. */
  lemma {:induction false} TenantsAreIsolated(t: Trace, tenant: Uuid, window: nat)
    requires Valid(t, window)
    ensures Valid(Alone(t, tenant), window)
    ensures State(Alone(t, tenant)) == Share(State(t), tenant)
    ensures ClaimsKept(t, tenant)
  {
    if t.Then? {
      var past, op := t.past, t.op;
      TenantsAreIsolated(past, tenant, window);
      TraceIsSound(past, window);
      OpsOwnTheirRows(past, op, window);
      StepIsolated(State(past), op, tenant, window);
      LastStep(t, window);
      hide Guard, Sound, OwnRow, Step, Share;
      ClaimsStayKept(t, tenant, window);
    }
  }

  lemma ClaimsStayKept(t: Trace, tenant: Uuid, window: nat)
    requires Valid(t, window) && t.Then? && ClaimsKept(t.past, tenant)
    requires TenantOf(State(t.past), t.op) == tenant ==> State(Alone(t, tenant)) == Share(State(t), tenant)
    requires OwnRow(State(t.past), t.op)
    ensures ClaimsKept(t, tenant)
  {
    LastStep(t, window);
    if t.op.Take? {
      RowStep(State(t.past), t.op, window);
    }
    hide Valid, Guard, Step, State, IncidentsOf, EntriesOf;
  }
}
