/** The transactions statement by statement.  Sessions run concurrently under READ COMMITTED: each statement sees
    the committed tables, rows chosen from an older snapshot are locked and checked again, and what a session
    writes is computed from what it read and becomes visible when it commits.  This module defines the machine;
    `Serializability` shows that its committed effect is that of the atomic transactions in commit order. */
module Interleaving {
  import opened Domain
  import opened Tables
  import opened Traces
  import opened Escalations

  // ---- locks ----

  /** What a session can hold until it ends: an uncommitted inbox key, the advisory lock of a hashed correlation
      key, and row locks; a row inserted but not committed counts as locked by its inserter. */
  datatype Lock =
    | InboxLock(key: InboxKey)
    | AdvisoryLock(hash: int)
    | IncidentLock(id: Uuid)
    | RowLock(id: Uuid)

  // ---- sessions ----

  datatype Stage =
    | Begun
    | Skipping                                            // the inbox key was there already
    | Inserted                                            // inbox row written
    | Loaded(alert: Alert)                                // alert read
    | Keyed(alert: Alert)                                 // advisory lock held
    | Scanning(alert: Alert, rest: seq<Uuid>)             // rows selected by the snapshot, still to be locked
    | Found(alert: Alert, id: Uuid, row: Incident)        // row locked and read
    | NoneFound(alert: Alert)
    | Written(alert: Alert, choice: Choice, row: Incident)

  datatype MovePhase =
    | Waiting
    | Read(row: Incident)                                 // row locked and read, checks passed
    | Cancelling(row: Incident, todo: set<Uuid>, done: set<Uuid>)

  datatype Session =
    | Correlating(key: InboxKey, tenant: Uuid, alertId: Uuid, stage: Stage)
    | Moving(tenant: Uuid, command: TransitionCommand, now: Time, phase: MovePhase)
    | Sweeping(now: Time, lease: Uuid, until: Time, todo: set<Uuid>, expired: seq<Uuid>, picked: seq<Uuid>)
    | Settling(op: Op, row: Option<Escalation>)           // a completion or failure; the row once locked

  /** `hash` is the hash behind the advisory lock; nothing depends on it being injective. */
  datatype Setup = Setup(window: nat, hash: CorrelationKey -> int)

  function StageLocks(c: Setup, key: InboxKey, stage: Stage): set<Lock> {
    match stage
    case Begun => {}
    case Skipping => {}
    case Inserted => {InboxLock(key)}
    case Loaded(_) => {InboxLock(key)}
    case Keyed(alert) => {InboxLock(key), AdvisoryLock(c.hash(KeyOf(alert)))}
    case Scanning(alert, _) => {InboxLock(key), AdvisoryLock(c.hash(KeyOf(alert)))}
    case NoneFound(alert) => {InboxLock(key), AdvisoryLock(c.hash(KeyOf(alert)))}
    case Found(alert, id, _) => {InboxLock(key), AdvisoryLock(c.hash(KeyOf(alert))), IncidentLock(id)}
    case Written(alert, choice, _) =>
      {InboxLock(key), AdvisoryLock(c.hash(KeyOf(alert))), IncidentLock(choice.id)}
      + (if choice.Create? then set i | 0 <= i < |choice.rows| :: RowLock(choice.rows[i]) else {})
  }

  function LocksOf(c: Setup, s: Session): set<Lock> {
    match s
    case Correlating(key, _, _, stage) => StageLocks(c, key, stage)
    case Moving(_, command, _, phase) =>
      (match phase
       case Waiting => {}
       case Read(_) => {IncidentLock(command.incident)}
       case Cancelling(_, _, done) => {IncidentLock(command.incident)} + (set id | id in done :: RowLock(id)))
    case Sweeping(_, _, _, _, expired, picked) =>
      (set id | id in expired :: RowLock(id)) + (set id | id in picked :: RowLock(id))
    case Settling(op, row) => if row.Some? && RowOf(op).Some? then {RowLock(RowOf(op).value)} else {}
  }

  // ---- states ----

  /** The committed tables, the sessions at work, and the claims committed sweeps have returned. */
  datatype Engine = Engine(alerts: map<Uuid, Alert>, inbox: set<InboxKey>, desk: Desk, sessions: map<nat, Session>, issued: set<Claim>)

  /** No other session holds the lock. */
  ghost predicate Free(c: Setup, f: Engine, s: nat, lock: Lock) {
    forall o :: o in f.sessions && o != s ==> lock !in LocksOf(c, f.sessions[o])
  }

  // ---- what a commit writes ----

  function CancelRows(escalations: map<Uuid, Escalation>, rows: set<Uuid>): map<Uuid, Escalation> {
    map id | id in escalations :: if id in rows then CancelledRow(escalations[id]) else escalations[id]
  }

  predicate Committable(d: Desk, s: Session) {
    match s
    case Correlating(_, _, _, stage) =>
      stage.Skipping? || (stage.Written? && Resolvable(d, stage.choice))
    case Moving(_, _, _, phase) => phase.Cancelling? && phase.todo == {}
    case Sweeping(_, _, _, todo, expired, picked) =>
      todo == {} && (forall id :: id in expired ==> id in d.escalations) && (forall id :: id in picked ==> id in d.escalations)
    case Settling(op, row) => row.Some? && (op.Complete? || op.Fail?)
  }

  /** The tables after the session's writes become visible; every value comes from what the session read. */
  function Committed(d: Desk, s: Session): Desk
    requires Committable(d, s)
  {
    match s
    case Correlating(_, _, _, stage) =>
      if stage.Skipping? then d
      else
        Desk(d.incidents[stage.choice.id := stage.row],
             if stage.choice.Create?
             then d.escalations + ScheduledRows(stage.choice.id, stage.alert, stage.choice.steps, stage.choice.rows)
             else d.escalations,
             d.timeline + [CorrelationEntry(stage.alert, stage.choice.Create?, stage.row)])
    case Moving(tenant, command, now, phase) =>
      var incident := MovedIncident(phase.row, command.to, now);
      Desk(d.incidents[command.incident := incident],
           CancelRows(d.escalations, phase.done),
           d.timeline + [Entry(tenant, command.incident, command.actor, IncidentMoved(command.to, command.note, incident.version))])
    case Sweeping(now, lease, until, _, expired, picked) =>
      ClaimAll(ExhaustAll(d, expired), picked, lease, until)
    case Settling(op, row) =>
      var c, e := op.claim, row.value;
      if op.Complete? then
        d.(escalations := d.escalations[c.id := CompletedRow(e, op.now)],
           timeline := d.timeline + [Entry(c.tenant, c.incident, "scheduler", EscalationSent(c.step, c.attempts))])
      else
        d.(escalations := d.escalations[c.id := FailedRow(e, op.now + op.retryAfter)],
           timeline := d.timeline + [Entry(c.tenant, c.incident, "scheduler",
                                           if LastAttempt(e) then EscalationDead(c.step, e.attempts)
                                           else EscalationRetryScheduled(c.step, e.attempts, op.retryAfter))])
  }

  /** The atomic transactions a commit stands for, appended to a trace. */
  function AtomicOps(t: Trace, s: Session): Trace {
    match s
    case Correlating(_, _, _, stage) => if stage.Written? then Then(t, Correlate(stage.alert, stage.choice)) else t
    case Moving(tenant, command, now, _) => Then(t, Move(tenant, command, now))
    case Sweeping(now, lease, until, _, expired, picked) =>
      ThenTake(ThenExhaust(t, expired, now), picked, lease, until, now)
    case Settling(op, _) => Then(t, op)
  }

  // ---- statements ----

  datatype Statement =
    | InsertInbox
    | ReadAlert
    | LockKey
    | Select(rest: seq<Uuid>)
    | ScanNext
    | Write(choice: Choice)
    | LockIncident
    | StartCancel
    | CancelNext(row: Uuid)
    | SweepNext(row: Uuid)
    | LockRow

  /** What the snapshot of the correlation query returns: every matching row, the latest first. */
  ghost predicate Selected(d: Desk, alert: Alert, window: nat, rest: seq<Uuid>) {
    && (forall i :: 0 <= i < |rest| ==>
          rest[i] in d.incidents && Matches(d.incidents[rest[i]], KeyOf(alert), alert.receivedAt, window))
    && (forall id :: id in d.incidents && Matches(d.incidents[id], KeyOf(alert), alert.receivedAt, window) ==> id in rest)
    && (forall i, j :: 0 <= i < j < |rest| ==> d.incidents[rest[j]].lastSeenAt <= d.incidents[rest[i]].lastSeenAt)
  }

  predicate RowDue(e: Escalation, now: Time) {
    e.attempts < e.maxAttempts && ((e.status == Pending && e.dueAt <= now) || (e.status == Running && LeaseExpired(e, now)))
  }

  predicate RowSpent(e: Escalation, now: Time) {
    e.attempts >= e.maxAttempts && e.status == Running && LeaseExpired(e, now)
  }

  /** When a statement can run to completion, that is, without waiting for a lock. */
  ghost predicate CanRun(c: Setup, f: Engine, s: nat, q: Statement)
    requires s in f.sessions
  {
    var me := f.sessions[s];
    match q
    case InsertInbox => me.Correlating? && me.stage == Begun && Free(c, f, s, InboxLock(me.key))
    case ReadAlert => me.Correlating? && me.stage == Inserted && me.alertId in f.alerts && f.alerts[me.alertId].tenant == me.tenant
    case LockKey => me.Correlating? && me.stage.Loaded? && Free(c, f, s, AdvisoryLock(c.hash(KeyOf(me.stage.alert))))
    case Select(rest) => me.Correlating? && me.stage.Keyed? && Selected(f.desk, me.stage.alert, c.window, rest)
    case ScanNext =>
      me.Correlating? && me.stage.Scanning? && (me.stage.rest != [] ==> Free(c, f, s, IncidentLock(me.stage.rest[0])))
    case Write(choice) =>
      && me.Correlating?
      && (|| (me.stage.Found? && choice == Merge(me.stage.id))
          || (me.stage.NoneFound? && choice.Create? && FreshFor(f.desk, choice.id, choice.steps, choice.rows)
              && Free(c, f, s, IncidentLock(choice.id))
              && forall i :: 0 <= i < |choice.rows| ==> Free(c, f, s, RowLock(choice.rows[i]))))
    case LockIncident =>
      && me.Moving? && me.phase == Waiting && Free(c, f, s, IncidentLock(me.command.incident))
      && TransitionVerdict(f.desk, me.tenant, me.command) == Accepted
    case StartCancel => me.Moving? && me.phase.Read?
    case CancelNext(row) => me.Moving? && me.phase.Cancelling? && row in me.phase.todo && Free(c, f, s, RowLock(row))
    case SweepNext(row) => me.Sweeping? && row in me.todo
    case LockRow => me.Settling? && me.row.None? && (me.op.Complete? || me.op.Fail?) && Holds(f.desk, me.op.claim) && Free(c, f, s, RowLock(me.op.claim.id))
  }

  /** The session after the statement; the committed tables do not change. */
  ghost function Ran(c: Setup, f: Engine, s: nat, q: Statement): Session
    requires s in f.sessions && CanRun(c, f, s, q)
  {
    var me := f.sessions[s];
    match q
    case InsertInbox => me.(stage := if me.key in f.inbox then Skipping else Inserted)
    case ReadAlert => me.(stage := Loaded(f.alerts[me.alertId]))
    case LockKey => me.(stage := Keyed(me.stage.alert))
    case Select(rest) => me.(stage := Scanning(me.stage.alert, rest))
    case ScanNext =>
      // the row is locked in its latest version and the condition is checked again
      var alert, rest := me.stage.alert, me.stage.rest;
      if rest == [] then me.(stage := NoneFound(alert))
      else if rest[0] in f.desk.incidents && Matches(f.desk.incidents[rest[0]], KeyOf(alert), alert.receivedAt, c.window)
      then me.(stage := Found(alert, rest[0], f.desk.incidents[rest[0]]))
      else me.(stage := Scanning(alert, rest[1..]))
    case Write(choice) =>
      me.(stage := Written(me.stage.alert, choice,
                           if choice.Create? then OpenedIncident(choice.id, me.stage.alert)
                           else MergedIncident(me.stage.row, me.stage.alert)))
    case LockIncident => me.(phase := Read(f.desk.incidents[me.command.incident]))
    case StartCancel => me.(phase := Cancelling(me.phase.row, LiveRows(f.desk.escalations, me.command.incident), {}))
    case CancelNext(row) =>
      var again := row in LiveRows(f.desk.escalations, me.command.incident);
      me.(phase := Cancelling(me.phase.row, me.phase.todo - {row}, if again then me.phase.done + {row} else me.phase.done))
    case SweepNext(row) =>
      // rows locked by others are skipped; a row that was locked is checked again in its latest version
      if !Free(c, f, s, RowLock(row)) || row !in f.desk.escalations || row in me.expired || row in me.picked
      then me.(todo := me.todo - {row})
      else if RowSpent(f.desk.escalations[row], me.now) then me.(todo := me.todo - {row}, expired := me.expired + [row])
      else if RowDue(f.desk.escalations[row], me.now) then me.(todo := me.todo - {row}, picked := me.picked + [row])
      else me.(todo := me.todo - {row})
    case LockRow => me.(row := Some(f.desk.escalations[me.op.claim.id]))
  }

  /** Sessions as they begin.  A sweep begins with its snapshot; a report carries a claim some sweep returned. */
  ghost predicate Fresh(f: Engine, me: Session) {
    match me
    case Correlating(_, _, _, stage) => stage == Begun
    case Moving(_, _, _, phase) => phase == Waiting
    case Sweeping(now, _, _, todo, expired, picked) =>
      expired == [] && picked == [] && forall id :: id in todo ==> Exhaustible(f.desk, id, now) || Claimable(f.desk, id, now)
    case Settling(op, row) => row.None? && (op.Complete? || op.Fail?) && op.claim in f.issued
  }

  datatype Event =
    | Accept(alert: Alert)               // ingestion commits an alert
    | Begin(s: nat, session: Session)
    | Run(s: nat, statement: Statement)
    | Commit(s: nat)
    | Abort(s: nat)

  ghost predicate Possible(c: Setup, f: Engine, e: Event) {
    match e
    case Accept(alert) => alert.id !in f.alerts
    case Begin(s, session) => s !in f.sessions && Fresh(f, session)
    case Run(s, q) => s in f.sessions && CanRun(c, f, s, q)
    case Commit(s) => s in f.sessions && Committable(f.desk, f.sessions[s])
    case Abort(s) => s in f.sessions
  }

  /** The claims a committing sweep returns to its caller. */
  function Returned(d: Desk, me: Session): set<Claim>
    requires Committable(d, me)
  {
    if me.Sweeping? then
      var after := Committed(d, me);
      set id | id in me.picked && id in after.escalations :: ClaimOf(after.escalations[id], Open)
    else {}
  }

  ghost function After(c: Setup, f: Engine, e: Event): Engine
    requires Possible(c, f, e)
  {
    match e
    case Accept(alert) => f.(alerts := f.alerts[alert.id := alert])
    case Begin(s, session) => f.(sessions := f.sessions[s := session])
    case Run(s, q) => f.(sessions := f.sessions[s := Ran(c, f, s, q)])
    case Commit(s) =>
      var me := f.sessions[s];
      f.(inbox := if me.Correlating? && me.stage.Written? then f.inbox + {me.key} else f.inbox,
         desk := Committed(f.desk, me),
         sessions := f.sessions - {s},
         issued := f.issued + Returned(f.desk, me))
    case Abort(s) => f.(sessions := f.sessions - {s})
  }

  // ---- runs ----

  datatype Schedule = Idle | Next(past: Schedule, event: Event)

  const INITIAL := Engine(map[], {}, EMPTY_DESK, map[], {})

  /** The state a schedule leads to; events that are not possible when their turn comes have no effect. */
  ghost function EngineAfter(c: Setup, r: Schedule): Engine {
    match r
    case Idle => INITIAL
    case Next(past, e) =>
      var f := EngineAfter(c, past);
      if Possible(c, f, e) then After(c, f, e) else f
  }

  /** The committed transactions of a schedule as a trace, in commit order. */
  ghost function CommitTrace(c: Setup, r: Schedule): Trace {
    match r
    case Idle => Boot
    case Next(past, e) =>
      var f := EngineAfter(c, past);
      if e.Commit? && Possible(c, f, e) then AtomicOps(CommitTrace(c, past), f.sessions[e.s]) else CommitTrace(c, past)
  }
}
