/** Every interleaving of the statement-level machine commits exactly the atomic transactions, in commit order.
    What a session has read, or found absent, still holds when it commits, because whatever could change it is
    behind a lock the session holds. */
module Serializability {
  import opened Domain
  import opened Tables
  import opened Traces
  import opened History
  import opened Escalations
  import opened Interleaving
  import opened Columns

  // ---- what a session may rely on ----

  ghost predicate AlertRead(f: Engine, tenant: Uuid, alertId: Uuid, alert: Alert) {
    alertId in f.alerts && f.alerts[alertId] == alert && alert.tenant == tenant
  }

  /** The rows still to be scanned include, latest first, every row that matches now. */
  ghost predicate ScanSound(d: Desk, alert: Alert, window: nat, rest: seq<Uuid>) {
    && (forall i :: 0 <= i < |rest| ==> rest[i] in d.incidents && d.incidents[rest[i]].Key() == KeyOf(alert))
    && (forall id :: id in d.incidents && Matches(d.incidents[id], KeyOf(alert), alert.receivedAt, window) ==> id in rest)
    && (forall i, j :: 0 <= i < j < |rest| ==> d.incidents[rest[j]].lastSeenAt <= d.incidents[rest[i]].lastSeenAt)
  }

  ghost predicate StageSound(c: Setup, d: Desk, stage: Stage) {
    match stage
    case Scanning(alert, rest) => ScanSound(d, alert, c.window, rest)
    case Found(alert, id, row) =>
      IsLatestMatch(d.incidents, id, KeyOf(alert), alert.receivedAt, c.window) && d.incidents[id] == row
    case NoneFound(alert) => NoMatch(d.incidents, KeyOf(alert), alert.receivedAt, c.window)
    case Written(alert, choice, row) =>
      && Admissible(d, alert, c.window, choice) && Resolvable(d, choice)
      && row == (if choice.Create? then OpenedIncident(choice.id, alert) else MergedIncident(d.incidents[choice.id], alert))
    case _ => true
  }

  ghost predicate CorrelatingSound(c: Setup, f: Engine, me: Session)
    requires me.Correlating?
  {
    && (me.stage.Skipping? ==> me.key in f.inbox)
    && (!me.stage.Skipping? && !me.stage.Begun? ==> me.key !in f.inbox)
    && (me.stage.Loaded? || me.stage.Keyed? || me.stage.Scanning? || me.stage.Found? || me.stage.NoneFound? || me.stage.Written?
        ==> AlertRead(f, me.tenant, me.alertId, me.stage.alert))
    && StageSound(c, f.desk, me.stage)
  }

  ghost predicate MovingSound(d: Desk, me: Session)
    requires me.Moving?
  {
    !me.phase.Waiting? ==>
      && TransitionVerdict(d, me.tenant, me.command) == Accepted
      && d.incidents[me.command.incident] == me.phase.row
      && (me.phase.Cancelling? ==>
            && LiveRows(d.escalations, me.command.incident) <= me.phase.todo + me.phase.done
            && me.phase.done <= LiveRows(d.escalations, me.command.incident))
  }

  ghost predicate Distinct(ids: seq<Uuid>) {
    forall i, j :: 0 <= i < j < |ids| ==> ids[i] != ids[j]
  }

  ghost predicate SweepingSound(d: Desk, me: Session)
    requires me.Sweeping?
  {
    && (forall i :: 0 <= i < |me.expired| ==> me.expired[i] in d.escalations && RowSpent(d.escalations[me.expired[i]], me.now))
    && (forall i :: 0 <= i < |me.picked| ==> me.picked[i] in d.escalations && RowDue(d.escalations[me.picked[i]], me.now))
    && Distinct(me.expired) && Distinct(me.picked)
  }

  ghost predicate SettlingSound(f: Engine, me: Session)
    requires me.Settling?
  {
    && (me.op.Complete? || me.op.Fail?) && me.op.claim in f.issued
    && (me.row.Some? ==> Holds(f.desk, me.op.claim) && f.desk.escalations[me.op.claim.id] == me.row.value)
  }

  ghost predicate SessionSound(c: Setup, f: Engine, me: Session) {
    match me
    case Correlating(_, _, _, _) => CorrelatingSound(c, f, me)
    case Moving(_, _, _, _) => MovingSound(f.desk, me)
    case Sweeping(_, _, _, _, _, _) => SweepingSound(f.desk, me)
    case Settling(_, _) => SettlingSound(f, me)
  }

  ghost predicate Exclusive(c: Setup, sessions: map<nat, Session>) {
    forall s, o :: s in sessions && o in sessions && s != o ==> LocksOf(c, sessions[s]) !! LocksOf(c, sessions[o])
  }

  ghost predicate EngineSound(c: Setup, f: Engine) {
    && Sound(f.desk)
    && (forall s :: s in f.sessions ==> SessionSound(c, f, f.sessions[s]))
    && Exclusive(c, f.sessions)
  }

  // ---- statements ----

  /** No statement does less than it should: a message is skipped exactly if the inbox has it; the scan takes the next
      row exactly if its latest version is still in reach; a sweep that gets the lock of a row takes or retires it exactly
      if its latest version is due or spent. */
  lemma StatementsDoTheirWork(c: Setup, f: Engine, s: nat, q: Statement)
    requires s in f.sessions && CanRun(c, f, s, q)
    ensures q.InsertInbox? ==> Ran(c, f, s, q).stage == if f.sessions[s].key in f.inbox then Skipping else Inserted
    ensures q.ScanNext? && f.sessions[s].stage.rest == [] ==> Ran(c, f, s, q).stage == NoneFound(f.sessions[s].stage.alert)
    ensures q.ScanNext? && f.sessions[s].stage.rest != [] ==>
              var alert, rest := f.sessions[s].stage.alert, f.sessions[s].stage.rest;
              Ran(c, f, s, q).stage ==
                if rest[0] in f.desk.incidents && Reaches(f.desk.incidents[rest[0]], alert, c.window)
                then Found(alert, rest[0], f.desk.incidents[rest[0]]) else Scanning(alert, rest[1..])
    ensures q.SweepNext? && q.row in f.desk.escalations && Free(c, f, s, RowLock(q.row))
            && q.row !in f.sessions[s].expired && q.row !in f.sessions[s].picked ==>
              var me, next, e := f.sessions[s], Ran(c, f, s, q), f.desk.escalations[q.row];
              var due := Abandoned(e, me.now) || (e.status == Pending && e.dueAt <= me.now);
              && next.picked == (if e.attempts < e.maxAttempts && due then me.picked + [q.row] else me.picked)
              && next.expired == (if e.attempts >= e.maxAttempts && Abandoned(e, me.now) then me.expired + [q.row] else me.expired)
  {
    hide Free, Selected, TransitionVerdict, FreshFor;
    if q.ScanNext? && f.sessions[s].stage.rest != [] && f.sessions[s].stage.rest[0] in f.desk.incidents {
      MatchesOnColumns(f.desk.incidents[f.sessions[s].stage.rest[0]], f.sessions[s].stage.alert, c.window);
    }
    hide Matches, Reaches;
  }

  lemma ScanStep(d: Desk, alert: Alert, window: nat, rest: seq<Uuid>)
    requires ScanSound(d, alert, window, rest)
    ensures rest == [] ==> NoMatch(d.incidents, KeyOf(alert), alert.receivedAt, window)
    ensures rest != [] && Matches(d.incidents[rest[0]], KeyOf(alert), alert.receivedAt, window)
            ==> IsLatestMatch(d.incidents, rest[0], KeyOf(alert), alert.receivedAt, window)
    ensures rest != [] && !Matches(d.incidents[rest[0]], KeyOf(alert), alert.receivedAt, window)
            ==> ScanSound(d, alert, window, rest[1..])
  {
    if rest != [] {
      forall id | id in rest
        ensures id == rest[0] || id in rest[1..]
        ensures d.incidents[id].lastSeenAt <= d.incidents[rest[0]].lastSeenAt
      {
        var i :| 0 <= i < |rest| && rest[i] == id;
        if i > 0 {
          assert rest[1..][i - 1] == id;
        }
      }
    }
  }

  lemma CorrelatingRuns(c: Setup, f: Engine, s: nat, q: Statement)
    requires s in f.sessions && f.sessions[s].Correlating? && CanRun(c, f, s, q) && CorrelatingSound(c, f, f.sessions[s])
    ensures Ran(c, f, s, q).Correlating? && CorrelatingSound(c, f, Ran(c, f, s, q))
  {
    var me := f.sessions[s];
    if q.ScanNext? {
      ScanStep(f.desk, me.stage.alert, c.window, me.stage.rest);
    }
  }

  lemma MovingRuns(c: Setup, f: Engine, s: nat, q: Statement)
    requires s in f.sessions && f.sessions[s].Moving? && CanRun(c, f, s, q) && MovingSound(f.desk, f.sessions[s])
    ensures Ran(c, f, s, q).Moving? && MovingSound(f.desk, Ran(c, f, s, q))
  {
  }

  lemma SweepingRuns(c: Setup, f: Engine, s: nat, q: Statement)
    requires s in f.sessions && f.sessions[s].Sweeping? && CanRun(c, f, s, q) && SweepingSound(f.desk, f.sessions[s])
    ensures Ran(c, f, s, q).Sweeping? && SweepingSound(f.desk, Ran(c, f, s, q))
  {
  }

  lemma SettlingRuns(c: Setup, f: Engine, s: nat, q: Statement)
    requires s in f.sessions && f.sessions[s].Settling? && CanRun(c, f, s, q) && SettlingSound(f, f.sessions[s])
    ensures Ran(c, f, s, q).Settling? && SettlingSound(f, Ran(c, f, s, q))
  {
  }

  lemma StatementKeepsSessionSound(c: Setup, f: Engine, s: nat, q: Statement)
    requires s in f.sessions && CanRun(c, f, s, q) && SessionSound(c, f, f.sessions[s])
    ensures SessionSound(c, f, Ran(c, f, s, q))
  {
    var me := f.sessions[s];
    hide Ran, CanRun, CorrelatingSound, MovingSound, SweepingSound, SettlingSound;
    match me
    case Correlating(_, _, _, _) => CorrelatingRuns(c, f, s, q);
    case Moving(_, _, _, _) => MovingRuns(c, f, s, q);
    case Sweeping(_, _, _, _, _, _) => SweepingRuns(c, f, s, q);
    case Settling(_, _) => SettlingRuns(c, f, s, q);
  }

  /** A statement takes only locks that no other session holds. */
  lemma StatementLocks(c: Setup, f: Engine, s: nat, q: Statement)
    requires s in f.sessions && CanRun(c, f, s, q)
    ensures forall lock :: lock in LocksOf(c, Ran(c, f, s, q)) && lock !in LocksOf(c, f.sessions[s]) ==> Free(c, f, s, lock)
  {
  }

  lemma StatementKeepsExclusive(c: Setup, f: Engine, s: nat, q: Statement)
    requires s in f.sessions && CanRun(c, f, s, q) && Exclusive(c, f.sessions)
    ensures Exclusive(c, f.sessions[s := Ran(c, f, s, q)])
  {
    StatementLocks(c, f, s, q);
    hide LocksOf, Ran, CanRun;
    var next := f.sessions[s := Ran(c, f, s, q)];
    forall a, b | a in next && b in next && a != b
      ensures LocksOf(c, next[a]) !! LocksOf(c, next[b])
    {
    }
  }

  // ---- a commit is the atomic transaction ----

  lemma MoveCommits(c: Setup, f: Engine, me: Session)
    requires me.Moving? && MovingSound(f.desk, me) && Committable(f.desk, me)
    ensures TransitionVerdict(f.desk, me.tenant, me.command) == Accepted
    ensures Committed(f.desk, me) == Moved(f.desk, me.tenant, me.command, me.now)
  {
    assert me.phase.done == LiveRows(f.desk.escalations, me.command.incident);
    assert CancelRows(f.desk.escalations, me.phase.done) == CancelLive(f.desk.escalations, me.command.incident);
  }

  lemma CorrelationCommits(c: Setup, f: Engine, me: Session)
    requires me.Correlating? && me.stage.Written? && CorrelatingSound(c, f, me)
    ensures Admissible(f.desk, me.stage.alert, c.window, me.stage.choice)
    ensures Committable(f.desk, me) && Committed(f.desk, me) == Correlated(f.desk, me.stage.alert, me.stage.choice)
  {
  }

  lemma SettlementCommits(c: Setup, f: Engine, me: Session)
    requires me.Settling? && SettlingSound(f, me) && Committable(f.desk, me)
    ensures Guard(f.desk, me.op, c.window) && Committed(f.desk, me) == Step(f.desk, me.op)
  {
  }

  lemma SweepCommits(c: Setup, f: Engine, me: Session, t: Trace)
    requires me.Sweeping? && SweepingSound(f.desk, me) && Committable(f.desk, me)
    requires Sound(f.desk) && f.desk == Traces.State(t) && Valid(t, c.window)
    ensures Valid(AtomicOps(t, me), c.window) && Extends(AtomicOps(t, me), t)
    ensures Committed(f.desk, me) == Traces.State(AtomicOps(t, me))
    ensures forall claim :: claim in Returned(f.desk, me) ==> Issued(AtomicOps(t, me), claim)
  {
    forall i | 0 <= i < |me.expired|
      ensures me.expired[i] in f.desk.escalations && Exhaustible(f.desk, me.expired[i], me.now)
    {
      assert RowPlaced(f.desk, me.expired[i]);
    }
    forall i | 0 <= i < |me.picked|
      ensures me.picked[i] in f.desk.escalations && Claimable(f.desk, me.picked[i], me.now) && me.picked[i] !in me.expired
    {
      assert RowPlaced(f.desk, me.picked[i]);
    }
    hide Sound, RowDue, RowSpent, Valid, Issued, Exhaustible, Claimable;
    SweepRun(t, me.expired, me.picked, me.lease, me.until, me.now, c.window);
  }

  lemma SweepRun(t: Trace, expired: seq<Uuid>, picked: seq<Uuid>, lease: Uuid, until: Time, now: Time, window: nat)
    requires Valid(t, window) && Distinct(expired) && Distinct(picked)
    requires forall i :: 0 <= i < |expired| ==> expired[i] in Traces.State(t).escalations && Exhaustible(Traces.State(t), expired[i], now)
    requires forall i :: 0 <= i < |picked| ==>
               picked[i] in Traces.State(t).escalations && Claimable(Traces.State(t), picked[i], now) && picked[i] !in expired
    ensures var r := ThenTake(ThenExhaust(t, expired, now), picked, lease, until, now);
            && Valid(r, window) && Extends(r, t)
            && Traces.State(r) == ClaimAll(ExhaustAll(Traces.State(t), expired), picked, lease, until)
            && (forall id :: id in picked && id in Traces.State(r).escalations ==> Issued(r, ClaimOf(Traces.State(r).escalations[id], Open)))
  {
    ExhaustRun(t, expired, now, window);
    ExhaustKeepsOthers(Traces.State(t), expired);
    var mid := ThenExhaust(t, expired, now);
    forall i | 0 <= i < |picked|
      ensures picked[i] in Traces.State(mid).escalations && Claimable(Traces.State(mid), picked[i], now)
    {
    }
    TakeRun(mid, picked, lease, until, now, window);
    var r := ThenTake(mid, picked, lease, until, now);
    ExtendsIsTransitive(r, mid, t);
    forall id | id in picked && id in Traces.State(r).escalations
      ensures Issued(r, ClaimOf(Traces.State(r).escalations[id], Open))
    {
      var i :| 0 <= i < |picked| && picked[i] == id;
      TakeIssues(mid, picked, lease, until, now, i);
    }
  }

  /** Committing a session appends its atomic transactions to the trace. */
  lemma CommitIsAtomic(c: Setup, f: Engine, me: Session, t: Trace)
    requires SessionSound(c, f, me) && Committable(f.desk, me)
    requires Sound(f.desk) && f.desk == Traces.State(t) && Valid(t, c.window)
    requires forall claim :: claim in f.issued ==> Issued(t, claim)
    ensures Valid(AtomicOps(t, me), c.window) && Extends(AtomicOps(t, me), t)
    ensures Committed(f.desk, me) == Traces.State(AtomicOps(t, me))
    ensures forall claim :: claim in f.issued + Returned(f.desk, me) ==> Issued(AtomicOps(t, me), claim)
  {
    hide Valid, Extends, Sound, CorrelatingSound, MovingSound, SweepingSound, SettlingSound, Issued, Committable, Guard, Admissible;
    match me {
      case Correlating(_, _, _, stage) =>
        if stage.Written? {
          CorrelationCommits(c, f, me);
          OneMore(t, Correlate(stage.alert, stage.choice), c.window) by { GuardOfCorrelation(f.desk, stage.alert, stage.choice, c.window); }
        } else {
          SkippingCommits(f.desk, me, t);
        }
      case Moving(tenant, command, now, _) =>
        MoveCommits(c, f, me);
        OneMore(t, Move(tenant, command, now), c.window) by { GuardOfMove(f.desk, tenant, command, now, c.window); }
      case Sweeping(_, _, _, _, _, _) => SweepCommits(c, f, me, t);
      case Settling(op, _) =>
        SettlementCommits(c, f, me);
        OneMore(t, op, c.window) by { ReportOfSettlement(f, me, t); }
    }
    forall claim | claim in f.issued + Returned(f.desk, me)
      ensures Issued(AtomicOps(t, me), claim)
    {
      if claim in f.issued {
        IssuedLater(AtomicOps(t, me), t, claim);
      }
    }
  }

  lemma GuardOfCorrelation(d: Desk, alert: Alert, choice: Choice, window: nat)
    requires Admissible(d, alert, window, choice)
    ensures Guard(d, Correlate(alert, choice), window)
  {
  }

  lemma GuardOfMove(d: Desk, tenant: Uuid, command: TransitionCommand, now: Time, window: nat)
    requires TransitionVerdict(d, tenant, command) == Accepted
    ensures Guard(d, Move(tenant, command, now), window)
  {
  }

  lemma ReportOfSettlement(f: Engine, me: Session, t: Trace)
    requires me.Settling? && SettlingSound(f, me) && forall claim :: claim in f.issued ==> Issued(t, claim)
    ensures Reported(t, me.op)
  {
  }

  lemma SkippingCommits(d: Desk, me: Session, t: Trace)
    requires me.Correlating? && Committable(d, me) && !me.stage.Written?
    ensures AtomicOps(t, me) == t && Committed(d, me) == d && Extends(t, t)
  {
  }

  lemma OneMore(t: Trace, op: Op, window: nat)
    requires Valid(t, window) && Guard(Traces.State(t), op, window) && Reported(t, op)
    ensures Valid(Then(t, op), window) && Extends(Then(t, op), t)
    ensures Traces.State(Then(t, op)) == Step(Traces.State(t), op)
  {
  }

  lemma {:induction false} IssuedLater(t: Trace, s: Trace, claim: Claim)
    requires Extends(t, s) && Issued(s, claim)
    ensures Issued(t, claim)
  {
    if t != s {
      IssuedLater(t.past, s, claim);
    }
  }

  // ---- what a commit leaves alone ----

  /** The change stays within the rows and keys that are locked. */
  ghost predicate Respects(c: Setup, d: Desk, next: Desk, locks: set<Lock>) {
    && (forall id :: id in d.incidents && IncidentLock(id) !in locks ==> id in next.incidents && next.incidents[id] == d.incidents[id])
    && (forall id :: id in next.incidents && id !in d.incidents ==>
          IncidentLock(id) in locks && AdvisoryLock(c.hash(next.incidents[id].Key())) in locks)
    && (forall id :: id in d.incidents && id in next.incidents && AdvisoryLock(c.hash(d.incidents[id].Key())) !in locks ==>
          next.incidents[id].lastSeenAt == d.incidents[id].lastSeenAt && next.incidents[id].firstSeenAt == d.incidents[id].firstSeenAt)
    && (forall id :: id in d.escalations && RowLock(id) !in locks ==> id in next.escalations && next.escalations[id] == d.escalations[id])
    && (forall id :: id in next.escalations && id !in d.escalations ==> RowLock(id) in locks)
  }

  lemma CorrelationRespects(c: Setup, f: Engine, me: Session)
    requires me.Correlating? && CorrelatingSound(c, f, me) && Committable(f.desk, me)
    ensures Respects(c, f.desk, Committed(f.desk, me), LocksOf(c, me))
  {
  }

  lemma MoveRespects(c: Setup, f: Engine, me: Session)
    requires me.Moving? && MovingSound(f.desk, me) && Committable(f.desk, me)
    ensures Respects(c, f.desk, Committed(f.desk, me), LocksOf(c, me))
  {
  }

  lemma SweepTouches(d: Desk, me: Session)
    requires me.Sweeping? && Committable(d, me)
    ensures var next := Committed(d, me);
            && next.incidents == d.incidents && next.escalations.Keys == d.escalations.Keys
            && forall id :: id in d.escalations && id !in me.expired && id !in me.picked ==> next.escalations[id] == d.escalations[id]
  {
    ExhaustKeepsOthers(d, me.expired);
    ClaimKeepsOthers(ExhaustAll(d, me.expired), me.picked, me.lease, me.until);
    hide ExhaustAll, ClaimAll;
  }

  lemma SweepRespects(c: Setup, f: Engine, me: Session)
    requires me.Sweeping? && Committable(f.desk, me)
    ensures Respects(c, f.desk, Committed(f.desk, me), LocksOf(c, me))
  {
    SweepTouches(f.desk, me);
    hide Committed, Committable;
    assert forall id :: id in me.expired || id in me.picked ==> RowLock(id) in LocksOf(c, me);
    hide LocksOf;
  }

  lemma SettlementRespects(c: Setup, f: Engine, me: Session)
    requires me.Settling? && SettlingSound(f, me) && Committable(f.desk, me)
    ensures Respects(c, f.desk, Committed(f.desk, me), LocksOf(c, me))
  {
  }

  lemma CommitRespects(c: Setup, f: Engine, me: Session)
    requires SessionSound(c, f, me) && Committable(f.desk, me)
    ensures Respects(c, f.desk, Committed(f.desk, me), LocksOf(c, me))
  {
    match me
    case Correlating(_, _, _, _) => CorrelationRespects(c, f, me);
    case Moving(_, _, _, _) => MoveRespects(c, f, me);
    case Sweeping(_, _, _, _, _, _) => SweepRespects(c, f, me);
    case Settling(_, _) => SettlementRespects(c, f, me);
  }

  // ---- what others rely on survives a commit ----

  /** The tables move on, within the given locks. */
  ghost predicate MovesOn(c: Setup, f: Engine, g: Engine, locks: set<Lock>) {
    && Respects(c, f.desk, g.desk, locks)
    && Follows(f.desk, g.desk)
    && (forall id :: id in f.alerts ==> id in g.alerts && g.alerts[id] == f.alerts[id])
    && f.inbox <= g.inbox
    && (forall key :: key in g.inbox && key !in f.inbox ==> InboxLock(key) in locks)
    && f.issued <= g.issued
  }

  /** Under the advisory lock of a key, its matching rows can only become fewer. */
  lemma MatchesShrink(c: Setup, f: Engine, g: Engine, locks: set<Lock>, alert: Alert, id: Uuid)
    requires MovesOn(c, f, g, locks) && AdvisoryLock(c.hash(KeyOf(alert))) !in locks
    requires id in g.desk.incidents && Matches(g.desk.incidents[id], KeyOf(alert), alert.receivedAt, c.window)
    ensures id in f.desk.incidents && Matches(f.desk.incidents[id], KeyOf(alert), alert.receivedAt, c.window)
    ensures g.desk.incidents[id].lastSeenAt == f.desk.incidents[id].lastSeenAt
  {
    assert id in f.desk.incidents;
    assert IncidentFollows(f.desk, g.desk, id);
  }

  lemma CorrelatingUnaffected(c: Setup, f: Engine, g: Engine, locks: set<Lock>, me: Session)
    requires me.Correlating? && CorrelatingSound(c, f, me) && MovesOn(c, f, g, locks) && locks !! LocksOf(c, me)
    ensures CorrelatingSound(c, g, me)
  {
    assert !me.stage.Skipping? && !me.stage.Begun? ==> InboxLock(me.key) in LocksOf(c, me);
    if me.stage.Scanning? || me.stage.Found? || me.stage.NoneFound? || me.stage.Written? {
      assert AdvisoryLock(c.hash(KeyOf(me.stage.alert))) in LocksOf(c, me);
      assert AdvisoryLock(c.hash(KeyOf(me.stage.alert))) !in locks;
      var alert := me.stage.alert;
      forall id | id in g.desk.incidents && Matches(g.desk.incidents[id], KeyOf(alert), alert.receivedAt, c.window)
        ensures id in f.desk.incidents && Matches(f.desk.incidents[id], KeyOf(alert), alert.receivedAt, c.window)
        ensures g.desk.incidents[id].lastSeenAt == f.desk.incidents[id].lastSeenAt
      {
        MatchesShrink(c, f, g, locks, alert, id);
      }
      StageUnaffected(c, f, g, locks, me);
    }
  }

  lemma StageUnaffected(c: Setup, f: Engine, g: Engine, locks: set<Lock>, me: Session)
    requires me.Correlating? && (me.stage.Scanning? || me.stage.Found? || me.stage.NoneFound? || me.stage.Written?)
    requires StageSound(c, f.desk, me.stage) && MovesOn(c, f, g, locks) && locks !! LocksOf(c, me)
    requires var alert := me.stage.alert;
             && AdvisoryLock(c.hash(KeyOf(alert))) !in locks
             && forall id :: id in g.desk.incidents && Matches(g.desk.incidents[id], KeyOf(alert), alert.receivedAt, c.window) ==>
                  && id in f.desk.incidents && Matches(f.desk.incidents[id], KeyOf(alert), alert.receivedAt, c.window)
                  && g.desk.incidents[id].lastSeenAt == f.desk.incidents[id].lastSeenAt
    ensures StageSound(c, g.desk, me.stage)
  {
    if me.stage.Scanning? {
      forall i | 0 <= i < |me.stage.rest|
        ensures me.stage.rest[i] in g.desk.incidents && g.desk.incidents[me.stage.rest[i]].Key() == KeyOf(me.stage.alert)
        ensures g.desk.incidents[me.stage.rest[i]].lastSeenAt == f.desk.incidents[me.stage.rest[i]].lastSeenAt
      {
        assert IncidentFollows(f.desk, g.desk, me.stage.rest[i]);
      }
    } else if me.stage.Found? {
      assert IncidentLock(me.stage.id) in LocksOf(c, me);
    } else if me.stage.Written? {
      assert IncidentLock(me.stage.choice.id) in LocksOf(c, me);
      if me.stage.choice.Create? {
        forall i | 0 <= i < |me.stage.choice.rows|
          ensures me.stage.choice.rows[i] !in g.desk.escalations
        {
          assert RowLock(me.stage.choice.rows[i]) in LocksOf(c, me);
        }
      }
    }
  }

  lemma MovingUnaffected(c: Setup, f: Engine, g: Engine, locks: set<Lock>, me: Session)
    requires me.Moving? && MovingSound(f.desk, me) && MovesOn(c, f, g, locks) && locks !! LocksOf(c, me)
    ensures MovingSound(g.desk, me)
  {
    if !me.phase.Waiting? {
      var incident := me.command.incident;
      assert IncidentLock(incident) in LocksOf(c, me);
      if me.phase.Cancelling? {
        forall id | id in LiveRows(g.desk.escalations, incident)
          ensures id in LiveRows(f.desk.escalations, incident)
        {
          assert id in f.desk.escalations;
          assert EscalationFollows(f.desk, g.desk, id);
        }
        forall id | id in me.phase.done
          ensures id in LiveRows(g.desk.escalations, incident)
        {
          assert RowLock(id) in LocksOf(c, me);
        }
      }
    }
  }

  lemma SweepingUnaffected(c: Setup, f: Engine, g: Engine, locks: set<Lock>, me: Session)
    requires me.Sweeping? && SweepingSound(f.desk, me) && MovesOn(c, f, g, locks) && locks !! LocksOf(c, me)
    ensures SweepingSound(g.desk, me)
  {
    forall i | 0 <= i < |me.expired|
      ensures RowLock(me.expired[i]) !in locks
    {
      assert RowLock(me.expired[i]) in LocksOf(c, me);
    }
    forall i | 0 <= i < |me.picked|
      ensures RowLock(me.picked[i]) !in locks
    {
      assert RowLock(me.picked[i]) in LocksOf(c, me);
    }
  }

  lemma SettlingUnaffected(c: Setup, f: Engine, g: Engine, locks: set<Lock>, me: Session)
    requires me.Settling? && SettlingSound(f, me) && MovesOn(c, f, g, locks) && locks !! LocksOf(c, me)
    ensures SettlingSound(g, me)
  {
    if me.row.Some? {
      assert RowLock(me.op.claim.id) in LocksOf(c, me);
    }
  }

  /** Whatever others commit within their own locks, what a session has read still holds. */
  lemma SessionUnaffected(c: Setup, f: Engine, g: Engine, locks: set<Lock>, me: Session)
    requires SessionSound(c, f, me) && MovesOn(c, f, g, locks) && locks !! LocksOf(c, me)
    ensures SessionSound(c, g, me)
  {
    hide MovesOn, LocksOf, CorrelatingSound, MovingSound, SweepingSound, SettlingSound;
    match me
    case Correlating(_, _, _, _) => CorrelatingUnaffected(c, f, g, locks, me);
    case Moving(_, _, _, _) => MovingUnaffected(c, f, g, locks, me);
    case Sweeping(_, _, _, _, _, _) => SweepingUnaffected(c, f, g, locks, me);
    case Settling(_, _) => SettlingUnaffected(c, f, g, locks, me);
  }

  // ---- whole schedules ----

  lemma RunKeepsSound(c: Setup, f: Engine, s: nat, q: Statement)
    requires EngineSound(c, f) && s in f.sessions && CanRun(c, f, s, q)
    ensures EngineSound(c, f.(sessions := f.sessions[s := Ran(c, f, s, q)]))
  {
    var g := f.(sessions := f.sessions[s := Ran(c, f, s, q)]);
    StatementKeepsSessionSound(c, f, s, q);
    StatementKeepsExclusive(c, f, s, q);
    SameTables(c, f, g, Ran(c, f, s, q));
    hide CanRun, Ran, Sound, Exclusive, LocksOf, SessionSound;
    forall o | o in g.sessions
      ensures SessionSound(c, g, g.sessions[o])
    {
      SameTables(c, f, g, g.sessions[o]);
    }
  }

  /** Soundness of a session is a matter of the tables. */
  lemma SameTables(c: Setup, f: Engine, g: Engine, me: Session)
    requires f.alerts == g.alerts && f.inbox == g.inbox && f.desk == g.desk && f.issued == g.issued
    ensures SessionSound(c, f, me) <==> SessionSound(c, g, me)
  {
  }

  lemma BeginKeepsSound(c: Setup, f: Engine, s: nat, session: Session)
    requires EngineSound(c, f) && s !in f.sessions && Fresh(f, session)
    ensures EngineSound(c, f.(sessions := f.sessions[s := session]))
  {
    var g := f.(sessions := f.sessions[s := session]);
    assert SessionSound(c, f, session) && LocksOf(c, session) == {};
    hide Fresh, Sound, LocksOf, SessionSound;
    forall o | o in g.sessions
      ensures SessionSound(c, g, g.sessions[o])
    {
      SameTables(c, f, g, g.sessions[o]);
    }
  }

  lemma AbortKeepsSound(c: Setup, f: Engine, s: nat)
    requires EngineSound(c, f)
    ensures EngineSound(c, f.(sessions := f.sessions - {s}))
  {
    var g := f.(sessions := f.sessions - {s});
    hide Sound, LocksOf, SessionSound;
    forall o | o in g.sessions
      ensures SessionSound(c, g, g.sessions[o])
    {
      SameTables(c, f, g, g.sessions[o]);
    }
  }

  lemma AcceptKeepsSound(c: Setup, f: Engine, alert: Alert)
    requires EngineSound(c, f) && alert.id !in f.alerts
    ensures EngineSound(c, f.(alerts := f.alerts[alert.id := alert]))
  {
    var g := f.(alerts := f.alerts[alert.id := alert]);
    FollowsItself(f.desk);
    assert MovesOn(c, f, g, {});
    hide Sound, LocksOf, SessionSound, MovesOn;
    forall o | o in g.sessions
      ensures SessionSound(c, g, g.sessions[o])
    {
      SessionUnaffected(c, f, g, {}, g.sessions[o]);
    }
  }

  lemma FollowsItself(d: Desk)
    ensures Follows(d, d)
  {
  }

  lemma CommitFollows(c: Setup, f: Engine, me: Session, t: Trace)
    requires SessionSound(c, f, me) && Committable(f.desk, me)
    requires Sound(f.desk) && f.desk == Traces.State(t) && Valid(t, c.window) && forall claim :: claim in f.issued ==> Issued(t, claim)
    ensures Follows(f.desk, Committed(f.desk, me)) && Sound(Committed(f.desk, me))
  {
    hide *;
    CommitIsAtomic(c, f, me, t);
    RunFollows(AtomicOps(t, me), t, c.window);
    TraceIsSound(AtomicOps(t, me), c.window);
  }

  /** The tables other than the incident tables. */
  lemma CommitFields(c: Setup, f: Engine, s: nat)
    requires s in f.sessions && Committable(f.desk, f.sessions[s])
    ensures var g, me := After(c, f, Event.Commit(s)), f.sessions[s];
            && g.desk == Committed(f.desk, me) && g.alerts == f.alerts && f.inbox <= g.inbox && f.issued <= g.issued
            && (forall key :: key in g.inbox && key !in f.inbox ==> InboxLock(key) in LocksOf(c, me))
  {
    hide Committable, Committed, Returned;
  }

  lemma CommitMovesOn(c: Setup, f: Engine, s: nat, t: Trace)
    requires EngineSound(c, f) && s in f.sessions && Committable(f.desk, f.sessions[s])
    requires f.desk == Traces.State(t) && Valid(t, c.window) && forall claim :: claim in f.issued ==> Issued(t, claim)
    ensures MovesOn(c, f, After(c, f, Event.Commit(s)), LocksOf(c, f.sessions[s]))
    ensures Sound(After(c, f, Event.Commit(s)).desk)
  {
    var me := f.sessions[s];
    assert SessionSound(c, f, me) && Sound(f.desk);
    hide EngineSound, SessionSound, Follows, Respects, Sound, Valid, Issued, Committed, LocksOf, Committable, After, Traces.State;
    CommitFollows(c, f, me, t);
    CommitRespects(c, f, me);
    CommitFields(c, f, s);
  }

  lemma CommitKeepsSound(c: Setup, f: Engine, s: nat, t: Trace)
    requires EngineSound(c, f) && s in f.sessions && Committable(f.desk, f.sessions[s])
    requires f.desk == Traces.State(t) && Valid(t, c.window) && forall claim :: claim in f.issued ==> Issued(t, claim)
    ensures EngineSound(c, After(c, f, Event.Commit(s)))
  {
    var g := After(c, f, Event.Commit(s));
    CommitMovesOn(c, f, s, t);
    assert g.sessions == f.sessions - {s};
    hide Sound, LocksOf, SessionSound, MovesOn, Valid, Issued, Committable, After;
    forall o | o in g.sessions
      ensures SessionSound(c, g, g.sessions[o])
    {
      SessionUnaffected(c, f, g, LocksOf(c, f.sessions[s]), g.sessions[o]);
    }
  }

  /** Serializability.  After any schedule of statements, commits and aborts of any number of concurrent sessions,
      the committed incident tables are the state of a valid trace: the atomic transactions, in commit order.
      Everything proved of traces holds of the tables that concurrent sessions produce. */
  lemma {:induction false} SchedulesAreTraces(c: Setup, r: Schedule)
    ensures EngineSound(c, EngineAfter(c, r))
    ensures EngineAfter(c, r).desk == Traces.State(CommitTrace(c, r))
    ensures Valid(CommitTrace(c, r), c.window)
    ensures forall claim :: claim in EngineAfter(c, r).issued ==> Issued(CommitTrace(c, r), claim)
  {
    if r.Next? {
      SchedulesAreTraces(c, r.past);
      var f, t, e := EngineAfter(c, r.past), CommitTrace(c, r.past), r.event;
      hide EngineSound, Valid, Issued;
      if Interleaving.Possible(c, f, e) {
        match e
        case Accept(alert) => AcceptKeepsSound(c, f, alert);
        case Begin(s, session) => BeginKeepsSound(c, f, s, session);
        case Run(s, q) => RunKeepsSound(c, f, s, q);
        case Abort(s) => AbortKeepsSound(c, f, s);
        case Commit(s) =>
          CommitKeepsSound(c, f, s, t);
          CommitOf(c, f, s, t);
      }
    }
  }

  lemma CommitOf(c: Setup, f: Engine, s: nat, t: Trace)
    requires EngineSound(c, f) && s in f.sessions && Committable(f.desk, f.sessions[s])
    requires f.desk == Traces.State(t) && Valid(t, c.window) && forall claim :: claim in f.issued ==> Issued(t, claim)
    ensures var me, g := f.sessions[s], After(c, f, Event.Commit(s));
            && g.desk == Traces.State(AtomicOps(t, me)) && Valid(AtomicOps(t, me), c.window)
            && forall claim :: claim in g.issued ==> Issued(AtomicOps(t, me), claim)
  {
    CommitIsAtomic(c, f, f.sessions[s], t);
    hide SessionSound, Valid, Issued, AtomicOps, Committed, Returned;
  }

  /** A message is applied at most once: a session that is about to commit a correlation finds its key neither in
      the inbox nor in the hands of another session. */
  lemma MessagesCommitOnce(c: Setup, r: Schedule, s: nat)
    requires var f := EngineAfter(c, r); s in f.sessions && f.sessions[s].Correlating? && f.sessions[s].stage.Written?
    ensures var f := EngineAfter(c, r);
            && f.sessions[s].key !in f.inbox
            && forall o :: o in f.sessions && o != s && f.sessions[o].Correlating? && f.sessions[o].key == f.sessions[s].key
                 ==> f.sessions[o].stage.Begun?
  {
    SchedulesAreTraces(c, r);
    var f := EngineAfter(c, r);
    hide EngineAfter, Sound;
    assert SessionSound(c, f, f.sessions[s]);
    assert InboxLock(f.sessions[s].key) in LocksOf(c, f.sessions[s]);
    forall o | o in f.sessions && o != s && f.sessions[o].Correlating? && f.sessions[o].key == f.sessions[s].key
      ensures f.sessions[o].stage.Begun?
    {
      assert SessionSound(c, f, f.sessions[o]);
      assert InboxLock(f.sessions[o].key) !in LocksOf(c, f.sessions[o]);
    }
  }
}
