# IncidentFlow: the alert-to-escalation protocol

IncidentFlow accepts alerts over HTTP, stores each together with an outbox row, relays the outbox to a JetStream
work queue, correlates delivered alerts into incidents, and escalates open incidents step by step until an operator
acknowledges them. Any number of replicas run at once, crash, lose replies and overtake one another; the promises
are made by SQL transactions, leases, fencing tokens, an inbox table and an advisory lock. This project models that
protocol and proves what it promises about every run, every input and every interleaving.

`dafny verify dfyconfig.toml` checks the whole project.

## How the model is built

* **Rows and transactions.** `Domain` and `Tables` hold the rows and, for each transaction, a function from old to
  new tables. `StoreClass.Store` is the database package in its own form: a class whose tables are fields, whose
  methods run the loops and branches of the SQL and Go code, each proved against those functions, error paths included.
* **Columns** (`Columns`) says once more, independently of those functions and in column values only, what each
  operation does: who is in reach, who may move, which rows a sweep takes and in which order, and what every column of
  every row touched holds afterwards. Each method of `Store` promises this as well.
* **Traces** (`Traces`) are lists of committed transactions of the incident tables, valid when every statement found
  its WHERE clause true. `History`, `Audit`, `Outcomes`, `Escalations`, `Backoff`, `Policies`, `Correlation`,
  `Storms`, `Sessions`, `Separation` and `Tenants` prove what holds of all valid traces.
* **Runs** (`Worlds`) add the clock, the outbox, the stream with its message-id memory, and what relays,
  correlators and schedulers hold in memory. A crash is a worker that takes no further step; a lost reply, a
  redelivery or an overtaken claim is an ordinary interleaving. Every run is a trace on the incident tables.
  `Pipeline`, `Ingestion`, `Notifications` and `Streams` prove properties of all runs.
* **Interleavings** (`Interleaving`, `Serializability`) split correlation, operator transition, sweep and
  settlement into single statements of concurrent sessions with their locks, and show that every schedule commits the same
  tables as the atomic transactions in commit order. So the traces are not an idealisation of the locking. `Deliveries`
  carries once-only correlation and conservation over to schedules, and `Clocks` the spacing of claims, for
  transactions that read the clock when they start and commit out of that order.
* **Programs** (`Workers`) are the relay, the stream consumer, the correlator's handler and the scheduler as
  methods over `Store` and a `Broker` object. A `Deployment` carries a ghost history; every method extends it by the
  actions named in its contract and keeps tables and stream equal to what the run model says. What is proved
  of runs therefore holds of the tables these programs leave.

## Assumptions

* PostgreSQL READ COMMITTED: each statement sees a fresh snapshot; a row that was locked by another session is
  checked again in its latest version; locks are held to the end of the transaction.
* Fresh identifiers are parameters that differ from those in use. A UUID is a number below 2^128 and its text is
  computed; distinct UUIDs have distinct texts by proof, not by assumption.
* SHA-256 and JSON encoding are function parameters, assumed injective only in the lemmas that say so. The request hash
  covers the text of `occurred_at`, as the source's does: one instant spelled with two zone offsets is two payloads, and
  reusing a key for it is a conflict.
* The position of a timeline entry is the order of commits. In the database it is a serial id drawn when the entry is
  inserted, so entries of different incidents may be numbered in another order than they commit. Entries of one incident
  that open it, correlate into it or move it are written while the session holds that incident's row lock, so for
  them the two orders agree, and the replay of an incident reads only those.
* One monotone clock. The program reads its own clock and the database's; the model has one. Times are whole microseconds.
* The correlation window is constant in a run. The shortest lease in use is a parameter; where a number is needed
  it is the ten seconds that `internal/config/config.go:82` demands.
* One consumer name, the one fixed in `internal/worker/correlator.go:38`.
* The stream is durable, keeps messages until they are acknowledged or terminated, and forgets a message id no
  sooner than ten minutes after storing it. It may redeliver any message at any time, in any order.
* Trimming and lower-casing are those of ASCII text; the severity of a stored alert may be any text.

## Where code and expectation part

Incidents of one key need not be disjoint: the search picks the incident seen last and never joins two, so a late
alert can leave one incident inside another. `Separation.LateAlertsNestIncidents` gives five such alerts for any window.
`Separation.CorrelationKeepsSeparation` gives the exact condition for one alert, and
`Separation.ApartExactlyWhenLone` for whole runs: incidents are apart if and only if no alert ever matched two of them.
For alerts in order of arrival that is always so (`Sessions.InOrderIncidentsAreApart`).

## Model

| member | source | states |
|---|---|---|
| `Serializability.SchedulesAreTraces` | internal/database/incidents.go:51-182 | After any schedule of statements, commits and aborts of any number of concurrent sessions, the committed incident tables are those of a valid trace: the atomic transactions in commit order. Every claim a sweep returned is issued in that trace. |
| `Serializability.CommitIsAtomic` | internal/database/incidents.go:178-181 | A session whose findings still hold commits the tables of one transaction whose guard is true at that moment; a sweep commits those of a valid sequence of row operations and returns only claims issued there. |
| `Serializability.SessionUnaffected` | internal/database/incidents.go:81-93 | What a session has read, or found absent, still holds after another session commits, because that commit changes only what its own locks cover; so findings hold until the session's own commit. |
| `Serializability.CommitRespects` | internal/database/incidents.go:81-82 | A committing session changes only rows it holds locked, and adds or stretches incidents only of a key whose advisory lock it holds. |
| `Serializability.MatchesShrink` | internal/database/incidents.go:86-93 | While a session holds the advisory lock of a key, commits of others can only make fewer rows match, never more or other ones. |
| `Serializability.StatementsDoTheirWork` | internal/database/incidents.go:63-93 | A session skips a message exactly if the inbox has it, takes the next row of its scan exactly if the latest version is in reach, and, sweeping, takes or retires a row it could lock exactly if the latest version is due or spent. |
| `Serializability.MessagesCommitOnce` | internal/database/incidents.go:63-72 | A session about to commit a correlation finds its message neither in the inbox nor past the inbox insert of any other session. |
| `Deliveries.InboxCountsCorrelations` | internal/database/incidents.go:63-72 | In every state of every schedule of concurrent sessions, for any property of alerts, the committed trace holds as many correlations of such alerts as the committed inbox holds messages about them. |
| `Deliveries.MessagesApplyOnce` | docs/consistency.md:21 | Under any schedule of concurrent deliveries and redeliveries an alert is correlated once if its message is in the inbox and not at all otherwise, if no other message in the inbox is about it. |
| `Deliveries.OccurrencesCountMessages` | internal/database/incidents.go:63-72 | In every state of every schedule the occurrence counts of a key's incidents add up to the number of inbox messages about its alerts. |
| `Pipeline.NothingIsLost` | internal/worker/relay.go:65-80 | In every reachable state each alert has exactly one event; an event the stream accepted is in the stream or in the inbox; no row is marked published before the stream has it; only messages whose event is in the inbox are acknowledged. |
| `Pipeline.OccurrencesAreConserved` | internal/database/incidents.go:63-72 | In every reachable state the occurrence counts of the incidents of each key add up to the number of its alerts whose event is in the inbox. |
| `Pipeline.AlertsCorrelateOnce` | internal/database/incidents.go:57-76 | The trace of a run correlates each alert exactly once if its event is in the inbox and not at all otherwise, however often it was published and delivered. |
| `Pipeline.QuiescentCountsEveryAlert` | internal/database/alerts.go:57-106 | Once all outbox rows are marked and only poison messages are left in the stream, the incidents of a key count exactly its accepted alerts. |
| `Streams.CopiesAreApart` | internal/messaging/nats.go:93 | However often an event is published, the stream takes copies of it at least ten minutes apart. |
| `Ingestion.SameKeySameAlert` | internal/database/alerts.go:57-83 | Any two successful requests under one tenant and key name the same alert and carried the same payload, whatever the time; a valid request with another payload under that key got a conflict; exactly one request was told it came first. |
| `Ingestion.ReceiptsAreConsistent` | internal/database/alerts.go:69-84 | In every reachable state every receipt ever returned is justified by the stored alerts, a first receipt by a row that says what the request said, and each used key has exactly one first receipt. |
| `Ingestion.ReceiptsNameTheirRow` | internal/database/alerts.go:58-83 | A receipt names a row with the tenant, key and hash of its request; if it came first, the row says what the request said and was received when the request was handled, whatever time the request claims. |
| `Ingestion.NoAlertIsFromTheFuture` | internal/database/alerts.go:67 | No stored alert was received after the present. |
| `Storms.StormMakesOneIncident` | internal/database/incidents.go:86-161 | With no unresolved incident of the key at the start and nothing resolved meanwhile, alerts that lie within one window become exactly one new incident whose members are precisely those alerts, in any order and with any other work in between. |
| `Storms.StormSummary` | internal/database/incidents.go:139-147 | That incident's count is the number of alerts, its interval their earliest and latest time, its severity the worst, and its title and service those of the alert delivered first. |
| `Storms.StormsAreConfluent` | internal/database/incidents.go:86-161 | Two runs that deliver the same storm in different orders end with incidents of equal count, first and last time and severity rank. |
| `Sessions.InOrderMakesSessions` | internal/database/incidents.go:86-146 | Alerts of a new key delivered in order of arrival, with nothing resolved, are grouped into incidents whose members are the parts of a session-window partition of the stream, cut exactly where neighbours are more than a window apart. |
| `Sessions.SessionWindowsAreUnique` | internal/database/incidents.go:86-93 | A stream has only one session-window partition, so the grouping is determined by the stream. |
| `Sessions.InOrderIncidentsAreApart` | internal/database/incidents.go:86-146 | Two incidents of such a stream are more than a window apart. |
| `Separation.CorrelationKeepsSeparation` | internal/database/incidents.go:86-93 | Unresolved incidents of a key that are more than a window apart stay so when an alert is correlated if and only if the alert matches at most one of them. |
| `Separation.ApartExactlyWhenLone` | internal/database/incidents.go:86-161 | Over a whole run the unresolved incidents of a key are apart at every moment if and only if no alert of the key ever matched two. |
| `Separation.LateAlertsNestIncidents` | internal/database/incidents.go:91-93 | Whatever the window, five alerts delivered out of order leave two open incidents of one key, one strictly inside the other. |
| `Correlation.IncidentsSummariseMembers` | internal/database/incidents.go:95-147 | For any delivery order, an incident's count, first, last and worst severity are those of the alerts correlated into it; each alert that is not the last has another after it within the window; the interval is at most (count - 1) windows long. |
| `Correlation.MembersShareTenantAndFingerprint` | internal/database/incidents.go:88 | In every reachable state each alert correlated into an incident has the incident's tenant and fingerprint. |
| `Correlation.CorrelationsAreWellPlaced` | internal/database/incidents.go:86-161 | Every correlation of a run puts its alert into the incident seen last among the unresolved ones of its tenant and fingerprint within the window, or, exactly if there is none, into a new one; every column of every row touched, and the entry, are as the source writes them. |
| `Columns.MatchesOnColumns` | internal/database/incidents.go:88-90 | An incident matches an alert if and only if tenant and fingerprint agree, it is unresolved, and it was last seen no more than a window before and first seen no more than a window after the alert. |
| `Columns.CorrelationOnColumns` | internal/database/incidents.go:95-176 | A merge counts one more, widens the interval, keeps the worse severity and leaves the rest; a new incident begins with the alert and one pending escalation per policy step; other rows stay. |
| `Tenants.TenantsAreIsolated` | docs/consistency.md:23 | Erasing from any run the transactions of all other tenants leaves a valid run that ends with exactly the tenant's own incidents, escalations and timeline. |
| `Tenants.StepIsolated` | internal/database/incidents.go:279-288 | A transaction of one tenant leaves the share of every other unchanged and does to its own what it would do if there were nothing else. |
| `Traces.TraceIsSound` | internal/database/workers.go:92-175 | In every reachable state: the version of an incident is its occurrences plus its operator actions, with timestamps that agree with the status; an escalation's token equals its attempts and never exceeds the maximum, it holds a lease exactly while running, it is dead only with all attempts used, it has work left only while its incident is open; steps of an incident are unique. |
| `Traces.StepKeepsSound` | internal/database/incidents.go:287-316 | Each single transaction keeps that invariant. |
| `History.RunFollows` | docs/consistency.md:22 | Between any two states of a run: status only moves open to acknowledged or resolved and acknowledged to resolved; times only widen; finished escalations never change; tokens only grow; no rows are added to an existing incident; the timeline is only appended to. |
| `History.VersionIdentifiesRow` | internal/database/incidents.go:287-289 | Two states of a run hold the same row of an incident if and only if they hold the same version of it, so a matching expected version means nothing has changed since it was read. |
| `History.AcceptedMoveWasCurrent` | internal/database/incidents.go:287-308 | A transition that took effect found its expected version, if it named one, in a row of its tenant whose status allows the move; that row is the row of every earlier state with that version. |
| `Columns.VerdictOnColumns` | internal/database/incidents.go:279-292 | A transition is accepted if and only if the incident is the tenant's, the version is current and the status pair is one of the three allowed; otherwise not found, conflict and invalid transition are given exactly in this order. |
| `History.AcknowledgementCutsOffEscalation` | internal/database/incidents.go:311-316 | Once an incident is acknowledged or resolved, in every later state it has exactly the escalations it had, unchanged and finished; none can be claimed or retired; and every report for a claim of it is refused. |
| `History.TokenSettlesOnce` | internal/database/workers.go:184-195 | Completions and failures that take effect on one row carry strictly increasing tokens, so each claimed token is settled at most once. |
| `History.StaleClaimStaysRefused` | internal/database/workers.go:225-232 | A claim that no longer holds its row is refused in every later state. |
| `History.ClaimMatchesRow` | internal/database/workers.go:136-149 | A claim handed out at any time still describes its row, and a claim that passes the fence carries the row's attempt count. |
| `Escalations.EscalationTerminates` | internal/database/workers.go:95-143 | The number of claims, takeovers, failures, completions, retirements and cancellations in any stretch of a run is at most the budget at its start plus what newly opened incidents add: two steps per remaining attempt and one more, per row. |
| `Escalations.SweepMakesProgress` | internal/database/workers.go:95-143 | A sweep with a positive limit and no rows locked, at a time when some row is claimable or exhausted, strictly lowers the budget. |
| `Escalations.LiveRowBecomesEligible` | internal/database/workers.go:127-132 | A live row is claimable or exhausted once its due time or its lease has passed. |
| `Escalations.SweepIsRun` | internal/database/workers.go:92-175 | What a sweep commits is a sequence of retirements and claims whose guards are all true when their turn comes, and each record it returns is a claim issued there. |
| `Escalations.CancelPays` | internal/database/incidents.go:311-314 | Cancelling the rows of an incident lowers the budget by at least one for each row cancelled. |
| `Escalations.AttemptsAccounted` | internal/database/workers.go:136-142 | The attempts of a row are its logged retries, plus the takeovers from expired holders, plus one if it is running, sent or dead, plus one if it was cancelled in a worker's hands. |
| `Audit.TimelineReplays` | internal/database/incidents.go:163-176 | Folding the timeline of an incident gives its status, occurrence count and version, and every count or version stored in an entry equals the fold at that entry. |
| `Audit.OutcomesAccounted` | internal/database/workers.go:106-124 | A row is logged sent once exactly if it is sent and dead once exactly if it is dead, by whichever path, and outcomes are logged only for steps that have a row. |
| `Audit.RowOpIsLogged` | internal/database/workers.go:196-205 | Each retirement, completion or failure adds one entry for the step and incident of the very row it changes. |
| `Outcomes.TimelineCountsOutcomes` | internal/database/workers.go:253-268 | The timeline of an incident holds as many sent entries as it has sent rows and as many dead entries as it has dead rows. |
| `Policies.RowsKeepTheirPolicy` | internal/database/incidents.go:121-132 | In every reachable state a row is a step of the policy its incident was opened under, with the title and severity of the opening alert, was claimed as often as it counts attempts, and first no sooner than the step's delay after that alert was received. |
| `Policies.EveryStepIsScheduled` | internal/database/incidents.go:121-132 | Whenever an incident was opened, in every later state its escalations are exactly the steps of the policy it was opened under: each step has one row, which keeps target, limit, title and severity; no other row has the step's number; and there are no further rows. |
| `Backoff.ClaimsAreSpaced` | internal/database/workers.go:128-139 | If workers report failures after the claims they were given, the claim after the k-th comes no sooner than the lesser of the k-th backoff and a lease, and there are exactly as many claims as attempts. |
| `Backoff.NthClaimIsLate` | internal/database/workers.go:246-250 | The n-th claim comes at least the sum of those gaps after the first. |
| `Backoff.DelaysAreBounded` | internal/worker/scheduler.go:103-108 | Retry delays double from one second, never shrink, are capped at 64 seconds and exceed their base by the jitter, less than half a second; redelivery delays start at one second and double per delivery up to 32. |
| `Backoff.FailureIsRescheduled` | internal/database/workers.go:246-250 | A failure that takes effect makes its row due exactly the retry delay after the failure, which is at least the backoff of the attempt and less than half a second more, pending if attempts are left and dead if not. |
| `Backoff.RetryIsTimely` | internal/database/workers.go:127-132 | In any later state in which the incident is open and the row was not claimed again, the row is still due at that time, and a sweep may take it once the backoff and half a second have passed since the failure. |
| `Columns.CandidatesOnColumns` | internal/database/workers.go:99-132 | Rows a sweep may claim or must retire, as conditions on incident status, attempts, status, due time and lease end. |
| `Columns.SweepOnColumns` | internal/database/workers.go:106-142 | After a sweep the claimed rows run under the new lease with one attempt and token more, the retired rows are dead and logged in order, and all others are unchanged. |
| `Columns.FailureOnColumns` | internal/database/workers.go:237-268 | A failed row is pending and due `retryAfter` from now if attempts are left and dead otherwise, without a lease, and logged so; all other columns and rows stay. |
| `Backoff.FiveAttemptsTakeFifteenSeconds` | internal/database/migrations/000001_initial.sql:84 | In any paced trace with leases of at least ten seconds, an escalation that was claimed five times was claimed the fifth time at least 15 seconds after the first. |
| `Notifications.SameKeySamePayload` | internal/worker/scheduler.go:74-83 | Two notify calls of a run with the same key carry the same notification to the same target for the same row, although the incident's severity may have risen in between. |
| `Notifications.CallsAreBounded` | internal/worker/scheduler.go:82-84 | Over a whole run a key is used in at most as many calls as its row counts attempts, hence at most the maximum. |
| `Notifications.CallsTellTheirRow` | internal/worker/scheduler.go:74-83 | Every call tells the receiver of its row the row's incident, step, title and severity, which are the step number of the policy and the title and severity of the opening alert, under the key made of incident and step. |
| `Notifications.DeliveriesTellTheirRow` | internal/database/workers.go:275-285 | So does every delivery recorded by the sink. |
| `Notifications.SentIsRecordedOnce` | internal/database/workers.go:275-293 | With the recording sink as target, a sent escalation has exactly one recorded delivery under its key, and it is the escalation's notification. |
| `Notifications.SinkIsSound` | internal/database/workers.go:281-289 | In every reachable state recorded deliveries have distinct keys and each is the notification of a row addressed to the sink. |
| `Keys.KeysAreDistinct` | internal/worker/scheduler.go:75 | Two notification keys are equal if and only if incident and step are. |
| `Keys.UuidTextIsInjective` | internal/worker/scheduler.go:75 | UUIDs with the same text are the same. |
| `Worlds.RunsAreTraces` | internal/worker/scheduler.go:85-98 | On the incident tables every run of the system is a valid trace, and every job in a scheduler's memory holds a claim issued in it. |
| `Worlds.RunsArePaced` | internal/database/workers.go:136-139 | Every run, in which transactions read the clock as they take effect, meets the hypotheses of the spacing bound. |
| `Clocks.SchedulesArePaced` | internal/database/workers.go:136-139 | So does every schedule of concurrent sessions, each of which reads the clock when it starts and commits at any later time, in any order. |
| `Clocks.ConcurrentClaimsAreSpaced` | internal/database/workers.go:246-250 | Under any such schedule a row has been claimed as often as it counts attempts, its claims are spaced by the lesser of backoff and lease, and the n-th comes at least the sum of those gaps after the first. |
| `Workers.Deployment.Accept` | internal/database/alerts.go:18-107 | Storing an alert is one action of a run, and the receipt returned is the one the run records. |
| `Workers.Deployment.ClaimEvents` | internal/database/workers.go:15-56 | A batch claim is a sequence of lease actions, and every event returned is a job of the relay. |
| `Workers.Deployment.Relay` | internal/worker/relay.go:65-80 | Publishing and then marking or releasing a leased event is two actions of a run, whatever the stream answers; if the lease is still held, the row is marked now, or released until the retry delay of the next attempt has passed. |
| `Workers.Deployment.Consume` | internal/messaging/nats.go:100-131 | A delivery is terminated exactly if its identifiers, type, version, time or payload are wrong; acknowledged exactly if the handler worked and the event was seen before or its alert exists for the tenant, and then the event is in the inbox; refused with the redelivery delay otherwise; it leaves the stream exactly if an answer other than a refusal arrived. |
| `Workers.Deployment.Handle` | internal/worker/correlator.go:32-49 | The handler succeeds exactly if its database call does and the event was seen before or its alert exists for the tenant; a repeated event, an unknown alert and a rollback change nothing; a lost reply may leave the correlation committed. |
| `Workers.Deployment.Sweep` | internal/worker/scheduler.go:49-66 | A sweep is a sequence of retirements and claims, and every record it returns is a job of the scheduler. |
| `Workers.Deployment.Process` | internal/worker/scheduler.go:68-101 | A claim of an open incident is notified with its own incident, step, title and severity, and then, if its token is still good, completed or made due again after the retry delay, column by column, as one notify and one finish action; any other claim is left alone; the sink records the notification exactly if it reached it under a new key. |
| `Workers.Deployment.Operator` | internal/database/incidents.go:272-328 | A transition is one action if the tables allow it and otherwise changes nothing but the time. |
| `Workers.Broker.Publish` | internal/messaging/nats.go:89-98 | Publishing under the row's id adds one message unless the id was stored less than ten minutes ago, and reports success exactly if the confirmation arrived. |
| `Workers.AfterSweep` | internal/database/workers.go:92-175 | Retiring and claiming the rows a sweep selects is a run that ends in the tables the batched statement leaves. |
| `Workers.TablesCountEveryAlert` | internal/database/alerts.go:57-106 | On the deployment's tables: once the outbox is marked and the stream holds no event, the incidents of a key count its accepted alerts. |
| `Workers.TablesAreSound` | internal/database/incidents.go:303-316 | On the deployment's tables, at any moment: rows are sound, and an incident that is not open has no live escalation. |
| `StoreClass.Store.IngestAlert` | internal/database/alerts.go:18-107 | Invalid input and a missing key change nothing; a receipt names a row with the request's tenant, key and hash; a first receipt means no row had that tenant and key, and stores, column by column, the alert, received now, and its event; a conflict means a row with that tenant and key and another hash; keys stay unique. |
| `StoreClass.Store.Prepare` | internal/database/alerts.go:25-38 | The input is accepted exactly if its trimmed form is valid, and fingerprint and hash are those of the trimmed form. |
| `StoreClass.Store.FindIncident` | internal/database/incidents.go:86-93 | The result matches and no match was seen later; there is none exactly if nothing matches. |
| `StoreClass.Store.CorrelateAlert` | internal/database/incidents.go:51-182 | A known message and an unknown alert change nothing; otherwise the inbox gains the message, the alert goes to the latest incident in reach by tenant, fingerprint, status and time or to a new one if there is none, every column of the rows and the entry is given, and the incident is returned. |
| `StoreClass.Store.TransitionIncident` | internal/database/incidents.go:272-328 | Accepted exactly if tenant, version and status pair allow it, with every column of the incident, of its escalations and of the entry given; a known incident at another version is a conflict; a refusal changes nothing. |
| `StoreClass.Store.Earliest` | internal/database/workers.go:133-135 | The rows returned are the first by the order column, in order, no more than the limit, and all of them if there are fewer. |
| `StoreClass.Store.ClaimEscalations` | internal/database/workers.go:92-175 | The expired last attempts with the earliest lease ends become dead with their entries, the rows due first become claims under the new lease with one attempt and token more, both up to the limit and in order; no other row changes, and the records returned say what the claimed rows say. |
| `StoreClass.Store.CompleteEscalation` | internal/database/workers.go:177-210 | Refused without effect unless the row runs under the caller's token; otherwise the row is sent and logged. |
| `StoreClass.Store.FailEscalation` | internal/database/workers.go:212-273 | Refused without effect unless the row runs under the caller's token; otherwise the row is pending and due exactly `retryAfter` from now, or dead exactly if its stored attempts are used up, and logged. |
| `StoreClass.Store.ClaimOutbox` | internal/database/workers.go:15-56 | The oldest unpublished events that are available and not under a running lease get the new lease, up to the limit and in order; no other changes; the records returned say what the rows say. |
| `StoreClass.Store.MarkOutboxPublished` | internal/database/workers.go:58-70 | Refused without effect unless the caller holds the lease of an unpublished row; otherwise the row is published. |
| `StoreClass.Store.MarkOutboxFailed` | internal/database/workers.go:72-90 | Refused without effect unless the caller holds the lease of an unpublished row; otherwise it loses the lease, counts one attempt more and is available `retryAfter` from now. |
| `StoreClass.Store.RecordNotification` | internal/database/workers.go:275-293 | A notification is recorded exactly if its key is new. |
| `Tables.SweepHalvesAreDisjoint` | internal/database/workers.go:95-143 | The rows a sweep retires and those it claims are different and untouched by one another, so the order of the two parts of the statement does not matter. |
| `Domain.Validate` | internal/domain/alert.go:64-103 | The verdict is that of an order-free condition, so it is the same for every order in which the labels are visited. |
| `Domain.NormalizeLabels` | internal/domain/alert.go:110-113 | For accepted labels every visiting order builds the same map, with one entry per label; for others every entry comes from some label. |
| `Domain.FingerprintIgnoresSpelling` | internal/domain/alert.go:105-126 | Inputs that agree up to case and surrounding white space have the same fingerprint. |
| `Domain.DerivedFingerprintSeparates` | internal/domain/alert.go:110-125 | Inputs without a fingerprint of their own share one if and only if service, title and normalised labels agree, for an injective digest. |
| `Domain.TrimmedInputIsEquivalent` | internal/database/alerts.go:25-30 | Trimming before validation is idempotent, keeps the fingerprint, and keeps valid input valid. |
| `Domain.MaxSeverity` | internal/domain/alert.go:46-51 | The result is one of the two and ranks at least as high as both. |
| `Domain.SeverityOrder` | internal/domain/alert.go:33-51 | Critical outranks warning, warning outranks info, and info outranks unsupported text; of two severities the worse is kept, and the left one if neither is. |
| `Domain.NewAlertReceivedEnvelope` | internal/domain/event.go:26-65 | An envelope built for ingestion passes the consumer's validation exactly if its three identifiers are not nil. |
| `Text.FoldAbsorbs` | internal/domain/alert.go:90 | Normalising a text that was trimmed or normalised before gives the same result. |
| `Text.TrimSpaceCuts` | internal/domain/alert.go:65 | Trimming removes all white space at both ends and nothing else. |
| `Text.CharactersAreAscii` | internal/domain/alert.go:90 | Exactly the six ASCII white-space characters are trimmed, and exactly capital letters are changed, each to its small letter. |

## Left out

- HTTP routing, authentication, rate limits, JSON decoding of requests, metrics, logging: no state of the protocol.
- The AI summary, the MCP server, configuration and wiring, demo and load scripts.
- ListIncidents, GetIncident, Timeline and NotificationCount: reads only; their paging is not part of this model.
- Polling loops and the goroutines of a batch: each claimed item is processed by its own action, in every interleaving.
- Statement-level interleaving of ingestion and of the outbox statements: each is one statement on the tables that matter, or one insert that waits for the unique key, and is an atomic step here.
- Deadlocks, timeouts and cancelled contexts are aborts of a session or rolled-back steps; a commit whose reply is lost is modelled for the correlator and the publisher, and for the other calls as a worker that crashes afterwards.
- Last-error texts, updated_at and other bookkeeping columns, notification metadata, the escalation error in timeline entries.
- 32-bit and 64-bit counter overflow: counters are unbounded integers.
- Length limits count characters of ASCII text; Unicode white space and case mapping are not modelled.
- Exactly-once delivery to external receivers, which the program does not promise.
- Alert details are an opaque text; the stored form of labels and details is not modelled.
- Storms.StormsAreConfluent: says nothing about title and service, because those are the first delivered alert's and do depend on the order; severities are compared by rank, which for accepted alerts is equality.
- Pipeline.QuiescentCountsEveryAlert: does not say that a quiet state is reached, because relays, broker and consumers may be down for ever.
- Escalations.SweepMakesProgress: assumes that no other session holds rows locked at that moment, because locked rows are skipped.
- Workers.Deployment.Process: calls to the notifier have no content beyond their arguments and whether they succeeded.
- Domain.NormalizeLabels: for labels whose keys collide, which validation rejects, does not say which value wins, because it depends on the map order.
