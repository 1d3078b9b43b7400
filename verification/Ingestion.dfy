/** Idempotent ingestion over whole runs: what callers are told about one idempotency key never contradicts. */
module Ingestion {
  import opened Domain
  import opened Tables
  import opened Worlds

  ghost predicate KeyUsed(alerts: Alerts, tenant: Uuid, key: string) {
    exists id :: UsedBy(alerts, id, tenant, key)
  }

  /** The stored row says what the request said, and was received when the request was handled, whatever time the
      request gives for its occurrence. */
  ghost predicate StoredAs(c: Config, row: Alert, payload: AlertInput, at: Time) {
    && ValidInput(payload)
    && row.externalId == payload.externalId && row.service == payload.service && row.title == payload.title
    && row.severity == payload.severity && row.labels == payload.labels && row.details == payload.details
    && row.fingerprint == Fingerprint(payload, c.digest)
    && row.occurredAt == (if payload.occurredAt.Some? then payload.occurredAt.value.instant else at)
    && row.receivedAt == at
  }

  /** A receipt is justified by the stored alerts. */
  ghost predicate Justified(c: Config, alerts: Alerts, record: IngestRecord) {
    match record.receipt
    case Receipt(alert, duplicate) =>
      && UsedBy(alerts, alert, record.tenant, record.key)
      && alerts[alert].requestHash == c.hash(record.payload)
      && (!duplicate ==> StoredAs(c, alerts[alert], record.payload, record.at))
    case Rejected(Conflict) =>
      exists id :: UsedBy(alerts, id, record.tenant, record.key) && alerts[id].requestHash != c.hash(record.payload)
    case Rejected(_) => !ValidInput(record.payload) || record.key == ""
  }

  predicate IsFirst(record: IngestRecord, tenant: Uuid, key: string) {
    record.tenant == tenant && record.key == key && record.receipt.Receipt? && !record.receipt.duplicate
  }

  /** How many requests under a key were told that they created the alert. */
  function Firsts(receipts: seq<IngestRecord>, tenant: Uuid, key: string): nat {
    if receipts == [] then 0
    else Firsts(receipts[..|receipts| - 1], tenant, key)
         + (if IsFirst(receipts[|receipts| - 1], tenant, key) then 1 else 0)
  }

  ghost predicate Consistent(c: Config, alerts: Alerts, receipts: seq<IngestRecord>) {
    && UniqueKeys(alerts)
    && (forall i :: 0 <= i < |receipts| ==> Justified(c, alerts, receipts[i]))
    && (forall tenant, key :: Firsts(receipts, tenant, key) == (if KeyUsed(alerts, tenant, key) then 1 else 0))
  }

  lemma FirstsAppend(receipts: seq<IngestRecord>, record: IngestRecord, tenant: Uuid, key: string)
    ensures Firsts(receipts + [record], tenant, key) == Firsts(receipts, tenant, key) + (if IsFirst(record, tenant, key) then 1 else 0)
  {
    assert (receipts + [record])[..|receipts|] == receipts;
  }

  lemma UsedByLater(alerts: Alerts, row: Alert, id: Uuid, tenant: Uuid, key: string)
    requires row.id !in alerts
    ensures UsedBy(alerts[row.id := row], id, tenant, key) <==>
            UsedBy(alerts, id, tenant, key) || (id == row.id && tenant == row.tenant && key == row.idempotencyKey)
  {
  }

  /** A request whose key is new adds the only alert of that key. */
  lemma NewKeyKeepsConsistent(c: Config, alerts: Alerts, receipts: seq<IngestRecord>, row: Alert, record: IngestRecord)
    requires Consistent(c, alerts, receipts) && row.id !in alerts
    requires !KeyUsed(alerts, row.tenant, row.idempotencyKey)
    requires record.tenant == row.tenant && record.key == row.idempotencyKey && record.receipt == Receipt(row.id, false)
    requires row.requestHash == c.hash(record.payload) && StoredAs(c, row, record.payload, record.at)
    ensures Consistent(c, alerts[row.id := row], receipts + [record])
  {
    var more, longer := alerts[row.id := row], receipts + [record];
    hide StoredAs, Firsts;
    forall id, tenant, key
      ensures UsedBy(more, id, tenant, key) <==>
              UsedBy(alerts, id, tenant, key) || (id == row.id && tenant == row.tenant && key == row.idempotencyKey)
    {
      UsedByLater(alerts, row, id, tenant, key);
    }
    forall i | 0 <= i < |longer|
      ensures Justified(c, more, longer[i])
    {
      if i < |receipts| {
        JustifiedLater(c, alerts, row, receipts[i]);
      }
    }
    forall tenant, key
      ensures Firsts(longer, tenant, key) == (if KeyUsed(more, tenant, key) then 1 else 0)
    {
      FirstsAppend(receipts, record, tenant, key);
      KeyUsedLater(alerts, row, tenant, key);
    }
  }

  lemma KeyUsedLater(alerts: Alerts, row: Alert, tenant: Uuid, key: string)
    requires row.id !in alerts
    ensures KeyUsed(alerts[row.id := row], tenant, key) <==>
            KeyUsed(alerts, tenant, key) || (tenant == row.tenant && key == row.idempotencyKey)
  {
    var more := alerts[row.id := row];
    assert forall id :: UsedBy(more, id, tenant, key) && id != row.id ==> UsedBy(alerts, id, tenant, key);
    if KeyUsed(alerts, tenant, key) {
      var id :| UsedBy(alerts, id, tenant, key);
      assert UsedBy(more, id, tenant, key);
    } else if tenant == row.tenant && key == row.idempotencyKey {
      assert UsedBy(more, row.id, tenant, key);
    }
  }

  lemma JustifiedLater(c: Config, alerts: Alerts, row: Alert, record: IngestRecord)
    requires row.id !in alerts && Justified(c, alerts, record)
    ensures Justified(c, alerts[row.id := row], record)
  {
    var more := alerts[row.id := row];
    hide StoredAs;
    if record.receipt == Rejected(Conflict) {
      var id :| UsedBy(alerts, id, record.tenant, record.key) && alerts[id].requestHash != c.hash(record.payload);
      assert UsedBy(more, id, record.tenant, record.key) && more[id].requestHash != c.hash(record.payload);
    }
  }

  /** A request that stores nothing only adds a justified receipt. */
  lemma OtherReceiptKeepsConsistent(c: Config, alerts: Alerts, receipts: seq<IngestRecord>, record: IngestRecord)
    requires Consistent(c, alerts, receipts)
    requires Justified(c, alerts, record) && !IsFirst(record, record.tenant, record.key)
    ensures Consistent(c, alerts, receipts + [record])
  {
    hide Justified, UsedBy, Firsts;
    forall tenant, key
      ensures Firsts(receipts + [record], tenant, key) == (if KeyUsed(alerts, tenant, key) then 1 else 0)
    {
      FirstsAppend(receipts, record, tenant, key);
    }
  }

  /** The receipt of a request is justified; if it claims to be the first, the key was unused. */
  lemma ReceiptIsJustified(c: Config, alerts: Alerts, tenant: Uuid, key: string, input: AlertInput, id: Uuid, at: Time)
    requires id !in alerts
    ensures var receipt := ReceiptFor(c, alerts, tenant, key, input, id);
            if receipt == Receipt(id, false)
            then ValidInput(Trimmed(input)) && !KeyUsed(alerts, tenant, key)
            else !(receipt.Receipt? && !receipt.duplicate)
                 && Justified(c, alerts, IngestRecord(tenant, key, Trimmed(input), at, receipt))
  {
    hide ValidInput, Trimmed, StoredAs;
    var receipt := ReceiptFor(c, alerts, tenant, key, input, id);
    if KeyUsed(alerts, tenant, key) && ValidInput(Trimmed(input)) && key != "" {
      var stored :| UsedBy(alerts, stored, tenant, key)
                    && receipt == if alerts[stored].requestHash == c.hash(Trimmed(input)) then Receipt(stored, true)
                                  else Rejected(Conflict);
    }
  }

  lemma IngestKeepsConsistent(c: Config, w: World, a: Action)
    requires Consistent(c, w.db.alerts, w.receipts) && a.Ingest? && a.alert !in w.db.alerts
    ensures Consistent(c, NextAlerts(c, w, a), NextReceipts(c, w, a))
  {
    var receipt := ReceiptFor(c, w.db.alerts, a.tenant, a.key, a.input, a.alert);
    var record := IngestRecord(a.tenant, a.key, Trimmed(a.input), w.now, receipt);
    ReceiptIsJustified(c, w.db.alerts, a.tenant, a.key, a.input, a.alert, w.now);
    hide ReceiptFor, Consistent, ValidInput, Trimmed, Fingerprint, KeyUsed;
    if receipt == Receipt(a.alert, false) {
      var row := NewAlert(c, w, a).value;
      assert StoredAs(c, row, record.payload, record.at);
      hide StoredAs;
      NewKeyKeepsConsistent(c, w.db.alerts, w.receipts, row, record);
    } else {
      OtherReceiptKeepsConsistent(c, w.db.alerts, w.receipts, record);
    }
  }

  /** In every reachable state every receipt ever returned is justified, and every used key has exactly one
      receipt that was not a duplicate. */
  lemma {:induction false} ReceiptsAreConsistent(c: Config, r: Run)
    requires ValidRun(c, r)
    ensures Consistent(c, WorldAfter(c, r).db.alerts, WorldAfter(c, r).receipts)
  {
    if r.Do? {
      ReceiptsAreConsistent(c, r.past);
      var w, a := WorldAfter(c, r.past), r.action;
      hide Consistent, ReceiptFor;
      if a.Ingest? {
        IngestKeepsConsistent(c, w, a);
      }
    } else {
      assert forall tenant, key :: Firsts([], tenant, key) == 0;
    }
  }

  /** Any two successful requests under one key name the same alert and carried the same payload, whatever the time
      and whatever happened in between; a different payload conflicts; and exactly one request was told that it
      came first. */
  lemma SameKeySameAlert(c: Config, r: Run, i: nat, j: nat)
    requires ValidRun(c, r) && (forall x, y :: c.hash(x) == c.hash(y) ==> x == y)
    requires var receipts := WorldAfter(c, r).receipts;
             && i < |receipts| && j < |receipts|
             && receipts[i].tenant == receipts[j].tenant && receipts[i].key == receipts[j].key
             && receipts[i].receipt.Receipt?
    ensures var x, y := WorldAfter(c, r).receipts[i], WorldAfter(c, r).receipts[j];
            && (y.receipt.Receipt? ==> y.receipt.alert == x.receipt.alert && y.payload == x.payload)
            && (y.payload != x.payload && ValidInput(y.payload) && y.key != "" ==> y.receipt == Rejected(Conflict))
            && Firsts(WorldAfter(c, r).receipts, x.tenant, x.key) == 1
  {
    ReceiptsAreConsistent(c, r);
    var w := WorldAfter(c, r);
    hide WorldAfter, ValidRun, StoredAs, Firsts;
    var x, y := w.receipts[i], w.receipts[j];
    assert Justified(c, w.db.alerts, x) && Justified(c, w.db.alerts, y);
    assert KeyUsed(w.db.alerts, x.tenant, x.key);
    assert Firsts(w.receipts, x.tenant, x.key) == 1;
    hide Firsts, KeyUsed, Consistent;
    assert UniqueKeys(w.db.alerts);
  }

  /** A receipt for an alert names a row with the tenant and key of the request; if it came first, the row says what the
      request said and was received when the request was handled. */
  lemma ReceiptsNameTheirRow(c: Config, r: Run, i: nat)
    requires ValidRun(c, r) && i < |WorldAfter(c, r).receipts| && WorldAfter(c, r).receipts[i].receipt.Receipt?
    ensures var record, alerts := WorldAfter(c, r).receipts[i], WorldAfter(c, r).db.alerts;
            var row := record.receipt.alert;
            && row in alerts && alerts[row].tenant == record.tenant && alerts[row].idempotencyKey == record.key
            && alerts[row].requestHash == c.hash(record.payload)
            && (!record.receipt.duplicate ==> StoredAs(c, alerts[row], record.payload, record.at))
  {
    ReceiptsAreConsistent(c, r);
    var w := WorldAfter(c, r);
    hide WorldAfter, ValidRun, StoredAs, Firsts, KeyUsed, UniqueKeys;
    assert Justified(c, w.db.alerts, w.receipts[i]);
  }

  /** No stored alert was received after the present, so the times that correlation and escalation count from are clock
      readings and not what senders claim. */
  lemma {:induction false} NoAlertIsFromTheFuture(c: Config, r: Run, id: Uuid)
    requires ValidRun(c, r) && id in WorldAfter(c, r).db.alerts
    ensures WorldAfter(c, r).db.alerts[id].receivedAt <= WorldAfter(c, r).now
  {
    var w, a := WorldAfter(c, r.past), r.action;
    hide Trimmed, ValidInput, Fingerprint, ReceiptFor, NextOutbox, NextDesk, NextReceipts;
    if id in w.db.alerts {
      NoAlertIsFromTheFuture(c, r.past, id);
    }
  }
}
