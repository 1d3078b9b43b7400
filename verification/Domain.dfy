/** Alerts, incidents and event envelopes as the domain package defines them: validation, correlation key,
    severity order, the incident state machine and the event contract. */
module Domain {
  import opened Text

  datatype Option<+T> = None | Some(value: T)

  type Uuid = n: nat | n < 0x1_0000_0000_0000_0000_0000_0000_0000_0000
  const NIL: Uuid := 0

  /** Points in time and durations, in the database's unit of one microsecond. */
  type Time = int
  const MILLISECOND: int := 1_000
  const SECOND: int := 1_000_000

  function Min(a: int, b: int): int { if a <= b then a else b }
  function Max(a: int, b: int): int { if a >= b then a else b }

  // ---- severities ----

  datatype Severity = Info | Warning | Critical | Unsupported(text: string) {
    function Rank(): nat {
      match this
      case Critical => 3
      case Warning => 2
      case Info => 1
      case Unsupported(_) => 0
    }
  }

  function MaxSeverity(left: Severity, right: Severity): (r: Severity)
    ensures r == left || r == right
    ensures left.Rank() <= r.Rank() && right.Rank() <= r.Rank()
  {
    if right.Rank() > left.Rank() then right else left
  }

  /** Critical is worse than warning, warning than info, and info than any unsupported text; of two, the worse is kept, and
      the left one if neither is worse. */
  lemma SeverityOrder(left: Severity, right: Severity, text: string)
    ensures 0 == Unsupported(text).Rank() < Info.Rank() < Warning.Rank() < Critical.Rank()
    ensures MaxSeverity(left, right) == Critical <==> left == Critical || right == Critical
    ensures MaxSeverity(left, right) == Warning <==> (left == Warning && right != Critical) || (right == Warning && left != Critical)
    ensures MaxSeverity(left, right) == Info <==> (left == Info && (right == Info || right.Unsupported?)) || (right == Info && left.Unsupported?)
    ensures left.Unsupported? && right.Unsupported? ==> MaxSeverity(left, right) == left
  {
  }

  // ---- alerts ----

  /** A time as a request spells it: the zone offset and the digits below a microsecond are part of the text that is
      hashed, though not of the instant that is stored. */
  datatype Stamp = Stamp(instant: Time, text: string)

  datatype AlertInput = AlertInput(
    externalId: string,
    fingerprint: string,
    service: string,
    title: string,
    severity: Severity,
    labels: map<string, string>,
    details: string,
    occurredAt: Option<Stamp>)

  datatype Alert = Alert(
    id: Uuid,
    tenant: Uuid,
    idempotencyKey: string,
    externalId: string,
    fingerprint: string,
    service: string,
    title: string,
    severity: Severity,
    labels: map<string, string>,
    details: string,
    occurredAt: Time,
    receivedAt: Time,
    requestHash: string)

  /** Alerts with equal keys are candidates for the same incident. */
  datatype CorrelationKey = CorrelationKey(tenant: Uuid, fingerprint: string)

  function KeyOf(a: Alert): CorrelationKey {
    CorrelationKey(a.tenant, a.fingerprint)
  }

  function Trimmed(input: AlertInput): AlertInput {
    input.(externalId := TrimSpace(input.externalId),
           service := TrimSpace(input.service),
           title := TrimSpace(input.title))
  }

  predicate ValidLabel(key: string, value: string) {
    Fold(key) != "" && |key| <= 128 && |value| <= 512
  }

  /** No two label keys are the same up to case and surrounding white space. */
  predicate DistinctKeys(labels: map<string, string>) {
    forall k, l :: k in labels && l in labels && k != l ==> Fold(k) != Fold(l)
  }

  predicate ValidInput(a: AlertInput) {
    && 0 < |TrimSpace(a.service)| <= 128
    && 0 < |TrimSpace(a.title)| <= 512
    && |TrimSpace(a.fingerprint)| <= 256
    && |a.externalId| <= 256
    && |a.labels| <= 50
    && (forall k :: k in a.labels ==> ValidLabel(k, a.labels[k]))
    && DistinctKeys(a.labels)
    && a.severity.Rank() != 0
  }

  /** The source ranges over the label map in an unspecified order; so does this loop.  The verdict does not
      depend on that order. */
  method Validate(a: AlertInput) returns (ok: bool)
    ensures ok <==> ValidInput(a)
    ensures ok <==>
            && TrimSpace(a.service) != "" && |TrimSpace(a.service)| <= 128
            && TrimSpace(a.title) != "" && |TrimSpace(a.title)| <= 512
            && |TrimSpace(a.fingerprint)| <= 256 && |a.externalId| <= 256 && |a.labels| <= 50
            && (forall k :: k in a.labels ==> Fold(k) != "" && |k| <= 128 && |a.labels[k]| <= 512)
            && (forall k, l :: k in a.labels && l in a.labels && Fold(k) == Fold(l) ==> k == l)
            && (a.severity == Info || a.severity == Warning || a.severity == Critical)
  {
    hide TrimSpace, Fold;
    var service := TrimSpace(a.service);
    if service == "" || |service| > 128 { return false; }
    var title := TrimSpace(a.title);
    if title == "" || |title| > 512 { return false; }
    if |TrimSpace(a.fingerprint)| > 256 { return false; }
    if |a.externalId| > 256 { return false; }
    if |a.labels| > 50 { return false; }
    var normalizedKeys: set<string> := {};
    var remaining := a.labels.Keys;
    while remaining != {}
      invariant remaining <= a.labels.Keys
      invariant normalizedKeys == set k | k in a.labels.Keys && k !in remaining :: Fold(k)
      invariant forall k :: k in a.labels && k !in remaining ==> ValidLabel(k, a.labels[k])
      invariant forall k, l :: k in a.labels && l in a.labels && k !in remaining && l !in remaining && k != l
                               ==> Fold(k) != Fold(l)
      decreases remaining
    {
      var key :| key in remaining;
      var value := a.labels[key];
      var normalizedKey := Fold(key);
      if normalizedKey == "" || |key| > 128 || |value| > 512 {
        return false;
      }
      if normalizedKey in normalizedKeys {
        return false;
      }
      normalizedKeys := normalizedKeys + {normalizedKey};
      remaining := remaining - {key};
    }
    if a.severity.Rank() == 0 { return false; }
    return true;
  }

  /** What is hashed to identify an alert that carries no fingerprint of its own. */
  datatype Canonical = Canonical(service: string, title: string, labels: map<string, string>)

  ghost function NormalizedLabels(labels: map<string, string>): map<string, string>
    requires DistinctKeys(labels)
  {
    map k | k in labels :: Fold(k) := Fold(labels[k])
  }

  ghost function Fingerprint(a: AlertInput, digest: Canonical -> string): string
    requires DistinctKeys(a.labels)
  {
    var explicit := TrimSpace(a.fingerprint);
    if explicit != "" then ToLower(explicit)
    else digest(Canonical(Fold(a.service), Fold(a.title), NormalizedLabels(a.labels)))
  }

  /** Every iteration order builds the same normalised map, with one entry per label, when the label keys are
      distinct.  `digest` stands for the hexadecimal hash of the canonical JSON text. */
  method NormalizeLabels(labels: map<string, string>) returns (normalized: map<string, string>)
    ensures normalized.Keys == set k | k in labels :: Fold(k)
    ensures forall n :: n in normalized ==> Labelled(labels, n, normalized[n])
    ensures DistinctKeys(labels) ==> normalized == NormalizedLabels(labels) && |normalized| == |labels|
  {
    hide TrimSpace, Fold, NormalizedLabels, Labelled;
    normalized := map[];
    var remaining := labels.Keys;
    while remaining != {}
      invariant remaining <= labels.Keys
      invariant normalized.Keys == set k | k in labels.Keys && k !in remaining :: Fold(k)
      invariant forall n :: n in normalized ==> Labelled(labels, n, normalized[n])
      invariant DistinctKeys(labels) ==> |normalized| + |remaining| == |labels|
      decreases remaining
    {
      var key :| key in remaining;
      assert DistinctKeys(labels) ==> Fold(key) !in normalized;
      assert Labelled(labels, Fold(key), Fold(labels[key])) by { LabelledBy(labels, key); }
      normalized := normalized[Fold(key) := Fold(labels[key])];
      remaining := remaining - {key};
    }
    if DistinctKeys(labels) {
      EntriesAreNormalized(labels, normalized);
    }
  }

  /** Some label has this normalised key and value. */
  ghost predicate Labelled(labels: map<string, string>, key: string, value: string) {
    exists k :: k in labels && Fold(k) == key && Fold(labels[k]) == value
  }

  lemma LabelledBy(labels: map<string, string>, k: string)
    requires k in labels
    ensures Labelled(labels, Fold(k), Fold(labels[k]))
  {
    hide Fold;
  }

  lemma EntriesAreNormalized(labels: map<string, string>, normalized: map<string, string>)
    requires DistinctKeys(labels)
    requires normalized.Keys == set k | k in labels :: Fold(k)
    requires forall n :: n in normalized ==> Labelled(labels, n, normalized[n])
    ensures normalized == NormalizedLabels(labels)
  {
    hide Fold;
    var other := NormalizedLabels(labels);
    assert other.Keys == normalized.Keys;
    forall n | n in normalized
      ensures normalized[n] == other[n]
    {
      assert Labelled(labels, n, normalized[n]);
    }
  }

  method NormalizedFingerprint(a: AlertInput, digest: Canonical -> string) returns (fingerprint: string)
    ensures DistinctKeys(a.labels) ==> fingerprint == Fingerprint(a, digest)
    ensures TrimSpace(a.fingerprint) != "" ==> fingerprint == Fold(a.fingerprint)
    ensures TrimSpace(a.fingerprint) == "" && DistinctKeys(a.labels) ==>
              fingerprint == digest(Canonical(Fold(a.service), Fold(a.title), NormalizedLabels(a.labels)))
  {
    var value := TrimSpace(a.fingerprint);
    if value != "" {
      return ToLower(value);
    }
    var labels := NormalizeLabels(a.labels);
    return digest(Canonical(Fold(a.service), Fold(a.title), labels));
  }

  /** The labels of an alert as they are compared. */
  ghost function FoldedPairs(labels: map<string, string>): set<(string, string)> {
    set k | k in labels :: (Fold(k), Fold(labels[k]))
  }

  /** Case, surrounding white space and label spelling do not separate alerts, and it makes no difference that
      ingestion has trimmed some fields already. */
  lemma FingerprintIgnoresSpelling(a: AlertInput, b: AlertInput, digest: Canonical -> string)
    requires DistinctKeys(a.labels) && DistinctKeys(b.labels)
    requires Fold(a.fingerprint) == Fold(b.fingerprint)
    requires Fold(a.service) == Fold(b.service) && Fold(a.title) == Fold(b.title)
    requires FoldedPairs(a.labels) == FoldedPairs(b.labels)
    ensures Fingerprint(a, digest) == Fingerprint(b, digest)
  {
    SameLabels(a.labels, b.labels);
    hide TrimSpace, ToLower, NormalizedLabels, FoldedPairs;
    assert |Fold(a.fingerprint)| == |TrimSpace(a.fingerprint)| && |Fold(b.fingerprint)| == |TrimSpace(b.fingerprint)|;
  }

  lemma {:induction false} SameLabels(a: map<string, string>, b: map<string, string>)
    requires DistinctKeys(a) && DistinctKeys(b)
    requires FoldedPairs(a) == FoldedPairs(b)
    ensures NormalizedLabels(a) == NormalizedLabels(b)
  {
    PairsAreEntries(a);
    PairsAreEntries(b);
    hide *;
    SameEntries(NormalizedLabels(a), NormalizedLabels(b), FoldedPairs(a));
  }

  lemma SameEntries<K, V>(m: map<K, V>, n: map<K, V>, pairs: set<(K, V)>)
    requires HasEntries(m, pairs) && HasEntries(n, pairs)
    ensures m == n
  {
    assert forall k :: k in m ==> (k, m[k]) in pairs;
    assert forall k :: k in n ==> (k, n[k]) in pairs;
    assert m.Keys == n.Keys;
  }

  ghost predicate HasEntries<K, V>(m: map<K, V>, pairs: set<(K, V)>) {
    && (forall p :: p in pairs ==> p.0 in m && m[p.0] == p.1)
    && (forall k :: k in m ==> (k, m[k]) in pairs)
  }

  lemma {:induction false} PairsAreEntries(labels: map<string, string>)
    requires DistinctKeys(labels)
    ensures HasEntries(NormalizedLabels(labels), FoldedPairs(labels))
  {
    hide Fold;
    var n := NormalizedLabels(labels);
    forall k | k in labels
      ensures Fold(k) in n && n[Fold(k)] == Fold(labels[k])
    {
    }
    forall f | f in n
      ensures (f, n[f]) in FoldedPairs(labels)
    {
      var k :| k in labels && Fold(k) == f;
    }
  }

  /** Alerts without a fingerprint of their own are separated by any difference that survives folding, as far
      as the digest separates canonical forms. */
  lemma DerivedFingerprintSeparates(a: AlertInput, b: AlertInput, digest: Canonical -> string)
    requires DistinctKeys(a.labels) && DistinctKeys(b.labels)
    requires TrimSpace(a.fingerprint) == "" && TrimSpace(b.fingerprint) == ""
    requires forall c, d :: digest(c) == digest(d) ==> c == d
    ensures Fingerprint(a, digest) == Fingerprint(b, digest) <==>
            && Fold(a.service) == Fold(b.service) && Fold(a.title) == Fold(b.title)
            && NormalizedLabels(a.labels) == NormalizedLabels(b.labels)
  {
    hide TrimSpace, Fold, NormalizedLabels;
  }

  /** Validation trims again what ingestion already trimmed; that changes neither verdict nor correlation key. */
  lemma TrimmedInputIsEquivalent(a: AlertInput, digest: Canonical -> string)
    requires DistinctKeys(a.labels)
    ensures Trimmed(Trimmed(a)) == Trimmed(a)
    ensures Trimmed(a).service == TrimSpace(a.service) && Trimmed(a).title == TrimSpace(a.title)
            && Trimmed(a).externalId == TrimSpace(a.externalId) && Trimmed(a).fingerprint == a.fingerprint
            && Trimmed(a).severity == a.severity && Trimmed(a).labels == a.labels && Trimmed(a).details == a.details
            && Trimmed(a).occurredAt == a.occurredAt
    ensures Fingerprint(Trimmed(a), digest) == Fingerprint(a, digest)
    ensures ValidInput(a) ==> ValidInput(Trimmed(a))
  {
    hide TrimSpace, ToLower;
    TrimIdempotent(a.service);
    TrimIdempotent(a.title);
    TrimIdempotent(a.externalId);
  }

  // ---- incidents ----

  datatype IncidentStatus = Open | Acknowledged | Resolved

  datatype Incident = Incident(
    id: Uuid,
    tenant: Uuid,
    fingerprint: string,
    service: string,
    title: string,
    severity: Severity,
    status: IncidentStatus,
    occurrenceCount: int,
    firstSeenAt: Time,
    lastSeenAt: Time,
    acknowledgedAt: Option<Time>,
    resolvedAt: Option<Time>,
    version: int)
  {
    predicate CanTransition(to: IncidentStatus) {
      match status
      case Open => to == Acknowledged || to == Resolved
      case Acknowledged => to == Resolved
      case Resolved => false
    }

    function Key(): CorrelationKey {
      CorrelationKey(tenant, fingerprint)
    }
  }

  datatype TransitionCommand = TransitionCommand(
    incident: Uuid,
    to: IncidentStatus,
    actor: string,
    note: string,
    expected: Option<int>)

  // ---- events ----

  const ALERT_RECEIVED_TOPIC := "alerts.received.v1"

  /** An event as it travels through the outbox and the broker.  `alert` is None when the data field does not
      decode. */
  datatype Envelope = Envelope(
    id: Uuid,
    topic: string,
    version: int,
    tenant: Uuid,
    occurredAt: Option<Time>,
    alert: Option<Uuid>)
  {
    predicate Valid() {
      && id != NIL && tenant != NIL
      && topic == ALERT_RECEIVED_TOPIC && version == 1
      && occurredAt.Some?
      && alert.Some? && alert.value != NIL
    }
  }

  function NewAlertReceivedEnvelope(id: Uuid, tenant: Uuid, alert: Uuid, now: Time): (e: Envelope)
    ensures e.Valid() <==> id != NIL && tenant != NIL && alert != NIL
    ensures e.id == id && e.tenant == tenant && e.alert == Some(alert) && e.occurredAt == Some(now)
  {
    Envelope(id, ALERT_RECEIVED_TOPIC, 1, tenant, Some(now), Some(alert))
  }
}
