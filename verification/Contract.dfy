/** The contract layer: the messages the components exchange and their boundary validation. Messages are values. */
module Contract {
  import opened Base

  // Proto enums are open integers; only the named values are known.
  type Severity = int
  const INFO: Severity := 1
  const LOW: Severity := 2
  const MEDIUM: Severity := 3
  const HIGH: Severity := 4
  const CRITICAL: Severity := 5

  predicate KnownSeverity(s: Severity) {
    INFO <= s <= CRITICAL
  }

  datatype TelemetryEvent = TelemetryEvent(
    id: string, occurredAt: Option<Time>, source: string, assetId: string,
    eventType: string, severity: Severity, attributes: map<string, string>)

  // A Go map read: a missing key reads as the empty string.
  function Attr(attributes: map<string, string>, key: string): string {
    if key in attributes then attributes[key] else ""
  }

  function EventTime(e: TelemetryEvent): Time {
    AsTime(e.occurredAt)
  }

  // The identifier events are linked by: the asset, else the correlation id, else none.
  function LinkageKey(e: TelemetryEvent): string {
    if e.assetId != "" then "asset:" + e.assetId
    else if Attr(e.attributes, CORRELATION_KEY) != "" then "corr:" + Attr(e.attributes, CORRELATION_KEY)
    else ""
  }

  const CORRELATION_KEY: string := "blueveil.correlation_id"

  // The event names an asset, or at least a correlation id.
  predicate HasSubject(e: TelemetryEvent) {
    e.assetId != "" || Attr(e.attributes, "blueveil.correlation_id") != ""
  }

  // Two events are about the same: the same asset, or, both without one, the same correlation id.
  predicate SameSubject(a: TelemetryEvent, b: TelemetryEvent) {
    && a.assetId == b.assetId
    && (a.assetId == "" ==> Attr(a.attributes, "blueveil.correlation_id") == Attr(b.attributes, "blueveil.correlation_id"))
  }

  // Events are linked exactly when they are about the same.
  lemma SubjectMeans(a: TelemetryEvent, b: TelemetryEvent)
    ensures LinkageKey(a) != "" <==> HasSubject(a)
    ensures HasSubject(a) && HasSubject(b) ==> (LinkageKey(a) == LinkageKey(b) <==> SameSubject(a, b))
  {
    var c, d := Attr(a.attributes, CORRELATION_KEY), Attr(b.attributes, CORRELATION_KEY);
    assert ("asset:" + a.assetId)[6..] == a.assetId && ("asset:" + b.assetId)[6..] == b.assetId;
    assert ("corr:" + c)[5..] == c && ("corr:" + d)[5..] == d;
    assert ("asset:" + a.assetId)[0] == 'a' && ("corr:" + d)[0] == 'c';
    assert ("asset:" + b.assetId)[0] == 'a' && ("corr:" + c)[0] == 'c';
  }

  predicate ValidEvent(e: TelemetryEvent) {
    && e.id != "" && e.source != "" && e.assetId != "" && e.eventType != ""
    && e.occurredAt.Some? && KnownSeverity(e.severity)
  }

  // The order of monitoring results: occurred_at, then id.
  predicate TimeIdLe(a: TelemetryEvent, b: TelemetryEvent) {
    EventTime(a) < EventTime(b) || (EventTime(a) == EventTime(b) && StrLe(a.id, b.id))
  }

  ghost predicate TimeOrdered(events: seq<TelemetryEvent>) {
    forall i, j :: 0 <= i <= j < |events| ==> EventTime(events[i]) <= EventTime(events[j])
  }

  ghost predicate UniqueIds(events: seq<TelemetryEvent>) {
    forall i, j :: 0 <= i < j < |events| ==> events[i].id != events[j].id
  }

  lemma TimeIdLeIsOrder()
    ensures TotalPreorder(TimeIdLe)
    ensures forall a, b :: TimeIdLe(a, b) && TimeIdLe(b, a) ==> a.id == b.id
  {
    StrLeIsOrder();
  }

  datatype Detection = Detection(
    id: string, ruleId: string, ruleName: string, eventIds: seq<string>, detectedAt: Option<Time>,
    severity: Severity, confidence: real, title: string, description: string, attributes: map<string, string>)

  predicate ValidDetection(d: Detection) {
    && d.id != "" && d.ruleId != "" && d.ruleName != "" && d.title != ""
    && d.eventIds != [] && (forall id | id in d.eventIds :: id != "")
    && d.detectedAt.Some? && KnownSeverity(d.severity)
    && 0.0 <= d.confidence <= 1.0
  }

  const ALERT_OPEN: int := 1
  const ALERT_CLOSED: int := 3

  datatype Alert = Alert(
    id: string, detectionIds: seq<string>, status: int, severity: Severity,
    createdAt: Option<Time>, updatedAt: Option<Time>, title: string)

  predicate ValidAlert(a: Alert) {
    && a.id != "" && a.detectionIds != [] && (forall id | id in a.detectionIds :: id != "")
    && ALERT_OPEN <= a.status <= ALERT_CLOSED && KnownSeverity(a.severity)
    && a.createdAt.Some? && a.updatedAt.Some? && a.title != ""
  }

  const INCIDENT_OPEN: int := 1
  const INCIDENT_CLOSED: int := 5

  datatype Incident = Incident(
    id: string, alertIds: seq<string>, status: int, severity: Severity,
    createdAt: Option<Time>, updatedAt: Option<Time>, title: string, summary: string)

  predicate ValidIncident(i: Incident) {
    && i.id != "" && i.alertIds != [] && (forall id | id in i.alertIds :: id != "")
    && INCIDENT_OPEN <= i.status <= INCIDENT_CLOSED && KnownSeverity(i.severity)
    && i.createdAt.Some? && i.updatedAt.Some? && i.title != ""
  }

  // ---------------------------------------------------------------------------
  // What is wrong with an invalid message
  // ---------------------------------------------------------------------------

  predicate UnknownSeverity(severity: Severity) {
    severity < 1 || severity > 5
  }

  // An identifying field is empty, there is no time, or the severity is none of the five.
  predicate BrokenEvent(e: TelemetryEvent) {
    || e.id == "" || e.source == "" || e.assetId == "" || e.eventType == "" || e.occurredAt.None?
    || UnknownSeverity(e.severity)
  }

  lemma EventFaults(e: TelemetryEvent)
    ensures ValidEvent(e) <==> !BrokenEvent(e)
  {
  }

  predicate BrokenDetection(d: Detection) {
    || d.id == "" || d.ruleId == "" || d.ruleName == "" || d.title == "" || d.eventIds == [] || "" in d.eventIds
    || d.detectedAt.None? || UnknownSeverity(d.severity) || d.confidence < 0.0 || d.confidence > 1.0
  }

  lemma DetectionFaults(d: Detection)
    ensures ValidDetection(d) <==> !BrokenDetection(d)
  {
  }

  predicate BrokenAlert(a: Alert) {
    || a.id == "" || a.detectionIds == [] || "" in a.detectionIds || a.status < 1 || a.status > 3
    || UnknownSeverity(a.severity) || a.createdAt.None? || a.updatedAt.None? || a.title == ""
  }

  lemma AlertFaults(a: Alert)
    ensures ValidAlert(a) <==> !BrokenAlert(a)
  {
  }

  predicate BrokenIncident(i: Incident) {
    || i.id == "" || i.alertIds == [] || "" in i.alertIds || i.status < 1 || i.status > 5
    || UnknownSeverity(i.severity) || i.createdAt.None? || i.updatedAt.None? || i.title == ""
  }

  lemma IncidentFaults(i: Incident)
    ensures ValidIncident(i) <==> !BrokenIncident(i)
  {
  }
}
