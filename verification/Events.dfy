/** The canonical event every stage of the pipeline passes on. */
module Events {
  import opened Common

  datatype Action = Raise | Clear

  datatype Severity = Normal | Warning | Minor | Major | Critical

  datatype Source = Server | Alert | Generic

  /** An HPE customer advisory attached to an event, or offered as analyzer evidence. */
  datatype Advisory = Advisory(id: Option<string>, component: Option<string>, title: string, url: Option<string>)

  /** An advisory judged relevant to an event, and in which of its bundle's lists it stands. */
  datatype Reference = Reference(resolved: bool, advisory: Advisory)

  /** What the analyzer gets to see: a bundle's advisories, and the device's group-compliance record if known. */
  datatype Evidence = Evidence(open: seq<Advisory>, resolved: seq<Advisory>, compliance: Option<string>)

  datatype Event = Event(
    eventId: string,
    operation: string,
    title: string,
    severity: Severity,
    source: Source,
    action: Action,
    correlationKey: string,
    dedupKey: string,
    mgmtUrl: Option<string>,
    // Filled in by enrichment only.
    analysisSummary: Option<string>,
    analysisRootCause: Option<string>,
    analysisConfidence: Option<real>,
    analysisActions: seq<string>,
    advisoryReferences: seq<Reference>,
    advisoryEvidence: Option<Evidence>)

  /** Everything an enricher must leave alone is the same in both events. */
  predicate SameProblem(a: Event, b: Event) {
    && a.eventId == b.eventId && a.operation == b.operation && a.title == b.title
    && a.severity == b.severity && a.source == b.source && a.action == b.action
    && a.correlationKey == b.correlationKey && a.dedupKey == b.dedupKey
  }

  /** The management address of a server, from its BMC's IP address. */
  function BmcUrl(ip: Option<string>): Option<string> {
    if OrNone(ip).Some? then Some("https://" + ip.value) else None
  }

  /** The de-dup key of one event for one target. */
  function DeliveryKey(event: Event, adapter: string): string {
    event.dedupKey + ":" + adapter
  }

  /** The canonical scale, weakest first. */
  function Rank(severity: Severity): int {
    match severity
    case Normal => 0
    case Warning => 1
    case Minor => 2
    case Major => 3
    case Critical => 4
  }

  /** A threshold lets through the severities from it upwards and no others. */
  lemma RankIsScale(threshold: Severity, severity: Severity)
    ensures Rank(severity) >= Rank(threshold) <==> severity in AtLeast(threshold)
  {
  }

  function AtLeast(threshold: Severity): seq<Severity> {
    match threshold
    case Normal => [Normal, Warning, Minor, Major, Critical]
    case Warning => [Warning, Minor, Major, Critical]
    case Minor => [Minor, Major, Critical]
    case Major => [Major, Critical]
    case Critical => [Critical]
  }
}
