/**
 * From a COM payload to canonical events. Only the fields that decide identity, action and severity are
 * modelled; texts compared without regard to case are given in upper case, with "" for an absent one.
 */
module Normalize {
  import opened Common
  import opened Events
  import opened Deliver
  import opened Identity

  datatype Condition = Health | Power | Connection | Subscription

  function ConditionName(c: Condition): string {
    match c
    case Health => "health"
    case Power => "power"
    case Connection => "connection"
    case Subscription => "subscription"
  }

  datatype ServerPayload = ServerPayload(
    id: Option<string>,
    serialNumber: Option<string>,
    operation: string,
    healthSummary: string,
    powerState: string,
    connected: Option<bool>,
    subscriptionState: string,
    subscriptionExpiresAt: Option<int>,  // None when absent or not a timestamp
    bmcIp: Option<string>,
    titles: Condition -> string)         // the rendered titles are not modelled further

  datatype AlertPayload = AlertPayload(
    id: string, title: string, severity: string, cleared: bool, clearedAt: bool, operation: string, deleted: bool)

  datatype GenericPayload = GenericPayload(
    id: string, title: string, operation: string, healthSummary: string, bmcIp: Option<string>)

  /**
   * One JSON value: an object with its lower-cased type and how each of the three mappings reads it, or one on
   * which the mapping raises, because a field it reads (or the value itself) is of an unexpected JSON type. Which
   * values those are is given.
   */
  datatype Payload =
    | Payload(ptype: string, server: ServerPayload, alert: AlertPayload, generic: GenericPayload)
    | IllTyped

  // --- Servers -------------------------------------------------------------------------

  function IndexOf(s: string, c: char): (i: nat)
    ensures i <= |s|
    ensures i < |s| ==> s[i] == c
    ensures c !in s[..i]
    ensures i == |s| <==> c !in s
  {
    if s == "" then 0
    else if s[0] == c then 0
    else
      var k := IndexOf(s[1..], c);
      assert s[..k + 1] == [s[0]] + s[1..][..k];
      k + 1
  }

  /** The serial half of 'PARTNUMBER+SERIAL', or the whole id when there is no '+'. */
  function SerialFromId(id: Option<string>): Option<string> {
    if OrNone(id).None? then None
    else
      var i := IndexOf(id.value, '+');
      if i < |id.value| then OrNone(Some(id.value[i + 1..])) else id
  }

  /** What identifies the server in its correlation keys; a payload with neither serial nor id reads "None". */
  function KeyBase(p: ServerPayload): string {
    if OrNone(p.serialNumber).Some? then p.serialNumber.value
    else if SerialFromId(p.id).Some? then SerialFromId(p.id).value
    else if p.id.Some? then p.id.value
    else "None"
  }

  /** The serial number if there is one, else what follows the first '+' of the id, else the whole id, else "None". */
  lemma KeyBaseIsSerial(p: ServerPayload, serial: string, part: string, rest: string)
    requires '+' !in part
    ensures serial != "" && p.serialNumber == Some(serial) ==> KeyBase(p) == serial
    ensures p.serialNumber in {None, Some("")} ==>
              && (p.id == Some(part + "+" + rest) && rest != "" ==> KeyBase(p) == rest)
              && (p.id == Some(part + "+") ==> KeyBase(p) == part + "+")
              && (p.id == Some(part) ==> KeyBase(p) == part)
              && (p.id == None ==> KeyBase(p) == "None")
  {
    FirstPlus(part, rest);
    FirstPlus(part, "");
    assert part + "+" + "" == part + "+";
  }

  lemma FirstPlus(part: string, rest: string)
    requires '+' !in part
    ensures IndexOf(part + "+" + rest, '+') == |part|
    ensures (part + "+" + rest)[|part| + 1..] == rest
  {
    assert (part + "+" + rest)[|part|] == '+';
  }

  function HealthSeverity(summary: string): Severity {
    if summary == "OK" then Normal
    else if summary == "WARNING" then Minor
    else if summary == "CRITICAL" then Critical
    else Warning
  }

  /** The condition is a problem in this snapshot. An expiry is judged against the clock. */
  predicate IsProblem(p: ServerPayload, c: Condition, now: int) {
    match c
    case Health => HealthSeverity(p.healthSummary) != Normal
    case Power => p.powerState == "OFF"
    case Connection => p.connected == Some(false)
    case Subscription =>
      || (p.subscriptionState != "" && p.subscriptionState != "SUBSCRIBED")
      || (p.subscriptionExpiresAt.Some? && p.subscriptionExpiresAt.value < now)
  }

  function ProblemSeverity(p: ServerPayload, c: Condition): Severity {
    match c
    case Health => HealthSeverity(p.healthSummary)
    case Power => Warning
    case Connection => Major
    case Subscription => Minor
  }

  function ServerEvent(hash: string -> string, p: ServerPayload, c: Condition, now: int): Event {
    var problem := IsProblem(p, c, now);
    var severity := if problem then ProblemSeverity(p, c) else Normal;
    var action := if problem then Raise else Clear;
    var key := ServerKey(KeyBase(p), ConditionName(c));
    Event(
      p.id.GetOr(""), if p.operation == "" then "Updated" else p.operation, p.titles(c), severity, Server,
      action, key, hash(Preimage(key, action, severity)), BmcUrl(p.bmcIp), None, None, None, [], [], None)
  }

  /** How bad a health summary is. */
  predicate HealthReads(summary: string, severity: Severity) {
    match severity
    case Normal => summary == "OK"
    case Minor => summary == "WARNING"
    case Critical => summary == "CRITICAL"
    case Warning => summary != "OK" && summary != "WARNING" && summary != "CRITICAL"
    case Major => false
  }

  /** A condition that is a problem of this severity, or none. */
  predicate SwitchReads(problem: bool, severity: Severity, e: Event) {
    if problem then e.action == Raise && e.severity == severity else e.action == Clear && e.severity == Normal
  }

  /** The event says of the condition what the snapshot's fields do. An expiry is judged against the clock. */
  predicate ServerReads(p: ServerPayload, c: Condition, now: int, e: Event) {
    match c
    case Health => HealthReads(p.healthSummary, e.severity) && (e.action == Clear <==> p.healthSummary == "OK")
    case Power => SwitchReads(p.powerState == "OFF", Warning, e)
    case Connection => SwitchReads(p.connected == Some(false), Major, e)
    case Subscription =>
      var unsubscribed := p.subscriptionState !in {"", "SUBSCRIBED"};
      var expired := p.subscriptionExpiresAt.Some? && p.subscriptionExpiresAt.value < now;
      SwitchReads(unsubscribed || expired, Minor, e)
  }

  /** The address is that of the management controller, if the payload gives one. */
  predicate AddressReads(ip: Option<string>, e: Event) {
    e.mgmtUrl == match ip case None => None case Some(ip) => if ip == "" then None else Some("https://" + ip)
  }

  /** Nothing has been written by enrichment yet. */
  predicate Unenriched(e: Event) {
    && e.analysisSummary.None? && e.analysisRootCause.None? && e.analysisConfidence.None?
    && e.analysisActions == [] && e.advisoryReferences == [] && e.advisoryEvidence.None?
  }

  /** The event names what the snapshot is about. */
  predicate ServerNames(p: ServerPayload, c: Condition, e: Event) {
    && e.source == Server && e.title == p.titles(c) && Unenriched(e) && AddressReads(p.bmcIp, e)
    && e.eventId == (if p.id.Some? then p.id.value else "")
    && e.operation == (if p.operation == "" then "Updated" else p.operation)
    && e.correlationKey == "server:" + KeyBase(p) + ":" + ConditionName(c)
  }

  lemma ServerEventReads(hash: string -> string, p: ServerPayload, c: Condition, now: int)
    ensures ServerReads(p, c, now, ServerEvent(hash, p, c, now))
    ensures ServerNames(p, c, ServerEvent(hash, p, c, now))
  {
  }

  lemma ServerEventsRead(
      hash: string -> string, p: ServerPayload, monitors: seq<Condition>, now: int, events: seq<Event>)
    requires |events| == |monitors|
    requires forall i :: 0 <= i < |monitors| ==> events[i] == ServerEvent(hash, p, monitors[i], now)
    ensures forall i :: 0 <= i < |monitors| ==>
              ServerReads(p, monitors[i], now, events[i]) && ServerNames(p, monitors[i], events[i])
  {
    forall i | 0 <= i < |monitors|
      ensures ServerReads(p, monitors[i], now, events[i]) && ServerNames(p, monitors[i], events[i])
    {
      ServerEventReads(hash, p, monitors[i], now);
    }
  }

  /** One event per enabled condition, in the order the conditions are enabled. */
  method NormalizeServer(hash: string -> string, p: ServerPayload, monitors: seq<Condition>, now: int)
    returns (events: seq<Event>)
    ensures |events| == |monitors|
    ensures forall i :: 0 <= i < |monitors| ==> events[i] == ServerEvent(hash, p, monitors[i], now)
    ensures forall i :: 0 <= i < |monitors| ==>
              ServerReads(p, monitors[i], now, events[i]) && ServerNames(p, monitors[i], events[i])
  {
    events := [];
    for i := 0 to |monitors|
      invariant |events| == i
      invariant forall k :: 0 <= k < i ==> events[k] == ServerEvent(hash, p, monitors[k], now)
    {
      events := events + [ServerEvent(hash, p, monitors[i], now)];
    }
    ServerEventsRead(hash, p, monitors, now, events);
  }

  // --- Alerts and everything else ---------------------------------------------------------

  function AlertSeverity(severity: string): Severity {
    if severity == "CRITICAL" then Critical
    else if severity == "OK" || severity == "INFO" || severity == "INFORMATIONAL" then Normal
    else Warning
  }

  function AlertEvent(hash: string -> string, p: AlertPayload): Event {
    var action := if p.cleared || p.clearedAt || p.deleted then Clear else Raise;
    var severity := AlertSeverity(p.severity);
    var operation := if p.operation != "" then p.operation else if action.Clear? then "Deleted" else "Created";
    Event(
      p.id, operation, p.title, severity, Alert, action, AlertKey(p.id),
      hash(Preimage(AlertKey(p.id), action, severity)), None, None, None, None, [], [], None)
  }

  function GenericEvent(hash: string -> string, p: GenericPayload): Event {
    Event(
      p.id, p.operation, p.title, HealthSeverity(p.healthSummary), Generic, Raise, GenericKey(p.id),
      hash(GenericPreimage(p.id, p.operation)), BmcUrl(p.bmcIp), None, None, None, [], [], None)
  }

  /** An alert clears once it is cleared or deleted, whatever severity it still carries. */
  predicate AlertReads(p: AlertPayload, e: Event) {
    && (e.action == Clear <==> p.cleared || p.clearedAt || p.deleted)
    && (e.severity == Critical <==> p.severity == "CRITICAL")
    && (e.severity == Normal <==> p.severity in {"OK", "INFO", "INFORMATIONAL"})
    && e.severity in {Critical, Normal, Warning}
    && e.source == Alert && e.eventId == p.id && e.title == p.title && e.correlationKey == "alert:" + p.id
    && (p.operation != "" ==> e.operation == p.operation)
    && (p.operation == "" ==> e.operation == if e.action == Clear then "Deleted" else "Created")
    && Unenriched(e) && e.mgmtUrl.None?
  }

  /** An event of any other type is a raise, as bad as the health it reports. */
  predicate GenericReads(p: GenericPayload, e: Event) {
    && e.action == Raise && HealthReads(p.healthSummary, e.severity)
    && e.source == Generic && e.eventId == p.id && e.title == p.title && e.operation == p.operation
    && e.correlationKey == "generic:" + p.id && Unenriched(e) && AddressReads(p.bmcIp, e)
  }

  lemma OtherEventsRead(hash: string -> string, a: AlertPayload, g: GenericPayload)
    ensures AlertReads(a, AlertEvent(hash, a)) && GenericReads(g, GenericEvent(hash, g))
  {
  }

  /** Dispatch on the resource type; None is an exception: an ill-typed payload or a misspelt SERVER_MONITORS. */
  method NormalizePayload(hash: string -> string, p: Payload, monitorNames: seq<string>, now: int)
    returns (events: Option<seq<Event>>)
    ensures p.IllTyped? ==> events.None?
    ensures p.Payload? && !EndsWith(p.ptype, "/server") ==>
              var alert := EndsWith(p.ptype, "/alert");
              && events == Some([if alert then AlertEvent(hash, p.alert) else GenericEvent(hash, p.generic)])
              && if alert then AlertReads(p.alert, events.value[0]) else GenericReads(p.generic, events.value[0])
    ensures p.Payload? && EndsWith(p.ptype, "/server") ==>
              (events.None? <==> exists n :: n in monitorNames && ConditionNamed(n).None?)
    ensures events.Some? ==> events.value != []
    ensures events.Some? && p.Payload? && EndsWith(p.ptype, "/server") ==>
      exists monitors :: Enables(monitorNames, monitors) && |events.value| == |monitors| &&
        forall i :: 0 <= i < |monitors| ==>
          && events.value[i] == ServerEvent(hash, p.server, monitors[i], now)
          && ServerReads(p.server, monitors[i], now, events.value[i])
          && ServerNames(p.server, monitors[i], events.value[i])
  {
    if p.IllTyped? {
      return None;
    }
    if EndsWith(p.ptype, "/server") {
      var monitors := EnabledMonitors(monitorNames);
      if monitors.None? {
        return None;
      }
      var es := NormalizeServer(hash, p.server, monitors.value, now);
      events := Some(es);
    } else if EndsWith(p.ptype, "/alert") {
      OtherEventsRead(hash, p.alert, p.generic);
      events := Some([AlertEvent(hash, p.alert)]);
    } else {
      OtherEventsRead(hash, p.alert, p.generic);
      events := Some([GenericEvent(hash, p.generic)]);
    }
  }

  // --- Which conditions are monitored --------------------------------------------------------

  function ConditionNamed(name: string): Option<Condition> {
    if name == "health" then Some(Health)
    else if name == "power" then Some(Power)
    else if name == "connection" then Some(Connection)
    else if name == "subscription" then Some(Subscription)
    else None
  }

  lemma NamesRoundTrip(c: Condition, name: string)
    ensures ConditionNamed("health") == Some(Health) && ConditionNamed("power") == Some(Power)
    ensures ConditionNamed("connection") == Some(Connection) && ConditionNamed("subscription") == Some(Subscription)
    ensures ConditionNamed(ConditionName(c)) == Some(c)
    ensures ConditionNamed(name) == Some(c) ==> name == ConditionName(c)
    ensures ':' !in ConditionName(c)
  {
    assert "health"[0] == 'h' && "power"[0] == 'p' && "connection"[0] == 'c' && "subscription"[0] == 's';
  }

  /** Position of the first entry naming the condition. */
  function FirstNamed(names: seq<string>, c: Condition): (i: nat)
    ensures i <= |names|
    ensures i < |names| ==> ConditionNamed(names[i]) == Some(c)
    ensures forall k :: 0 <= k < i ==> ConditionNamed(names[k]) != Some(c)
  {
    if names == [] then 0
    else if ConditionNamed(names[0]) == Some(c) then 0
    else 1 + FirstNamed(names[1..], c)
  }

  /** The conditions named before position i, in the order of first mention. */
  ghost predicate Mentions(names: seq<string>, monitors: seq<Condition>, i: nat) {
    && (forall c :: c in monitors <==> FirstNamed(names, c) < i)
    && (forall a, b :: 0 <= a < b < |monitors| ==> FirstNamed(names, monitors[a]) < FirstNamed(names, monitors[b]))
  }

  /**
   * `monitors` is what the list of names enables: the default when it is empty, otherwise each condition it
   * names, once, in the order of first mention.
   */
  ghost predicate Enables(names: seq<string>, monitors: seq<Condition>) {
    if names == [] then monitors == [Health]
    else Mentions(names, monitors, |names|)
  }

  lemma SomethingNamed(names: seq<string>, monitors: seq<Condition>)
    requires names != [] && ConditionNamed(names[0]).Some? && Mentions(names, monitors, |names|)
    ensures monitors != []
  {
    assert FirstNamed(names, ConditionNamed(names[0]).value) == 0;
  }

  lemma OneMoreName(names: seq<string>, before: seq<Condition>, after: seq<Condition>, i: nat, c: Condition)
    requires i < |names| && ConditionNamed(names[i]) == Some(c) && Mentions(names, before, i)
    requires after == if c in before then before else before + [c]
    ensures Mentions(names, after, i + 1)
  {
    forall d | FirstNamed(names, d) == i
      ensures d == c
    {
    }
    assert FirstNamed(names, c) <= i;
  }

  method EnabledMonitors(names: seq<string>) returns (monitors: Option<seq<Condition>>)
    ensures monitors.None? <==> exists n :: n in names && ConditionNamed(n).None?
    ensures monitors.Some? ==> Enables(names, monitors.value) && monitors.value != []
  {
    if names == [] {
      return Some([Health]);
    }
    var ordered: seq<Condition> := [];
    var i := 0;
    while i < |names|
      invariant 0 <= i <= |names|
      invariant forall k :: 0 <= k < i ==> ConditionNamed(names[k]).Some?
      invariant Mentions(names, ordered, i)
    {
      var c := ConditionNamed(names[i]);
      if c.None? {
        return None;
      }
      ghost var before := ordered;
      if c.value !in ordered {
        ordered := ordered + [c.value];
      }
      OneMoreName(names, before, ordered, i, c.value);
      i := i + 1;
    }
    SomethingNamed(names, ordered);
    monitors := Some(ordered);
  }

  // --- What the events of one snapshot guarantee ------------------------------------------------

  /** Server events: a raise is exactly an event of abnormal severity. */
  lemma RaiseIffAbnormal(hash: string -> string, p: ServerPayload, c: Condition, now: int)
    ensures var e := ServerEvent(hash, p, c, now);
      (e.action == Raise <==> IsProblem(p, c, now)) && (e.action == Raise <==> e.severity != Normal)
  {
  }

  /** Two server events are one problem iff they agree on server and condition, one delivery iff also on state. */
  lemma ServerEventsIdentify(
      hash: string -> string, p: ServerPayload, c: Condition, now: int, p': ServerPayload, c': Condition, now': int)
    requires IsHash(hash)
    ensures var e, e' := ServerEvent(hash, p, c, now), ServerEvent(hash, p', c', now');
      && (e.correlationKey == e'.correlationKey <==> KeyBase(p) == KeyBase(p') && c == c')
      && (e.dedupKey == e'.dedupKey <==>
            e.correlationKey == e'.correlationKey && e.action == e'.action && e.severity == e'.severity)
  {
    NamesRoundTrip(c, "");
    NamesRoundTrip(c', "");
    ServerKeyInjective(KeyBase(p), ConditionName(c), KeyBase(p'), ConditionName(c'));
    var e, e' := ServerEvent(hash, p, c, now), ServerEvent(hash, p', c', now');
    DedupKeyIdentifies(hash, e.correlationKey, e.action, e.severity, e'.correlationKey, e'.action, e'.severity);
  }

  /** An alert's creation, clearing and deletion share one problem; only a change of state is a new delivery. */
  lemma AlertEventsIdentify(hash: string -> string, p: AlertPayload, p': AlertPayload)
    requires IsHash(hash)
    ensures var e, e' := AlertEvent(hash, p), AlertEvent(hash, p');
      && (e.correlationKey == e'.correlationKey <==> p.id == p'.id)
      && (e.action == Clear <==> p.cleared || p.clearedAt || p.deleted)
      && (e.dedupKey == e'.dedupKey <==>
            e.correlationKey == e'.correlationKey && e.action == e'.action && e.severity == e'.severity)
  {
    var e, e' := AlertEvent(hash, p), AlertEvent(hash, p');
    assert AlertKey(p.id)[6..] == p.id && AlertKey(p'.id)[6..] == p'.id;
    DedupKeyIdentifies(hash, e.correlationKey, e.action, e.severity, e'.correlationKey, e'.action, e'.severity);
  }

  /** Events of different resource types never share a problem nor a delivery. */
  lemma FamiliesNeverMeet(
      hash: string -> string, s: ServerPayload, c: Condition, now: int, a: AlertPayload, g: GenericPayload)
    requires IsHash(hash)
    ensures var se, ae, ge := ServerEvent(hash, s, c, now), AlertEvent(hash, a), GenericEvent(hash, g);
      && se.correlationKey != ae.correlationKey && se.dedupKey != ae.dedupKey
      && se.correlationKey != ge.correlationKey && se.dedupKey != ge.dedupKey
      && ae.correlationKey != ge.correlationKey && ae.dedupKey != ge.dedupKey
  {
    var se, ae := ServerEvent(hash, s, c, now), AlertEvent(hash, a);
    KeyFamiliesAreDisjoint(KeyBase(s), ConditionName(c), a.id, g.id);
    assert GenericKey(g.id)[0] == 'g' && se.correlationKey[0] == 's' && ae.correlationKey[0] == 'a';
    assert GenericPreimage(g.id, g.operation)[0] == 'g';
    assert Preimage(se.correlationKey, se.action, se.severity)[0] == 's';
    assert Preimage(ae.correlationKey, ae.action, ae.severity)[0] == 'a';
    KeyFamiliesAreDisjoint(KeyBase(s), ConditionName(c), g.id, g.id);
    KeyFamiliesAreDisjoint(KeyBase(s), ConditionName(c), a.id, g.id);
  }

  ghost predicate DistinctEvents(events: seq<Event>) {
    && (forall i :: 0 <= i < |events| ==> ':' !in events[i].dedupKey)
    && (forall i, j :: 0 <= i < j < |events| ==> events[i].dedupKey != events[j].dedupKey)
  }

  lemma {:induction false} BatchKeyOrigin(events: seq<Event>, adapters: seq<string>, k: nat) returns (i: nat, a: nat)
    requires k < |BatchKeys(events, adapters)|
    ensures i < |events| && a < |adapters| && BatchKeys(events, adapters)[k] == DeliveryKey(events[i], adapters[a])
  {
    var n := |events| - 1;
    var before := |BatchKeys(events[..n], adapters)|;
    if k < before {
      i, a := BatchKeyOrigin(events[..n], adapters, k);
    } else {
      i, a := n, k - before;
    }
  }

  /** A batch of distinct events for distinct targets has no key twice. */
  lemma {:induction false} BatchKeysDistinct(events: seq<Event>, adapters: seq<string>)
    requires DistinctEvents(events) && Distinct(adapters)
    ensures Distinct(BatchKeys(events, adapters))
  {
    if events != [] {
      var n := |events| - 1;
      var before, own := BatchKeys(events[..n], adapters), EventKeys(events[n], adapters);
      BatchKeysDistinct(events[..n], adapters);
      forall i, j | 0 <= i < |before| && 0 <= j < |own|
        ensures before[i] != own[j]
      {
        var e, a := BatchKeyOrigin(events[..n], adapters, i);
        DeliveryKeyInjective(events[e], adapters[a], events[n], adapters[j]);
      }
      forall i, j | 0 <= i < j < |own|
        ensures own[i] != own[j]
      {
        DeliveryKeyInjective(events[n], adapters[i], events[n], adapters[j]);
      }
    }
  }

  /** So every batch a server snapshot gives rise to is one whose retries forward only what is missing. */
  lemma SnapshotKeysDistinct(
      hash: string -> string, p: ServerPayload, names: seq<string>, monitors: seq<Condition>, now: int,
      events: seq<Event>, adapters: seq<string>)
    requires IsHash(hash) && Enables(names, monitors) && Distinct(adapters) && |events| == |monitors|
    requires forall i :: 0 <= i < |monitors| ==> events[i] == ServerEvent(hash, p, monitors[i], now)
    ensures Distinct(BatchKeys(events, adapters))
  {
    forall i, j | 0 <= i < j < |events|
      ensures events[i].dedupKey != events[j].dedupKey
    {
      ServerEventsIdentify(hash, p, monitors[i], now, p, monitors[j], now);
    }
    BatchKeysDistinct(events, adapters);
  }
}
