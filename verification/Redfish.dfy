/** Bounding the evidence read from a server's management controller. */
module Redfish {
  import opened Common
  import Sorting

  /** A JSON value where a number is expected. */
  datatype Value = Absent | Number(value: real) | NotNumber

  /** A sensor entry; `health` is its own Status.Health, trimmed and lower-cased, "" if unstated. */
  datatype Sensor = Sensor(
    name: string, health: string, readingCelsius: Value, reading: Value,
    upperCritical: Value, upperNonCritical: Value, lowerCritical: Value, lowerNonCritical: Value)

  const HEALTHY: set<string> := {"ok", "enabled", "absent", "", "none"}

  function ReadingOf(entry: Sensor): Value {
    if entry.readingCelsius.Absent? then entry.reading else entry.readingCelsius
  }

  /** A limit of zero counts as no limit. */
  predicate Reaches(limit: Value, reading: real, up: bool) {
    limit.Number? && limit.value != 0.0 && (if up then reading >= limit.value else reading <= limit.value)
  }

  predicate CrossesThreshold(entry: Sensor) {
    var reading := ReadingOf(entry);
    reading.Number? && (
      || Reaches(entry.upperCritical, reading.value, true)
      || Reaches(entry.upperNonCritical, reading.value, true)
      || Reaches(entry.lowerCritical, reading.value, false)
      || Reaches(entry.lowerNonCritical, reading.value, false))
  }

  predicate Notable(entry: Sensor) {
    entry.health !in HEALTHY || CrossesThreshold(entry)
  }

  /** The reading that counts, the Celsius one first, has reached this limit, and it is one: not absent, not 0. */
  predicate Crossed(entry: Sensor, limit: Value, upper: bool) {
    var reading := if entry.readingCelsius == Absent then entry.reading else entry.readingCelsius;
    match (reading, limit)
    case (Number(r), Number(l)) => l != 0.0 && (if upper then r >= l else r <= l)
    case _ => false
  }

  /** What makes a sensor worth keeping: a health that is not one of five words, or one of four limits reached. */
  lemma NotableIff(entry: Sensor)
    ensures Notable(entry) <==>
      || entry.health !in ["ok", "enabled", "absent", "", "none"]
      || Crossed(entry, entry.upperCritical, true) || Crossed(entry, entry.upperNonCritical, true)
      || Crossed(entry, entry.lowerCritical, false) || Crossed(entry, entry.lowerNonCritical, false)
  {
  }

  // --- Sensor arrays -----------------------------------------------------------------------

  const TRIMMED_ARRAYS := ["Temperatures", "Fans", "PowerSupplies"]

  /** One line of the bundle's trimming record. */
  datatype Note = Note(path: string, name: string, kept: nat, of: nat)

  function TrimmedArray(name: string, entries: seq<Sensor>, names: seq<string>): seq<Sensor> {
    if name in names then Filter(entries, Notable) else entries
  }

  /** The trimming record: one note for each of the named arrays that had any entry. */
  function NotesFor(path: string, resource: map<string, seq<Sensor>>, names: seq<string>): seq<Note> {
    if names == [] then [] else
      var n := |names| - 1;
      NotesFor(path, resource, names[..n]) + NoteFor(path, resource, names[n])
  }

  function NoteFor(path: string, resource: map<string, seq<Sensor>>, name: string): seq<Note> {
    if name in resource && resource[name] != [] then
      [Note(path, name, |Filter(resource[name], Notable)|, |resource[name]|)]
    else []
  }

  /** The document with the named arrays trimmed. */
  function TrimmedIn(resource: map<string, seq<Sensor>>, names: seq<string>): map<string, seq<Sensor>> {
    map name | name in resource :: TrimmedArray(name, resource[name], names)
  }

  lemma OneMoreArray(path: string, resource: map<string, seq<Sensor>>, names: seq<string>, i: nat)
    requires i < |names| && names[i] !in names[..i]
    ensures NotesFor(path, resource, names[..i + 1])
            == NotesFor(path, resource, names[..i]) + NoteFor(path, resource, names[i])
    ensures TrimmedIn(resource, names[..i + 1])
            == if names[i] in resource && resource[names[i]] != []
               then TrimmedIn(resource, names[..i])[names[i] := Filter(resource[names[i]], Notable)]
               else TrimmedIn(resource, names[..i])
  {
    assert names[..i + 1] == names[..i] + [names[i]];
    assert names[..i + 1][..i] == names[..i];
    assert Filter([], Notable) == [];
  }

  /**
   * Drops the healthy entries of the sensor arrays and nothing else; `resource` holds the list-valued fields
   * of the document. Each array that had any entry is recorded with both its counts.
   */
  method TrimArrays(path: string, resource: map<string, seq<Sensor>>)
    returns (trimmed: map<string, seq<Sensor>>, notes: seq<Note>)
    ensures trimmed == TrimmedIn(resource, TRIMMED_ARRAYS)
    ensures notes == NotesFor(path, resource, TRIMMED_ARRAYS)
  {
    trimmed, notes := resource, [];
    var names := TRIMMED_ARRAYS;
    NamesDiffer();
    assert names[..0] == [] && TrimmedIn(resource, []) == resource;
    for i := 0 to |names|
      invariant trimmed == TrimmedIn(resource, names[..i]) && notes == NotesFor(path, resource, names[..i])
    {
      OneMoreArray(path, resource, names, i);
      if names[i] in resource && resource[names[i]] != [] {
        var kept := KeepNotable(resource[names[i]]);
        trimmed := trimmed[names[i] := kept];
        notes := notes + [Note(path, names[i], |kept|, |resource[names[i]]|)];
      }
    }
    assert names[..|names|] == names;
  }

  lemma NotesSnoc(path: string, resource: map<string, seq<Sensor>>, names: seq<string>, name: string)
    ensures NotesFor(path, resource, names + [name]) == NotesFor(path, resource, names) + NoteFor(path, resource, name)
  {
    assert (names + [name])[..|names|] == names;
  }

  lemma NotesInOrder(path: string, resource: map<string, seq<Sensor>>)
    ensures NotesFor(path, resource, TRIMMED_ARRAYS)
         == NoteFor(path, resource, "Temperatures") + NoteFor(path, resource, "Fans")
            + NoteFor(path, resource, "PowerSupplies")
  {
    NotesSnoc(path, resource, [], "Temperatures");
    NotesSnoc(path, resource, [] + ["Temperatures"], "Fans");
    NotesSnoc(path, resource, [] + ["Temperatures"] + ["Fans"], "PowerSupplies");
    assert [] + ["Temperatures"] + ["Fans"] + ["PowerSupplies"] == TRIMMED_ARRAYS;
  }

  /** There is a note just for each array that had an entry, with what was kept of how many; the arrays in order. */
  lemma NotesAreComplete(path: string, resource: map<string, seq<Sensor>>, note: Note)
    ensures var notes := NotesFor(path, resource, TRIMMED_ARRAYS);
            && (note in notes <==>
                  && note.path == path && note.name in {"Temperatures", "Fans", "PowerSupplies"}
                  && note.name in resource && note.of == |resource[note.name]| > 0
                  && note.kept == |TrimmedIn(resource, TRIMMED_ARRAYS)[note.name]|)
            && (forall i, j :: 0 <= i < j < |notes| ==>
                  || (notes[i].name == "Temperatures" && notes[j].name != "Temperatures")
                  || (notes[i].name == "Fans" && notes[j].name == "PowerSupplies"))
  {
    NotesInOrder(path, resource);
    NamesDiffer();
  }

  lemma NamesDiffer()
    ensures forall i :: 0 <= i < |TRIMMED_ARRAYS| ==> TRIMMED_ARRAYS[i] !in TRIMMED_ARRAYS[..i]
  {
    assert "Temperatures"[0] == 'T' && "Fans"[0] == 'F' && "PowerSupplies"[0] == 'P';
  }

  method KeepNotable(entries: seq<Sensor>) returns (kept: seq<Sensor>)
    ensures kept == Filter(entries, Notable)
  {
    kept := [];
    for i := 0 to |entries|
      invariant kept == Filter(entries[..i], Notable)
    {
      assert entries[..i + 1] == entries[..i] + [entries[i]];
      FilterAppend(entries[..i], [entries[i]], Notable);
      if Notable(entries[i]) {
        kept := kept + [entries[i]];
      }
    }
    assert entries[..|entries|] == entries;
  }

  /** Trimming keeps every unhealthy or threshold-crossing entry as often as it occurs, and no other entry. */
  lemma TrimmingIsExact(resource: map<string, seq<Sensor>>, name: string, entry: Sensor)
    requires name in TRIMMED_ARRAYS && name in resource
    ensures multiset(TrimmedIn(resource, TRIMMED_ARRAYS)[name])[entry]
            == if entry.health !in HEALTHY || CrossesThreshold(entry) then multiset(resource[name])[entry] else 0
  {
    FilterIsExact(resource[name], Notable, entry);
  }

  lemma TrimmingTwiceIsOnce(resource: map<string, seq<Sensor>>)
    ensures TrimmedIn(TrimmedIn(resource, TRIMMED_ARRAYS), TRIMMED_ARRAYS) == TrimmedIn(resource, TRIMMED_ARRAYS)
  {
    forall name | name in resource && name in TRIMMED_ARRAYS
      ensures Filter(Filter(resource[name], Notable), Notable) == Filter(resource[name], Notable)
    {
      FilterTwice(resource[name], Notable);
    }
  }

  // --- The management log -------------------------------------------------------------------

  /** A log entry; `created` is the rank of its stamp, None when it has none, and severity is lower-cased. */
  datatype LogEntry = LogEntry(created: Option<nat>, severity: string, message: string)

  predicate Interesting(entry: LogEntry) {
    entry.severity !in HEALTHY
  }

  /** Sorting by age puts the newest first and the unstamped last. */
  function Age(entry: LogEntry): int {
    if entry.created.Some? then 0 - entry.created.value else 1
  }

  /** The newest `limit` entries that are not OK, and how many entries there were; None is a missing log. */
  method CollectLog(collection: Option<seq<LogEntry>>, limit: int) returns (kept: seq<LogEntry>, total: nat)
    ensures collection.None? ==> kept == [] && total == 0
    ensures collection.Some? ==>
              var newest := Sorting.SortBy(Filter(collection.value, Interesting), Age);
              kept == newest[..SliceLength(|newest|, limit)] && total == |collection.value|
  {
    if collection.None? {
      return [], 0;
    }
    var members := collection.value;
    var interesting := [];
    for i := 0 to |members|
      invariant interesting == Filter(members[..i], Interesting)
    {
      assert members[..i + 1] == members[..i] + [members[i]];
      FilterAppend(members[..i], [members[i]], Interesting);
      if Interesting(members[i]) {
        interesting := interesting + [members[i]];
      }
    }
    assert members[..|members|] == members;
    interesting := Sorting.SortBy(interesting, Age);
    return interesting[..SliceLength(|interesting|, limit)], |members|;
  }

  /** `a` was created no later than `b`, an entry without a stamp being the oldest. */
  predicate NoNewer(a: LogEntry, b: LogEntry) {
    a.created.None? || (b.created.Some? && a.created.value <= b.created.value)
  }

  lemma AgeIsNewness(a: LogEntry, b: LogEntry)
    ensures Age(b) <= Age(a) <==> NoNewer(a, b)
  {
  }

  /**
   * Whatever is dropped is OK or no newer than anything kept: kept and dropped together are exactly the entries
   * that are not OK, the kept ones newest first, and as many as the limit allows.
   */
  lemma NothingNewerIsDropped(members: seq<LogEntry>, limit: nat)
    ensures var newest := Sorting.SortBy(Filter(members, Interesting), Age);
            var n := SliceLength(|newest|, limit);
            && n == Min(limit, |Filter(members, Interesting)|)
            && multiset(newest[..n]) + multiset(newest[n..]) == multiset(Filter(members, Interesting))
            && (forall i, j :: 0 <= i < j < n ==> NoNewer(newest[j], newest[i]))
            && (forall k, d :: k in newest[..n] && d in newest[n..] ==> NoNewer(d, k))
  {
    var newest := Sorting.SortBy(Filter(members, Interesting), Age);
    var n := SliceLength(|newest|, limit);
    Sorting.SortIsSorted(Filter(members, Interesting), Age);
    assert |newest| == |Filter(members, Interesting)| by {
      assert |multiset(newest)| == |newest|;
    }
    assert newest == newest[..n] + newest[n..];
    NewestFirst(newest);
    NewestKept(newest, n);
  }

  lemma NewestKept(newest: seq<LogEntry>, n: nat)
    requires n <= |newest| && forall i, j :: 0 <= i < j < |newest| ==> NoNewer(newest[j], newest[i])
    ensures forall k, d :: k in newest[..n] && d in newest[n..] ==> NoNewer(d, k)
  {
    forall k, d | k in newest[..n] && d in newest[n..]
      ensures NoNewer(d, k)
    {
      var i :| 0 <= i < n && newest[i] == k;
      var j :| n <= j < |newest| && newest[j] == d;
    }
  }

  /** What is kept or dropped are exactly the entries whose severity is not one of five words. */
  lemma LoggedAreNotOk(members: seq<LogEntry>, e: LogEntry)
    ensures multiset(Sorting.SortBy(Filter(members, Interesting), Age))[e]
         == if e.severity !in ["ok", "enabled", "absent", "", "none"] then multiset(members)[e] else 0
  {
    Sorting.SortIsSorted(Filter(members, Interesting), Age);
    FilterIsExact(members, Interesting, e);
  }

  lemma NewestFirst(entries: seq<LogEntry>)
    requires Sorting.Sorted(entries, Age)
    ensures forall i, j :: 0 <= i < j < |entries| ==> NoNewer(entries[j], entries[i])
  {
    forall i, j | 0 <= i < j < |entries|
      ensures NoNewer(entries[j], entries[i])
    {
      AgeIsNewness(entries[j], entries[i]);
    }
  }

  // --- Component collections ----------------------------------------------------------------------

  datatype Component = Component(path: string, health: string)

  /** What a GET comes to: 404 or an empty body, an error, or the resource. */
  datatype Reply = Missing | Failed | Found(component: Component)

  /** A collection's references; a reference may lack its address. */
  datatype Collection = Collection(members: seq<Option<string>>, drives: seq<Option<string>>)

  datatype Summary = Summary(total: nat, inspected: nat, unhealthy: seq<Component>)

  predicate Unhealthy(component: Component) {
    component.health !in HEALTHY
  }

  /** The components that references lead to. */
  function Reached(client: string -> Reply, refs: seq<Option<string>>): (r: seq<Component>)
    ensures |r| <= |refs|
  {
    if refs == [] then [] else
      var n := |refs| - 1;
      Reached(client, refs[..n])
      + (if OrNone(refs[n]).Some? && client(refs[n].value).Found? then [client(refs[n].value).component] else [])
  }

  /** The reference leads somewhere. */
  predicate Leads(client: string -> Reply, ref: Option<string>) {
    match ref
    case None => false
    case Some(path) => path != "" && client(path).Found?
  }

  function Leading(client: string -> Reply, refs: seq<Option<string>>): seq<bool> {
    seq(|refs|, i requires 0 <= i < |refs| => Leads(client, refs[i]))
  }

  /** Every reference that leads somewhere is followed, in order. */
  lemma {:induction false} ReachedAreTheLeading(client: string -> Reply, refs: seq<Option<string>>)
    ensures var which := Positions(Leading(client, refs));
            var r := Reached(client, refs);
            && |r| == |which|
            && forall k :: 0 <= k < |r| ==>
                 which[k] < |refs| && refs[which[k]].Some? && client(refs[which[k]].value) == Found(r[k])
  {
    if refs != [] {
      var n := |refs| - 1;
      ReachedAreTheLeading(client, refs[..n]);
      PositionsSnoc(Leading(client, refs[..n]), Leads(client, refs[n]));
      assert Leading(client, refs) == Leading(client, refs[..n]) + [Leads(client, refs[n])];
    }
  }

  /** A component is kept as often as it is reached iff its health is none of the five healthy words. */
  lemma UnhealthyAreNotOk(reached: seq<Component>, c: Component)
    ensures multiset(Filter(reached, Unhealthy))[c]
         == if c.health !in ["ok", "enabled", "absent", "", "none"] then multiset(reached)[c] else 0
  {
    FilterIsExact(reached, Unhealthy, c);
  }

  /** Follows the first `maxMembers` references, skipping any that fail, and keeps the unhealthy components. */
  method CollectUnhealthyMembers(client: string -> Reply, collection: Option<Collection>, maxMembers: int)
    returns (summary: Option<Summary>)
    ensures summary.None? <==> collection.None?
    ensures collection.Some? ==>
              var refs := if collection.value.members != [] then collection.value.members else collection.value.drives;
              var reached := Reached(client, refs[..SliceLength(|refs|, maxMembers)]);
              && summary.value.total == |refs| && summary.value.inspected == |reached|
              && summary.value.unhealthy == Filter(reached, Unhealthy)
              && |summary.value.unhealthy| <= summary.value.inspected
              && (maxMembers >= 0 ==> summary.value.inspected <= Min(summary.value.total, maxMembers))
  {
    if collection.None? {
      return None;
    }
    var refs := collection.value.members;
    if refs == [] {
      refs := collection.value.drives;
    }
    var inspected, unhealthy := 0, [];
    ghost var reached := [];
    var first := refs[..SliceLength(|refs|, maxMembers)];
    for i := 0 to |first|
      invariant reached == Reached(client, first[..i]) && inspected == |reached|
      invariant unhealthy == Filter(reached, Unhealthy)
    {
      assert first[..i + 1][..i] == first[..i];
      if OrNone(first[i]).None? {
        continue;
      }
      var reply := client(first[i].value);
      if !reply.Found? {
        continue;
      }
      inspected := inspected + 1;
      FilterAppend(reached, [reply.component], Unhealthy);
      reached := reached + [reply.component];
      if Unhealthy(reply.component) {
        unhealthy := unhealthy + [reply.component];
      }
    }
    assert first[..|first|] == first;
    return Some(Summary(|refs|, inspected, unhealthy));
  }
}
