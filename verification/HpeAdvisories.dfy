/** The customer-advisory enricher: cached advisories and compliance records, and what it attaches to an event. */
module HpeAdvisories {
  import opened Common
  import opened Events
  import opened Cache
  import opened Enrich

  /** A bundle's advisories. */
  datatype Bundle = Bundle(open: seq<Advisory>, resolved: seq<Advisory>)

  /** Whether the event and the advisory share a keyword. */
  type Matcher = (Event, Advisory) -> bool

  /** References to the advisories sharing a keyword with the event, as it is before any of this is written to it. */
  function Relevant(event: Event, advisories: seq<Advisory>, resolved: bool, matches: Matcher): (r: seq<Reference>) {
    if advisories == [] then [] else
      var n := |advisories| - 1;
      Relevant(event, advisories[..n], resolved, matches)
      + if matches(event, advisories[n]) then [Reference(resolved, advisories[n])] else []
  }

  function Matches(event: Event, advisories: seq<Advisory>, matches: Matcher): seq<bool> {
    seq(|advisories|, i requires 0 <= i < |advisories| => matches(event, advisories[i]))
  }

  /** Each matching advisory, in order, and with the list it stands in. */
  lemma {:induction false} RelevantAreTheMatches(
      event: Event, advisories: seq<Advisory>, resolved: bool, matches: Matcher)
    ensures var which := Positions(Matches(event, advisories, matches));
            var r := Relevant(event, advisories, resolved, matches);
            && |r| == |which|
            && forall k :: 0 <= k < |r| ==>
                 which[k] < |advisories| && r[k] == Reference(resolved, advisories[which[k]])
  {
    if advisories != [] {
      var n := |advisories| - 1;
      RelevantAreTheMatches(event, advisories[..n], resolved, matches);
      var before := Matches(event, advisories[..n], matches);
      PositionsSnoc(before, matches(event, advisories[n]));
      assert Matches(event, advisories, matches) == before + [matches(event, advisories[n])];
    }
  }

  lemma {:induction false} InRelevant(
      event: Event, advisories: seq<Advisory>, resolved: bool, matches: Matcher, ref: Reference)
    ensures ref in Relevant(event, advisories, resolved, matches)
            <==> ref.resolved == resolved && ref.advisory in advisories && matches(event, ref.advisory)
  {
    if advisories != [] {
      var n := |advisories| - 1;
      InRelevant(event, advisories[..n], resolved, matches, ref);
      assert advisories == advisories[..n] + [advisories[n]];
    }
  }

  function Apply(event: Event, bundle: Bundle, record: Option<string>, matches: Matcher): Event {
    event.(advisoryEvidence := Some(Evidence(bundle.open, bundle.resolved, record)),
           advisoryReferences :=
             Relevant(event, bundle.open, false, matches) + Relevant(event, bundle.resolved, true, matches))
  }

  /**
   * Only the two advisory fields are written: the evidence is the whole bundle and the compliance record; the
   * references are exactly the bundle's matching advisories, those still open before those resolved.
   */
  lemma ReferencesAreMatches(
      event: Event, bundle: Bundle, record: Option<string>, matches: Matcher, a: Advisory, i: nat, j: nat)
    ensures var r := Apply(event, bundle, record, matches);
      && r.(advisoryEvidence := event.advisoryEvidence, advisoryReferences := event.advisoryReferences) == event
      && SameProblem(event, r)
      && r.advisoryEvidence.Some? && r.advisoryEvidence.value.open == bundle.open
      && r.advisoryEvidence.value.resolved == bundle.resolved && r.advisoryEvidence.value.compliance == record
      && (Reference(false, a) in r.advisoryReferences <==> a in bundle.open && matches(event, a))
      && (Reference(true, a) in r.advisoryReferences <==> a in bundle.resolved && matches(event, a))
      && (i < j < |r.advisoryReferences| && r.advisoryReferences[i].resolved ==> r.advisoryReferences[j].resolved)
  {
    var open, resolved := Relevant(event, bundle.open, false, matches), Relevant(event, bundle.resolved, true, matches);
    InRelevant(event, bundle.open, false, matches, Reference(false, a));
    InRelevant(event, bundle.open, false, matches, Reference(true, a));
    InRelevant(event, bundle.resolved, true, matches, Reference(true, a));
    InRelevant(event, bundle.resolved, true, matches, Reference(false, a));
    if i < |open| {
      InRelevant(event, bundle.open, false, matches, open[i]);
    }
    if |open| <= j < |open + resolved| {
      InRelevant(event, bundle.resolved, true, matches, resolved[j - |open|]);
    }
  }

  /**
   * What the outside world has to say to one event: the server's bundle and id, what a fetch of the one and a
   * look-up of the other would bring, and when.
   */
  datatype Inquiry = Inquiry(
    bundleRef: Option<string>, deviceId: Option<string>, now: real, fetch: Option<Bundle>, fetched: real,
    lookup: Option<string>, lookedUp: real)
  {
    /** The clock has not gone back since the caches last looked at it. */
    predicate Timely(bundlesSeen: real, recordsSeen: real) {
      bundlesSeen <= now <= fetched <= lookedUp && recordsSeen <= fetched
    }
  }

  class Adviser {
    const bundles: Cache<Bundle>
    const records: Cache<string>
    const minRank: int
    const checkCompliance: bool
    ghost var visits: map<Moment, Visit>

    /** The two caches are apart. */
    ghost predicate Valid()
      reads bundles, records
    {
      bundles.Valid() && records.Valid() && bundles as object != records
    }

    constructor (minRank: int, ttl: int, checkCompliance: bool)
      ensures Valid() && fresh(bundles) && fresh(records) && this.checkCompliance == checkCompliance
      ensures this.minRank == minRank && visits == map[]
      ensures bundles.ttl == records.ttl == ttl && bundles.max == records.max == 64
    {
      bundles := new Cache(ttl, 64);
      records := new Cache(ttl, 64);
      this.minRank, this.checkCompliance, visits := minRank, checkCompliance, map[];
    }

    /** Only raises of sufficient severity from servers. */
    method Wants(event: Event) returns (wanted: bool)
      ensures wanted <==> event.action == Raise && Rank(event.severity) >= minRank && event.source == Server
    {
      if event.action != Raise || Rank(event.severity) < minRank {
        return false;
      }
      wanted := event.source == Server;
    }

    /**
     * The device's compliance record: a live cached one, or else what a lookup brings (None when it fails or there
     * is no record), which alone is remembered.
     */
    method ResolveCompliance(deviceId: Option<string>, now: real, lookup: Option<string>, later: real)
      returns (record: Option<string>, asked: bool)
      requires records.Valid() && records.seen <= now <= later
      modifies records
      ensures records.Valid()
      ensures LooksUp(old(records.puts), records.puts, records.ttl, records.max, deviceId, now, record, asked,
                      lookup, later)
    {
      if OrNone(deviceId).None? {
        return None, false;
      }
      record := records.Get(deviceId.value, now);
      asked := record.None?;
      if asked {
        record := lookup;
        if lookup.Some? {
          records.Put(deviceId.value, lookup.value, later);
        }
      }
    }

    /**
     * The bundle's advisories: live cached ones, or else what a fetch brings, which is remembered; None when the
     * server's bundle is unknown or out of reach.
     */
    method ResolveBundle(bundleRef: Option<string>, now: real, fetch: Option<Bundle>, later: real)
      returns (bundle: Option<Bundle>, asked: bool)
      requires bundles.Valid() && bundles.seen <= now <= later
      modifies bundles
      ensures bundles.Valid()
      ensures LooksUp(old(bundles.puts), bundles.puts, bundles.ttl, bundles.max, bundleRef, now, bundle, asked,
                      fetch, later)
    {
      if OrNone(bundleRef).None? {
        return None, false;
      }
      bundle := bundles.Get(bundleRef.value, now);
      asked := bundle.None?;
      if asked {
        bundle := fetch;
        if fetch.Some? {
          bundles.Put(bundleRef.value, fetch.value, later);
        }
      }
    }

    /**
     * Without a bundle the event stays as it is and no compliance is looked up; with one, its advisories and the
     * device's compliance record, where that is to be checked, are applied.
     */
    method Enrich(event: Event, q: Inquiry, matches: Matcher)
      returns (r: Event, bundle: Option<Bundle>, record: Option<string>, asked: bool, checked: bool)
      requires Valid() && q.Timely(bundles.seen, records.seen)
      modifies bundles, records
      ensures Valid()
      ensures r == if bundle.Some? then Apply(event, bundle.value, record, matches) else event
      ensures LooksUp(old(bundles.puts), bundles.puts, bundles.ttl, bundles.max, q.bundleRef, q.now, bundle, asked,
                      q.fetch, q.fetched)
      ensures if bundle.Some? && checkCompliance
              then LooksUp(old(records.puts), records.puts, records.ttl, records.max, q.deviceId, q.fetched, record,
                           checked, q.lookup, q.lookedUp)
              else record.None? && !checked && records.puts == old(records.puts)
    {
      record, checked := None, false;
      bundle, asked := ResolveBundle(q.bundleRef, q.now, q.fetch, q.fetched);
      if bundle.None? {
        r := event;
        return;
      }
      if checkCompliance {
        record, checked := ResolveCompliance(q.deviceId, q.fetched, q.lookup, q.lookedUp);
      }
      r := Apply(event, bundle.value, record, matches);
    }

    /** What the runner does with this stage and one event, at a moment of its own. */
    method Attend(ghost moment: Moment, event: Event, q: Inquiry, matches: Matcher)
      returns (
        ghost v: Visit, r: Event, bundle: Option<Bundle>, record: Option<string>, asked: bool, checked: bool)
      requires Valid() && q.Timely(bundles.seen, records.seen) && KeepProblems(visits) && moment !in visits
      modifies this`visits, bundles, records
      ensures Valid() && KeepProblems(visits) && visits == old(visits)[moment := v]
      ensures v.event == v.left == event && v.result == r
      ensures v.wanted <==> event.action == Raise && Rank(event.severity) >= minRank && event.source == Server
      ensures r == if v.wanted && bundle.Some? then Apply(event, bundle.value, record, matches) else event
      ensures if v.wanted
              then LooksUp(old(bundles.puts), bundles.puts, bundles.ttl, bundles.max, q.bundleRef, q.now, bundle,
                           asked, q.fetch, q.fetched)
              else !asked && bundles.puts == old(bundles.puts)
      ensures if v.wanted && bundle.Some? && checkCompliance
              then LooksUp(old(records.puts), records.puts, records.ttl, records.max, q.deviceId, q.fetched, record,
                           checked, q.lookup, q.lookedUp)
              else record.None? && !checked && records.puts == old(records.puts)
    {
      var wanted := Wants(event);
      r, bundle, record, asked, checked := event, None, None, false, false;
      if wanted {
        r, bundle, record, asked, checked := Enrich(event, q, matches);
      }
      v := Visit(event, wanted, event, r);
      OneMoreVisit(visits, moment, v);
      visits := visits[moment := v];
    }

    /** This stage as the functions it has been so far. */
    ghost function AsEnricher(): Enricher
      reads this
    {
      Replay("hpe_advisories", 10, visits)
    }
  }

  /** Everything the object ever did to events is one confined enricher's passes over them. */
  lemma AdviserIsConfined(adviser: Adviser)
    requires KeepProblems(adviser.visits)
    ensures Confined(adviser.AsEnricher())
    ensures forall at :: at in adviser.visits ==>
              var v := adviser.visits[at];
              Pass(adviser.AsEnricher(), at, v.event) == if v.wanted then v.result else v.left
  {
    ReplayIsConfined("hpe_advisories", 10, adviser.visits);
    forall at | at in adviser.visits
      ensures var v := adviser.visits[at];
        Pass(adviser.AsEnricher(), at, v.event) == if v.wanted then v.result else v.left
    {
      ReplayIsFaithful("hpe_advisories", 10, adviser.visits, at);
    }
  }
}
