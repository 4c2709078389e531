/** The fail-open enrichment stage between normalisation and delivery. */
module Enrich {
  import opened Events
  import opened Deliver

  /** What wants() did: the event it left behind, its answer, or that it raised. */
  datatype Verdict = Verdict(event: Event, wanted: bool, raised: bool)

  /** What enrich() did: the event it left behind, possibly half written before raising. */
  datatype Outcome = Outcome(event: Event, raised: bool)

  /** Which event of which batch, batches numbered as they come: no two calls of an enricher's method share it. */
  datatype Moment = Moment(pass: nat, event: nat)

  /**
   * One enrichment stage. As every call has its own moment, the two functions can be whatever an enricher with
   * caches, budgets and clocks of its own answered over a whole run.
   */
  datatype Enricher = Enricher(
    name: string,
    priority: int,
    wants: (Moment, Event) -> Verdict,
    enrich: (Moment, Event) -> Outcome)

  /** One enricher's pass over one event. A declined or raised call leaves whatever was written so far. */
  function Pass(enricher: Enricher, at: Moment, event: Event): Event {
    var v := enricher.wants(at, event);
    if v.raised || !v.wanted then v.event else enricher.enrich(at, v.event).event
  }

  function PassAll(enrichers: seq<Enricher>, at: Moment, event: Event): Event {
    if enrichers == [] then event
    else Pass(enrichers[|enrichers| - 1], at, PassAll(enrichers[..|enrichers| - 1], at, event))
  }

  function EnrichAll(enrichers: seq<Enricher>, pass: nat, events: seq<Event>): (r: seq<Event>)
    ensures |r| == |events|
    ensures forall i :: 0 <= i < |events| ==> r[i] == PassAll(enrichers, Moment(pass, i), events[i])
  {
    seq(|events|, i requires 0 <= i < |events| => PassAll(enrichers, Moment(pass, i), events[i]))
  }

  /** Runs every enricher over every event, in place. There is no way to raise. */
  method EnrichEvents(events: array<Event>, enrichers: seq<Enricher>, pass: nat)
    modifies events
    ensures events[..] == EnrichAll(enrichers, pass, old(events[..]))
  {
    if enrichers == [] {
      assert events[..] == EnrichAll(enrichers, pass, old(events[..]));
      return;
    }
    var i := 0;
    while i < events.Length
      invariant 0 <= i <= events.Length
      invariant forall k :: 0 <= k < i ==> events[k] == PassAll(enrichers, Moment(pass, k), old(events[k]))
      invariant forall k :: i <= k < events.Length ==> events[k] == old(events[k])
    {
      var j := 0;
      while j < |enrichers|
        invariant 0 <= j <= |enrichers|
        invariant forall k :: 0 <= k < i ==> events[k] == PassAll(enrichers, Moment(pass, k), old(events[k]))
        invariant forall k :: i < k < events.Length ==> events[k] == old(events[k])
        invariant events[i] == PassAll(enrichers[..j], Moment(pass, i), old(events[i]))
      {
        assert enrichers[..j + 1][..j] == enrichers[..j];
        var v := enrichers[j].wants(Moment(pass, i), events[i]);
        events[i] := v.event;
        if !v.raised && v.wanted {
          events[i] := enrichers[j].enrich(Moment(pass, i), events[i]).event;
        }
        j := j + 1;
      }
      assert enrichers[..j] == enrichers;
      i := i + 1;
    }
  }

  // --- Who acts when ------------------------------------------------------------

  lemma {:induction false} PassAllAppend(a: seq<Enricher>, b: seq<Enricher>, at: Moment, event: Event)
    ensures PassAll(a + b, at, event) == PassAll(b, at, PassAll(a, at, event))
    decreases |b|
  {
    if b == [] {
      assert a + b == a;
    } else {
      assert (a + b)[..|a + b| - 1] == a + b[..|b| - 1];
      PassAllAppend(a, b[..|b| - 1], at, event);
    }
  }

  /** Each enricher acts once, on what those listed before it left, and those listed after it on what it left. */
  lemma EarlierActFirst(enrichers: seq<Enricher>, at: Moment, event: Event, i: nat)
    requires i < |enrichers|
    ensures PassAll(enrichers, at, event)
         == PassAll(enrichers[i + 1..], at, Pass(enrichers[i], at, PassAll(enrichers[..i], at, event)))
  {
    assert enrichers == enrichers[..i + 1] + enrichers[i + 1..] && enrichers[..i + 1][..i] == enrichers[..i];
    PassAllAppend(enrichers[..i + 1], enrichers[i + 1..], at, event);
  }

  /** Where wants() declines or raises, enrich() has no say; elsewhere it has the last, even if it then raises. */
  lemma EnrichActsOnWantedOnly(a: Enricher, b: Enricher, at: Moment, event: Event)
    requires a.wants(at, event) == b.wants(at, event)
    ensures var v := a.wants(at, event);
            if v.wanted && !v.raised then Pass(a, at, event) == a.enrich(at, v.event).event
            else Pass(a, at, event) == Pass(b, at, event) == v.event
  {
  }

  // --- Enrichment cannot change what is delivered --------------------------------

  /** The enricher writes no more than the analysis, advisory and management-address fields. */
  ghost predicate Confined(enricher: Enricher) {
    && (forall at, e :: SameProblem(e, enricher.wants(at, e).event))
    && (forall at, e :: SameProblem(e, enricher.enrich(at, e).event))
  }

  ghost predicate AllConfined(enrichers: seq<Enricher>) {
    forall i :: 0 <= i < |enrichers| ==> Confined(enrichers[i])
  }

  lemma {:induction false} PassAllKeepsProblem(enrichers: seq<Enricher>, at: Moment, event: Event)
    requires AllConfined(enrichers)
    ensures SameProblem(event, PassAll(enrichers, at, event))
  {
    if enrichers != [] {
      var n := |enrichers| - 1;
      PassAllKeepsProblem(enrichers[..n], at, event);
      var e := PassAll(enrichers[..n], at, event);
      assert Confined(enrichers[n]);
      assert SameProblem(e, enrichers[n].wants(at, e).event);
      var e' := enrichers[n].wants(at, e).event;
      assert SameProblem(e', enrichers[n].enrich(at, e').event);
    }
  }

  /** The same events in the same order, each still the same problem, and so the same keys to deliver. */
  lemma {:induction false} EnrichmentKeepsKeys(
      enrichers: seq<Enricher>, pass: nat, events: seq<Event>, adapters: seq<string>)
    requires AllConfined(enrichers)
    ensures forall i :: 0 <= i < |events| ==> SameProblem(events[i], EnrichAll(enrichers, pass, events)[i])
    ensures BatchKeys(EnrichAll(enrichers, pass, events), adapters) == BatchKeys(events, adapters)
  {
    forall i | 0 <= i < |events|
      ensures SameProblem(events[i], EnrichAll(enrichers, pass, events)[i])
    {
      PassAllKeepsProblem(enrichers, Moment(pass, i), events[i]);
    }
    if events != [] {
      var n := |events| - 1;
      EnrichmentKeepsKeys(enrichers, pass, events[..n], adapters);
      var enriched := EnrichAll(enrichers, pass, events);
      assert enriched[..n] == EnrichAll(enrichers, pass, events[..n]);
      assert EventKeys(enriched[n], adapters) == EventKeys(events[n], adapters);
    }
  }

  // --- An enricher with a memory, as the functions it has been --------------------------------

  /** History of one call of wants(), and of enrich() if it was wanted: the event before, between and after. */
  datatype Visit = Visit(event: Event, wanted: bool, left: Event, result: Event)

  /** The functions a stage has been, given what it did at each moment; elsewhere it declines. */
  function Replay(name: string, priority: int, visits: map<Moment, Visit>): Enricher {
    Enricher(name, priority,
      (at: Moment, e: Event) =>
        if at in visits && visits[at].event == e then Verdict(visits[at].left, visits[at].wanted, false)
        else Verdict(e, false, false),
      (at: Moment, e: Event) =>
        if at in visits && visits[at].left == e then Outcome(visits[at].result, false) else Outcome(e, false))
  }

  /** No visit changed the problem. */
  ghost predicate KeepProblems(visits: map<Moment, Visit>) {
    forall at :: at in visits ==> KeepsProblem(visits[at])
  }

  predicate KeepsProblem(v: Visit) {
    SameProblem(v.event, v.left) && SameProblem(v.left, v.result)
  }

  lemma OneMoreVisit(visits: map<Moment, Visit>, at: Moment, v: Visit)
    requires KeepProblems(visits) && KeepsProblem(v)
    ensures KeepProblems(visits[at := v])
  {
  }

  lemma ReplayIsConfined(name: string, priority: int, visits: map<Moment, Visit>)
    requires KeepProblems(visits)
    ensures Confined(Replay(name, priority, visits))
  {
    var enricher := Replay(name, priority, visits);
    forall at: Moment, e: Event
      ensures SameProblem(e, enricher.wants(at, e).event)
    {
      assert enricher.wants(at, e).event == if at in visits && visits[at].event == e then visits[at].left else e;
    }
    forall at: Moment, e: Event
      ensures SameProblem(e, enricher.enrich(at, e).event)
    {
      assert enricher.enrich(at, e).event == if at in visits && visits[at].left == e then visits[at].result else e;
    }
  }

  /** At each of its moments the functions do to the event just what the stage did. */
  lemma ReplayIsFaithful(name: string, priority: int, visits: map<Moment, Visit>, at: Moment)
    requires at in visits
    ensures Pass(Replay(name, priority, visits), at, visits[at].event)
         == if visits[at].wanted then visits[at].result else visits[at].left
  {
    var v, enricher := visits[at], Replay(name, priority, visits);
    assert enricher.wants(at, v.event) == Verdict(v.left, v.wanted, false);
    assert enricher.enrich(at, v.left) == Outcome(v.result, false);
  }
}
