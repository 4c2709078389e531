/** The AI analysis enricher: cache, then budget, then analyzer, then store. */
module IloAi {
  import opened Common
  import opened Events
  import opened Budget
  import opened Cache
  import opened Enrich

  /** The analyzer's answer, with its confidence and actions already coerced. */
  datatype Analysis = Analysis(
    summary: Option<string>, rootCause: Option<string>, confidence: Option<real>, actions: seq<string>)

  function Apply(event: Event, result: Analysis): (r: Event)
    ensures SameProblem(event, r) && r.mgmtUrl == event.mgmtUrl
    ensures r.analysisSummary == if result.summary == Some("") then None else result.summary
    ensures r.analysisRootCause == if result.rootCause == Some("") then None else result.rootCause
    ensures r.analysisConfidence == result.confidence && r.analysisActions == result.actions
    ensures r.advisoryReferences == event.advisoryReferences && r.advisoryEvidence == event.advisoryEvidence
  {
    event.(analysisSummary := OrNone(result.summary), analysisRootCause := OrNone(result.rootCause),
           analysisConfidence := result.confidence, analysisActions := result.actions)
  }

  predicate HasUrl(event: Event) {
    OrNone(event.mgmtUrl).Some?
  }

  /** What a COM API lookup of an alert's device came to. */
  datatype Lookup = Unconfigured | Failed | Found(ip: Option<string>)

  /** The address a look-up brings, if it brings any answer; the answer may be that there is none. */
  function Answer(lookup: Lookup): Option<Option<string>> {
    if lookup.Found? then Some(BmcUrl(lookup.ip)) else None
  }

  lemma AnswersAre(lookup: Lookup)
    ensures Answer(lookup) ==
      match lookup
      case Found(Some(ip)) => Some(if |ip| > 0 then Some("https://" + ip) else None)
      case Found(None) => Some(None)
      case _ => None
  {
  }

  /** History of one analyzer call: its problem, when the cache and the budget were asked, how many analyses
      had been stored by then, and whether it succeeded and so stored its own. */
  datatype Call = Call(key: string, lookedUp: real, at: real, puts: nat, stored: bool)

  /** The successful calls and what they stored. */
  ghost predicate Recorded(calls: seq<Call>, puts: seq<Entry<Analysis>>) {
    forall i :: 0 <= i < |calls| ==>
      && calls[i].puts <= |puts|
      && (calls[i].stored ==> calls[i].puts < |puts| && puts[calls[i].puts].key == calls[i].key)
  }

  /** After a successful call, the same problem waits out the ttl or `max` stored analyses. */
  ghost predicate Apart(calls: seq<Call>, puts: seq<Entry<Analysis>>, ttl: int, max: int)
    requires Recorded(calls, puts)
  {
    forall i, j :: 0 <= i < j < |calls| && calls[i].key == calls[j].key && calls[i].stored ==>
      calls[j].lookedUp - puts[calls[i].puts].at > ttl as real || calls[j].puts - calls[i].puts > max
  }

  lemma CallKeepsApart(calls: seq<Call>, puts: seq<Entry<Analysis>>, call: Call, ttl: int, max: int)
    requires Recorded(calls, puts) && Apart(calls, puts, ttl, max) && Increasing(puts)
    requires call.puts == |puts| && !call.stored && Missing(puts, call.key, ttl, max, call.lookedUp)
    ensures Recorded(calls + [call], puts) && Apart(calls + [call], puts, ttl, max)
  {
    forall i | 0 <= i < |calls| && calls[i].key == call.key && calls[i].stored
      ensures call.lookedUp - puts[calls[i].puts].at > ttl as real || call.puts - calls[i].puts > max
    {
      LastPutIsLast(puts, calls[i].puts);
      var last := LastPut(puts, call.key).value;
      assert puts[calls[i].puts].at <= puts[last].at;
    }
  }

  lemma StoreKeepsApart(
      calls: seq<Call>, puts: seq<Entry<Analysis>>, call: Call, at: real, value: Analysis, ttl: int, max: int)
    requires Recorded(calls + [call], puts) && Apart(calls + [call], puts, ttl, max)
    requires call.puts == |puts| && !call.stored
    ensures Recorded(calls + [call.(stored := true)], puts + [Entry(call.key, at, value)])
    ensures Apart(calls + [call.(stored := true)], puts + [Entry(call.key, at, value)], ttl, max)
  {
    var before, after := calls + [call], calls + [call.(stored := true)];
    assert forall i :: 0 <= i < |after| ==>
        after[i].key == before[i].key && after[i].puts == before[i].puts && after[i].lookedUp == before[i].lookedUp;
    assert forall i :: 0 <= i < |calls| ==> after[i] == before[i];
  }

  /** Successful calls stored their answers, and calls for one problem keep their distance. */
  ghost predicate Paced(calls: seq<Call>, puts: seq<Entry<Analysis>>, ttl: int, max: int) {
    Recorded(calls, puts) && (Increasing(puts) ==> Apart(calls, puts, ttl, max))
  }

  lemma FailureKeepsPaced(calls: seq<Call>, puts: seq<Entry<Analysis>>, call: Call, ttl: int, max: int)
    requires Paced(calls, puts, ttl, max) && call.puts == |puts| && !call.stored
    requires Increasing(puts) ==> Missing(puts, call.key, ttl, max, call.lookedUp)
    ensures Paced(calls + [call], puts, ttl, max)
  {
    if Increasing(puts) {
      CallKeepsApart(calls, puts, call, ttl, max);
    }
  }

  lemma SuccessKeepsPaced(
      calls: seq<Call>, puts: seq<Entry<Analysis>>, call: Call, at: real, value: Analysis, ttl: int, max: int)
    requires Paced(calls, puts, ttl, max) && call.puts == |puts| && call.stored
    requires Increasing(puts) ==> Missing(puts, call.key, ttl, max, call.lookedUp)
    ensures Paced(calls + [call], puts + [Entry(call.key, at, value)], ttl, max)
  {
    var puts' := puts + [Entry(call.key, at, value)];
    if Increasing(puts') {
      assert Increasing(puts) by {
        assert puts'[..|puts|] == puts;
      }
      CallKeepsApart(calls, puts, call.(stored := false), ttl, max);
      StoreKeepsApart(calls, puts, call.(stored := false), at, value, ttl, max);
      assert call.(stored := false).(stored := true) == call;
    }
  }

  function TimesOf(calls: seq<Call>): seq<real> {
    seq(|calls|, i requires 0 <= i < |calls| => calls[i].at)
  }

  /** What a call adds to the cache's history. */
  function StoredBy(call: Call, done: real, result: Option<Analysis>): seq<Entry<Analysis>> {
    if call.stored && result.Some? then [Entry(call.key, done, result.value)] else []
  }

  lemma CallKeepsPaced(
      calls: seq<Call>, puts: seq<Entry<Analysis>>, call: Call, done: real, result: Option<Analysis>,
      ttl: int, max: int)
    requires Paced(calls, puts, ttl, max) && call.puts == |puts| && (call.stored ==> result.Some?)
    requires Increasing(puts) ==> Missing(puts, call.key, ttl, max, call.lookedUp)
    ensures Paced(calls + [call], puts + StoredBy(call, done, result), ttl, max)
    ensures TimesOf(calls + [call]) == TimesOf(calls) + [call.at]
  {
    if call.stored {
      SuccessKeepsPaced(calls, puts, call, done, result.value, ttl, max);
    } else {
      FailureKeepsPaced(calls, puts, call, ttl, max);
      assert puts + [] == puts;
    }
  }

  function Applied(event: Event, found: Option<Analysis>): (r: Event)
    ensures SameProblem(event, r)
    ensures r == match found case None => event case Some(result) => Apply(event, result)
  {
    if found.Some? then Apply(event, found.value) else event
  }

  /** An alert that would be analysed if only it had an address. */
  predicate NeedsUrl(event: Event, minRank: int) {
    event.action == Raise && Rank(event.severity) >= minRank && !HasUrl(event) && event.source == Alert
  }

  /**
   * A live cached analysis is found without asking. Otherwise the analyzer is asked exactly when the budget allows,
   * and what it answers, if anything, is found.
   */
  ghost predicate Analyzes(
      puts: seq<Entry<Analysis>>, key: string, ttl: int, max: int, now: real, allowed: bool, result: Option<Analysis>,
      asked: bool, found: Option<Analysis>)
  {
    if !asked && found.Some? then IsLive(puts, key, found.value, ttl, now)
    else
      && (Increasing(puts) ==> Missing(puts, key, ttl, max, now))
      && asked == allowed && found == if asked then result else None
  }

  class Analyst {
    const minRank: int
    const cache: Cache<Analysis>
    const urls: Cache<Option<string>>
    const budget: Budget
    ghost var calls: seq<Call>
    ghost var visits: map<Moment, Visit>

    /** Every analyzer call was paid for, and calls for one problem keep their distance. */
    ghost predicate Valid()
      reads this`calls, cache, budget
    {
      && cache.Valid() && budget.Valid()
      && TimesOf(calls) == Granted(budget.perHour, budget.perDay, budget.calls)
      && Paced(calls, cache.puts, cache.ttl, cache.max)
    }

    constructor (minRank: int, ttl: int, urlTtl: int, perHour: int, perDay: int)
      ensures Valid() && urls.Valid() && cache as object != urls && fresh(cache) && fresh(urls) && fresh(budget)
      ensures this.minRank == minRank && calls == [] && visits == map[]
      ensures cache.ttl == ttl && urls.ttl == urlTtl && cache.max == urls.max == 512
      ensures budget.perHour == perHour && budget.perDay == perDay
    {
      this.minRank, calls, visits := minRank, [], map[];
      cache := new Cache(ttl, 512);
      urls := new Cache(urlTtl, 512);
      budget := new Budget(perHour, perDay);
    }

    /**
     * Only a raise of sufficient severity with an address to collect from is wanted. An alert without an address is
     * first given that of its device.
     */
    method Wants(event: Event, deviceId: Option<string>, now: real, lookup: Lookup, later: real)
      returns (r: Event, wanted: bool, found: Option<Option<string>>, looked: bool)
      requires urls.Valid() && urls.seen <= now <= later
      modifies urls
      ensures urls.Valid() && SameProblem(event, r)
      ensures wanted <==>
                event.action == Raise && Rank(event.severity) >= minRank && r.mgmtUrl !in {None, Some("")}
      ensures if && event.action == Raise && Rank(event.severity) >= minRank
                 && event.source == Alert && event.mgmtUrl in {None, Some("")} then
                && LooksUp(old(urls.puts), urls.puts, urls.ttl, urls.max, deviceId, now, found, looked, Answer(lookup),
                           later)
                && r == event.(mgmtUrl := found.GetOr(None))
              else r == event && !looked && urls.puts == old(urls.puts)
    {
      found, looked := None, false;
      if event.action != Raise || Rank(event.severity) < minRank {
        r, wanted := event, false;
        return;
      }
      r := event;
      if !HasUrl(event) && event.source == Alert {
        found, looked := Resolve(deviceId, now, lookup, later);
        r := event.(mgmtUrl := found.GetOr(None));
      }
      wanted := HasUrl(r);
    }

    /**
     * The management address of an alert's device. A live answer, even a negative one, is reused; the COM
     * API is consulted only when there is none, and only an answer from it is remembered.
     */
    method Resolve(deviceId: Option<string>, now: real, lookup: Lookup, later: real)
      returns (found: Option<Option<string>>, looked: bool)
      requires urls.Valid() && urls.seen <= now <= later
      modifies urls
      ensures urls.Valid()
      ensures LooksUp(old(urls.puts), urls.puts, urls.ttl, urls.max, deviceId, now, found, looked, Answer(lookup),
                      later)
    {
      if OrNone(deviceId).None? {
        return None, false;
      }
      var cached := urls.Get(deviceId.value, now);
      if cached.Some? {
        return cached, false;
      }
      if !lookup.Found? {
        return None, true;
      }
      found, looked := Some(BmcUrl(lookup.ip)), true;
      urls.Put(deviceId.value, BmcUrl(lookup.ip), later);
    }

    /**
     * Applies a live cached analysis; otherwise, if the budget allows, asks the analyzer once, and stores
     * and applies its answer. `result` is what the analyzer would answer, None when it would raise.
     */
    method Enrich(event: Event, lookedUp: real, at: real, result: Option<Analysis>, done: real)
      returns (r: Event, asked: bool, ghost found: Option<Analysis>)
      requires Valid() && cache.seen <= lookedUp <= done
      modifies this`calls, cache, budget
      ensures Valid() && r == Applied(event, found)
      ensures var call := Call(event.correlationKey, lookedUp, at, |old(cache.puts)|, result.Some? && cache.ttl > 0);
              && calls == old(calls) + (if asked then [call] else [])
              && cache.puts == old(cache.puts) + (if asked then StoredBy(call, done, result) else [])
      ensures Analyzes(old(cache.puts), event.correlationKey, cache.ttl, cache.max, lookedUp,
                       Allows(After(budget.perHour, budget.perDay, old(budget.calls)), at), result, asked, found)
    {
      var cached := cache.Get(event.correlationKey, lookedUp);
      if cached.Some? {
        return Apply(event, cached.value), false, cached;
      }
      r, asked := Analyze(event, lookedUp, at, result, done);
      found := if asked then result else None;
    }

    /** What follows a cache miss: budget, analyzer, store. */
    method Analyze(event: Event, ghost lookedUp: real, at: real, result: Option<Analysis>, done: real)
      returns (r: Event, asked: bool)
      requires Valid() && cache.seen <= done
      requires Increasing(cache.puts) ==> Missing(cache.puts, event.correlationKey, cache.ttl, cache.max, lookedUp)
      modifies this`calls, cache, budget
      ensures Valid()
      ensures asked <==> Allows(After(budget.perHour, budget.perDay, old(budget.calls)), at)
      ensures r == if asked && result.Some? then Apply(event, result.value) else event
      ensures var call := Call(event.correlationKey, lookedUp, at, |old(cache.puts)|, result.Some? && cache.ttl > 0);
              && calls == old(calls) + (if asked then [call] else [])
              && cache.puts == old(cache.puts) + (if asked then StoredBy(call, done, result) else [])
    {
      ghost var calls0, puts0 := calls, cache.puts;
      var granted := budget.Take(at);
      if !granted {
        return event, false;
      }
      ghost var call := Call(event.correlationKey, lookedUp, at, |puts0|, result.Some? && cache.ttl > 0);
      ghost var puts1 := puts0 + StoredBy(call, done, result);
      asked := true;
      if result.None? {
        r := event;
      } else {
        cache.Put(event.correlationKey, result.value, done);
        r := Apply(event, result.value);
      }
      assert cache.puts == puts1;
      CallKeepsPaced(calls0, puts0, call, done, result, cache.ttl, cache.max);
      calls := calls0 + [call];
    }

    /** wants() and, if it says so, enrich(). */
    method Serve(
        event: Event, deviceId: Option<string>, now: real, lookup: Lookup, later: real,
        lookedUp: real, at: real, result: Option<Analysis>, done: real)
      returns (
        left: Event, wanted: bool, address: Option<Option<string>>, looked: bool, r: Event, asked: bool,
        ghost found: Option<Analysis>)
      requires Valid() && urls.Valid() && urls.seen <= now <= later && cache.seen <= lookedUp <= done
      requires cache as object != urls
      modifies this`calls, cache, urls, budget
      ensures Valid() && urls.Valid() && SameProblem(event, left)
      ensures r == Applied(left, found)
      ensures wanted <==> event.action == Raise && Rank(event.severity) >= minRank && HasUrl(left)
      ensures left == if NeedsUrl(event, minRank) then event.(mgmtUrl := address.GetOr(None)) else event
      ensures if NeedsUrl(event, minRank)
              then LooksUp(old(urls.puts), urls.puts, urls.ttl, urls.max, deviceId, now, address, looked,
                           Answer(lookup), later)
              else !looked && urls.puts == old(urls.puts)
      ensures if wanted
              then Analyzes(old(cache.puts), event.correlationKey, cache.ttl, cache.max, lookedUp,
                            Allows(After(budget.perHour, budget.perDay, old(budget.calls)), at), result, asked, found)
              else !asked && found.None? && cache.puts == old(cache.puts)
      ensures var call := Call(event.correlationKey, lookedUp, at, |old(cache.puts)|, result.Some? && cache.ttl > 0);
              calls == old(calls) + if asked then [call] else []
    {
      left, wanted, address, looked := Wants(event, deviceId, now, lookup, later);
      found, asked, r := None, false, left;
      if wanted {
        r, asked, found := Enrich(left, lookedUp, at, result, done);
      }
    }

    /**
     * What the runner does with this stage and one event, at a moment of its own: wants() and, if the event is
     * wanted, enrich(). The other parameters are what the outside world makes of these calls.
     */
    method Attend(
        ghost moment: Moment, event: Event, deviceId: Option<string>, now: real, lookup: Lookup, later: real,
        lookedUp: real, at: real, result: Option<Analysis>, done: real)
      returns (
        ghost v: Visit, r: Event, address: Option<Option<string>>, looked: bool, asked: bool,
        ghost found: Option<Analysis>)
      requires Valid() && urls.Valid() && urls.seen <= now <= later && cache.seen <= lookedUp <= done
      requires cache as object != urls && KeepProblems(visits) && moment !in visits
      modifies this`calls, this`visits, cache, urls, budget
      ensures Valid() && urls.Valid() && KeepProblems(visits) && visits == old(visits)[moment := v]
      ensures v.event == event && v.result == r == Applied(v.left, found)
      ensures v.wanted <==> event.action == Raise && Rank(event.severity) >= minRank && HasUrl(v.left)
      ensures v.left == if NeedsUrl(event, minRank) then event.(mgmtUrl := address.GetOr(None)) else event
      ensures if NeedsUrl(event, minRank)
              then LooksUp(old(urls.puts), urls.puts, urls.ttl, urls.max, deviceId, now, address, looked,
                           Answer(lookup), later)
              else !looked && urls.puts == old(urls.puts)
      ensures if v.wanted
              then Analyzes(old(cache.puts), event.correlationKey, cache.ttl, cache.max, lookedUp,
                            Allows(After(budget.perHour, budget.perDay, old(budget.calls)), at), result, asked, found)
              else !asked && found.None? && cache.puts == old(cache.puts)
      ensures var call := Call(event.correlationKey, lookedUp, at, |old(cache.puts)|, result.Some? && cache.ttl > 0);
              calls == old(calls) + if asked then [call] else []
    {
      var left, wanted;
      left, wanted, address, looked, r, asked, found :=
        Serve(event, deviceId, now, lookup, later, lookedUp, at, result, done);
      v := Visit(event, wanted, left, r);
      OneMoreVisit(visits, moment, v);
      visits := visits[moment := v];
    }

    /** This stage as the functions it has been so far. */
    ghost function AsEnricher(): Enricher
      reads this
    {
      Replay("ilo_ai", 50, visits)
    }
  }

  /** Everything the object ever did to events is one confined enricher's passes over them. */
  lemma AnalystIsConfined(analyst: Analyst)
    requires KeepProblems(analyst.visits)
    ensures Confined(analyst.AsEnricher())
    ensures forall at :: at in analyst.visits ==>
              var v := analyst.visits[at];
              Pass(analyst.AsEnricher(), at, v.event) == if v.wanted then v.result else v.left
  {
    ReplayIsConfined("ilo_ai", 50, analyst.visits);
    forall at | at in analyst.visits
      ensures var v := analyst.visits[at];
        Pass(analyst.AsEnricher(), at, v.event) == if v.wanted then v.result else v.left
    {
      ReplayIsFaithful("ilo_ai", 50, analyst.visits, at);
    }
  }
}
