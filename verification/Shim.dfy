/** The relay's shim: drains a redelivering cloud queue through the same delivery code. */
module Shim {
  import opened Common
  import opened Events
  import opened Dedup
  import L = Ledgers
  import opened Deliver
  import opened Enrich

  type Body = seq<bv8>

  datatype Message = Message(id: nat, body: Body)

  datatype Settings = Settings(
    adapters: seq<string>,
    decodable: Body -> bool,
    normalize: (Body, int) -> Option<seq<Event>>,  // None: normalize() raised
    enrichers: seq<Enricher>)

  /** How one receipt of a message ended. */
  datatype Outcome =
    | Completed
    | DeadLettered
    | Abandoned(raised: bool, failures: seq<string>)
    | Died  // the process crashed while it held the message: no action at all

  /** History of one receipt. `base` and `upTo` delimit its log entries. */
  datatype Receipt = Receipt(
    msg: Message, outcome: Outcome, parsedAt: int, pass: nat, keys: seq<Key>, checks: seq<int>, base: nat, upTo: nat)

  /** The keys of a message parsed at a given time and enriched in a given pass; None when normalize() raises. */
  function KeysOf(cfg: Settings, body: Body, at: int, pass: nat): Option<seq<Key>> {
    match cfg.normalize(body, at)
    case None => None
    case Some(events) => Some(BatchKeys(EnrichAll(cfg.enrichers, pass, events), cfg.adapters))
  }

  // --- What a batch leaves behind in the log ------------------------------------------

  lemma {:induction false} LaterExtends(ttl: int, l: L.Ledger, keys: seq<Key>, turns: seq<Turn>, i: nat, n: nat)
    requires |keys| == |turns| && i <= n <= |keys|
    ensures L.Extends(PlayAll(ttl, l, keys[..i], turns[..i]).log, PlayAll(ttl, l, keys[..n], turns[..n]).log)
    decreases n
  {
    if i < n {
      LaterExtends(ttl, l, keys, turns, i, n - 1);
      assert keys[..n][..n - 1] == keys[..n - 1] && turns[..n][..n - 1] == turns[..n - 1];
    }
  }

  lemma PlayAllExtends(ttl: int, l: L.Ledger, keys: seq<Key>, turns: seq<Turn>)
    requires |keys| == |turns|
    ensures L.Extends(l.log, PlayAll(ttl, l, keys, turns).log)
  {
    LaterExtends(ttl, l, keys, turns, 0, |keys|);
    assert keys[..|keys|] == keys && turns[..|keys|] == turns;
  }

  lemma TurnHasEvidence(ttl: int, l: L.Ledger, base: nat, key: Key, t: Turn)
    requires L.Inv(ttl, l) && Playable(ttl, l, key, t) && !t.Failed? && base <= |l.log|
    ensures var n := Play(ttl, l, key, t); L.Evidence(ttl, n.log, base, |n.log|, key, t.at)
  {
    var n := Play(ttl, l, key, t);
    if t.Skipped? {
      L.TickKeepsInv(ttl, l, t.at - l.now);
      L.SuppressionIsEvidence(ttl, l.(now := t.at), base, key);
    } else {
      assert n.log[|l.log|].key == key && n.log[|l.log|].ok;
    }
  }

  /** A key whose turn was not a failure has evidence of delivery when the batch is over. */
  lemma {:induction false} TurnLeavesEvidence(ttl: int, l: L.Ledger, keys: seq<Key>, turns: seq<Turn>, i: nat)
    requires L.Inv(ttl, l) && AllPlayable(ttl, l, keys, turns) && i < |keys| && !turns[i].Failed?
    ensures var n := PlayAll(ttl, l, keys, turns); L.Evidence(ttl, n.log, |l.log|, |n.log|, keys[i], turns[i].at)
  {
    var mid := PlayAll(ttl, l, keys[..i], turns[..i]);
    PrefixPlayable(ttl, l, keys, turns, i);
    PlayAllKeeps(ttl, l, keys[..i], turns[..i]);
    PlayAllExtends(ttl, l, keys[..i], turns[..i]);
    TurnIsPlayable(ttl, l, keys, turns, i);
    TurnHasEvidence(ttl, mid, |l.log|, keys[i], turns[i]);
    var next := Play(ttl, mid, keys[i], turns[i]);
    LaterExtends(ttl, l, keys, turns, i + 1, |keys|);
    assert keys[..|keys|] == keys && turns[..|keys|] == turns;
    var n := PlayAll(ttl, l, keys, turns);
    L.EvidenceLasts(ttl, next.log, n.log, |l.log|, |next.log|, |n.log|, keys[i], turns[i].at);
  }

  /** A batch that raises nothing leaves evidence for each of its keys. */
  lemma CleanBatchHasEvidence(
      ttl: int, l: L.Ledger, keys: seq<Key>, names: seq<string>, turns: seq<Turn>, checks: seq<int>)
    requires L.Inv(ttl, l) && AllPlayable(ttl, l, keys, turns) && |names| == |turns|
    requires FailedNames(names, turns) == []
    requires |checks| == |turns| && forall i :: 0 <= i < |turns| ==> checks[i] == turns[i].at
    ensures var n := PlayAll(ttl, l, keys, turns);
      forall i :: 0 <= i < |keys| ==> L.Evidence(ttl, n.log, |l.log|, |n.log|, keys[i], checks[i])
  {
    NoFailedNames(names, turns);
    forall i | 0 <= i < |keys|
      ensures var n := PlayAll(ttl, l, keys, turns); L.Evidence(ttl, n.log, |l.log|, |n.log|, keys[i], checks[i])
    {
      TurnLeavesEvidence(ttl, l, keys, turns, i);
    }
  }

  /** How far deliver() got with a key when the process died. */
  datatype Fatal =
    | BeforeCheck                          // not even looked up
    | InForward                            // looked up and, unless suppressed, being forwarded
    | AfterForward(returnedAt: int, ok: bool)  // the forward returned, mark_done() not yet committed

  /** The ledger after the process died at this point of a key's turn, looked up at `at` if at all. */
  function Interrupted(ttl: int, l: L.Ledger, key: Key, at: int, fatal: Fatal): L.Ledger
    requires l.call.Between?
  {
    var here := l.(now := at);
    if fatal.BeforeCheck? then L.Next(ttl, here, L.Crash)
    else
      var checked := L.Next(ttl, here, L.Check(key));
      if fatal.AfterForward? && checked.call.Sending? then
        L.Next(ttl, L.Next(ttl, checked.(now := fatal.returnedAt), L.Return(fatal.ok)), L.Crash)
      else L.Next(ttl, checked, L.Crash)
  }

  /** The forward of the turn the process died in, if it returned. */
  function FatalSend(event: Event, adapter: string, fatal: Fatal): seq<Sent> {
    if fatal.AfterForward? then [Sent(event, adapter, fatal.ok)] else []
  }

  /** The shares before adapter `part` of event `whole`. */
  function SharesUntil(events: seq<Event>, adapters: seq<string>, whole: nat, part: nat): seq<Share>
    requires whole < |events| && part <= |adapters|
  {
    BatchShares(events[..whole], adapters) + EventShares(events[whole], adapters[..part])
  }

  lemma SentTwice(
      before: seq<Sent>, after: seq<Sent>, ss: seq<Share>, ts: seq<Turn>, ss': seq<Share>, ts': seq<Turn>)
    requires |ss| == |ts| && |ss'| == |ts'| && after == before + Sends(ss, ts) + Sends(ss', ts')
    ensures after == before + Sends(ss + ss', ts + ts')
  {
    SendsAppend(ss, ts, ss', ts');
  }

  lemma CrashAfterReturn(ttl: int, l: L.Ledger, returnedAt: int, ok: bool)
    requires L.Inv(ttl, l) && l.call.Sending? && l.now <= returnedAt
    ensures var n := L.Next(ttl, L.Next(ttl, l.(now := returnedAt), L.Return(ok)), L.Crash);
      L.Inv(ttl, n) && L.Extends(l.log, n.log) && n.call.Between?
  {
    L.TickKeepsInv(ttl, l, returnedAt - l.now);
    L.ReturnKeepsInv(ttl, l.(now := returnedAt), ok);
    L.CrashKeepsInv(ttl, L.Next(ttl, l.(now := returnedAt), L.Return(ok)));
  }

  lemma JustCrash(ttl: int, l: L.Ledger)
    requires L.Inv(ttl, l)
    ensures var n := L.Next(ttl, l, L.Crash); L.Inv(ttl, n) && n.log == l.log && n.call.Between?
  {
    L.CrashKeepsInv(ttl, l);
  }

  lemma InterruptedKeepsInv(ttl: int, l: L.Ledger, key: Key, at: int, fatal: Fatal)
    requires L.Inv(ttl, l) && l.call.Between? && l.now <= at && (fatal.AfterForward? ==> at <= fatal.returnedAt)
    ensures L.Inv(ttl, Interrupted(ttl, l, key, at, fatal))
    ensures L.Extends(l.log, Interrupted(ttl, l, key, at, fatal).log)
    ensures Interrupted(ttl, l, key, at, fatal).call.Between?
  {
    var here := l.(now := at);
    L.TickKeepsInv(ttl, l, at - l.now);
    var checked := L.Next(ttl, here, L.Check(key));
    if fatal.BeforeCheck? {
      JustCrash(ttl, here);
    } else if fatal.AfterForward? && checked.call.Sending? {
      L.CheckKeepsInv(ttl, here, key);
      CrashAfterReturn(ttl, checked, fatal.returnedAt, fatal.ok);
    } else {
      L.CheckKeepsInv(ttl, here, key);
      JustCrash(ttl, checked);
    }
  }

  lemma {:induction false} PartOfBatch(events: seq<Event>, adapters: seq<string>, whole: nat, part: nat)
    requires whole < |events| && part <= |adapters|
    ensures BatchKeys(events[..whole], adapters) + EventKeys(events[whole], adapters[..part])
            <= BatchKeys(events, adapters)
    decreases |events|
  {
    var n := |events| - 1;
    if whole == n {
      assert EventKeys(events[n], adapters[..part]) == EventKeys(events[n], adapters)[..part];
    } else {
      PartOfBatch(events[..n], adapters, whole, part);
      assert events[..n][..whole] == events[..whole];
    }
  }

  // --- The acknowledgement protocol ------------------------------------------------------

  /** The action fits the message: see each case. */
  ghost predicate Justified(cfg: Settings, ttl: int, log: seq<L.Attempt>, r: Receipt) {
    match r.outcome
    case DeadLettered => !cfg.decodable(r.msg.body)
    case Died => true
    case Abandoned(raised, failures) =>
      && cfg.decodable(r.msg.body)
      && (raised || failures != [])
      && (raised ==> KeysOf(cfg, r.msg.body, r.parsedAt, r.pass).None?)
    case Completed =>
      && cfg.decodable(r.msg.body)
      && KeysOf(cfg, r.msg.body, r.parsedAt, r.pass) == Some(r.keys)
      && |r.checks| == |r.keys|
      && forall i :: 0 <= i < |r.keys| ==> L.Evidence(ttl, log, r.base, r.upTo, r.keys[i], r.checks[i])
  }

  ghost predicate AllJustified(cfg: Settings, ttl: int, log: seq<L.Attempt>, receipts: seq<Receipt>) {
    forall i :: 0 <= i < |receipts| ==> receipts[i].upTo <= |log| && Justified(cfg, ttl, log, receipts[i])
  }

  predicate Leaves(o: Outcome) {
    o.Completed? || o.DeadLettered?
  }

  /** The messages that left the queue. */
  function Gone(receipts: seq<Receipt>): multiset<Message> {
    if receipts == [] then multiset{} else
      var n := |receipts| - 1;
      Gone(receipts[..n]) + (if Leaves(receipts[n].outcome) then multiset{receipts[n].msg} else multiset{})
  }

  lemma GoneSnoc(receipts: seq<Receipt>, r: Receipt)
    ensures Gone(receipts + [r]) == Gone(receipts) + (if Leaves(r.outcome) then multiset{r.msg} else multiset{})
  {
    assert (receipts + [r])[..|receipts|] == receipts;
  }

  lemma {:induction false} GoneHasReceipt(receipts: seq<Receipt>, m: Message) returns (i: nat)
    requires m in Gone(receipts)
    ensures i < |receipts| && receipts[i].msg == m && Leaves(receipts[i].outcome)
  {
    var n := |receipts| - 1;
    if m in Gone(receipts[..n]) {
      i := GoneHasReceipt(receipts[..n], m);
    } else {
      i := n;
    }
  }

  lemma JustificationsLast(
      cfg: Settings, ttl: int, log: seq<L.Attempt>, log': seq<L.Attempt>, receipts: seq<Receipt>)
    requires AllJustified(cfg, ttl, log, receipts) && L.Extends(log, log')
    ensures AllJustified(cfg, ttl, log', receipts)
  {
    forall i | 0 <= i < |receipts|
      ensures Justified(cfg, ttl, log', receipts[i])
    {
      var r := receipts[i];
      assert Justified(cfg, ttl, log, r);
      if r.outcome.Completed? {
        forall k | 0 <= k < |r.keys|
          ensures L.Evidence(ttl, log', r.base, r.upTo, r.keys[k], r.checks[k])
        {
          L.EvidenceLasts(ttl, log, log', r.base, r.upTo, r.upTo, r.keys[k], r.checks[k]);
        }
      }
    }
  }

  lemma OneMoreJustified(
      cfg: Settings, ttl: int, log: seq<L.Attempt>, log': seq<L.Attempt>, receipts: seq<Receipt>, r: Receipt)
    requires AllJustified(cfg, ttl, log, receipts) && L.Extends(log, log')
    requires r.upTo <= |log'| && Justified(cfg, ttl, log', r)
    ensures AllJustified(cfg, ttl, log', receipts + [r])
  {
    JustificationsLast(cfg, ttl, log, log', receipts);
  }

  /** The body gives events to deliver, and so uses up a number for its batch. */
  predicate Batches(cfg: Settings, body: Body, at: int) {
    cfg.decodable(body) && cfg.normalize(body, at).Some?
  }

  /**
   * What becomes of a decodable message read at `at`: abandoned when it cannot be normalised then; otherwise every
   * share of its enriched batch has its turn, in order, and it is completed exactly when no turn failed, or else
   * abandoned with the failed turns' targets. `l` and `l'` are the ledgers before and after.
   */
  ghost predicate Handles(
      cfg: Settings, ttl: int, body: Body, l: L.Ledger, l': L.Ledger, at: int, pass: nat, turns: seq<Turn>,
      sends: seq<Sent>, outcome: Outcome)
  {
    && l.now <= at
    && match cfg.normalize(body, at)
       case None => outcome == Abandoned(true, []) && l' == l.(now := at) && sends == []
       case Some(events) =>
         Delivers(cfg, ttl, EnrichAll(cfg.enrichers, pass, events), l.(now := at), l', turns, sends, outcome)
  }

  ghost predicate Delivers(
      cfg: Settings, ttl: int, batch: seq<Event>, l: L.Ledger, l': L.Ledger, turns: seq<Turn>, sends: seq<Sent>,
      outcome: Outcome)
  {
    && AllPlayable(ttl, l, BatchKeys(batch, cfg.adapters), turns)
    && l' == PlayAll(ttl, l, BatchKeys(batch, cfg.adapters), turns)
    && |BatchShares(batch, cfg.adapters)| == |BatchNames(|batch|, cfg.adapters)| == |turns|
    && sends == Sends(BatchShares(batch, cfg.adapters), turns)
    && outcome == if NoneFailed(turns) then Completed
                  else Abandoned(false, FailedNames(BatchNames(|batch|, cfg.adapters), turns))
  }

  /** A message arrives; or one is received, and the process may die over it, so far into its delivery. */
  datatype Happening = Arrives(msg: Message) | Receives(dies: bool, whole: nat, part: nat)

  function Arrivals(script: seq<Happening>): multiset<Message> {
    if script == [] then multiset{} else
      var n := |script| - 1;
      Arrivals(script[..n]) + if script[n].Arrives? then multiset{script[n].msg} else multiset{}
  }

  function Receipts(script: seq<Happening>): nat {
    if script == [] then 0 else
      var n := |script| - 1;
      Receipts(script[..n]) + if script[n].Receives? then 1 else 0
  }

  lemma OneMoreArrival(
      before: multiset<Message>, arrived: multiset<Message>, script: seq<Happening>, i: nat)
    requires i < |script| && arrived == before + Arrivals(script[..i])
    ensures arrived + (if script[i].Arrives? then multiset{script[i].msg} else multiset{})
         == before + Arrivals(script[..i + 1])
  {
    assert script[..i + 1][..i] == script[..i];
  }

  lemma OneMoreReceipt(script: seq<Happening>, i: nat)
    requires i < |script|
    ensures Receipts(script[..i + 1]) == Receipts(script[..i]) + if script[i].Receives? then 1 else 0
    ensures Receipts(script[..i + 1]) <= Receipts(script)
    decreases |script| - i
  {
    assert script[..i + 1][..i] == script[..i];
    if i + 1 < |script| {
      OneMoreReceipt(script, i + 1);
    } else {
      assert script[..i + 1] == script;
    }
  }

  class Shim {
    const cfg: Settings
    const dedup: DedupStore
    const world: World
    var passes: nat                       // numbers the enriched batches
    var queue: multiset<Message>          // what the broker would still deliver
    ghost var arrived: multiset<Message>  // everything the relay ever enqueued
    ghost var receipts: seq<Receipt>

    ghost predicate Valid()
      reads this, dedup, world
    {
      && Coupled(world, dedup)
      && arrived == queue + Gone(receipts)
      && AllJustified(cfg, dedup.ttl, world.ledger.log, receipts)
    }

    constructor (cfg: Settings, ttl: int, start: int)
      ensures Valid() && fresh(dedup) && fresh(world) && receipts == [] && this.cfg == cfg
    {
      this.cfg := cfg;
      dedup := new DedupStore(ttl);
      world := new World(start);
      passes, queue, arrived, receipts := 0, multiset{}, multiset{}, [];
      new;
      L.StartInv(ttl, start);
    }

    /** The relay enqueues a message. */
    method Enqueue(m: Message)
      requires Valid()
      modifies this`queue, this`arrived
      ensures Valid() && arrived == old(arrived) + multiset{m} && queue == old(queue) + multiset{m}
    {
      queue, arrived := queue + multiset{m}, arrived + multiset{m};
    }

    /** complete() and dead_letter() take one copy off the queue; abandon() and a crash leave it there. */
    method Settle(msg: Message, outcome: Outcome, ghost r: Receipt, ghost before: seq<L.Attempt>)
      requires Coupled(world, dedup) && arrived == queue + Gone(receipts) && msg in queue
      requires r.msg == msg && r.outcome == outcome
      requires AllJustified(cfg, dedup.ttl, before, receipts) && L.Extends(before, world.ledger.log)
      requires r.upTo <= |world.ledger.log| && Justified(cfg, dedup.ttl, world.ledger.log, r)
      modifies this`queue, this`receipts
      ensures Valid() && arrived == old(arrived) && receipts == old(receipts) + [r]
      ensures queue == if Leaves(outcome) then old(queue) - multiset{msg} else old(queue)
    {
      OneMoreJustified(cfg, dedup.ttl, before, world.ledger.log, receipts, r);
      GoneSnoc(receipts, r);
      receipts := receipts + [r];
      if Leaves(outcome) {
        queue := queue - multiset{msg};
      }
    }

    /** The loop body: exactly one terminal action for the received message. */
    method HandleMessage(msg: Message)
      returns (outcome: Outcome, ghost r: Receipt, ghost turns: seq<Turn>, ghost sends: seq<Sent>)
      requires Valid() && msg in queue
      modifies this, dedup, world
      ensures Valid() && arrived == old(arrived)
      ensures receipts == old(receipts) + [r] && r.msg == msg && r.outcome == outcome
      ensures !outcome.Died?
      ensures outcome.DeadLettered? <==> !cfg.decodable(msg.body)
      ensures outcome.DeadLettered? ==> world.ledger == old(world.ledger) && sends == []
      ensures cfg.decodable(msg.body) ==>
                Handles(cfg, dedup.ttl, msg.body, old(world.ledger), world.ledger, r.parsedAt,
                        old(passes), turns, sends, outcome)
      ensures passes == old(passes) + if Batches(cfg, msg.body, r.parsedAt) then 1 else 0
      ensures world.sent == old(world.sent) + sends
      ensures queue == if Leaves(outcome) then old(queue) - multiset{msg} else old(queue)
    {
      ghost var before := world.ledger.log;
      outcome, r, turns, sends := ParseAndDeliver(msg);
      Settle(msg, outcome, r, before);
    }

    /** What is to become of the message: dead-lettered, abandoned or completed. */
    method ParseAndDeliver(msg: Message)
      returns (outcome: Outcome, ghost r: Receipt, ghost turns: seq<Turn>, ghost sends: seq<Sent>)
      requires Coupled(world, dedup)
      modifies this`passes, dedup, world
      ensures Coupled(world, dedup) && L.Extends(old(world.ledger.log), world.ledger.log)
      ensures r.msg == msg && r.outcome == outcome && r.upTo <= |world.ledger.log|
      ensures Justified(cfg, dedup.ttl, world.ledger.log, r)
      ensures !outcome.Died? && (outcome.DeadLettered? <==> !cfg.decodable(msg.body))
      ensures outcome.DeadLettered? ==> world.ledger == old(world.ledger) && sends == []
      ensures cfg.decodable(msg.body) ==>
                Handles(cfg, dedup.ttl, msg.body, old(world.ledger), world.ledger, r.parsedAt,
                        old(passes), turns, sends, outcome)
      ensures passes == old(passes) + if Batches(cfg, msg.body, r.parsedAt) then 1 else 0
      ensures world.sent == old(world.sent) + sends
    {
      ghost var base := |world.ledger.log|;
      turns, sends := [], [];
      if !cfg.decodable(msg.body) {
        outcome := DeadLettered;
        r := Receipt(msg, outcome, world.now, 0, [], [], base, base);
        return;
      }
      var at := world.ReadClock();
      L.TickKeepsInv(dedup.ttl, old(world.ledger), at - old(world.now));
      var events := cfg.normalize(msg.body, at);
      if events.None? {
        outcome := Abandoned(true, []);
        r := Receipt(msg, outcome, at, 0, [], [], base, base);
        return;
      }
      var pass := passes;
      passes := passes + 1;
      ghost var keys; ghost var checks;
      outcome, keys, checks, turns, sends := EnrichAndDeliver(events.value, pass);
      r := Receipt(msg, outcome, at, pass, keys, checks, base, |world.ledger.log|);
    }

    method EnrichAndDeliver(events: seq<Event>, pass: nat)
      returns (
        outcome: Outcome, ghost keys: seq<Key>, ghost checks: seq<int>, ghost turns: seq<Turn>, ghost sends: seq<Sent>)
      requires Coupled(world, dedup)
      modifies dedup, world
      ensures Coupled(world, dedup) && L.Extends(old(world.ledger.log), world.ledger.log)
      ensures keys == BatchKeys(EnrichAll(cfg.enrichers, pass, events), cfg.adapters) && |checks| == |keys|
      ensures outcome.Completed? || (outcome.Abandoned? && !outcome.raised && outcome.failures != [])
      ensures outcome.Completed? ==> forall i :: 0 <= i < |keys| ==>
        L.Evidence(dedup.ttl, world.ledger.log, |old(world.ledger.log)|, |world.ledger.log|, keys[i], checks[i])
      ensures Delivers(cfg, dedup.ttl, EnrichAll(cfg.enrichers, pass, events), old(world.ledger), world.ledger, turns,
                       sends, outcome)
      ensures world.sent == old(world.sent) + sends
    {
      var batch := new Event[|events|](i requires 0 <= i < |events| => events[i]);
      assert batch[..] == events;
      EnrichEvents(batch, cfg.enrichers, pass);
      ghost var l0 := world.ledger;
      var failures;
      failures, turns := DeliverEvents(batch[..], cfg.adapters, dedup, world);
      ghost var names := BatchNames(|events|, cfg.adapters);
      keys := BatchKeys(EnrichAll(cfg.enrichers, pass, events), cfg.adapters);
      checks := seq(|turns|, i requires 0 <= i < |turns| => turns[i].at);
      sends := Sends(BatchShares(EnrichAll(cfg.enrichers, pass, events), cfg.adapters), turns);
      PlayAllExtends(dedup.ttl, l0, keys, turns);
      NoFailedNames(names, turns);
      if failures == [] {
        CleanBatchHasEvidence(dedup.ttl, l0, keys, names, turns, checks);
      }
      outcome := if failures == [] then Completed else Abandoned(false, failures);
    }

    /**
     * The process dies while it holds a message, at any point: before or while it is parsed and enriched, in the
     * turn of adapter `part` of event `whole`, or after the last turn. The de-dup table survives, the broker
     * keeps the message.
     */
    method Die(msg: Message, whole: nat, part: nat) returns (ghost r: Receipt)
      requires Valid() && msg in queue
      modifies this, dedup, world
      ensures Valid() && arrived == old(arrived) && queue == old(queue)
      ensures receipts == old(receipts) + [r] && r.msg == msg && r.outcome == Died
      ensures passes == old(passes) + if Batches(cfg, msg.body, r.parsedAt) then 1 else 0
    {
      ghost var before := world.ledger.log;
      var at := world.ReadClock();
      L.TickKeepsInv(dedup.ttl, old(world.ledger), at - old(world.now));
      var events := if cfg.decodable(msg.body) then cfg.normalize(msg.body, at) else None;
      if events.Some? {
        DeliverSome(EnrichAll(cfg.enrichers, passes, events.value), whole, part);
        passes := passes + 1;
      }
      r := Receipt(msg, Died, at, 0, [], [], |before|, |world.ledger.log|);
      Settle(msg, Died, r, before);
    }

    method DeliverSome(batch: seq<Event>, whole: nat, part: nat)
      requires Coupled(world, dedup)
      modifies dedup, world
      ensures Coupled(world, dedup) && L.Extends(old(world.ledger.log), world.ledger.log)
    {
      if whole < |batch| && part < |cfg.adapters| {
        ghost var keys, turns, died, fatal := DeliverUntil(batch, whole, part);
      } else {
        ghost var l := world.ledger;
        var failures; ghost var turns;
        failures, turns := DeliverEvents(batch, cfg.adapters, dedup, world);
        PlayAllExtends(dedup.ttl, l, BatchKeys(batch, cfg.adapters), turns);
      }
    }

    /**
     * deliver_events() up to the process's death: every adapter of the first `whole` events and the first `part`
     * adapters of the next have had their turns, the next adapter is in its own, wherever in it.
     */
    method DeliverUntil(events: seq<Event>, whole: nat, part: nat)
      returns (ghost keys: seq<Key>, ghost turns: seq<Turn>, ghost at: int, ghost fatal: Fatal)
      requires Coupled(world, dedup) && whole < |events| && part < |cfg.adapters|
      modifies dedup, world
      ensures Coupled(world, dedup) && L.Extends(old(world.ledger.log), world.ledger.log)
      ensures keys == BatchKeys(events[..whole], cfg.adapters) + EventKeys(events[whole], cfg.adapters[..part])
      ensures keys <= BatchKeys(events, cfg.adapters) && AllPlayable(dedup.ttl, old(world.ledger), keys, turns)
      ensures PlayAll(dedup.ttl, old(world.ledger), keys, turns).now <= at
      ensures world.ledger == Interrupted(dedup.ttl, PlayAll(dedup.ttl, old(world.ledger), keys, turns),
                                          DeliveryKey(events[whole], cfg.adapters[part]), at, fatal)
      ensures |SharesUntil(events, cfg.adapters, whole, part)| == |turns|
      ensures world.sent == old(world.sent) + Sends(SharesUntil(events, cfg.adapters, whole, part), turns)
                            + FatalSend(events[whole], cfg.adapters[part], fatal)
    {
      ghost var l := world.ledger;
      keys, turns := DeliverPart(events, whole, part);
      PartOfBatch(events, cfg.adapters, whole, part);
      PlayAllExtends(dedup.ttl, l, keys, turns);
      ghost var mid := world.ledger.log;
      at, fatal := DieInTurn(events[whole], cfg.adapters[part]);
      ExtendsTransitively(l.log, mid, world.ledger.log);
    }

    /** The turns before that. */
    method DeliverPart(events: seq<Event>, whole: nat, part: nat)
      returns (ghost keys: seq<Key>, ghost turns: seq<Turn>)
      requires Coupled(world, dedup) && whole < |events| && part < |cfg.adapters|
      modifies dedup, world
      ensures Coupled(world, dedup)
      ensures keys == BatchKeys(events[..whole], cfg.adapters) + EventKeys(events[whole], cfg.adapters[..part])
      ensures AllPlayable(dedup.ttl, old(world.ledger), keys, turns)
      ensures world.ledger == PlayAll(dedup.ttl, old(world.ledger), keys, turns)
      ensures |SharesUntil(events, cfg.adapters, whole, part)| == |turns|
      ensures world.sent == old(world.sent) + Sends(SharesUntil(events, cfg.adapters, whole, part), turns)
    {
      ghost var l, sent := world.ledger, world.sent;
      var failures; ghost var first; ghost var second;
      failures, first := DeliverEvents(events[..whole], cfg.adapters, dedup, world);
      failures, second := DeliverEvent(events[whole], cfg.adapters[..part], dedup, world);
      keys, turns := BatchKeys(events[..whole], cfg.adapters), first + second;
      PlayAppend(dedup.ttl, l, keys, first, EventKeys(events[whole], cfg.adapters[..part]), second);
      keys := keys + EventKeys(events[whole], cfg.adapters[..part]);
      SentTwice(sent, world.sent, BatchShares(events[..whole], cfg.adapters), first,
                EventShares(events[whole], cfg.adapters[..part]), second);
    }

    /** The process dies somewhere in one key's turn. */
    method DieInTurn(event: Event, adapter: string) returns (ghost at: int, ghost fatal: Fatal)
      requires Coupled(world, dedup)
      modifies dedup, world
      ensures Coupled(world, dedup) && L.Extends(old(world.ledger.log), world.ledger.log)
      ensures old(world.now) <= at
      ensures world.ledger == Interrupted(dedup.ttl, old(world.ledger), DeliveryKey(event, adapter), at, fatal)
      ensures world.sent == old(world.sent) + FatalSend(event, adapter, fatal)
    {
      ghost var l := world.ledger;
      ghost var key := DeliveryKey(event, adapter);
      var t := world.ReadClock();
      at, fatal := t, BeforeCheck;
      var checks: bool := *;
      if checks {
        var done := dedup.AlreadyDone(DeliveryKey(event, adapter), t);
        world.ledger := L.Next(dedup.ttl, world.ledger, L.Check(key));
        fatal := InForward;
        var comesBack: bool := *;
        if !done && comesBack {
          var ok := world.Forward(event, adapter);
          fatal := AfterForward(world.now, ok);
        }
      }
      world.ledger := L.Next(dedup.ttl, world.ledger, L.Crash);
      assert world.ledger == Interrupted(dedup.ttl, l, key, at, fatal);
      InterruptedKeepsInv(dedup.ttl, l, key, at, fatal);
    }

    /**
     * Any finite run: messages arrive, are received in any order and redelivered, and the process may die. While
     * there are messages, each receipt is one.
     */
    method Run(script: seq<Happening>)
      requires Valid()
      modifies this, dedup, world
      ensures Valid()
      ensures arrived == old(arrived) + Arrivals(script)
      ensures old(receipts) <= receipts && |receipts| <= |old(receipts)| + Receipts(script)
      ensures |old(queue)| >= Receipts(script) ==> |receipts| == |old(receipts)| + Receipts(script)
    {
      ghost var before, first, waiting := arrived, receipts, |queue|;
      var i := 0;
      while i < |script|
        invariant 0 <= i <= |script| && Valid() && Follows(script, i, before, first, waiting)
      {
        HappenNext(script, i, before, first, waiting);
        i := i + 1;
      }
      assert script[..i] == script;
    }

    /** What the first i happenings have led to. */
    ghost predicate Follows(
        script: seq<Happening>, i: nat, before: multiset<Message>, first: seq<Receipt>, waiting: nat)
      requires i <= |script|
      reads this
    {
      && arrived == before + Arrivals(script[..i])
      && first <= receipts && |receipts| <= |first| + Receipts(script[..i])
      && (waiting >= Receipts(script) ==>
            |receipts| == |first| + Receipts(script[..i]) && |queue| >= waiting - Receipts(script[..i]))
    }

    method HappenNext(
        script: seq<Happening>, i: nat, ghost before: multiset<Message>, ghost first: seq<Receipt>, ghost waiting: nat)
      requires Valid() && i < |script| && Follows(script, i, before, first, waiting)
      modifies this, dedup, world
      ensures Valid() && Follows(script, i + 1, before, first, waiting)
    {
      OneMoreArrival(before, arrived, script, i);
      OneMoreReceipt(script, i);
      Happen(script[i]);
    }

    method Happen(h: Happening)
      requires Valid()
      modifies this, dedup, world
      ensures Valid() && old(receipts) <= receipts
      ensures arrived == old(arrived) + if h.Arrives? then multiset{h.msg} else multiset{}
      ensures |receipts| == |old(receipts)| + if h.Receives? && |old(queue)| > 0 then 1 else 0
      ensures |queue| >= |old(queue)| - if h.Receives? then 1 else 0
    {
      match h {
        case Arrives(m) => Enqueue(m);
        case Receives(dies, whole, part) =>
          if |queue| > 0 {
            Receive(dies, whole, part);
          }
      }
    }

    /** The broker hands out one of its messages. */
    method Receive(dies: bool, whole: nat, part: nat)
      requires Valid() && |queue| > 0
      modifies this, dedup, world
      ensures Valid() && arrived == old(arrived) && old(receipts) <= receipts && |receipts| == |old(receipts)| + 1
      ensures |queue| >= |old(queue)| - 1
    {
      var msg :| msg in queue;
      if dies {
        ghost var r := Die(msg, whole, part);
      } else {
        var outcome; ghost var r; ghost var turns; ghost var sends;
        outcome, r, turns, sends := HandleMessage(msg);
      }
    }
  }

  lemma ExtendsTransitively(a: seq<L.Attempt>, b: seq<L.Attempt>, c: seq<L.Attempt>)
    requires L.Extends(a, b) && L.Extends(b, c)
    ensures L.Extends(a, c)
  {
  }

  /**
   * In every state a run can be in: a message that arrived is still on the queue, or some receipt of it was
   * completed with evidence for each (event, target) pair, or it was dead-lettered and is undecodable.
   */
  lemma NothingLeavesUndelivered(
      cfg: Settings, ttl: int, log: seq<L.Attempt>,
      queue: multiset<Message>, arrived: multiset<Message>, receipts: seq<Receipt>, m: Message)
    requires arrived == queue + Gone(receipts) && AllJustified(cfg, ttl, log, receipts) && m in arrived
    ensures m in queue
      || !cfg.decodable(m.body)
      || exists i :: 0 <= i < |receipts| && receipts[i].msg == m && receipts[i].outcome.Completed?
                     && Justified(cfg, ttl, log, receipts[i])
  {
    if m !in queue {
      var i := GoneHasReceipt(receipts, m);
      assert Justified(cfg, ttl, log, receipts[i]);
    }
  }
}
