/** Fan-out of events to target adapters, with per-(event, adapter) de-duplication. */
module Deliver {
  import opened Common
  import opened Events
  import opened Dedup
  import opened Ledgers

  // --- One key's turn, as a composition of ledger steps ------------------------

  /** What happened when deliver() came to one key. */
  datatype Turn =
    | Skipped(at: int)
    | Failed(at: int, returnedAt: int)
    | Succeeded(at: int, returnedAt: int, markedAt: int)

  /** The turn can happen in this ledger: times run forward and it is a skip exactly when the key is suppressed. */
  predicate Playable(ttl: int, l: Ledger, key: Key, t: Turn) {
    && l.call.Between?
    && l.now <= t.at
    && (t.Skipped? <==> Suppresses(ttl, l.seen, key, t.at))
    && (t.Failed? ==> t.at <= t.returnedAt)
    && (t.Succeeded? ==> t.at <= t.returnedAt <= t.markedAt)
  }

  /** The ledger after the turn. */
  function Play(ttl: int, l: Ledger, key: Key, t: Turn): Ledger {
    var seen := AfterLookup(ttl, l.seen, t.at);
    match t
    case Skipped(at) => l.(now := at, seen := seen)
    case Failed(at, r) => l.(now := r, seen := seen, log := l.log + [Attempt(key, at, r, false, None)])
    case Succeeded(at, r, m) =>
      l.(now := m, seen := AfterMark(ttl, seen, key, m),
         log := l.log + [Attempt(key, at, r, true, if ttl > 0 then Some(m) else None)])
  }

  /** The atomic steps a turn consists of. */
  function StepsOf(l: Ledger, key: Key, t: Turn): seq<Step>
    requires l.now <= t.at
    requires t.Failed? ==> t.at <= t.returnedAt
    requires t.Succeeded? ==> t.at <= t.returnedAt <= t.markedAt
  {
    [Tick(t.at - l.now), Check(key)] +
    match t
    case Skipped(_) => []
    case Failed(at, r) => [Tick(r - at), Return(false)]
    case Succeeded(at, r, m) => [Tick(r - at), Return(true), Tick(m - r), Mark]
  }

  /** Runs a list of ledger steps; None when one of them is not enabled. */
  function RunSteps(ttl: int, l: Ledger, steps: seq<Step>): Option<Ledger>
    decreases |steps|
  {
    if steps == [] then Some(l)
    else if !Enabled(l, steps[0]) then None
    else RunSteps(ttl, Next(ttl, l, steps[0]), steps[1..])
  }

  lemma {:induction false} RunKeepsInv(ttl: int, l: Ledger, steps: seq<Step>)
    requires Inv(ttl, l)
    ensures RunSteps(ttl, l, steps).Some? ==> Inv(ttl, RunSteps(ttl, l, steps).value)
    decreases |steps|
  {
    if steps != [] && Enabled(l, steps[0]) {
      StepKeepsInv(ttl, l, steps[0]);
      RunKeepsInv(ttl, Next(ttl, l, steps[0]), steps[1..]);
    }
  }

  lemma MarkedLast(ttl: int, l: Ledger, key: Key, at: int, r: int, m: int)
    requires l.call == Sending(key, at) && l.now <= r <= m
    ensures Next(ttl, Next(ttl, l.(now := r), Return(true)).(now := m), Mark)
         == l.(now := m, call := Between,
               seen := AfterMark(ttl, l.seen, key, m),
               log := l.log + [Attempt(key, at, r, true, if ttl > 0 then Some(m) else None)])
  {
    var a := Attempt(key, at, r, true, None);
    assert (l.log + [a])[|l.log| := a.(markedAt := Some(m))] == l.log + [a.(markedAt := Some(m))];
  }

  lemma {:induction false} RunFirst(ttl: int, l: Ledger, first: Step, rest: seq<Step>)
    requires Enabled(l, first)
    ensures RunSteps(ttl, l, [first] + rest) == RunSteps(ttl, Next(ttl, l, first), rest)
  {
    assert ([first] + rest)[1..] == rest;
  }

  /** A turn is exactly its atomic steps, run one after another. */
  lemma TurnIsSteps(ttl: int, l: Ledger, key: Key, t: Turn)
    requires Playable(ttl, l, key, t)
    ensures RunSteps(ttl, l, StepsOf(l, key, t)) == Some(Play(ttl, l, key, t))
  {
    var l0 := Next(ttl, l, Tick(t.at - l.now));
    var l1 := Next(ttl, l0, Check(key));
    var rest := StepsOf(l, key, t)[2..];
    assert StepsOf(l, key, t) == [Tick(t.at - l.now)] + ([Check(key)] + rest);
    RunFirst(ttl, l, Tick(t.at - l.now), [Check(key)] + rest);
    RunFirst(ttl, l0, Check(key), rest);
    match t
    case Skipped(_) =>
    case Failed(at, r) =>
      assert rest == [Tick(r - at)] + ([Return(false)] + []);
      RunFirst(ttl, l1, Tick(r - at), [Return(false)] + []);
      RunFirst(ttl, l1.(now := r), Return(false), []);
    case Succeeded(at, r, m) =>
      SucceededIsSteps(ttl, l1, key, at, r, m);
  }

  lemma SucceededIsSteps(ttl: int, l: Ledger, key: Key, at: int, r: int, m: int)
    requires l.call == Sending(key, at) && l.now == at <= r <= m
    ensures RunSteps(ttl, l, [Tick(r - at), Return(true), Tick(m - r), Mark])
         == Some(Next(ttl, Next(ttl, l.(now := r), Return(true)).(now := m), Mark))
    ensures Next(ttl, Next(ttl, l.(now := r), Return(true)).(now := m), Mark)
         == l.(now := m, call := Between,
               seen := AfterMark(ttl, l.seen, key, m),
               log := l.log + [Attempt(key, at, r, true, if ttl > 0 then Some(m) else None)])
  {
    var l2 := l.(now := r);
    var l3 := Next(ttl, l2, Return(true));
    var l4 := l3.(now := m);
    RunFirst(ttl, l, Tick(r - at), [Return(true), Tick(m - r), Mark]);
    RunFirst(ttl, l2, Return(true), [Tick(m - r), Mark]);
    RunFirst(ttl, l3, Tick(m - r), [Mark]);
    RunFirst(ttl, l4, Mark, []);
    MarkedLast(ttl, l, key, at, r, m);
    assert [Tick(r - at), Return(true), Tick(m - r), Mark] == [Tick(r - at)] + [Return(true), Tick(m - r), Mark];
    assert [Return(true), Tick(m - r), Mark] == [Return(true)] + [Tick(m - r), Mark];
    assert [Tick(m - r), Mark] == [Tick(m - r)] + [Mark] && [Mark] == [Mark] + [];
  }

  lemma PlayKeepsInv(ttl: int, l: Ledger, key: Key, t: Turn)
    requires Inv(ttl, l) && Playable(ttl, l, key, t)
    ensures Inv(ttl, Play(ttl, l, key, t))
  {
    TurnIsSteps(ttl, l, key, t);
    RunKeepsInv(ttl, l, StepsOf(l, key, t));
  }

  // --- A list of keys, one turn each -------------------------------------------

  function PlayAll(ttl: int, l: Ledger, keys: seq<Key>, turns: seq<Turn>): Ledger
    requires |keys| == |turns|
  {
    if keys == [] then l else
      var n := |keys| - 1;
      Play(ttl, PlayAll(ttl, l, keys[..n], turns[..n]), keys[n], turns[n])
  }

  /** The turns can happen one after another, each in the ledger the ones before it leave. */
  predicate AllPlayable(ttl: int, l: Ledger, keys: seq<Key>, turns: seq<Turn>) {
    && |keys| == |turns|
    && l.call.Between?
    && (keys == [] ||
          var n := |keys| - 1;
          AllPlayable(ttl, l, keys[..n], turns[..n])
          && Playable(ttl, PlayAll(ttl, l, keys[..n], turns[..n]), keys[n], turns[n]))
  }

  lemma PlayOneMore(ttl: int, l: Ledger, keys: seq<Key>, turns: seq<Turn>, key: Key, t: Turn)
    requires AllPlayable(ttl, l, keys, turns)
    requires Playable(ttl, PlayAll(ttl, l, keys, turns), key, t)
    ensures AllPlayable(ttl, l, keys + [key], turns + [t])
    ensures PlayAll(ttl, l, keys + [key], turns + [t]) == Play(ttl, PlayAll(ttl, l, keys, turns), key, t)
  {
    assert (keys + [key])[..|keys|] == keys && (turns + [t])[..|turns|] == turns;
  }

  lemma SnocSplit<T>(xs: seq<T>, ys: seq<T>)
    requires ys != []
    ensures xs + ys == xs + ys[..|ys| - 1] + [ys[|ys| - 1]]
  {
  }

  lemma {:induction false} PlayAppend(ttl: int, l: Ledger, ks: seq<Key>, ts: seq<Turn>, ks': seq<Key>, ts': seq<Turn>)
    requires AllPlayable(ttl, l, ks, ts)
    requires AllPlayable(ttl, PlayAll(ttl, l, ks, ts), ks', ts')
    ensures AllPlayable(ttl, l, ks + ks', ts + ts')
    ensures PlayAll(ttl, l, ks + ks', ts + ts') == PlayAll(ttl, PlayAll(ttl, l, ks, ts), ks', ts')
    decreases |ks'|
  {
    if ks' == [] {
      assert ks + ks' == ks && ts + ts' == ts;
    } else {
      var n := |ks'| - 1;
      PrefixPlayable(ttl, PlayAll(ttl, l, ks, ts), ks', ts', n);
      PlayAppend(ttl, l, ks, ts, ks'[..n], ts'[..n]);
      SnocSplit(ks, ks');
      SnocSplit(ts, ts');
      PlayOneMore(ttl, l, ks + ks'[..n], ts + ts'[..n], ks'[n], ts'[n]);
    }
  }

  lemma {:induction false} PrefixPlayable(ttl: int, l: Ledger, keys: seq<Key>, turns: seq<Turn>, n: nat)
    requires AllPlayable(ttl, l, keys, turns) && n <= |keys|
    ensures AllPlayable(ttl, l, keys[..n], turns[..n])
    decreases |keys|
  {
    if n == |keys| {
      assert keys[..n] == keys && turns[..n] == turns;
    } else {
      var m := |keys| - 1;
      PrefixPlayable(ttl, l, keys[..m], turns[..m], n);
      assert keys[..m][..n] == keys[..n] && turns[..m][..n] == turns[..n];
    }
  }

  /** Turn i happens in the ledger the first i turns leave, and moves it on. */
  lemma TurnIsPlayable(ttl: int, l: Ledger, keys: seq<Key>, turns: seq<Turn>, i: nat)
    requires AllPlayable(ttl, l, keys, turns) && i < |keys|
    ensures Playable(ttl, PlayAll(ttl, l, keys[..i], turns[..i]), keys[i], turns[i])
    ensures PlayAll(ttl, l, keys[..i + 1], turns[..i + 1])
            == Play(ttl, PlayAll(ttl, l, keys[..i], turns[..i]), keys[i], turns[i])
  {
    PrefixPlayable(ttl, l, keys, turns, i + 1);
    assert keys[..i + 1][..i] == keys[..i] && turns[..i + 1][..i] == turns[..i];
  }

  lemma {:induction false} PlayAllKeeps(ttl: int, l: Ledger, keys: seq<Key>, turns: seq<Turn>)
    requires AllPlayable(ttl, l, keys, turns)
    ensures PlayAll(ttl, l, keys, turns).call.Between?
    ensures l.now <= PlayAll(ttl, l, keys, turns).now
    ensures Inv(ttl, l) ==> Inv(ttl, PlayAll(ttl, l, keys, turns))
  {
    if keys != [] {
      var n := |keys| - 1;
      PrefixPlayable(ttl, l, keys, turns, n);
      PlayAllKeeps(ttl, l, keys[..n], turns[..n]);
      if Inv(ttl, l) {
        PlayKeepsInv(ttl, PlayAll(ttl, l, keys[..n], turns[..n]), keys[n], turns[n]);
      }
    }
  }

  // --- The methods ---------------------------------------------------------------

  /** The keys deliver() visits, in order. */
  function EventKeys(event: Event, adapters: seq<string>): (keys: seq<Key>)
    ensures |keys| == |adapters|
    ensures forall i :: 0 <= i < |keys| ==> keys[i] == DeliveryKey(event, adapters[i])
  {
    seq(|adapters|, i requires 0 <= i < |adapters| => DeliveryKey(event, adapters[i]))
  }

  /** The keys deliver_events() visits: every adapter of the first event, then of the second, ... */
  function BatchKeys(events: seq<Event>, adapters: seq<string>): (keys: seq<Key>) {
    if events == [] then []
    else BatchKeys(events[..|events| - 1], adapters) + EventKeys(events[|events| - 1], adapters)
  }

  /** The adapter names along BatchKeys. */
  function BatchNames(n: nat, adapters: seq<string>): seq<string> {
    if n == 0 then [] else BatchNames(n - 1, adapters) + adapters
  }

  /** One share of the work: an event for a target. */
  datatype Share = Share(event: Event, adapter: string)

  function EventShares(event: Event, adapters: seq<string>): (shares: seq<Share>)
    ensures |shares| == |adapters|
    ensures forall i :: 0 <= i < |shares| ==> shares[i] == Share(event, adapters[i])
  {
    seq(|adapters|, i requires 0 <= i < |adapters| => Share(event, adapters[i]))
  }

  /** The shares along BatchKeys. */
  function BatchShares(events: seq<Event>, adapters: seq<string>): (shares: seq<Share>) {
    if events == [] then []
    else BatchShares(events[..|events| - 1], adapters) + EventShares(events[|events| - 1], adapters)
  }

  lemma {:induction false} BatchSize(events: seq<Event>, adapters: seq<string>)
    ensures |BatchShares(events, adapters)| == |events| * |adapters|
    ensures |BatchKeys(events, adapters)| == |events| * |adapters|
    ensures |BatchNames(|events|, adapters)| == |events| * |adapters|
  {
    if events != [] {
      BatchSize(events[..|events| - 1], adapters);
      Product(|events| - 1, |adapters|);
    }
  }

  lemma Product(n: nat, width: nat)
    ensures (n + 1) * width == n * width + width
  {
  }

  /** A batch has one share for each event and adapter: all of the first event's, then the second's, and so on. */
  lemma {:induction false} BatchInOrder(events: seq<Event>, adapters: seq<string>, e: nat, a: nat) returns (k: nat)
    requires e < |events| && a < |adapters|
    ensures k == e * |adapters| + a
    ensures k < |BatchShares(events, adapters)| == |BatchKeys(events, adapters)| == |BatchNames(|events|, adapters)|
    ensures BatchShares(events, adapters)[k] == Share(events[e], adapters[a])
    ensures BatchKeys(events, adapters)[k] == events[e].dedupKey + ":" + adapters[a]
    ensures BatchNames(|events|, adapters)[k] == adapters[a]
    decreases |events|
  {
    var n := |events| - 1;
    var before := events[..n];
    BatchSize(events, adapters);
    BatchSize(before, adapters);
    if e < n {
      k := BatchInOrder(before, adapters, e, a);
    } else {
      k := n * |adapters| + a;
      assert EventShares(events[n], adapters)[a] == Share(events[e], adapters[a]);
    }
  }

  /** History of one forward() call that returned: what was sent where, and whether it succeeded. */
  datatype Sent = Sent(event: Event, adapter: string, ok: bool)

  /** The forwards a turn consists of: none when it was skipped. */
  function SendsOf(share: Share, t: Turn): seq<Sent> {
    if t.Skipped? then [] else [Sent(share.event, share.adapter, t.Succeeded?)]
  }

  function Sends(shares: seq<Share>, turns: seq<Turn>): seq<Sent>
    requires |shares| == |turns|
  {
    if shares == [] then [] else
      var n := |shares| - 1;
      Sends(shares[..n], turns[..n]) + SendsOf(shares[n], turns[n])
  }

  lemma SendsSnoc(shares: seq<Share>, turns: seq<Turn>, share: Share, t: Turn)
    requires |shares| == |turns|
    ensures Sends(shares + [share], turns + [t]) == Sends(shares, turns) + SendsOf(share, t)
  {
    assert (shares + [share])[..|shares|] == shares && (turns + [t])[..|turns|] == turns;
  }

  lemma {:induction false} SendsAppend(ss: seq<Share>, ts: seq<Turn>, ss': seq<Share>, ts': seq<Turn>)
    requires |ss| == |ts| && |ss'| == |ts'|
    ensures Sends(ss + ss', ts + ts') == Sends(ss, ts) + Sends(ss', ts')
    decreases |ss'|
  {
    if ss' == [] {
      assert ss + ss' == ss && ts + ts' == ts;
    } else {
      var n := |ss'| - 1;
      SendsAppend(ss, ts, ss'[..n], ts'[..n]);
      SnocSplit(ss, ss');
      SnocSplit(ts, ts');
      SendsSnoc(ss + ss'[..n], ts + ts'[..n], ss'[n], ts'[n]);
    }
  }

  function NotSkipped(turns: seq<Turn>): seq<bool> {
    seq(|turns|, i requires 0 <= i < |turns| => !turns[i].Skipped?)
  }

  /** `sends[k]` is what share `which[k]` sent, with its own outcome. */
  ghost predicate AreSent(shares: seq<Share>, turns: seq<Turn>, which: seq<nat>, sends: seq<Sent>) {
    && |shares| == |turns| && |which| == |sends|
    && forall k :: 0 <= k < |which| ==>
         which[k] < |turns| && sends[k].event == shares[which[k]].event
         && sends[k].adapter == shares[which[k]].adapter && sends[k].ok == turns[which[k]].Succeeded?
  }

  lemma OneMoreIsSent(
      shares: seq<Share>, turns: seq<Turn>, which: seq<nat>, sends: seq<Sent>, share: Share, t: Turn)
    requires AreSent(shares, turns, which, sends)
    ensures AreSent(shares + [share], turns + [t], which + if t.Skipped? then [] else [|turns|],
                    sends + SendsOf(share, t))
  {
  }

  /** Exactly the shares whose turn was not skipped are sent, in order, each as it is and with its own outcome. */
  lemma {:induction false} SendsAreTheTurnsNotSkipped(shares: seq<Share>, turns: seq<Turn>)
    requires |shares| == |turns|
    ensures AreSent(shares, turns, Positions(NotSkipped(turns)), Sends(shares, turns))
  {
    if shares != [] {
      var n := |shares| - 1;
      SendsAreTheTurnsNotSkipped(shares[..n], turns[..n]);
      PositionsSnoc(NotSkipped(turns[..n]), !turns[n].Skipped?);
      assert NotSkipped(turns) == NotSkipped(turns[..n]) + [!turns[n].Skipped?];
      OneMoreIsSent(shares[..n], turns[..n], Positions(NotSkipped(turns[..n])), Sends(shares[..n], turns[..n]),
                    shares[n], turns[n]);
      assert shares == shares[..n] + [shares[n]] && turns == turns[..n] + [turns[n]];
    }
  }

  /** The names whose turn was a failed forward, in order: the contents of a PartialDeliveryError. */
  function FailedNames(names: seq<string>, turns: seq<Turn>): seq<string>
    requires |names| == |turns|
  {
    if names == [] then [] else
      var n := |names| - 1;
      FailedNames(names[..n], turns[..n]) + (if turns[n].Failed? then [names[n]] else [])
  }

  lemma FailedNamesOneMore(names: seq<string>, turns: seq<Turn>, name: string, t: Turn)
    requires |names| == |turns|
    ensures FailedNames(names + [name], turns + [t])
         == FailedNames(names, turns) + (if t.Failed? then [name] else [])
  {
    assert (names + [name])[..|names|] == names && (turns + [t])[..|turns|] == turns;
  }

  lemma {:induction false} FailedNamesAppend(ns: seq<string>, ts: seq<Turn>, ns': seq<string>, ts': seq<Turn>)
    requires |ns| == |ts| && |ns'| == |ts'|
    ensures FailedNames(ns + ns', ts + ts') == FailedNames(ns, ts) + FailedNames(ns', ts')
    decreases |ns'|
  {
    if ns' == [] {
      assert ns + ns' == ns && ts + ts' == ts;
    } else {
      var n := |ns'| - 1;
      FailedNamesAppend(ns, ts, ns'[..n], ts'[..n]);
      assert (ns + ns')[..|ns + ns'| - 1] == ns + ns'[..n];
      assert (ts + ts')[..|ts + ts'| - 1] == ts + ts'[..n];
    }
  }

  predicate NoneFailed(turns: seq<Turn>) {
    forall i :: 0 <= i < |turns| ==> !turns[i].Failed?
  }

  function Failures(turns: seq<Turn>): seq<bool> {
    seq(|turns|, i requires 0 <= i < |turns| => turns[i].Failed?)
  }

  ghost predicate AreNamed(names: seq<string>, which: seq<nat>, failed: seq<string>) {
    |which| == |failed| && forall k :: 0 <= k < |which| ==> which[k] < |names| && failed[k] == names[which[k]]
  }

  lemma OneMoreIsNamed(names: seq<string>, which: seq<nat>, failed: seq<string>, name: string)
    requires AreNamed(names, which, failed)
    ensures AreNamed(names + [name], which, failed)
    ensures AreNamed(names + [name], which + [|names|], failed + [name])
  {
  }

  /** The names raised are, in order, exactly those whose turn was a failed forward. */
  lemma {:induction false} FailedNamesAreTheFailedTurns(names: seq<string>, turns: seq<Turn>)
    requires |names| == |turns|
    ensures AreNamed(names, Positions(Failures(turns)), FailedNames(names, turns))
  {
    if names != [] {
      var n := |names| - 1;
      FailedNamesAreTheFailedTurns(names[..n], turns[..n]);
      PositionsSnoc(Failures(turns[..n]), turns[n].Failed?);
      assert Failures(turns) == Failures(turns[..n]) + [turns[n].Failed?];
      OneMoreIsNamed(names[..n], Positions(Failures(turns[..n])), FailedNames(names[..n], turns[..n]), names[n]);
      assert names == names[..n] + [names[n]];
    }
  }

  /** The error is raised exactly when some turn was a failed forward. */
  lemma {:induction false} NoFailedNames(names: seq<string>, turns: seq<Turn>)
    requires |names| == |turns|
    ensures FailedNames(names, turns) == [] <==> NoneFailed(turns)
  {
    if names != [] {
      NoFailedNames(names[..|names| - 1], turns[..|names| - 1]);
    }
  }

  /** Moving on from the first i adapters to the first i + 1. */
  lemma ExtendTo(ttl: int, l: Ledger, event: Event, adapters: seq<string>, i: nat, turns: seq<Turn>, t: Turn)
    requires i < |adapters| && |turns| == i
    requires AllPlayable(ttl, l, EventKeys(event, adapters[..i]), turns)
    requires Playable(ttl, PlayAll(ttl, l, EventKeys(event, adapters[..i]), turns),
                      DeliveryKey(event, adapters[i]), t)
    ensures AllPlayable(ttl, l, EventKeys(event, adapters[..i + 1]), turns + [t])
    ensures PlayAll(ttl, l, EventKeys(event, adapters[..i + 1]), turns + [t])
         == Play(ttl, PlayAll(ttl, l, EventKeys(event, adapters[..i]), turns), DeliveryKey(event, adapters[i]), t)
    ensures FailedNames(adapters[..i + 1], turns + [t])
         == FailedNames(adapters[..i], turns) + (if t.Failed? then [adapters[i]] else [])
  {
    assert adapters[..i + 1] == adapters[..i] + [adapters[i]];
    assert EventKeys(event, adapters[..i + 1]) == EventKeys(event, adapters[..i]) + [DeliveryKey(event, adapters[i])];
    PlayOneMore(ttl, l, EventKeys(event, adapters[..i]), turns, DeliveryKey(event, adapters[i]), t);
    FailedNamesOneMore(adapters[..i], turns, adapters[i], t);
  }

  /** What was sent, once adapter i has had its turn too. */
  lemma OneMoreSent(
      before: seq<Sent>, sent: seq<Sent>, event: Event, adapters: seq<string>, i: nat, turns: seq<Turn>, t: Turn)
    requires |turns| == i < |adapters| && sent == before + Sends(EventShares(event, adapters[..i]), turns)
    ensures sent + SendsOf(Share(event, adapters[i]), t)
         == before + Sends(EventShares(event, adapters[..i + 1]), turns + [t])
  {
    assert EventShares(event, adapters[..i + 1]) == EventShares(event, adapters[..i]) + [Share(event, adapters[i])];
    SendsSnoc(EventShares(event, adapters[..i]), turns, Share(event, adapters[i]), t);
  }

  lemma SharesOneMore(events: seq<Event>, adapters: seq<string>, i: nat)
    requires i < |events|
    ensures BatchShares(events[..i + 1], adapters)
         == BatchShares(events[..i], adapters) + EventShares(events[i], adapters)
  {
    assert events[..i + 1][..i] == events[..i];
  }

  /** What was sent, once event i has been delivered too. */
  lemma OneMoreEventSent(
      before: seq<Sent>, sent: seq<Sent>, events: seq<Event>, adapters: seq<string>, i: nat, turns: seq<Turn>,
      ts: seq<Turn>)
    requires i < |events| && |turns| == |BatchShares(events[..i], adapters)| && |ts| == |adapters|
    requires sent == before + Sends(BatchShares(events[..i], adapters), turns)
    ensures |turns + ts| == |BatchShares(events[..i + 1], adapters)|
    ensures sent + Sends(EventShares(events[i], adapters), ts)
         == before + Sends(BatchShares(events[..i + 1], adapters), turns + ts)
  {
    SharesOneMore(events, adapters, i);
    SendsAppend(BatchShares(events[..i], adapters), turns, EventShares(events[i], adapters), ts);
  }

  lemma BatchOneMore(events: seq<Event>, adapters: seq<string>, i: nat)
    requires i < |events|
    ensures BatchKeys(events[..i + 1], adapters) == BatchKeys(events[..i], adapters) + EventKeys(events[i], adapters)
    ensures BatchNames(i + 1, adapters) == BatchNames(i, adapters) + adapters
  {
    assert events[..i + 1][..i] == events[..i];
  }

  /** Moving on from the first i events to the first i + 1. */
  lemma ExtendBatch(
      ttl: int, l: Ledger, events: seq<Event>, adapters: seq<string>, i: nat, turns: seq<Turn>, ts: seq<Turn>)
    requires i < |events| && |turns| == |BatchNames(i, adapters)| && |ts| == |adapters|
    requires AllPlayable(ttl, l, BatchKeys(events[..i], adapters), turns)
    requires AllPlayable(ttl, PlayAll(ttl, l, BatchKeys(events[..i], adapters), turns),
                         EventKeys(events[i], adapters), ts)
    ensures AllPlayable(ttl, l, BatchKeys(events[..i + 1], adapters), turns + ts)
    ensures PlayAll(ttl, l, BatchKeys(events[..i + 1], adapters), turns + ts)
         == PlayAll(ttl, PlayAll(ttl, l, BatchKeys(events[..i], adapters), turns), EventKeys(events[i], adapters), ts)
    ensures |turns + ts| == |BatchNames(i + 1, adapters)|
    ensures FailedNames(BatchNames(i + 1, adapters), turns + ts)
         == FailedNames(BatchNames(i, adapters), turns) + FailedNames(adapters, ts)
  {
    BatchOneMore(events, adapters, i);
    PlayAppend(ttl, l, BatchKeys(events[..i], adapters), turns, EventKeys(events[i], adapters), ts);
    FailedNamesAppend(BatchNames(i, adapters), turns, adapters, ts);
  }

  /**
   * What the delivery code cannot see into: the clock, which never runs backwards, and the targets,
   * which take any time and succeed or fail at will. `ledger` is the history of the delivering thread, and
   * `sent` that of the targets.
   */
  class World {
    var now: int
    ghost var ledger: Ledger
    ghost var sent: seq<Sent>

    constructor (start: int)
      ensures now == start && ledger == Start(start) && sent == []
    {
      now := start;
      ledger, sent := Start(start), [];
    }

    method ReadClock() returns (t: int)
      requires ledger.now == now
      modifies this`now, this`ledger
      ensures t == now && old(now) <= now
      ensures ledger == old(ledger).(now := now)
    {
      var d: int :| d >= 0;
      now := now + d;
      ledger := Next(0, ledger, Tick(d));
      t := now;
    }

    /** adapter.forward(event): raises (ok == false) or returns. */
    method Forward(event: Event, adapter: string) returns (ok: bool)
      requires ledger.now == now && ledger.call.Sending? && ledger.call.key == DeliveryKey(event, adapter)
      modifies this
      ensures old(now) <= now
      ensures ledger == Next(0, old(ledger).(now := now), Return(ok))
      ensures sent == old(sent) + [Sent(event, adapter, ok)]
    {
      var d: int :| d >= 0;
      now := now + d;
      ok := *;
      ledger := Next(0, Next(0, ledger, Tick(d)), Return(ok));
      sent := sent + [Sent(event, adapter, ok)];
    }
  }

  ghost predicate Coupled(world: World, dedup: DedupStore)
    reads world, dedup
  {
    && world.ledger.now == world.now
    && world.ledger.seen == dedup.seen
    && world.ledger.call.Between?
    && Inv(dedup.ttl, world.ledger)
  }

  /** One adapter's share of deliver(): look the key up, forward, mark done only after success. */
  method DeliverTo(event: Event, adapter: string, dedup: DedupStore, world: World)
    returns (failed: bool, ghost turn: Turn)
    requires Coupled(world, dedup)
    modifies dedup, world
    ensures Coupled(world, dedup)
    ensures Playable(dedup.ttl, old(world.ledger), DeliveryKey(event, adapter), turn)
    ensures world.ledger == Play(dedup.ttl, old(world.ledger), DeliveryKey(event, adapter), turn)
    ensures world.sent == old(world.sent) + if turn.Skipped? then [] else [Sent(event, adapter, !failed)]
    ensures failed == turn.Failed?
  {
    var key := DeliveryKey(event, adapter);
    ghost var l := world.ledger;
    failed := false;

    var t := world.ReadClock();
    var done := dedup.AlreadyDone(key, t);
    world.ledger := Next(dedup.ttl, world.ledger, Check(key));
    if done {
      turn := Skipped(t);
    } else {
      ghost var sending := world.ledger;
      var ok := world.Forward(event, adapter);
      ghost var r := world.now;
      if !ok {
        turn := Failed(t, r);
        failed := true;
      } else {
        var m := world.ReadClock();
        dedup.MarkDone(key, m);
        world.ledger := Next(dedup.ttl, world.ledger, Mark);
        turn := Succeeded(t, r, m);
        MarkedLast(dedup.ttl, sending, key, t, r, m);
      }
    }
    PlayKeepsInv(dedup.ttl, l, key, turn);
  }

  /** Every adapter gets its turn whatever the others did; a non-empty result is the PartialDeliveryError. */
  method DeliverEvent(event: Event, adapters: seq<string>, dedup: DedupStore, world: World)
    returns (failures: seq<string>, ghost turns: seq<Turn>)
    requires Coupled(world, dedup)
    modifies dedup, world
    ensures Coupled(world, dedup)
    ensures AllPlayable(dedup.ttl, old(world.ledger), EventKeys(event, adapters), turns)
    ensures world.ledger == PlayAll(dedup.ttl, old(world.ledger), EventKeys(event, adapters), turns)
    ensures world.sent == old(world.sent) + Sends(EventShares(event, adapters), turns)
    ensures failures == FailedNames(adapters, turns)
  {
    failures, turns := [], [];
    ghost var l0, sent0 := world.ledger, world.sent;
    var i := 0;
    while i < |adapters|
      invariant 0 <= i <= |adapters| && |turns| == i
      invariant Coupled(world, dedup)
      invariant AllPlayable(dedup.ttl, l0, EventKeys(event, adapters[..i]), turns)
      invariant world.ledger == PlayAll(dedup.ttl, l0, EventKeys(event, adapters[..i]), turns)
      invariant world.sent == sent0 + Sends(EventShares(event, adapters[..i]), turns)
      invariant failures == FailedNames(adapters[..i], turns)
    {
      ghost var sent := world.sent;
      var failed; ghost var turn;
      failed, turn := DeliverTo(event, adapters[i], dedup, world);
      ExtendTo(dedup.ttl, l0, event, adapters, i, turns, turn);
      OneMoreSent(sent0, sent, event, adapters, i, turns, turn);
      if failed {
        failures := failures + [adapters[i]];
      }
      turns := turns + [turn];
      i := i + 1;
    }
    assert adapters[..i] == adapters;
  }

  /**
   * Delivers a batch. A failing event does not stop the next one; all failures are raised together.
   */
  method DeliverEvents(events: seq<Event>, adapters: seq<string>, dedup: DedupStore, world: World)
    returns (failures: seq<string>, ghost turns: seq<Turn>)
    requires Coupled(world, dedup)
    modifies dedup, world
    ensures Coupled(world, dedup)
    ensures AllPlayable(dedup.ttl, old(world.ledger), BatchKeys(events, adapters), turns)
    ensures world.ledger == PlayAll(dedup.ttl, old(world.ledger), BatchKeys(events, adapters), turns)
    ensures |turns| == |BatchNames(|events|, adapters)| == |BatchShares(events, adapters)|
    ensures world.sent == old(world.sent) + Sends(BatchShares(events, adapters), turns)
    ensures failures == FailedNames(BatchNames(|events|, adapters), turns)
  {
    failures, turns := [], [];
    ghost var l0, sent0 := world.ledger, world.sent;
    var i := 0;
    while i < |events|
      invariant 0 <= i <= |events|
      invariant Coupled(world, dedup)
      invariant |turns| == |BatchNames(i, adapters)| == |BatchShares(events[..i], adapters)|
      invariant AllPlayable(dedup.ttl, l0, BatchKeys(events[..i], adapters), turns)
      invariant world.ledger == PlayAll(dedup.ttl, l0, BatchKeys(events[..i], adapters), turns)
      invariant world.sent == sent0 + Sends(BatchShares(events[..i], adapters), turns)
      invariant failures == FailedNames(BatchNames(i, adapters), turns)
    {
      ghost var sent := world.sent;
      var fs; ghost var ts;
      fs, ts := DeliverEvent(events[i], adapters, dedup, world);
      ExtendBatch(dedup.ttl, l0, events, adapters, i, turns, ts);
      OneMoreEventSent(sent0, sent, events, adapters, i, turns, ts);
      failures := failures + fs;
      turns := turns + ts;
      i := i + 1;
    }
    assert events[..i] == events;
  }
}
