/** What a retried batch forwards: exactly the keys that have not succeeded yet. */
module Retry {
  import opened Common
  import opened Dedup
  import opened Ledgers
  import opened Deliver

  /** No mark the table already holds for these keys expires before `horizon`. */
  ghost predicate FreshUntil(ttl: int, seen: Table, keys: seq<Key>, horizon: int) {
    forall k :: k in keys && k in seen ==> seen[k] + ttl >= horizon
  }

  /** The whole call lies in one window: de-dup is on and nothing relevant expires before the call ends. */
  ghost predicate InWindow(ttl: int, l: Ledger, keys: seq<Key>, turns: seq<Turn>, horizon: int) {
    && ttl > 0
    && AllPlayable(ttl, l, keys, turns)
    && Distinct(keys)
    && PlayAll(ttl, l, keys, turns).now <= horizon <= l.now + ttl
    && FreshUntil(ttl, l.seen, keys, horizon)
  }

  /** The turns already played have settled their own keys; the rest of the batch is as it was. */
  ghost predicate Settled(l: Ledger, keys: seq<Key>, turns: seq<Turn>, i: nat, mid: Ledger, floor: int)
    requires |keys| == |turns| && i <= |keys|
  {
    && (forall j :: 0 <= j < i ==>
          && (turns[j].Skipped? <==> keys[j] in l.seen)
          && (keys[j] in mid.seen <==> keys[j] in l.seen || turns[j].Succeeded?)
          && (turns[j].Succeeded? ==> keys[j] in mid.seen && mid.seen[keys[j]] == turns[j].markedAt >= floor)
          && (keys[j] in l.seen ==> keys[j] in mid.seen && mid.seen[keys[j]] == l.seen[keys[j]]))
    && (forall j :: i <= j < |keys| ==>
          && (keys[j] in mid.seen <==> keys[j] in l.seen)
          && (keys[j] in l.seen ==> mid.seen[keys[j]] == l.seen[keys[j]]))
  }

  lemma {:induction false} TurnSettles(
      ttl: int, l: Ledger, keys: seq<Key>, turns: seq<Turn>, i: nat, mid: Ledger, horizon: int)
    requires ttl > 0 && |keys| == |turns| && i < |keys| && Distinct(keys)
    requires FreshUntil(ttl, l.seen, keys, horizon) && horizon <= l.now + ttl
    requires Settled(l, keys, turns, i, mid, l.now) && l.now <= mid.now
    requires Playable(ttl, mid, keys[i], turns[i])
    requires Play(ttl, mid, keys[i], turns[i]).now <= horizon
    ensures Settled(l, keys, turns, i + 1, Play(ttl, mid, keys[i], turns[i]), l.now)
  {
    var k, t := keys[i], turns[i];
    assert t.at <= horizon;
    assert t.Skipped? <==> k in l.seen by {
      assert k in mid.seen ==> mid.seen[k] + ttl >= horizon;
    }
    var after := AfterLookup(ttl, mid.seen, t.at);
    forall j | 0 <= j < |keys|
      ensures keys[j] in after <==> keys[j] in mid.seen
    {
      assert keys[j] in mid.seen ==> mid.seen[keys[j]] + ttl >= horizon;
    }
  }

  lemma TurnIsNext(ttl: int, l: Ledger, keys: seq<Key>, turns: seq<Turn>, i: nat)
    requires AllPlayable(ttl, l, keys, turns) && i < |keys|
    ensures Playable(ttl, PlayAll(ttl, l, keys[..i], turns[..i]), keys[i], turns[i])
    ensures PlayAll(ttl, l, keys[..i + 1], turns[..i + 1])
         == Play(ttl, PlayAll(ttl, l, keys[..i], turns[..i]), keys[i], turns[i])
    ensures l.now <= PlayAll(ttl, l, keys[..i], turns[..i]).now
    ensures PlayAll(ttl, l, keys[..i], turns[..i]).now <= PlayAll(ttl, l, keys[..i + 1], turns[..i + 1]).now
  {
    PrefixPlayable(ttl, l, keys, turns, i);
    PlayAllKeeps(ttl, l, keys[..i], turns[..i]);
    TurnIsPlayable(ttl, l, keys, turns, i);
  }

  lemma {:induction false} PrefixSettles(ttl: int, l: Ledger, keys: seq<Key>, turns: seq<Turn>, i: nat, horizon: int)
    requires InWindow(ttl, l, keys, turns, horizon) && i <= |keys|
    ensures Settled(l, keys, turns, i, PlayAll(ttl, l, keys[..i], turns[..i]), l.now)
    decreases i
  {
    if i > 0 {
      PrefixSettles(ttl, l, keys, turns, i - 1, horizon);
      TurnIsNext(ttl, l, keys, turns, i - 1);
      PrefixIsEarlier(ttl, l, keys, turns, i);
      TurnSettles(ttl, l, keys, turns, i - 1, PlayAll(ttl, l, keys[..i - 1], turns[..i - 1]), horizon);
    }
  }

  lemma {:induction false} PrefixIsEarlier(ttl: int, l: Ledger, keys: seq<Key>, turns: seq<Turn>, i: nat)
    requires AllPlayable(ttl, l, keys, turns) && i <= |keys|
    ensures PlayAll(ttl, l, keys[..i], turns[..i]).now <= PlayAll(ttl, l, keys, turns).now
    decreases |keys| - i
  {
    if i == |keys| {
      assert keys[..i] == keys && turns[..i] == turns;
    } else {
      TurnIsNext(ttl, l, keys, turns, i);
      PrefixIsEarlier(ttl, l, keys, turns, i + 1);
    }
  }

  /**
   * One call within the window: it forwards exactly the keys not yet done, afterwards a key is done iff
   * it was done before or its forward succeeded now, and the call returns normally iff every key is done.
   */
  lemma ForwardsTheComplement(ttl: int, l: Ledger, keys: seq<Key>, turns: seq<Turn>, horizon: int)
    requires InWindow(ttl, l, keys, turns, horizon)
    ensures var end := PlayAll(ttl, l, keys, turns);
      && (forall j :: 0 <= j < |keys| ==> (turns[j].Skipped? <==> keys[j] in l.seen))
      && (forall j :: 0 <= j < |keys| ==> (keys[j] in end.seen <==> keys[j] in l.seen || turns[j].Succeeded?))
      && FreshUntil(ttl, end.seen, keys, horizon)
      && ((forall j :: 0 <= j < |keys| ==> !turns[j].Failed?) <==> (forall k :: k in keys ==> k in end.seen))
  {
    PrefixSettles(ttl, l, keys, turns, |keys|, horizon);
    assert keys[..|keys|] == keys && turns[..|turns|] == turns;
    var end := PlayAll(ttl, l, keys, turns);
    assert Settled(l, keys, turns, |keys|, end, l.now);
    if forall k :: k in keys ==> k in end.seen {
      forall j | 0 <= j < |keys| ensures !turns[j].Failed? {
        assert keys[j] in keys;
      }
    }
  }

  /** The turns follow one verdict per key, whatever the order of the keys. */
  ghost predicate Follows(keys: seq<Key>, turns: seq<Turn>, up: Key -> bool)
    requires |keys| == |turns|
  {
    forall j :: 0 <= j < |keys| && !turns[j].Skipped? ==> (turns[j].Succeeded? <==> up(keys[j]))
  }

  /**
   * Two calls over the same keys in any two orders, with the same verdict for each key, leave the same keys
   * done: neither adapter order nor the fate of the other adapters matters.
   */
  lemma OrderDoesNotMatter(
      ttl: int, l: Ledger, keys: seq<Key>, turns: seq<Turn>, keys': seq<Key>, turns': seq<Turn>,
      up: Key -> bool, horizon: int, k: Key)
    requires InWindow(ttl, l, keys, turns, horizon) && InWindow(ttl, l, keys', turns', horizon)
    requires forall x :: x in keys <==> x in keys'
    requires Follows(keys, turns, up) && Follows(keys', turns', up)
    requires k in keys
    ensures k in PlayAll(ttl, l, keys, turns).seen <==> k in l.seen || up(k)
    ensures k in PlayAll(ttl, l, keys, turns).seen <==> k in PlayAll(ttl, l, keys', turns').seen
  {
    ForwardsTheComplement(ttl, l, keys, turns, horizon);
    ForwardsTheComplement(ttl, l, keys', turns', horizon);
    var i :| 0 <= i < |keys| && keys[i] == k;
    var j :| 0 <= j < |keys'| && keys'[j] == k;
  }

  // --- Any number of retries ------------------------------------------------------

  /** One call of deliver_events on the batch, and the ledger steps that follow it before the next call. */
  datatype Round = Round(before: Ledger, turns: seq<Turn>, between: seq<Step>)

  function EndOf(ttl: int, keys: seq<Key>, round: Round): Ledger
    requires |keys| == |round.turns|
  {
    PlayAll(ttl, round.before, keys, round.turns)
  }

  ghost predicate Chained(ttl: int, keys: seq<Key>, r: Round, next: Round)
    requires |keys| == |r.turns|
  {
    RunSteps(ttl, EndOf(ttl, keys, r), r.between) == Some(next.before)
  }

  /**
   * Consecutive calls on one batch that all end by the horizon, which is at most one window after the first.
   * Between two calls the ledger may take any steps: other rows, the same keys again, time, crashes.
   */
  ghost predicate Rounds(ttl: int, keys: seq<Key>, rounds: seq<Round>, horizon: int) {
    && ttl > 0 && Distinct(keys)
    && (rounds != [] ==> horizon <= rounds[0].before.now + ttl && FreshUntil(ttl, rounds[0].before.seen, keys, horizon))
    && (forall r :: 0 <= r < |rounds| ==>
          && AllPlayable(ttl, rounds[r].before, keys, rounds[r].turns)
          && EndOf(ttl, keys, rounds[r]).now <= horizon)
    && (forall r :: 0 <= r < |rounds| - 1 ==> Chained(ttl, keys, rounds[r], rounds[r + 1]))
  }

  /** Within the window no step takes a live row out of the table, and any mark it sets is live to the horizon. */
  lemma {:induction false} StepsKeepRows(ttl: int, l: Ledger, steps: seq<Step>, keys: seq<Key>, horizon: int)
    requires ttl > 0 && RunSteps(ttl, l, steps).Some? && RunSteps(ttl, l, steps).value.now <= horizon
    requires FreshUntil(ttl, l.seen, keys, horizon) && horizon <= l.now + ttl
    ensures var e := RunSteps(ttl, l, steps).value;
      && l.now <= e.now && FreshUntil(ttl, e.seen, keys, horizon)
      && (forall k :: k in keys && k in l.seen ==> k in e.seen)
    decreases |steps|
  {
    if steps != [] {
      var n := Next(ttl, l, steps[0]);
      StepsMoveOn(ttl, n, steps[1..]);
      assert FreshUntil(ttl, n.seen, keys, horizon);
      StepsKeepRows(ttl, n, steps[1..], keys, horizon);
    }
  }

  lemma {:induction false} StepsMoveOn(ttl: int, l: Ledger, steps: seq<Step>)
    requires RunSteps(ttl, l, steps).Some?
    ensures l.now <= RunSteps(ttl, l, steps).value.now
    decreases |steps|
  {
    if steps != [] {
      StepsMoveOn(ttl, Next(ttl, l, steps[0]), steps[1..]);
    }
  }

  /** One round and what follows it stay in the window, and lose none of the batch's rows. */
  lemma RoundStaysInWindow(ttl: int, keys: seq<Key>, r: Round, next: Round, horizon: int)
    requires InWindow(ttl, r.before, keys, r.turns, horizon) && Chained(ttl, keys, r, next)
    requires AllPlayable(ttl, next.before, keys, next.turns) && EndOf(ttl, keys, next).now <= horizon
    ensures InWindow(ttl, next.before, keys, next.turns, horizon)
    ensures forall k :: k in keys && k in EndOf(ttl, keys, r).seen ==> k in next.before.seen
  {
    ForwardsTheComplement(ttl, r.before, keys, r.turns, horizon);
    PlayAllKeeps(ttl, r.before, keys, r.turns);
    PlayAllKeeps(ttl, next.before, keys, next.turns);
    StepsKeepRows(ttl, EndOf(ttl, keys, r), r.between, keys, horizon);
  }

  lemma {:induction false} RoundsAreInWindow(ttl: int, keys: seq<Key>, rounds: seq<Round>, horizon: int, r: nat)
    requires Rounds(ttl, keys, rounds, horizon) && r < |rounds|
    ensures InWindow(ttl, rounds[r].before, keys, rounds[r].turns, horizon)
  {
    if r > 0 {
      RoundsAreInWindow(ttl, keys, rounds, horizon, r - 1);
      assert Chained(ttl, keys, rounds[r - 1], rounds[r - 1 + 1]);
      RoundStaysInWindow(ttl, keys, rounds[r - 1], rounds[r], horizon);
    }
  }

  /** Key j succeeded in round q, or was marked by someone else between that round and the next. */
  ghost predicate DoneIn(ttl: int, keys: seq<Key>, rounds: seq<Round>, q: nat, j: nat)
    requires q < |rounds| && j < |keys| == |rounds[q].turns|
  {
    || rounds[q].turns[j].Succeeded?
    || (q + 1 < |rounds| && keys[j] !in EndOf(ttl, keys, rounds[q]).seen && keys[j] in rounds[q + 1].before.seen)
  }

  /** Key j was done in one of the first r rounds. */
  ghost predicate DoneBefore(ttl: int, keys: seq<Key>, rounds: seq<Round>, r: nat, j: nat)
    requires r <= |rounds| && j < |keys|
    requires forall q :: 0 <= q < |rounds| ==> |rounds[q].turns| == |keys|
  {
    exists q :: 0 <= q < r && DoneIn(ttl, keys, rounds, q, j)
  }

  /** What round r finds done is what the round before it found done or got done. */
  lemma RoundHandsOver(ttl: int, keys: seq<Key>, rounds: seq<Round>, horizon: int, r: nat, j: nat)
    requires Rounds(ttl, keys, rounds, horizon) && 0 < r < |rounds| && j < |keys|
    ensures keys[j] in rounds[r].before.seen
       <==> keys[j] in rounds[r - 1].before.seen || DoneIn(ttl, keys, rounds, r - 1, j)
  {
    RoundsAreInWindow(ttl, keys, rounds, horizon, r - 1);
    assert Chained(ttl, keys, rounds[r - 1], rounds[r - 1 + 1]);
    RoundStaysInWindow(ttl, keys, rounds[r - 1], rounds[r], horizon);
    ForwardsTheComplement(ttl, rounds[r - 1].before, keys, rounds[r - 1].turns, horizon);
    assert keys[j] in keys;
  }

  lemma OneMoreRound(ttl: int, keys: seq<Key>, rounds: seq<Round>, r: nat, j: nat)
    requires 0 < r <= |rounds| && j < |keys|
    requires forall q :: 0 <= q < |rounds| ==> |rounds[q].turns| == |keys|
    ensures DoneBefore(ttl, keys, rounds, r, j)
       <==> DoneBefore(ttl, keys, rounds, r - 1, j) || DoneIn(ttl, keys, rounds, r - 1, j)
  {
  }

  /** Round r finds exactly the keys done that were done at the start or in an earlier round. */
  lemma {:induction false} DoneByRound(ttl: int, keys: seq<Key>, rounds: seq<Round>, horizon: int, r: nat, j: nat)
    requires Rounds(ttl, keys, rounds, horizon) && r < |rounds| && j < |keys|
    ensures keys[j] in rounds[r].before.seen
       <==> keys[j] in rounds[0].before.seen || DoneBefore(ttl, keys, rounds, r, j)
    decreases r
  {
    if r > 0 {
      OneMoreRound(ttl, keys, rounds, r, j);
      RoundHandsOver(ttl, keys, rounds, horizon, r, j);
      DoneByRound(ttl, keys, rounds, horizon, r - 1, j);
    }
  }

  lemma ForwardedIffMissing(ttl: int, keys: seq<Key>, rounds: seq<Round>, horizon: int, r: nat, j: nat)
    requires Rounds(ttl, keys, rounds, horizon) && r < |rounds| && j < |keys|
    ensures !rounds[r].turns[j].Skipped?
       <==> keys[j] !in rounds[0].before.seen && !DoneBefore(ttl, keys, rounds, r, j)
  {
    DoneByRound(ttl, keys, rounds, horizon, r, j);
    RoundsAreInWindow(ttl, keys, rounds, horizon, r);
    ForwardsTheComplement(ttl, rounds[r].before, keys, rounds[r].turns, horizon);
  }

  /** A key that succeeded is skipped in every later round. */
  lemma SuccessIsLasting(ttl: int, keys: seq<Key>, rounds: seq<Round>, horizon: int, q: nat, r: nat, j: nat)
    requires Rounds(ttl, keys, rounds, horizon) && q < r < |rounds| && j < |keys| && rounds[q].turns[j].Succeeded?
    ensures rounds[r].turns[j].Skipped?
  {
    ForwardedIffMissing(ttl, keys, rounds, horizon, r, j);
    assert DoneIn(ttl, keys, rounds, q, j);
  }

  /**
   * Across any number of retries within the window, whatever else the ledger did in between, a key is forwarded
   * in a round iff it was not done at the start and has neither succeeded nor been marked since; so no key
   * succeeds twice.
   */
  lemma RetriesForwardOnlyWhatIsMissing(
      ttl: int, keys: seq<Key>, rounds: seq<Round>, horizon: int, r: nat, j: nat)
    requires Rounds(ttl, keys, rounds, horizon) && r < |rounds| && j < |keys|
    ensures !rounds[r].turns[j].Skipped?
       <==> keys[j] !in rounds[0].before.seen && !DoneBefore(ttl, keys, rounds, r, j)
    ensures rounds[r].turns[j].Succeeded? ==> forall q :: r < q < |rounds| ==> rounds[q].turns[j].Skipped?
  {
    ForwardedIffMissing(ttl, keys, rounds, horizon, r, j);
    if rounds[r].turns[j].Succeeded? {
      forall q | r < q < |rounds|
        ensures rounds[q].turns[j].Skipped?
      {
        SuccessIsLasting(ttl, keys, rounds, horizon, r, q, j);
      }
    }
  }

  lemma FailedIffNotDone(ttl: int, keys: seq<Key>, rounds: seq<Round>, horizon: int, j: nat)
    requires Rounds(ttl, keys, rounds, horizon) && |rounds| > 0 && j < |keys|
    ensures rounds[|rounds| - 1].turns[j].Failed?
       <==> keys[j] !in rounds[0].before.seen && !DoneBefore(ttl, keys, rounds, |rounds|, j)
  {
    ForwardedIffMissing(ttl, keys, rounds, horizon, |rounds| - 1, j);
    OneMoreRound(ttl, keys, rounds, |rounds|, j);
  }

  /** The last call returns normally iff by then every key was done at the start or in some round. */
  lemma LastRoundReturnsIffAllDone(ttl: int, keys: seq<Key>, rounds: seq<Round>, horizon: int, names: seq<string>)
    requires Rounds(ttl, keys, rounds, horizon) && |rounds| > 0 && |names| == |keys|
    ensures FailedNames(names, rounds[|rounds| - 1].turns) == []
       <==> forall j :: 0 <= j < |keys| ==>
              keys[j] in rounds[0].before.seen || DoneBefore(ttl, keys, rounds, |rounds|, j)
  {
    var turns := rounds[|rounds| - 1].turns;
    NoFailedNames(names, turns);
    forall j | 0 <= j < |keys|
      ensures turns[j].Failed? <==> keys[j] !in rounds[0].before.seen && !DoneBefore(ttl, keys, rounds, |rounds|, j)
    {
      FailedIffNotDone(ttl, keys, rounds, horizon, j);
    }
  }

  /** With de-dup disabled nothing is ever skipped: every call forwards every key again. */
  lemma DisabledForwardsEverything(ttl: int, l: Ledger, keys: seq<Key>, turns: seq<Turn>)
    requires ttl <= 0 && AllPlayable(ttl, l, keys, turns)
    ensures forall j :: 0 <= j < |keys| ==> !turns[j].Skipped?
  {
    forall j | 0 <= j < |keys| ensures !turns[j].Skipped? {
      TurnIsPlayable(ttl, l, keys, turns, j);
    }
  }
}
