/**
 * The delivery ledger: one thread looking keys up in the de-dup table, forwarding and marking,
 * with time passing and crashes landing anywhere. Each lock region or target call is one step.
 *
 * `log` and `lost` are history; the program's durable state is `seen` alone.
 */
module Ledgers {
  import opened Common
  import opened Dedup

  /** A forward() call that returned: when its key was checked, when it returned, and when it was marked done. */
  datatype Attempt = Attempt(key: Key, checkedAt: int, returnedAt: int, ok: bool, markedAt: Option<int>)

  /** Where the delivering thread stands between two steps. */
  datatype Call =
    | Between
    | Sending(key: Key, checkedAt: int)  // inside forward()
    | Unmarked(key: Key)                 // forward() returned, mark_done() not yet committed

  datatype Ledger = Ledger(
    now: int,
    seen: Table,
    call: Call,
    log: seq<Attempt>,
    lost: multiset<Key>)  // successful forwards whose mark a crash prevented

  datatype Step =
    | Tick(d: nat)
    | Check(key: Key)
    | Return(ok: bool)
    | Mark
    | Crash

  function Start(now: int): Ledger {
    Ledger(now, map[], Between, [], multiset{})
  }

  predicate Enabled(l: Ledger, s: Step) {
    match s
    case Tick(_) => true
    case Check(_) => l.call.Between?
    case Return(_) => l.call.Sending?
    case Mark => l.call.Unmarked? && |l.log| > 0
    case Crash => true
  }

  function Next(ttl: int, l: Ledger, s: Step): Ledger
    requires Enabled(l, s)
  {
    match s
    case Tick(d) => l.(now := l.now + d)
    case Check(k) =>
      l.(seen := AfterLookup(ttl, l.seen, l.now),
         call := if Suppresses(ttl, l.seen, k, l.now) then Between else Sending(k, l.now))
    case Return(ok) =>
      l.(log := l.log + [Attempt(l.call.key, l.call.checkedAt, l.now, ok, None)],
         call := if ok then Unmarked(l.call.key) else Between)
    case Mark =>
      l.(seen := AfterMark(ttl, l.seen, l.call.key, l.now),
         call := Between,
         log := if ttl > 0 then l.log[|l.log| - 1 := l.log[|l.log| - 1].(markedAt := Some(l.now))] else l.log)
    case Crash =>
      l.(call := Between,
         lost := if l.call.Unmarked? then l.lost + multiset{l.call.key} else l.lost)
  }

  // --- What every step keeps ------------------------------------------------

  /** Entries are in time order and no entry is later than the clock. */
  ghost predicate Timed(l: Ledger) {
    && (forall i :: 0 <= i < |l.log| ==>
          && l.log[i].checkedAt <= l.log[i].returnedAt <= l.now
          && (l.log[i].markedAt.Some? ==> l.log[i].ok && l.log[i].returnedAt <= l.log[i].markedAt.value <= l.now))
    && (forall i, j :: 0 <= i < j < |l.log| ==> l.log[i].returnedAt <= l.log[j].checkedAt)
    && (l.call.Sending? ==>
          && l.call.checkedAt <= l.now
          && forall i :: 0 <= i < |l.log| ==> l.log[i].returnedAt <= l.call.checkedAt)
    && (l.call.Unmarked? ==>
          && |l.log| > 0
          && l.log[|l.log| - 1].key == l.call.key && l.log[|l.log| - 1].ok && l.log[|l.log| - 1].markedAt.None?)
  }

  /** Some logged forward of `key` was marked done at `at`. */
  ghost predicate MarkedIn(log: seq<Attempt>, key: Key, at: int) {
    exists i :: 0 <= i < |log| && log[i].key == key && log[i].ok && log[i].markedAt == Some(at)
  }

  /** Every row of the table is the mark of a logged forward, and no unexpired mark is missing from it. */
  ghost predicate Backed(ttl: int, l: Ledger) {
    && (forall k :: k in l.seen ==> MarkedIn(l.log, k, l.seen[k]))
    && (forall i :: 0 <= i < |l.log| && l.log[i].markedAt.Some? ==>
          || (l.log[i].key in l.seen && l.seen[l.log[i].key] >= l.log[i].markedAt.value)
          || l.log[i].markedAt.value + ttl < l.now)
  }

  /** Once a forward of a key is marked at m, a later forward of that key was checked after m + ttl. */
  ghost predicate Apart(ttl: int, log: seq<Attempt>) {
    forall i, j :: 0 <= i < j < |log| && log[i].key == log[j].key && log[i].markedAt.Some? ==>
      log[j].checkedAt > log[i].markedAt.value + ttl
  }

  ghost predicate SendingApart(ttl: int, l: Ledger) {
    l.call.Sending? ==>
      forall i :: 0 <= i < |l.log| && l.log[i].key == l.call.key && l.log[i].markedAt.Some? ==>
        l.call.checkedAt > l.log[i].markedAt.value + ttl
  }

  /** The successful forwards of `key` in the log that were never marked. */
  function CountUnmarked(log: seq<Attempt>, key: Key): nat {
    if log == [] then 0 else
      var a := log[|log| - 1];
      CountUnmarked(log[..|log| - 1], key) + (if a.key == key && a.ok && a.markedAt.None? then 1 else 0)
  }

  /** Only a crash leaves a successful forward unmarked. */
  ghost predicate Accounted(l: Ledger) {
    forall k :: CountUnmarked(l.log, k) == l.lost[k] + (if l.call == Unmarked(k) then 1 else 0)
  }

  ghost predicate Inv(ttl: int, l: Ledger) {
    Timed(l) && Backed(ttl, l) && (ttl > 0 ==> Apart(ttl, l.log) && SendingApart(ttl, l) && Accounted(l))
  }

  lemma CountUnmarkedAppend(log: seq<Attempt>, a: Attempt, key: Key)
    ensures CountUnmarked(log + [a], key)
         == CountUnmarked(log, key) + (if a.key == key && a.ok && a.markedAt.None? then 1 else 0)
  {
    assert (log + [a])[..|log|] == log;
  }

  lemma StartInv(ttl: int, now: int)
    ensures Inv(ttl, Start(now))
  {
  }

  lemma MarkKeepsBacked(ttl: int, l: Ledger)
    requires Inv(ttl, l) && Enabled(l, Mark) && ttl > 0
    ensures Backed(ttl, Next(ttl, l, Mark))
  {
    var n := Next(ttl, l, Mark);
    var last := |l.log| - 1;
    assert n.log[last].markedAt == Some(l.now);
    forall k | k in n.seen
      ensures MarkedIn(n.log, k, n.seen[k])
    {
      if k == l.call.key {
        assert n.log[last].key == k;
      } else {
        var i :| 0 <= i < |l.log| && l.log[i].key == k && l.log[i].ok && l.log[i].markedAt == Some(l.seen[k]);
        assert n.log[i] == l.log[i];
      }
    }
  }

  lemma MarkKeepsAccounted(ttl: int, l: Ledger)
    requires Inv(ttl, l) && Enabled(l, Mark) && ttl > 0
    ensures Accounted(Next(ttl, l, Mark))
  {
    var n := Next(ttl, l, Mark);
    var last := |l.log| - 1;
    assert n.log[..last] == l.log[..last];
  }

  lemma ReturnKeepsBacked(ttl: int, l: Ledger, ok: bool)
    requires Inv(ttl, l) && Enabled(l, Return(ok))
    ensures Backed(ttl, Next(ttl, l, Return(ok)))
  {
    var n := Next(ttl, l, Return(ok));
    forall k | k in n.seen
      ensures MarkedIn(n.log, k, n.seen[k])
    {
      var i :| 0 <= i < |l.log| && l.log[i].key == k && l.log[i].ok && l.log[i].markedAt == Some(l.seen[k]);
      assert n.log[i] == l.log[i];
    }
  }

  lemma ReturnKeepsAccounted(ttl: int, l: Ledger, ok: bool)
    requires Inv(ttl, l) && Enabled(l, Return(ok)) && ttl > 0
    ensures Accounted(Next(ttl, l, Return(ok)))
  {
    var a := Attempt(l.call.key, l.call.checkedAt, l.now, ok, None);
    forall k
      ensures CountUnmarked(l.log + [a], k) == CountUnmarked(l.log, k) + (if a.key == k && a.ok then 1 else 0)
    {
      CountUnmarkedAppend(l.log, a, k);
    }
  }

  lemma ReturnKeepsInv(ttl: int, l: Ledger, ok: bool)
    requires Inv(ttl, l) && Enabled(l, Return(ok))
    ensures Inv(ttl, Next(ttl, l, Return(ok)))
  {
    var n := Next(ttl, l, Return(ok));
    ReturnKeepsBacked(ttl, l, ok);
    assert Timed(n);
    if ttl > 0 {
      ReturnKeepsAccounted(ttl, l, ok);
      assert Apart(ttl, n.log);
    }
  }

  lemma MarkKeepsTimed(ttl: int, l: Ledger)
    requires Inv(ttl, l) && Enabled(l, Mark) && ttl > 0
    ensures Timed(Next(ttl, l, Mark))
  {
  }

  lemma MarkKeepsApart(ttl: int, l: Ledger)
    requires Inv(ttl, l) && Enabled(l, Mark) && ttl > 0
    ensures Apart(ttl, Next(ttl, l, Mark).log)
  {
  }

  lemma MarkKeepsInv(ttl: int, l: Ledger)
    requires Inv(ttl, l) && Enabled(l, Mark)
    ensures Inv(ttl, Next(ttl, l, Mark))
  {
    if ttl > 0 {
      MarkKeepsTimed(ttl, l);
      MarkKeepsBacked(ttl, l);
      MarkKeepsApart(ttl, l);
      MarkKeepsAccounted(ttl, l);
    }
  }

  lemma CheckKeepsBacked(ttl: int, l: Ledger, key: Key)
    requires Inv(ttl, l) && Enabled(l, Check(key))
    ensures Backed(ttl, Next(ttl, l, Check(key)))
  {
  }

  lemma CheckKeepsInv(ttl: int, l: Ledger, key: Key)
    requires Inv(ttl, l) && Enabled(l, Check(key))
    ensures Inv(ttl, Next(ttl, l, Check(key)))
  {
    CheckKeepsBacked(ttl, l, key);
  }

  lemma TickKeepsInv(ttl: int, l: Ledger, d: nat)
    requires Inv(ttl, l)
    ensures Inv(ttl, Next(ttl, l, Tick(d)))
  {
  }

  lemma CrashKeepsInv(ttl: int, l: Ledger)
    requires Inv(ttl, l)
    ensures Inv(ttl, Next(ttl, l, Crash))
  {
  }

  /** Every step keeps the invariant. */
  lemma StepKeepsInv(ttl: int, l: Ledger, s: Step)
    requires Inv(ttl, l) && Enabled(l, s)
    ensures Inv(ttl, Next(ttl, l, s))
  {
    match s
    case Tick(d) => TickKeepsInv(ttl, l, d);
    case Check(k) => CheckKeepsInv(ttl, l, k);
    case Crash => CrashKeepsInv(ttl, l);
    case Return(ok) => ReturnKeepsInv(ttl, l, ok);
    case Mark => MarkKeepsInv(ttl, l);
  }

  // --- At most one delivery per window ---------------------------------------

  predicate Overlaps(a: Attempt, key: Key, from: int, to: int) {
    a.key == key && a.ok && a.checkedAt <= to && from <= a.returnedAt
  }

  /** Successful forwards of `key` that were under way at some moment of [from, to]. */
  function CountOverlaps(log: seq<Attempt>, key: Key, from: int, to: int): nat {
    if log == [] then 0 else
      CountOverlaps(log[..|log| - 1], key, from, to) + (if Overlaps(log[|log| - 1], key, from, to) then 1 else 0)
  }

  ghost function OverlapsIn(log: seq<Attempt>, key: Key, from: int, to: int): set<int> {
    set i | 0 <= i < |log| && Overlaps(log[i], key, from, to)
  }

  predicate Unmarks(a: Attempt, key: Key) {
    a.key == key && a.ok && a.markedAt.None?
  }

  ghost function UnmarkedIn(log: seq<Attempt>, key: Key): set<int> {
    set i | 0 <= i < |log| && Unmarks(log[i], key)
  }

  lemma {:induction false} OverlapsAreCounted(log: seq<Attempt>, key: Key, from: int, to: int)
    ensures CountOverlaps(log, key, from, to) == |OverlapsIn(log, key, from, to)|
  {
    if log == [] {
      assert OverlapsIn(log, key, from, to) == {};
    } else {
      var n := |log| - 1;
      OverlapsAreCounted(log[..n], key, from, to);
      var before := OverlapsIn(log[..n], key, from, to);
      assert OverlapsIn(log, key, from, to) == if Overlaps(log[n], key, from, to) then before + {n} else before;
    }
  }

  lemma {:induction false} UnmarkedAreCounted(log: seq<Attempt>, key: Key)
    ensures CountUnmarked(log, key) == |UnmarkedIn(log, key)|
  {
    if log == [] {
      assert UnmarkedIn(log, key) == {};
    } else {
      var n := |log| - 1;
      UnmarkedAreCounted(log[..n], key);
      var before := UnmarkedIn(log[..n], key);
      assert UnmarkedIn(log, key) == if Unmarks(log[n], key) then before + {n} else before;
    }
  }

  /** If every successful forward of `key` in the window is unmarked, it holds no more than the unmarked ones. */
  lemma {:induction false} OverlapsAreUnmarked(log: seq<Attempt>, key: Key, from: int, to: int)
    requires forall i :: 0 <= i < |log| && Overlaps(log[i], key, from, to) ==> log[i].markedAt.None?
    ensures CountOverlaps(log, key, from, to) <= CountUnmarked(log, key)
  {
    if log != [] {
      OverlapsAreUnmarked(log[..|log| - 1], key, from, to);
    }
  }

  lemma OverlapEndsWindow(ttl: int, log: seq<Attempt>, key: Key, from: int, to: int)
    requires Apart(ttl, log) && to - from <= ttl && log != []
    requires forall i :: 0 <= i < |log| && log[i].markedAt.Some? ==> log[i].returnedAt <= log[i].markedAt.value
    requires Overlaps(log[|log| - 1], key, from, to)
    ensures CountOverlaps(log, key, from, to) <= 1 + CountUnmarked(log[..|log| - 1], key)
  {
    OverlapsAreUnmarked(log[..|log| - 1], key, from, to);
  }

  lemma {:induction false} WindowBound(ttl: int, log: seq<Attempt>, key: Key, from: int, to: int)
    requires Apart(ttl, log) && to - from <= ttl
    requires forall i :: 0 <= i < |log| && log[i].markedAt.Some? ==> log[i].returnedAt <= log[i].markedAt.value
    ensures CountOverlaps(log, key, from, to) <= 1 + CountUnmarked(log, key)
  {
    if log != [] {
      if Overlaps(log[|log| - 1], key, from, to) {
        OverlapEndsWindow(ttl, log, key, from, to);
      } else {
        WindowBound(ttl, log[..|log| - 1], key, from, to);
      }
    }
  }

  /**
   * In any reachable ledger, a window no longer than the TTL holds at most one successful forward of a
   * key more than the crashes that hit the gap between forward() returning and mark_done() committing.
   */
  lemma AtMostOncePerWindow(ttl: int, l: Ledger, key: Key, from: int, to: int)
    requires Inv(ttl, l) && ttl > 0 && to - from <= ttl
    ensures CountOverlaps(l.log, key, from, to) <= 1 + l.lost[key]
  {
    assert CountUnmarked(l.log, key) == l.lost[key] + (if l.call == Unmarked(key) then 1 else 0);
    if l.call == Unmarked(key) {
      var last := |l.log| - 1;
      assert CountUnmarked(l.log[..last], key) == l.lost[key];
      if Overlaps(l.log[last], key, from, to) {
        OverlapEndsWindow(ttl, l.log, key, from, to);
      } else {
        WindowBound(ttl, l.log[..last], key, from, to);
      }
    } else {
      WindowBound(ttl, l.log, key, from, to);
    }
  }

  // --- Evidence of delivery -----------------------------------------------------

  /**
   * `key` was successfully forwarded during log entries [base, upTo), or at most ttl seconds before `checkedAt`.
   */
  ghost predicate Evidence(ttl: int, log: seq<Attempt>, base: nat, upTo: nat, key: Key, checkedAt: int) {
    exists i :: 0 <= i < upTo <= |log| && log[i].key == key && log[i].ok &&
                (base <= i || (log[i].markedAt.Some? && checkedAt <= log[i].markedAt.value + ttl))
  }

  /** Entries are never dropped or altered, except that a successful one may get its mark. */
  ghost predicate Extends(log: seq<Attempt>, log': seq<Attempt>) {
    && |log| <= |log'|
    && forall i :: 0 <= i < |log| ==>
         log'[i] == log[i] || (log[i].markedAt.None? && log'[i] == log[i].(markedAt := log'[i].markedAt))
  }

  lemma EvidenceLasts(
      ttl: int, log: seq<Attempt>, log': seq<Attempt>, base: nat, upTo: nat, upTo': nat, key: Key, checkedAt: int)
    requires Evidence(ttl, log, base, upTo, key, checkedAt) && Extends(log, log') && upTo <= upTo' <= |log'|
    ensures Evidence(ttl, log', base, upTo', key, checkedAt)
  {
    var i :| 0 <= i < upTo <= |log| && log[i].key == key && log[i].ok &&
             (base <= i || (log[i].markedAt.Some? && checkedAt <= log[i].markedAt.value + ttl));
    assert log'[i].key == key;
  }

  lemma SuppressionIsEvidence(ttl: int, l: Ledger, base: nat, key: Key)
    requires Inv(ttl, l) && Suppresses(ttl, l.seen, key, l.now)
    ensures Evidence(ttl, l.log, base, |l.log|, key, l.now)
  {
    assert MarkedIn(l.log, key, l.seen[key]);
    var i :| 0 <= i < |l.log| && l.log[i].key == key && l.log[i].ok && l.log[i].markedAt == Some(l.seen[key]);
  }
}
