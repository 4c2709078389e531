/** The hourly and daily caps on AI analyses, and what they guarantee over sliding windows. */
module Budget {
  import opened Common

  const HOUR := 3600.0
  const DAY := 86400.0

  /** History of one granted unit: when, and in which fixed window (numbered from the first) it fell. */
  datatype Grant = Grant(at: real, window: nat)

  /** A fixed window: when it started and how many units it granted. `index` and `grants` are history. */
  datatype Window = Window(length: real, cap: int, start: real, count: int, index: nat, grants: seq<Grant>)

  function Fresh(length: real, cap: int): Window {
    Window(length, cap, 0.0, 0, 0, [])
  }

  /** Looking at the clock starts a new window once the old one is over. */
  function Roll(w: Window, now: real): Window {
    if now - w.start >= w.length then w.(start := now, count := 0, index := w.index + 1) else w
  }

  function Use(w: Window, now: real): Window {
    w.(count := w.count + 1, grants := w.grants + [Grant(now, w.index)])
  }

  // --- What every call keeps --------------------------------------------------------

  /** k window lengths. */
  function Lengths(k: int, length: real): real {
    if k <= 0 then 0.0 else Lengths(k - 1, length) + length
  }

  /** Grants are in order of time and window, and the last `count` of them are the current window's. */
  ghost predicate InSequence(w: Window, now: real) {
    && 0 <= w.count <= |w.grants| && w.count <= Max(w.cap, 0)
    && (w.index > 0 ==> w.start <= now)
    && (forall i :: 0 <= i < |w.grants| ==>
          && w.grants[i].at <= now
          && if i < |w.grants| - w.count then w.grants[i].window < w.index else w.grants[i].window == w.index)
    && (forall i, j :: 0 <= i < j < |w.grants| ==> w.grants[i].window <= w.grants[j].window)
  }

  /** Every grant lies more than the windows between it and the current one before the current window ends. */
  ghost predicate Behind(w: Window) {
    forall i :: 0 <= i < |w.grants| ==>
      w.grants[i].at + Lengths(w.index - w.grants[i].window, w.length) < w.start + w.length
  }

  /** Two grants are further apart in time than the windows that lie wholly between them. */
  ghost predicate Spread(grants: seq<Grant>, length: real) {
    forall i, j :: 0 <= i < j < |grants| && grants[i].window < grants[j].window ==>
      grants[j].at > grants[i].at + Lengths(grants[j].window - grants[i].window - 1, length)
  }

  /** No window has granted more than its cap: that many grants later, the window is a later one. */
  ghost predicate Capped(grants: seq<Grant>, cap: int) {
    && (cap <= 0 ==> grants == [])
    && forall i, j :: 0 <= i < j < |grants| && i + cap <= j ==> grants[i].window < grants[j].window
  }

  ghost predicate Sound(w: Window, now: real) {
    w.length > 0.0 && InSequence(w, now) && Behind(w) && Spread(w.grants, w.length) && Capped(w.grants, w.cap)
  }

  lemma RollKeepsBehind(w: Window, now: real)
    requires Behind(w) && now - w.start >= w.length
    requires forall i :: 0 <= i < |w.grants| ==> w.grants[i].window <= w.index
    ensures Behind(Roll(w, now))
  {
    var r := Roll(w, now);
    forall i | 0 <= i < |r.grants|
      ensures r.grants[i].at + Lengths(r.index - r.grants[i].window, r.length) < r.start + r.length
    {
      var between := w.index - w.grants[i].window;
      assert Lengths(between + 1, w.length) == Lengths(between, w.length) + w.length;
    }
  }

  lemma RollKeepsSound(w: Window, before: real, now: real)
    requires Sound(w, before) && before <= now
    ensures Sound(Roll(w, now), now) && now - Roll(w, now).start < w.length
  {
    if now - w.start >= w.length {
      RollKeepsBehind(w, now);
    }
  }

  lemma UseKeepsSpread(w: Window, now: real)
    requires Behind(w) && Spread(w.grants, w.length) && (w.index > 0 ==> w.start <= now)
    requires forall i :: 0 <= i < |w.grants| ==> w.grants[i].window <= w.index
    ensures Spread(Use(w, now).grants, w.length)
  {
    var n := |w.grants|;
    forall i | 0 <= i < n && w.grants[i].window < w.index
      ensures now > w.grants[i].at + Lengths(w.index - w.grants[i].window - 1, w.length)
    {
      assert Lengths(w.index - w.grants[i].window, w.length) ==
             Lengths(w.index - w.grants[i].window - 1, w.length) + w.length;
    }
  }

  lemma UseKeepsCapped(w: Window, now: real)
    requires InSequence(w, now) && Capped(w.grants, w.cap) && w.count < w.cap
    ensures Capped(Use(w, now).grants, w.cap)
  {
  }

  lemma UseKeepsSequence(w: Window, now: real)
    requires InSequence(w, now) && w.count < w.cap
    ensures InSequence(Use(w, now), now)
  {
  }

  lemma UseKeepsSound(w: Window, now: real)
    requires Sound(w, now) && now - w.start < w.length && w.count < w.cap
    ensures Sound(Use(w, now), now)
  {
    UseKeepsSequence(w, now);
    UseKeepsSpread(w, now);
    UseKeepsCapped(w, now);
    assert Lengths(0, w.length) == 0.0;
  }

  /** The window after one call of take(). */
  function Turn(w: Window, now: real, granted: bool): Window {
    if granted then Use(Roll(w, now), now) else Roll(w, now)
  }

  lemma TurnKeepsSound(w: Window, before: real, now: real, granted: bool)
    requires Sound(w, before) && before <= now && (granted ==> Roll(w, now).count < w.cap)
    ensures Sound(Turn(w, now, granted), now)
  {
    RollKeepsSound(w, before, now);
    if granted {
      UseKeepsSound(Roll(w, now), now);
    }
  }

  lemma SoundLater(w: Window, before: real, now: real)
    requires Sound(w, before) && before <= now
    ensures Sound(w, now)
  {
  }

  // --- The breaker after any calls ------------------------------------------------------

  datatype Breaker = Breaker(hour: Window, day: Window, tripped: bool)

  /** Whether a call at `now` is within both caps. */
  predicate Allows(b: Breaker, now: real) {
    Roll(b.hour, now).count < b.hour.cap && Roll(b.day, now).count < b.day.cap
  }

  function Called(b: Breaker, now: real): Breaker {
    var granted := Allows(b, now);
    Breaker(Turn(b.hour, now, granted), Turn(b.day, now, granted), !granted)
  }

  /** The breaker after calls at these times. */
  function After(perHour: int, perDay: int, calls: seq<real>): Breaker {
    if calls == [] then Breaker(Fresh(HOUR, perHour), Fresh(DAY, perDay), false)
    else Called(After(perHour, perDay, calls[..|calls| - 1]), calls[|calls| - 1])
  }

  /** The times of the calls that were granted. */
  function Granted(perHour: int, perDay: int, calls: seq<real>): seq<real> {
    if calls == [] then [] else
      var n := |calls| - 1;
      Granted(perHour, perDay, calls[..n])
      + (if Allows(After(perHour, perDay, calls[..n]), calls[n]) then [calls[n]] else [])
  }

  lemma OneMoreCall(perHour: int, perDay: int, calls: seq<real>, now: real)
    ensures After(perHour, perDay, calls + [now]) == Called(After(perHour, perDay, calls), now)
    ensures Granted(perHour, perDay, calls + [now])
            == Granted(perHour, perDay, calls) + (if Allows(After(perHour, perDay, calls), now) then [now] else [])
  {
    assert (calls + [now])[..|calls|] == calls;
  }

  ghost predicate Forward(calls: seq<real>) {
    forall i, j :: 0 <= i < j < |calls| ==> calls[i] <= calls[j]
  }

  function Lane(b: Breaker, daily: bool): Window {
    if daily then b.day else b.hour
  }

  lemma {:induction false} AfterIsSound(perHour: int, perDay: int, calls: seq<real>, now: real, daily: bool)
    requires Forward(calls) && (calls != [] ==> calls[|calls| - 1] <= now)
    ensures Sound(Lane(After(perHour, perDay, calls), daily), now)
  {
    if calls != [] {
      var n := |calls| - 1;
      AfterIsSound(perHour, perDay, calls[..n], calls[n], daily);
      var b := After(perHour, perDay, calls[..n]);
      TurnKeepsSound(Lane(b, daily), calls[n], calls[n], Allows(b, calls[n]));
      SoundLater(Turn(Lane(b, daily), calls[n], Allows(b, calls[n])), calls[n], now);
    }
  }

  lemma {:induction false} CapsStay(perHour: int, perDay: int, calls: seq<real>)
    ensures After(perHour, perDay, calls).hour.cap == perHour && After(perHour, perDay, calls).day.cap == perDay
    ensures After(perHour, perDay, calls).hour.length == HOUR && After(perHour, perDay, calls).day.length == DAY
  {
    if calls != [] {
      CapsStay(perHour, perDay, calls[..|calls| - 1]);
    }
  }

  function Times(grants: seq<Grant>): seq<real> {
    seq(|grants|, i requires 0 <= i < |grants| => grants[i].at)
  }

  /** Both windows' histories are the granted calls. */
  lemma {:induction false} HistoryIsGranted(perHour: int, perDay: int, calls: seq<real>, daily: bool)
    ensures Times(Lane(After(perHour, perDay, calls), daily).grants) == Granted(perHour, perDay, calls)
  {
    if calls != [] {
      HistoryIsGranted(perHour, perDay, calls[..|calls| - 1], daily);
    }
  }

  // --- No call below the caps is refused -------------------------------------------------

  /** The calls came in order, at times after the epoch. */
  ghost predicate Clocked(calls: seq<real>) {
    Forward(calls) && forall i :: 0 <= i < |calls| ==> calls[i] >= 0.0
  }

  /** Which of the times are later than `from`. */
  ghost function LaterThan(times: seq<real>, from: real): set<int> {
    set i | 0 <= i < |times| && times[i] > from
  }

  /** Fewer than the caps of the granted times lie in the last hour and in the last day. */
  ghost predicate BelowCaps(granted: seq<real>, perHour: int, perDay: int, now: real) {
    |LaterThan(granted, now - 3600.0)| < perHour && |LaterThan(granted, now - 86400.0)| < perDay
  }

  /** The grants counted are no older than the window. */
  ghost predicate Current(w: Window, now: real) {
    && w.start <= now && 0 <= w.count <= |w.grants|
    && forall i :: 0 <= i < |w.grants| && |w.grants| - w.count <= i ==> w.start <= w.grants[i].at
  }

  lemma {:induction false} AfterIsCurrent(perHour: int, perDay: int, calls: seq<real>, now: real, daily: bool)
    requires Clocked(calls) && now >= 0.0 && (calls != [] ==> calls[|calls| - 1] <= now)
    ensures Current(Lane(After(perHour, perDay, calls), daily), now)
  {
    if calls != [] {
      var n := |calls| - 1;
      AfterIsCurrent(perHour, perDay, calls[..n], calls[n], daily);
      var b := After(perHour, perDay, calls[..n]);
      TurnKeepsCurrent(Lane(b, daily), calls[n], Allows(b, calls[n]));
    }
  }

  lemma TurnKeepsCurrent(w: Window, now: real, granted: bool)
    requires Current(w, now)
    ensures Current(Turn(w, now, granted), now)
  {
  }

  function LastPositions(n: nat, count: nat): (r: set<int>)
    requires count <= n
    ensures |r| == count
    ensures forall i :: i in r <==> n - count <= i < n
  {
    if count == 0 then {} else LastPositions(n, count - 1) + {n - count}
  }

  lemma NoLarger(a: set<int>, b: set<int>)
    requires a <= b
    ensures |a| <= |b|
  {
    assert b == a + (b - a);
  }

  lemma WindowBelowCap(w: Window, now: real)
    requires Current(w, now) && |LaterThan(Times(w.grants), now - w.length)| < w.cap
    ensures Roll(w, now).count < w.cap
  {
    if now - w.start < w.length {
      NoLarger(LastPositions(|w.grants|, w.count), LaterThan(Times(w.grants), now - w.length));
    }
  }

  /** A call is granted whenever fewer calls than the caps were granted in the hour and in the day before it. */
  lemma GrantedBelowCaps(perHour: int, perDay: int, calls: seq<real>, now: real)
    requires Clocked(calls + [now]) && BelowCaps(Granted(perHour, perDay, calls), perHour, perDay, now)
    ensures Allows(After(perHour, perDay, calls), now)
    ensures Granted(perHour, perDay, calls + [now]) == Granted(perHour, perDay, calls) + [now]
  {
    ClockedBefore(calls, now);
    LanesBelowCaps(perHour, perDay, calls, now);
    OneMoreCall(perHour, perDay, calls, now);
  }

  /** No call after these is refused while fewer than the caps were granted in the hour and the day before it. */
  ghost predicate GrantsWhenBelowCaps(perHour: int, perDay: int, calls: seq<real>, now: real, granted: bool) {
    Clocked(calls + [now]) && BelowCaps(Granted(perHour, perDay, calls), perHour, perDay, now) ==> granted
  }

  lemma FairToCalls(perHour: int, perDay: int, calls: seq<real>, now: real)
    ensures GrantsWhenBelowCaps(perHour, perDay, calls, now, Allows(After(perHour, perDay, calls), now))
  {
    if Clocked(calls + [now]) && BelowCaps(Granted(perHour, perDay, calls), perHour, perDay, now) {
      GrantedBelowCaps(perHour, perDay, calls, now);
    }
  }

  lemma ClockedBefore(calls: seq<real>, now: real)
    requires Clocked(calls + [now])
    ensures Clocked(calls) && now >= 0.0 && (calls != [] ==> calls[|calls| - 1] <= now)
  {
    assert forall i :: 0 <= i < |calls| ==> (calls + [now])[i] == calls[i];
    assert (calls + [now])[|calls|] == now;
  }

  lemma LanesBelowCaps(perHour: int, perDay: int, calls: seq<real>, now: real)
    requires Clocked(calls) && now >= 0.0 && (calls != [] ==> calls[|calls| - 1] <= now)
    requires BelowCaps(Granted(perHour, perDay, calls), perHour, perDay, now)
    ensures Allows(After(perHour, perDay, calls), now)
  {
    var b := After(perHour, perDay, calls);
    CapsStay(perHour, perDay, calls);
    AfterIsCurrent(perHour, perDay, calls, now, false);
    AfterIsCurrent(perHour, perDay, calls, now, true);
    HistoryIsGranted(perHour, perDay, calls, false);
    HistoryIsGranted(perHour, perDay, calls, true);
    WindowBelowCap(b.hour, now);
    WindowBelowCap(b.day, now);
  }

  // --- Sliding windows ---------------------------------------------------------------

  /** How many of the times lie in the half-open interval [from, to). */
  function CountIn(times: seq<real>, from: real, to: real): nat {
    if times == [] then 0 else
      var n := |times| - 1;
      CountIn(times[..n], from, to) + (if from <= times[n] < to then 1 else 0)
  }

  ghost function Within(times: seq<real>, from: real, to: real): set<int> {
    set i | 0 <= i < |times| && from <= times[i] < to
  }

  lemma {:induction false} CountInCounts(times: seq<real>, from: real, to: real)
    ensures CountIn(times, from, to) == |Within(times, from, to)|
  {
    if times == [] {
      assert Within(times, from, to) == {};
    } else {
      var n := |times| - 1;
      CountInCounts(times[..n], from, to);
      assert Within(times, from, to)
             == if from <= times[n] < to then Within(times[..n], from, to) + {n} else Within(times[..n], from, to);
    }
  }

  /** If there are c of them, the first and the last are at least c - 1 positions apart. */
  lemma {:induction false} FirstAndLast(times: seq<real>, from: real, to: real) returns (i: nat, j: nat)
    requires CountIn(times, from, to) > 0
    ensures i <= j < |times| && CountIn(times, from, to) <= j - i + 1
    ensures from <= times[i] < to && from <= times[j] < to
  {
    var n := |times| - 1;
    if CountIn(times[..n], from, to) == 0 {
      i, j := n, n;
    } else {
      i, j := FirstAndLast(times[..n], from, to);
      if from <= times[n] < to {
        j := n;
      }
    }
  }

  lemma {:induction false} LaterWindow(grants: seq<Grant>, cap: int, i: nat, j: nat, m: nat)
    requires cap > 0 && Capped(grants, cap) && i + cap * m <= j < |grants|
    requires m == 0 ==> grants[i].window <= grants[j].window
    ensures grants[j].window >= grants[i].window + m
    decreases m
  {
    if m > 0 {
      var k := i + cap * (m - 1);
      assert k + cap == i + cap * m;
      LaterWindow(grants, cap, i, k, m - 1);
      assert grants[k].window < grants[j].window;
    }
  }

  lemma {:induction false} MoreWindowsMoreTime(a: int, b: int, length: real)
    requires a <= b && length > 0.0
    ensures Lengths(a, length) <= Lengths(b, length)
    decreases b - a
  {
    if a < b {
      MoreWindowsMoreTime(a, b - 1, length);
    }
  }

  /** Grants that many positions apart are further apart in time than n windows. */
  lemma TooManyIsTooLong(grants: seq<Grant>, cap: int, length: real, i: nat, j: nat, n: nat)
    requires cap > 0 && length > 0.0 && Capped(grants, cap) && Spread(grants, length)
    requires i + cap * (n + 1) <= j < |grants|
    ensures grants[j].at > grants[i].at + Lengths(n, length)
  {
    PositiveProduct(cap, n + 1);
    LaterWindow(grants, cap, i, j, n + 1);
    MoreWindowsMoreTime(n, grants[j].window - grants[i].window - 1, length);
  }

  lemma PositiveProduct(cap: int, m: nat)
    requires cap > 0 && m > 0
    ensures cap * m >= 1
  {
  }

  lemma {:induction false} LengthsIsProduct(n: nat, length: real)
    ensures Lengths(n, length) == n as real * length
  {
    if n == 0 {
      assert 0.0 * length == 0.0;
    } else {
      LengthsIsProduct(n - 1, length);
      assert n as real == (n - 1) as real + 1.0;
    }
  }

  /** Any interval no longer than n window lengths, wherever it lies, holds at most cap * (n + 1) grants. */
  lemma SlidingBound(w: Window, now: real, from: real, span: real, n: nat)
    requires Sound(w, now) && span <= Lengths(n, w.length)
    ensures CountIn(Times(w.grants), from, from + span) <= Max(w.cap, 0) * (n + 1)
  {
    if CountIn(Times(w.grants), from, from + span) > 0 {
      var i, j := FirstAndLast(Times(w.grants), from, from + span);
      assert w.cap > 0 by {
        assert Capped(w.grants, w.cap);
      }
      if i + w.cap * (n + 1) <= j {
        TooManyIsTooLong(w.grants, w.cap, w.length, i, j, n);
      }
    } else {
      assert Max(w.cap, 0) * (n + 1) >= 0;
    }
  }

  /**
   * Whatever the calls were, in any interval of `span` seconds at most perHour * (hours + 1) were granted,
   * where `hours` whole hours cover the span, and at most perDay * (days + 1), where `days` whole days do.
   */
  lemma AnalysesAreBounded(perHour: int, perDay: int, calls: seq<real>, from: real, span: real, hours: nat, days: nat)
    requires Forward(calls)
    ensures span <= hours as real * HOUR ==>
              CountIn(Granted(perHour, perDay, calls), from, from + span) <= Max(perHour, 0) * (hours + 1)
    ensures span <= days as real * DAY ==>
              CountIn(Granted(perHour, perDay, calls), from, from + span) <= Max(perDay, 0) * (days + 1)
  {
    CapsStay(perHour, perDay, calls);
    if span <= hours as real * HOUR {
      LaneIsBounded(perHour, perDay, calls, from, span, hours, false);
    }
    if span <= days as real * DAY {
      LaneIsBounded(perHour, perDay, calls, from, span, days, true);
    }
  }

  lemma LaneIsBounded(
      perHour: int, perDay: int, calls: seq<real>, from: real, span: real, n: nat, daily: bool)
    requires Forward(calls) && span <= n as real * (if daily then DAY else HOUR)
    ensures CountIn(Granted(perHour, perDay, calls), from, from + span)
            <= Max(if daily then perDay else perHour, 0) * (n + 1)
  {
    var now := if calls == [] then 0.0 else calls[|calls| - 1];
    var w := Lane(After(perHour, perDay, calls), daily);
    AfterIsSound(perHour, perDay, calls, now, daily);
    CapsStay(perHour, perDay, calls);
    HistoryIsGranted(perHour, perDay, calls, daily);
    LengthsIsProduct(n, w.length);
    SlidingBound(w, now, from, span, n);
  }

  // --- The circuit breaker --------------------------------------------------------------

  /** What one more call does to the breaker's five fields, and to the history. */
  lemma CallCounts(perHour: int, perDay: int, calls: seq<real>, now: real)
    ensures var b, b' := After(perHour, perDay, calls), After(perHour, perDay, calls + [now]);
            var hourly := if now - b.hour.start >= HOUR then 0 else b.hour.count;
            var daily := if now - b.day.start >= DAY then 0 else b.day.count;
            var granted := hourly < perHour && daily < perDay;
            && Allows(b, now) == granted && b'.tripped == !granted
            && b'.hour.start == (if now - b.hour.start >= HOUR then now else b.hour.start)
            && b'.day.start == (if now - b.day.start >= DAY then now else b.day.start)
            && b'.hour.count == hourly + (if granted then 1 else 0)
            && b'.day.count == daily + (if granted then 1 else 0)
            && Granted(perHour, perDay, calls + [now])
               == Granted(perHour, perDay, calls) + if granted then [now] else []
  {
    CapsStay(perHour, perDay, calls);
    OneMoreCall(perHour, perDay, calls, now);
  }

  class Budget {
    const perHour: int
    const perDay: int
    var hourStart: real
    var dayStart: real
    var hourCount: int
    var dayCount: int
    var tripped: bool
    ghost var calls: seq<real>

    ghost predicate Valid()
      reads this
    {
      var b := After(perHour, perDay, calls);
      && b.hour.start == hourStart && b.hour.count == hourCount
      && b.day.start == dayStart && b.day.count == dayCount
      && b.tripped == tripped
    }

    constructor (perHour: int, perDay: int)
      ensures Valid() && this.perHour == perHour && this.perDay == perDay && calls == []
    {
      this.perHour, this.perDay := perHour, perDay;
      hourStart, dayStart, hourCount, dayCount := 0.0, 0.0, 0, 0;
      tripped, calls := false, [];
    }

    /** Consumes one unit; false when either cap is reached. */
    method Take(now: real) returns (granted: bool)
      requires Valid()
      modifies this
      ensures Valid() && calls == old(calls) + [now]
      ensures Granted(perHour, perDay, calls)
              == Granted(perHour, perDay, old(calls)) + (if granted then [now] else [])
      ensures granted <==> Allows(After(perHour, perDay, old(calls)), now)
      ensures GrantsWhenBelowCaps(perHour, perDay, old(calls), now, granted)
      ensures tripped <==> !granted
    {
      FairToCalls(perHour, perDay, calls, now);
      CallCounts(perHour, perDay, calls, now);
      calls := calls + [now];
      if now - hourStart >= HOUR {
        hourStart, hourCount := now, 0;
      }
      if now - dayStart >= DAY {
        dayStart, dayCount := now, 0;
      }
      var over := hourCount >= perHour || dayCount >= perDay;
      if over {
        if !tripped {
          tripped := true;
        }
        return false;
      }
      if tripped {
        tripped := false;
      }
      hourCount, dayCount := hourCount + 1, dayCount + 1;
      return true;
    }
  }
}
