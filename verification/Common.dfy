/** Small value-level helpers shared by the other modules. */
module Common {

  datatype Option<+T> = None | Some(value: T) {
    function GetOr(default: T): T {
      if None? then default else value
    }
  }

  /** Python's `text or None`. */
  function OrNone(text: Option<string>): Option<string> {
    if text == Some("") then None else text
  }

  lemma OrNoneDropsEmpty(text: Option<string>)
    ensures OrNone(text) == match text case None => None case Some(t) => if |t| > 0 then Some(t) else None
  {
  }

  predicate EndsWith(s: string, suffix: string) {
    |suffix| <= |s| && s[|s| - |suffix|..] == suffix
  }

  function Min(a: int, b: int): int { if a <= b then a else b }

  function Max(a: int, b: int): int { if a >= b then a else b }

  /** How many leading elements `xs[:limit]` keeps in Python, where a negative limit counts from the end. */
  function SliceLength(n: nat, limit: int): (kept: nat)
    ensures kept <= n
  {
    if limit >= 0 then Min(limit, n) else Max(n + limit, 0)
  }

  lemma SliceKeeps(n: nat, limit: int)
    ensures 0 <= limit <= n ==> SliceLength(n, limit) == limit
    ensures limit >= n ==> SliceLength(n, limit) == n
    ensures limit < 0 ==> SliceLength(n, limit) == if n + limit > 0 then n + limit else 0
  {
  }

  ghost predicate Distinct<T(!new)>(xs: seq<T>) {
    forall i, j :: 0 <= i < j < |xs| ==> xs[i] != xs[j]
  }

  /** The positions at which `flags` holds, in order. */
  function Positions(flags: seq<bool>): seq<nat> {
    if flags == [] then [] else
      var n := |flags| - 1;
      Positions(flags[..n]) + (if flags[n] then [n] else [])
  }

  lemma PositionsSnoc(flags: seq<bool>, flag: bool)
    ensures Positions(flags + [flag]) == Positions(flags) + if flag then [|flags|] else []
  {
    assert (flags + [flag])[..|flags|] == flags;
  }

  lemma {:induction false} PositionsAreExact(flags: seq<bool>, i: nat)
    ensures i in Positions(flags) <==> i < |flags| && flags[i]
  {
    if flags != [] {
      PositionsAreExact(flags[..|flags| - 1], i);
    }
  }

  lemma {:induction false} PositionsInOrder(flags: seq<bool>, a: nat, b: nat)
    requires a < b < |Positions(flags)|
    ensures Positions(flags)[a] < Positions(flags)[b]
  {
    var n := |flags| - 1;
    var before := Positions(flags[..n]);
    if b < |before| {
      PositionsInOrder(flags[..n], a, b);
    } else {
      PositionsAreExact(flags[..n], before[a]);
    }
  }

  /** The elements satisfying `keep`, in their original order. */
  function Filter<T>(xs: seq<T>, keep: T -> bool): (r: seq<T>)
    ensures |r| <= |xs|
  {
    if xs == [] then []
    else if keep(xs[0]) then [xs[0]] + Filter(xs[1..], keep)
    else Filter(xs[1..], keep)
  }

  lemma {:induction false} FilterAppend<T>(xs: seq<T>, ys: seq<T>, keep: T -> bool)
    ensures Filter(xs + ys, keep) == Filter(xs, keep) + Filter(ys, keep)
  {
    if xs == [] {
      assert xs + ys == ys;
    } else {
      assert (xs + ys)[0] == xs[0] && (xs + ys)[1..] == xs[1..] + ys;
      FilterAppend(xs[1..], ys, keep);
    }
  }

  /** Every element that satisfies `keep` is kept as often as it occurs, and no other element is. */
  lemma {:induction false} FilterIsExact<T>(xs: seq<T>, keep: T -> bool, x: T)
    ensures multiset(Filter(xs, keep))[x] == if keep(x) then multiset(xs)[x] else 0
  {
    if xs != [] {
      FilterIsExact(xs[1..], keep, x);
      assert xs == [xs[0]] + xs[1..];
    }
  }

  lemma {:induction false} FilterTwice<T>(xs: seq<T>, keep: T -> bool)
    ensures Filter(Filter(xs, keep), keep) == Filter(xs, keep)
  {
    if xs != [] {
      FilterTwice(xs[1..], keep);
    }
  }
}
