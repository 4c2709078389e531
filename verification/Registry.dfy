/** Which enrichers run, and in which order. */
module Registry {
  import opened Common
  import opened Events
  import opened Enrich
  import Sorting

  datatype Selection = Ready(enrichers: seq<Enricher>) | Unsupported(name: string)

  /** The non-empty names, each once, in the order first given. */
  function Unique(names: seq<string>): (r: seq<string>)
    ensures Distinct(r)
    ensures forall name :: name in r <==> name in names && name != ""
  {
    if names == [] then [] else
      var before, last := Unique(names[..|names| - 1]), names[|names| - 1];
      assert names == names[..|names| - 1] + [last];
      if last != "" && last !in before then before + [last] else before
  }

  /** The position of the first mention. */
  function FirstAt(names: seq<string>, name: string): (i: nat)
    ensures i <= |names|
    ensures i < |names| ==> names[i] == name
    ensures name !in names[..i]
  {
    if names == [] || names[0] == name then 0
    else
      assert names[..FirstAt(names[1..], name) + 1] == [names[0]] + names[1..][..FirstAt(names[1..], name)];
      1 + FirstAt(names[1..], name)
  }

  lemma {:induction false} FirstAtPrefix(names: seq<string>, n: nat, name: string)
    requires n <= |names| && name in names[..n]
    ensures FirstAt(names, name) == FirstAt(names[..n], name) < n
  {
    if names[0] != name {
      assert names[..n][1..] == names[1..][..n - 1];
      FirstAtPrefix(names[1..], n - 1, name);
    }
  }

  /** The order is that of first mention. */
  lemma {:induction false} UniqueInOrder(names: seq<string>, i: nat, j: nat)
    requires i < j < |Unique(names)|
    ensures FirstAt(names, Unique(names)[i]) < FirstAt(names, Unique(names)[j])
  {
    var n := |names| - 1;
    var before := Unique(names[..n]);
    assert before[i] in names[..n];
    FirstAtPrefix(names, n, before[i]);
    if j < |before| {
      UniqueInOrder(names[..n], i, j);
      assert before[j] in names[..n];
      FirstAtPrefix(names, n, before[j]);
    } else {
      assert names[n] !in names[..n];
    }
  }

  function Priority(enricher: Enricher): int {
    enricher.priority
  }

  function Instances(names: seq<string>, known: map<string, Enricher>): seq<Enricher>
    requires forall name :: name in names ==> name in known
  {
    seq(|names|, i requires 0 <= i < |names| => known[names[i]])
  }

  predicate Supported(names: seq<string>, known: map<string, Enricher>) {
    forall i :: 0 <= i < |names| && names[i] != "" ==> names[i] in known
  }

  /** Names come trimmed and lower-cased; empty ones are skipped, repeats dropped, unknown ones refused. */
  method GetEnrichers(names: seq<string>, known: map<string, Enricher>) returns (r: Selection)
    ensures r.Ready? <==> Supported(names, known)
    ensures r.Ready? ==> r.enrichers == Sorting.SortBy(Instances(Unique(names), known), Priority)
    ensures r.Unsupported? ==> r.name in names && r.name != "" && r.name !in known
  {
    var ordered := [];
    for i := 0 to |names|
      invariant ordered == Unique(names[..i])
    {
      assert names[..i + 1][..i] == names[..i];
      if names[i] != "" && names[i] !in ordered {
        ordered := ordered + [names[i]];
      }
    }
    assert names[..|names|] == names;
    var enrichers := [];
    for i := 0 to |ordered|
      invariant forall k :: 0 <= k < i ==> ordered[k] in known
      invariant |enrichers| == i && forall k :: 0 <= k < i ==> enrichers[k] == known[ordered[k]]
    {
      if ordered[i] !in known {
        assert ordered[i] in names && ordered[i] != "";
        return Unsupported(ordered[i]);
      }
      enrichers := enrichers + [known[ordered[i]]];
    }
    assert enrichers == Instances(ordered, known);
    assert forall i :: 0 <= i < |names| && names[i] != "" ==> names[i] in ordered;
    return Ready(Sorting.SortBy(enrichers, Priority));
  }

  /** No two known enrichers share a priority. */
  ghost predicate DistinctPriorities(known: map<string, Enricher>) {
    forall a, b :: a in known && b in known && a != b ==> known[a].priority != known[b].priority
  }

  lemma InstancesHaveDistinctKeys(names: seq<string>, known: map<string, Enricher>)
    requires Distinct(names) && (forall name :: name in names ==> name in known) && DistinctPriorities(known)
    ensures Sorting.DistinctKeys(Instances(names, known), Priority)
  {
    var xs := Instances(names, known);
    forall i, j | 0 <= i < j < |xs|
      ensures Priority(xs[i]) != Priority(xs[j])
    {
      assert names[i] in known && names[j] in known && names[i] != names[j];
    }
  }

  lemma InstancesFollowNames(a: seq<string>, b: seq<string>, known: map<string, Enricher>, x: Enricher)
    requires forall name :: name in a ==> name in known && name in b
    requires forall name :: name in b ==> name in known
    requires x in Instances(a, known)
    ensures x in Instances(b, known)
  {
    var i :| 0 <= i < |a| && Instances(a, known)[i] == x;
    assert a[i] in b;
    var j :| 0 <= j < |b| && b[j] == a[i];
    assert Instances(b, known)[j] == x;
  }

  /** The run order does not depend on the order in which an operator lists the names, nor on repeats. */
  lemma ListingOrderDoesNotMatter(a: seq<string>, b: seq<string>, known: map<string, Enricher>)
    requires Supported(a, known) && Supported(b, known) && DistinctPriorities(known)
    requires forall name :: name != "" ==> (name in a <==> name in b)
    ensures Sorting.SortBy(Instances(Unique(a), known), Priority)
         == Sorting.SortBy(Instances(Unique(b), known), Priority)
  {
    var xs, ys := Instances(Unique(a), known), Instances(Unique(b), known);
    InstancesHaveDistinctKeys(Unique(a), known);
    InstancesHaveDistinctKeys(Unique(b), known);
    forall x | x in xs
      ensures x in ys
    {
      InstancesFollowNames(Unique(a), Unique(b), known, x);
    }
    forall x | x in ys
      ensures x in xs
    {
      InstancesFollowNames(Unique(b), Unique(a), known, x);
    }
    Sorting.OrderDoesNotMatter(xs, ys, Priority);
  }

  /** Every enricher of lower priority number runs before every one of higher, so its evidence is there to see. */
  lemma DependenciesComeFirst(names: seq<string>, known: map<string, Enricher>, i: nat, j: nat)
    requires Supported(names, known)
    requires var run := Sorting.SortBy(Instances(Unique(names), known), Priority);
             i < |run| && j < |run| && run[i].priority < run[j].priority
    ensures i < j
  {
    Sorting.SortIsSorted(Instances(Unique(names), known), Priority);
    var run := Sorting.SortBy(Instances(Unique(names), known), Priority);
    assert j < i ==> Priority(run[j]) <= Priority(run[i]);
  }

  /** What the later one is given, the earlier one has already acted on. */
  lemma LowerPriorityActsFirst(
      names: seq<string>, known: map<string, Enricher>, i: nat, j: nat, at: Moment, event: Event)
    requires Supported(names, known)
    requires var run := Sorting.SortBy(Instances(Unique(names), known), Priority);
             i < |run| && j < |run| && run[i].priority < run[j].priority
    ensures var run := Sorting.SortBy(Instances(Unique(names), known), Priority);
            && i < j
            && var given := PassAll(run[i + 1..j], at, Pass(run[i], at, PassAll(run[..i], at, event)));
               PassAll(run, at, event) == PassAll(run[j + 1..], at, Pass(run[j], at, given))
  {
    DependenciesComeFirst(names, known, i, j);
    var run := Sorting.SortBy(Instances(Unique(names), known), Priority);
    EarlierActFirst(run, at, event, j);
    EarlierActFirst(run[..j], at, event, i);
    assert run[..j][..i] == run[..i] && run[..j][i + 1..] == run[i + 1..j];
  }
}
