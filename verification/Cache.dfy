/** The TTL caches in front of the analyzer, the advisory pages and the management-address lookups. */
module Cache {
  import opened Common

  datatype Stored<+V> = Stored(at: real, value: V)

  /** History of one put(). */
  datatype Entry<+V> = Entry(key: string, at: real, value: V)

  /** The index of the latest put for `key`. */
  function LastPut<V>(puts: seq<Entry<V>>, key: string): (r: Option<nat>)
    ensures r.Some? ==> r.value < |puts| && puts[r.value].key == key
  {
    if puts == [] then None
    else if puts[|puts| - 1].key == key then Some(|puts| - 1)
    else LastPut(puts[..|puts| - 1], key)
  }

  lemma {:induction false} LastPutIsLast<V>(puts: seq<Entry<V>>, j: nat)
    requires j < |puts|
    ensures LastPut(puts, puts[j].key).Some? && LastPut(puts, puts[j].key).value >= j
  {
    if j < |puts| - 1 {
      LastPutIsLast(puts[..|puts| - 1], j);
    }
  }

  ghost predicate Increasing<V>(puts: seq<Entry<V>>) {
    forall i, j :: 0 <= i < j < |puts| ==> puts[i].at < puts[j].at
  }

  ghost predicate Oldest<V>(data: map<string, Stored<V>>, key: string) {
    key in data && forall k :: k in data ==> data[key].at <= data[k].at
  }

  /** Every entry is the latest put for its key. */
  ghost predicate Faithful<V>(data: map<string, Stored<V>>, puts: seq<Entry<V>>) {
    forall k :: k in data ==>
      && LastPut(puts, k).Some?
      && data[k] == Stored(puts[LastPut(puts, k).value].at, puts[LastPut(puts, k).value].value)
  }

  /** The put at `i` is no longer owed an answer: too old, or `max` puts came after it. */
  predicate Spent<V>(puts: seq<Entry<V>>, i: nat, ttl: int, max: int, now: real)
    requires i < |puts|
  {
    now - puts[i].at > ttl as real || |puts| - i > max
  }

  /** An entry is missing only when its put is spent. */
  ghost predicate Retained<V>(data: map<string, Stored<V>>, puts: seq<Entry<V>>, ttl: int, max: int, now: real) {
    forall k :: LastPut(puts, k).Some? && k !in data ==> Spent(puts, LastPut(puts, k).value, ttl, max, now)
  }

  /** No put for the key is still owed an answer. */
  ghost predicate Missing<V>(puts: seq<Entry<V>>, key: string, ttl: int, max: int, now: real) {
    LastPut(puts, key).Some? ==> Spent(puts, LastPut(puts, key).value, ttl, max, now)
  }

  /** `value` is the latest put for the key and no older than the ttl. */
  ghost predicate IsLive<V>(puts: seq<Entry<V>>, key: string, value: V, ttl: int, now: real) {
    var last := LastPut(puts, key);
    last.Some? && puts[last.value].value == value && now - puts[last.value].at <= ttl as real
  }

  /**
   * A look-up through a cache that went from `puts` to `puts'`: without a key nothing is found or asked; a live entry
   * is found without asking; otherwise one question is asked, and its answer, if there is one, is found and put.
   */
  ghost predicate LooksUp<V>(
      puts: seq<Entry<V>>, puts': seq<Entry<V>>, ttl: int, max: int, key: Option<string>, now: real,
      found: Option<V>, asked: bool, answer: Option<V>, later: real)
  {
    match OrNone(key)
    case None => found.None? && !asked && puts' == puts
    case Some(k) =>
      if asked then
        && (Increasing(puts) ==> Missing(puts, k, ttl, max, now))
        && found == answer
        && puts' == puts + if answer.Some? && ttl > 0 then [Entry(k, later, answer.value)] else []
      else found.Some? && IsLive(puts, k, found.value, ttl, now) && puts' == puts
  }

  lemma LastPutAppend<V>(puts: seq<Entry<V>>, put: Entry<V>)
    ensures LastPut(puts + [put], put.key) == Some(|puts|)
    ensures forall k :: k != put.key ==> LastPut(puts + [put], k) == LastPut(puts, k)
  {
    assert (puts + [put])[..|puts|] == puts;
  }

  function KeysOf<V>(puts: seq<Entry<V>>): (r: set<string>)
    ensures |r| <= |puts|
    ensures forall i :: 0 <= i < |puts| ==> puts[i].key in r
  {
    if puts == [] then {} else KeysOf(puts[..|puts| - 1]) + {puts[|puts| - 1].key}
  }

  lemma SubsetIsSmaller<T>(a: set<T>, b: set<T>)
    requires a <= b
    ensures |a| <= |b|
  {
    assert b == a + (b - a);
  }

  lemma NoneIsOlder<V>(data: map<string, Stored<V>>, puts: seq<Entry<V>>, oldest: string, k: string)
    requires Faithful(data, puts) && Increasing(puts) && Oldest(data, oldest) && k in data
    ensures LastPut(puts, k).value >= LastPut(puts, oldest).value
  {
    var i, j := LastPut(puts, oldest).value, LastPut(puts, k).value;
    assert data[oldest].at == puts[i].at && data[k].at == puts[j].at;
  }

  /** When put times strictly increase, the oldest of n entries has at least n - 1 puts after its own. */
  lemma OldestIsLate<V>(data: map<string, Stored<V>>, puts: seq<Entry<V>>, oldest: string)
    requires Faithful(data, puts) && Increasing(puts) && Oldest(data, oldest)
    ensures |puts| - LastPut(puts, oldest).value >= |data|
  {
    var i := LastPut(puts, oldest).value;
    forall k | k in data
      ensures k in KeysOf(puts[i..])
    {
      NoneIsOlder(data, puts, oldest, k);
      var j := LastPut(puts, k).value;
      assert puts[i..][j - i].key == k;
    }
    SubsetIsSmaller(data.Keys, KeysOf(puts[i..]));
    assert |data| == |data.Keys|;
  }

  /** Once spent, a put stays spent as time passes and more puts follow. */
  lemma SpentStays<V>(puts: seq<Entry<V>>, put: Entry<V>, i: nat, ttl: int, max: int, before: real, now: real)
    requires i < |puts| && Spent(puts, i, ttl, max, before) && before <= now
    ensures Spent(puts + [put], i, ttl, max, now)
  {
  }

  /** The data left after making room. */
  function Without<V>(data: map<string, Stored<V>>, key: string): map<string, Stored<V>> {
    data - {key}
  }

  lemma EvictKeepsRetained<V>(
      data: map<string, Stored<V>>, puts: seq<Entry<V>>, ttl: int, max: int, before: real,
      oldest: string, put: Entry<V>, now: real)
    requires Faithful(data, puts) && Increasing(puts) && Retained(data, puts, ttl, max, before) && before <= now
    requires Oldest(data, oldest) && |data| >= max
    ensures Retained(Without(data, oldest)[put.key := Stored(put.at, put.value)], puts + [put], ttl, max, now)
  {
    LastPutAppend(puts, put);
    OldestIsLate(data, puts, oldest);
    forall k | LastPut(puts, k).Some? && k != put.key && (k !in data || k == oldest)
      ensures Spent(puts + [put], LastPut(puts, k).value, ttl, max, now)
    {
      if k !in data {
        SpentStays(puts, put, LastPut(puts, k).value, ttl, max, before, now);
      }
    }
  }

  lemma PutKeepsRetained<V>(
      data: map<string, Stored<V>>, puts: seq<Entry<V>>, ttl: int, max: int, before: real, put: Entry<V>, now: real)
    requires Retained(data, puts, ttl, max, before) && before <= now
    ensures Retained(data[put.key := Stored(put.at, put.value)], puts + [put], ttl, max, now)
  {
    LastPutAppend(puts, put);
    forall k | LastPut(puts, k).Some? && k != put.key && k !in data
      ensures Spent(puts + [put], LastPut(puts, k).value, ttl, max, now)
    {
      SpentStays(puts, put, LastPut(puts, k).value, ttl, max, before, now);
    }
  }

  lemma PutKeepsFaithful<V>(data: map<string, Stored<V>>, puts: seq<Entry<V>>, put: Entry<V>)
    requires Faithful(data, puts)
    ensures Faithful(data[put.key := Stored(put.at, put.value)], puts + [put])
  {
    LastPutAppend(puts, put);
    var data' := data[put.key := Stored(put.at, put.value)];
    var puts' := puts + [put];
    forall k | k in data'
      ensures LastPut(puts', k).Some?
      ensures data'[k] == Stored(puts'[LastPut(puts', k).value].at, puts'[LastPut(puts', k).value].value)
    {
      if k != put.key {
        assert LastPut(puts', k) == LastPut(puts, k);
      }
    }
  }

  // --- The dictionary's order -----------------------------------------------------------

  /** The keys in the order in which the dictionary holds them. */
  ghost predicate Listed<V>(data: map<string, Stored<V>>, order: seq<string>) {
    forall k :: k in data <==> k in order
  }

  /** The first of the entries with the smallest time: min() over the dictionary. */
  function FirstOldest<V>(data: map<string, Stored<V>>, order: seq<string>): (oldest: string)
    requires order != [] && forall k :: k in order ==> k in data
    ensures oldest in order
  {
    var last := order[|order| - 1];
    if |order| == 1 then last
    else
      var before := FirstOldest(data, order[..|order| - 1]);
      if data[last].at < data[before].at then last else before
  }

  lemma {:induction false} FirstOldestIsFirst<V>(data: map<string, Stored<V>>, order: seq<string>, i: nat)
    requires order != [] && i < |order| && forall k :: k in order ==> k in data
    ensures var oldest := FirstOldest(data, order);
      && data[oldest].at <= data[order[i]].at
      && (data[order[i]].at == data[oldest].at ==> oldest in order[..i + 1])
  {
    var n := |order| - 1;
    if n > 0 && i < n {
      FirstOldestIsFirst(data, order[..n], i);
      assert order[..n][..i + 1] == order[..i + 1];
    } else if n > 0 {
      assert order[..i + 1] == order;
    }
  }

  function Dropped(order: seq<string>, key: string): seq<string> {
    Filter(order, k => k != key)
  }

  lemma DroppedIsGone(order: seq<string>, key: string, k: string)
    ensures k in Dropped(order, key) <==> k in order && k != key
  {
    FilterIsExact(order, x => x != key, k);
    assert k in Dropped(order, key) <==> multiset(Dropped(order, key))[k] > 0;
    assert k in order <==> multiset(order)[k] > 0;
  }

  lemma DropKeepsListed<V>(data: map<string, Stored<V>>, order: seq<string>, key: string)
    requires Listed(data, order)
    ensures Listed(Without(data, key), Dropped(order, key))
  {
    forall k
      ensures k in Without(data, key) <==> k in Dropped(order, key)
    {
      DroppedIsGone(order, key, k);
    }
  }

  /** The order after storing under a key: a present key keeps its place, a new one comes last. */
  function Placed(order: seq<string>, key: string): (r: seq<string>)
    ensures order <= r && key in r && |r| == |order| + if key in order then 0 else 1
  {
    if key in order then order else order + [key]
  }

  /** The order when room has been made. */
  function Left<V>(data: map<string, Stored<V>>, order: seq<string>, max: int): seq<string>
    requires |data| >= max ==> order != [] && forall k :: k in order ==> k in data
  {
    if |data| >= max then Dropped(order, FirstOldest(data, order)) else order
  }

  lemma StoringKeepsListed<V>(data: map<string, Stored<V>>, order: seq<string>, put: Entry<V>, max: int)
    requires Listed(data, order) && (|data| >= max ==> order != [])
    ensures Listed(Kept(data, order, max)[put.key := Stored(put.at, put.value)],
                   Placed(Left(data, order, max), put.key))
    ensures put.key in Kept(data, order, max) <==> put.key in Left(data, order, max)
  {
    if |data| >= max {
      DropKeepsListed(data, order, FirstOldest(data, order));
    }
  }

  /** What is left when room has been made: when the cache is full, without the first oldest entry. */
  function Kept<V>(data: map<string, Stored<V>>, order: seq<string>, max: int): map<string, Stored<V>>
    requires |data| >= max ==> order != [] && forall k :: k in order ==> k in data
  {
    if |data| >= max then Without(data, FirstOldest(data, order)) else data
  }

  lemma FullHasOldest<V>(data: map<string, Stored<V>>, order: seq<string>, max: int)
    requires Listed(data, order) && max >= 1 && |data| >= max
    ensures order != [] && Oldest(data, FirstOldest(data, order))
  {
    assert data.Keys != {};
    var some :| some in data.Keys;
    assert some in order;
    forall k | k in data
      ensures data[FirstOldest(data, order)].at <= data[k].at
    {
      var i :| 0 <= i < |order| && order[i] == k;
      FirstOldestIsFirst(data, order, i);
    }
  }

  lemma StoringFits<V>(data: map<string, Stored<V>>, order: seq<string>, put: Entry<V>, max: int)
    requires Listed(data, order) && 1 <= max && |data| <= max
    ensures |data| >= max ==> order != []
    ensures |Kept(data, order, max)[put.key := Stored(put.at, put.value)]| <= max
  {
    if |data| >= max {
      FullHasOldest(data, order, max);
      Shrinks(data.Keys, Kept(data, order, max).Keys);
    }
    var kept := Kept(data, order, max);
    assert kept[put.key := Stored(put.at, put.value)].Keys == kept.Keys + {put.key};
  }

  lemma Shrinks<T>(all: set<T>, some: set<T>)
    requires some < all
    ensures |some| < |all|
  {
    assert all == some + (all - some);
    var x :| x in all - some;
  }

  lemma StoringKeepsFaithful<V>(
      data: map<string, Stored<V>>, order: seq<string>, puts: seq<Entry<V>>, put: Entry<V>, max: int)
    requires Listed(data, order) && 1 <= max && Faithful(data, puts)
    requires |data| >= max ==> order != []
    ensures Faithful(Kept(data, order, max)[put.key := Stored(put.at, put.value)], puts + [put])
  {
    PutKeepsFaithful(Kept(data, order, max), puts, put);
  }

  lemma StoringKeepsRetained<V>(
      data: map<string, Stored<V>>, order: seq<string>, puts: seq<Entry<V>>, put: Entry<V>,
      ttl: int, max: int, before: real, now: real)
    requires Listed(data, order) && 1 <= max && Faithful(data, puts) && before <= now
    requires |data| >= max ==> order != []
    requires Increasing(puts) ==> Retained(data, puts, ttl, max, before)
    ensures Increasing(puts + [put]) ==>
              Retained(Kept(data, order, max)[put.key := Stored(put.at, put.value)], puts + [put], ttl, max, now)
  {
    if Increasing(puts + [put]) {
      assert Increasing(puts) by {
        assert (puts + [put])[..|puts|] == puts;
      }
      if |data| < max {
        PutKeepsRetained(data, puts, ttl, max, before, put, now);
      } else {
        FullHasOldest(data, order, max);
        EvictKeepsRetained(data, puts, ttl, max, before, FirstOldest(data, order), put, now);
      }
    }
  }

  /** Everything the cache keeps, across one put. */
  ghost predicate Sound<V>(
      data: map<string, Stored<V>>, order: seq<string>, puts: seq<Entry<V>>, ttl: int, max: int, now: real)
  {
    && |data| <= max && Listed(data, order) && Faithful(data, puts)
    && (Increasing(puts) ==> Retained(data, puts, ttl, max, now))
  }

  lemma PutKeepsTable<V>(
      data: map<string, Stored<V>>, order: seq<string>, puts: seq<Entry<V>>, put: Entry<V>,
      ttl: int, max: int, before: real, now: real)
    requires 1 <= max && Sound(data, order, puts, ttl, max, before) && before <= now
    ensures |data| >= max ==> order != []
    ensures Sound(Kept(data, order, max)[put.key := Stored(put.at, put.value)], Placed(Left(data, order, max), put.key),
                  puts + [put], ttl, max, now)
    ensures put.key in Kept(data, order, max) <==> put.key in Left(data, order, max)
  {
    StoringFits(data, order, put, max);
    StoringKeepsListed(data, order, put, max);
    StoringKeepsFaithful(data, order, puts, put, max);
    StoringKeepsRetained(data, order, puts, put, ttl, max, before, now);
  }

  function Later(a: real, b: real): real { if a >= b then a else b }

  class Cache<V> {
    const ttl: int
    const max: int
    var data: map<string, Stored<V>>
    var order: seq<string>  // the dictionary's order: a key keeps its place when its entry is replaced
    ghost var puts: seq<Entry<V>>
    ghost var seen: real

    ghost predicate Valid()
      reads this
    {
      max >= 1 && (ttl <= 0 ==> puts == []) && Sound(data, order, puts, ttl, max, seen)
    }

    constructor (ttl: int, max: int)
      requires max >= 1
      ensures Valid() && this.ttl == ttl && this.max == max && data == map[] && puts == []
    {
      this.ttl, this.max, data, order, puts, seen := ttl, max, map[], [], [], 0.0;
    }

    /**
     * Only the latest value put for the key, and only while no older than the ttl. As long as put times
     * strictly increase, that value is missing only once it is too old or `max` puts came after it.
     */
    method Get(key: string, now: real) returns (hit: Option<V>)
      requires Valid()
      modifies this
      ensures Valid() && puts == old(puts) && seen == Later(old(seen), now)
      ensures var expired := ttl > 0 && key in old(data) && now - old(data)[key].at > ttl as real;
              && data == (if expired then Without(old(data), key) else old(data))
              && order == if expired then Dropped(old(order), key) else old(order)
      ensures hit.Some? ==> IsLive(puts, key, hit.value, ttl, now)
      ensures hit.None? && Increasing(puts) ==> Missing(puts, key, ttl, max, seen)
    {
      seen := Later(seen, now);
      if ttl <= 0 || key !in data {
        return None;
      }
      var stored := data[key];
      if now - stored.at > ttl as real {
        DropKeepsListed(data, order, key);
        data, order := Without(data, key), Dropped(order, key);
        assert |data.Keys| <= |old(data).Keys|;
        return None;
      }
      return Some(stored.value);
    }

    /** A full cache first drops its first oldest entry, even when the key is present. */
    method Put(key: string, value: V, now: real)
      requires Valid()
      modifies this
      ensures Valid() && seen == Later(old(seen), now)
      ensures ttl <= 0 ==> data == old(data) && order == old(order) && puts == old(puts)
      ensures ttl > 0 ==> puts == old(puts) + [Entry(key, now, value)]
      ensures ttl > 0 && |old(data)| >= max ==> old(order) != []
      ensures ttl > 0 ==>
        && data == Kept(old(data), old(order), max)[key := Stored(now, value)]
        && order == Placed(Left(old(data), old(order), max), key)
    {
      seen := Later(seen, now);
      if ttl <= 0 {
        return;
      }
      ghost var put := Entry(key, now, value);
      PutKeepsTable(data, order, puts, put, ttl, max, old(seen), seen);
      if |data| >= max {
        var oldest := FirstOldest(data, order);
        data, order := Without(data, oldest), Dropped(order, oldest);
      }
      if key !in data {
        order := order + [key];
      }
      data, puts := data[key := Stored(now, value)], puts + [put];
    }
  }
}
