/** The TTL de-duplication table: which (event, target) keys were delivered recently. */
module Dedup {

  type Key = string

  /** The `seen` table: key -> time it was last marked done. */
  type Table = map<Key, int>

  /** DELETE FROM seen WHERE seen_at < cutoff. */
  function Purge(seen: Table, cutoff: int): Table {
    map k | k in seen && seen[k] >= cutoff :: seen[k]
  }

  /** The table a lookup leaves behind: the lookup deletes every expired row, unless de-dup is disabled. */
  function AfterLookup(ttl: int, seen: Table, now: int): Table {
    if ttl <= 0 then seen else Purge(seen, now - ttl)
  }

  /** Whether a lookup reports the key as done. */
  predicate Suppresses(ttl: int, seen: Table, key: Key, now: int) {
    ttl > 0 && key in seen && seen[key] >= now - ttl
  }

  /** The table after marking a key done. */
  function AfterMark(ttl: int, seen: Table, key: Key, now: int): Table {
    if ttl <= 0 then seen else seen[key := now]
  }

  class DedupStore {
    const ttl: int
    var seen: Table

    constructor (ttl: int)
      ensures this.ttl == ttl && seen == map[]
    {
      this.ttl := ttl;
      seen := map[];
    }

    /** Also purges: the table is not left as it was. */
    method AlreadyDone(key: Key, now: int) returns (done: bool)
      modifies this
      ensures done <==> Suppresses(ttl, old(seen), key, now)
      ensures seen == AfterLookup(ttl, old(seen), now)
    {
      if ttl <= 0 {
        return false;
      }
      var cutoff := now - ttl;
      seen := Purge(seen, cutoff);
      done := key in seen;
    }

    method MarkDone(key: Key, now: int)
      modifies this
      ensures seen == AfterMark(ttl, old(seen), key, now)
    {
      if ttl <= 0 {
        return;
      }
      seen := seen[key := now];
    }
  }

  /**
   * What a lookup answers after any number of purging lookups in between: purging at earlier
   * times never removes a key a later lookup would still have suppressed.
   */
  lemma PurgeIsInvisible(ttl: int, seen: Table, key: Key, earlier: int, now: int)
    requires earlier <= now
    ensures Suppresses(ttl, AfterLookup(ttl, seen, earlier), key, now) <==> Suppresses(ttl, seen, key, now)
  {
  }

  /** A repeat found done leaves the key's timestamp alone, so the window is never extended by a repeat. */
  lemma RepeatDoesNotRefresh(ttl: int, seen: Table, key: Key, now: int, later: int)
    requires Suppresses(ttl, seen, key, now) && now <= later
    ensures Suppresses(ttl, AfterLookup(ttl, seen, now), key, later) <==> later <= seen[key] + ttl
  {
  }
}
