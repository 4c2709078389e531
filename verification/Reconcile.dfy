/**
 * Whether a target that opens on raise and closes on clear ends up agreeing with the servers, given that
 * repeats are suppressed and failed batches come back later. Events are handled by deliver(), one
 * (event, target) pair after another; a forward takes as long as it takes, and the pair is marked only after it.
 */
module Reconcile {
  import opened Common
  import opened Events
  import opened Dedup
  import L = Ledgers
  import opened Deliver
  import opened Identity
  import opened Normalize

  /** One target's item for one problem: (target, correlation key). */
  type Item = (string, string)

  /**
   * What matters of one event for one target: its delivery key, its item, the arrival number of the snapshot it
   * stems from, and raise or clear.
   */
  datatype Note = Note(key: Key, item: Item, snapshot: nat, raised: bool)

  function KeysOf(notes: seq<Note>): (keys: seq<Key>)
    ensures |keys| == |notes|
    ensures forall i :: 0 <= i < |notes| ==> keys[i] == notes[i].key
  {
    seq(|notes|, i requires 0 <= i < |notes| => notes[i].key)
  }

  /** deliver() comes to each note in turn, from an empty table. */
  ghost predicate Handled(ttl: int, start: int, notes: seq<Note>, turns: seq<Turn>) {
    AllPlayable(ttl, L.Start(start), KeysOf(notes), turns)
  }

  /** A delivery key stands for one state of one item. */
  ghost predicate SameState(a: Note, b: Note) {
    a.key == b.key ==> a.item == b.item && a.raised == b.raised
  }

  ghost predicate Keyed(notes: seq<Note>) {
    forall i, j :: 0 <= i < |notes| && 0 <= j < |notes| ==> SameState(notes[i], notes[j])
  }

  // --- When a note is dropped ----------------------------------------------------------------

  /** Note j comes no later than one window after note i, with the same key, was marked. */
  predicate Repeats(ttl: int, keys: seq<Key>, turns: seq<Turn>, i: nat, j: nat)
    requires i < |keys| == |turns| && j < |keys|
  {
    ttl > 0 && i < j && keys[i] == keys[j] && turns[i].Succeeded? && turns[j].at <= turns[i].markedAt + ttl
  }

  /** The time of a row is when one of the first n turns of its key marked it. */
  ghost predicate MarkedByTurn(keys: seq<Key>, turns: seq<Turn>, n: nat, key: Key, at: int)
    requires n <= |keys| == |turns|
  {
    exists i :: 0 <= i < n && keys[i] == key && turns[i].Succeeded? && turns[i].markedAt == at
  }

  /** The first n turns' marks are in the table, unless they have expired, and nothing else is. */
  ghost predicate Tabled(ttl: int, l: L.Ledger, keys: seq<Key>, turns: seq<Turn>, n: nat)
    requires n <= |keys| == |turns|
  {
    && (forall k :: k in l.seen ==> MarkedByTurn(keys, turns, n, k, l.seen[k]))
    && (forall i :: 0 <= i < n && turns[i].Succeeded? ==>
          (keys[i] in l.seen && l.seen[keys[i]] >= turns[i].markedAt) || turns[i].markedAt + ttl < l.now)
    && (forall i :: 0 <= i < n && turns[i].Succeeded? ==> turns[i].markedAt <= l.now)
  }

  lemma TurnStaysTabled(ttl: int, l: L.Ledger, keys: seq<Key>, turns: seq<Turn>, n: nat)
    requires ttl > 0 && 0 < n <= |keys| == |turns| && Tabled(ttl, l, keys, turns, n - 1)
    requires Playable(ttl, l, keys[n - 1], turns[n - 1])
    ensures Tabled(ttl, Play(ttl, l, keys[n - 1], turns[n - 1]), keys, turns, n)
  {
    var l' := Play(ttl, l, keys[n - 1], turns[n - 1]);
    forall k | k in l'.seen
      ensures MarkedByTurn(keys, turns, n, k, l'.seen[k])
    {
      if turns[n - 1].Succeeded? && k == keys[n - 1] {
        assert turns[n - 1].markedAt == l'.seen[k];
      } else {
        var i :| 0 <= i < n - 1 && keys[i] == k && turns[i].Succeeded? && turns[i].markedAt == l.seen[k];
      }
    }
  }

  lemma {:induction false} AlwaysTabled(ttl: int, start: int, keys: seq<Key>, turns: seq<Turn>, n: nat)
    requires ttl > 0 && n <= |keys| == |turns| && AllPlayable(ttl, L.Start(start), keys[..n], turns[..n])
    ensures Tabled(ttl, PlayAll(ttl, L.Start(start), keys[..n], turns[..n]), keys, turns, n)
  {
    if n > 0 {
      assert keys[..n][..n - 1] == keys[..n - 1] && turns[..n][..n - 1] == turns[..n - 1];
      AlwaysTabled(ttl, start, keys, turns, n - 1);
      TurnStaysTabled(ttl, PlayAll(ttl, L.Start(start), keys[..n - 1], turns[..n - 1]), keys, turns, n);
    }
  }

  /** Note j is dropped: it repeats some note that was marked at most one window before. */
  ghost predicate Repeated(ttl: int, keys: seq<Key>, turns: seq<Turn>, j: nat)
    requires j < |keys| == |turns|
  {
    exists i :: 0 <= i < j && Repeats(ttl, keys, turns, i, j)
  }

  lemma DroppedIffRepeated(ttl: int, start: int, keys: seq<Key>, turns: seq<Turn>, j: nat)
    requires AllPlayable(ttl, L.Start(start), keys, turns) && j < |keys|
    ensures turns[j].Skipped? <==> Repeated(ttl, keys, turns, j)
  {
    TurnIsPlayable(ttl, L.Start(start), keys, turns, j);
    PrefixPlayable(ttl, L.Start(start), keys, turns, j);
    SuppressedIffRepeated(ttl, start, keys, turns, j);
  }

  /** What the table says at turn j is what the earlier turns' marks say. */
  lemma SuppressedIffRepeated(ttl: int, start: int, keys: seq<Key>, turns: seq<Turn>, j: nat)
    requires j < |keys| == |turns| && AllPlayable(ttl, L.Start(start), keys[..j], turns[..j])
    requires PlayAll(ttl, L.Start(start), keys[..j], turns[..j]).now <= turns[j].at
    ensures Suppresses(ttl, PlayAll(ttl, L.Start(start), keys[..j], turns[..j]).seen, keys[j], turns[j].at)
       <==> Repeated(ttl, keys, turns, j)
  {
    if ttl > 0 {
      AlwaysTabled(ttl, start, keys, turns, j);
      var l := PlayAll(ttl, L.Start(start), keys[..j], turns[..j]);
      if Suppresses(ttl, l.seen, keys[j], turns[j].at) {
        assert MarkedByTurn(keys, turns, j, keys[j], l.seen[keys[j]]);
        var i :| 0 <= i < j && keys[i] == keys[j] && turns[i].Succeeded? && turns[i].markedAt == l.seen[keys[j]];
        assert Repeats(ttl, keys, turns, i, j);
      }
    }
  }

  function EndOf(start: int, turns: seq<Turn>, n: nat): int
    requires n <= |turns|
  {
    if n == 0 then start
    else match turns[n - 1]
      case Skipped(at) => at
      case Failed(_, returnedAt) => returnedAt
      case Succeeded(_, _, markedAt) => markedAt
  }

  /** The times of the first n turns follow one another. */
  predicate InTime(start: int, turns: seq<Turn>, n: nat)
    requires n <= |turns|
  {
    n == 0 || (
      && InTime(start, turns, n - 1)
      && EndOf(start, turns, n - 1) <= turns[n - 1].at
      && (turns[n - 1].Failed? ==> turns[n - 1].at <= turns[n - 1].returnedAt)
      && (turns[n - 1].Succeeded? ==> turns[n - 1].at <= turns[n - 1].returnedAt <= turns[n - 1].markedAt))
  }

  ghost predicate DropsRepeats(ttl: int, keys: seq<Key>, turns: seq<Turn>, n: nat)
    requires n <= |keys| == |turns|
  {
    forall j :: 0 <= j < n ==> (turns[j].Skipped? <==> Repeated(ttl, keys, turns, j))
  }

  /** A turn can come next exactly if its times follow and it drops just a repeat. */
  lemma PlayableIffInTime(ttl: int, start: int, keys: seq<Key>, turns: seq<Turn>, n: nat)
    requires n < |keys| == |turns| && AllPlayable(ttl, L.Start(start), keys[..n], turns[..n])
    requires PlayAll(ttl, L.Start(start), keys[..n], turns[..n]).now == EndOf(start, turns, n)
    ensures Playable(ttl, PlayAll(ttl, L.Start(start), keys[..n], turns[..n]), keys[n], turns[n])
       <==> && EndOf(start, turns, n) <= turns[n].at
            && (turns[n].Failed? ==> turns[n].at <= turns[n].returnedAt)
            && (turns[n].Succeeded? ==> turns[n].at <= turns[n].returnedAt <= turns[n].markedAt)
            && (turns[n].Skipped? <==> Repeated(ttl, keys, turns, n))
  {
    PlayAllKeeps(ttl, L.Start(start), keys[..n], turns[..n]);
    if EndOf(start, turns, n) <= turns[n].at {
      SuppressedIffRepeated(ttl, start, keys, turns, n);
    }
  }

  /** Turns can happen exactly if their times follow one another and just the repeats are dropped. */
  lemma {:induction false} HandledIffInTime(ttl: int, start: int, keys: seq<Key>, turns: seq<Turn>, n: nat)
    requires n <= |keys| == |turns|
    ensures AllPlayable(ttl, L.Start(start), keys[..n], turns[..n])
       <==> InTime(start, turns, n) && DropsRepeats(ttl, keys, turns, n)
    ensures AllPlayable(ttl, L.Start(start), keys[..n], turns[..n]) ==>
              PlayAll(ttl, L.Start(start), keys[..n], turns[..n]).now == EndOf(start, turns, n)
  {
    if n > 0 {
      HandledIffInTime(ttl, start, keys, turns, n - 1);
      OneMoreDrop(ttl, keys, turns, n);
      assert keys[..n][..n - 1] == keys[..n - 1] && turns[..n][..n - 1] == turns[..n - 1];
      if AllPlayable(ttl, L.Start(start), keys[..n - 1], turns[..n - 1]) {
        PlayableIffInTime(ttl, start, keys, turns, n - 1);
      }
    }
  }

  lemma OneMoreDrop(ttl: int, keys: seq<Key>, turns: seq<Turn>, n: nat)
    requires 0 < n <= |keys| == |turns|
    ensures DropsRepeats(ttl, keys, turns, n)
       <==> DropsRepeats(ttl, keys, turns, n - 1) && (turns[n - 1].Skipped? <==> Repeated(ttl, keys, turns, n - 1))
  {
  }

  // --- What the target has, and what it should have ---------------------------------------------

  /** The items open at the targets after the first n notes: only what is forwarded reaches a target. */
  function OpenItems(notes: seq<Note>, turns: seq<Turn>, n: nat): set<Item>
    requires n <= |notes| == |turns|
  {
    if n == 0 then {}
    else if !turns[n - 1].Succeeded? then OpenItems(notes, turns, n - 1)
    else if notes[n - 1].raised then OpenItems(notes, turns, n - 1) + {notes[n - 1].item}
    else OpenItems(notes, turns, n - 1) - {notes[n - 1].item}
  }

  /** The items a target that opens on raise and closes on clear has open after these forwards. */
  function OpenAfter(sent: seq<Sent>): set<Item> {
    if sent == [] then {} else Took(OpenAfter(sent[..|sent| - 1]), sent[|sent| - 1])
  }

  function Took(open: set<Item>, s: Sent): set<Item> {
    var item := (s.adapter, s.event.correlationKey);
    if !s.ok then open else if s.event.action.Raise? then open + {item} else open - {item}
  }

  lemma OpenAfterOneMore(sent: seq<Sent>, share: Share, t: Turn)
    ensures OpenAfter(sent + SendsOf(share, t))
         == if t.Skipped? then OpenAfter(sent)
            else Took(OpenAfter(sent), Sent(share.event, share.adapter, t.Succeeded?))
  {
    if t.Skipped? {
      assert sent + [] == sent;
    } else {
      assert (sent + SendsOf(share, t))[..|sent|] == sent;
    }
  }

  /** The note is what matters of the share. */
  predicate Notes(share: Share, note: Note) {
    note.item == (share.adapter, share.event.correlationKey) && note.raised == share.event.action.Raise?
  }

  /** The open items are those of the events that really were sent. */
  lemma {:induction false} OpenIsWhatWasSent(shares: seq<Share>, notes: seq<Note>, turns: seq<Turn>)
    requires |notes| == |turns| == |shares| && forall i :: 0 <= i < |notes| ==> Notes(shares[i], notes[i])
    ensures OpenItems(notes, turns, |notes|) == OpenAfter(Sends(shares, turns))
    decreases |notes|
  {
    if notes != [] {
      var n := |notes| - 1;
      OpenIsWhatWasSent(shares[..n], notes[..n], turns[..n]);
      OpenItemsPrefix(notes, turns, n, n);
      OpenAfterOneMore(Sends(shares[..n], turns[..n]), shares[n], turns[n]);
      assert Notes(shares[n], notes[n]);
    }
  }

  lemma {:induction false} OpenItemsPrefix(notes: seq<Note>, turns: seq<Turn>, m: nat, n: nat)
    requires n <= m <= |notes| == |turns|
    ensures OpenItems(notes[..m], turns[..m], n) == OpenItems(notes, turns, n)
  {
    if n > 0 {
      OpenItemsPrefix(notes, turns, m, n - 1);
    }
  }

  /** What a note or a reading is about, and how new it is. */
  datatype Stamp = Stamp(item: Item, snapshot: nat)

  function StampsOf(notes: seq<Note>): (stamps: seq<Stamp>)
    ensures |stamps| == |notes|
    ensures forall i :: 0 <= i < |notes| ==> stamps[i] == Stamp(notes[i].item, notes[i].snapshot)
  {
    seq(|notes|, i requires 0 <= i < |notes| => Stamp(notes[i].item, notes[i].snapshot))
  }

  /**
   * Among the first n, the position of the item's newest snapshot, and of its last handling when it was handled
   * several times. A batch that comes back later is not newer for that.
   */
  function NewestOf(stamps: seq<Stamp>, item: Item, n: nat): (r: Option<nat>)
    requires n <= |stamps|
    ensures r.Some? ==> r.value < n && stamps[r.value].item == item
  {
    if n == 0 then None
    else
      var before := NewestOf(stamps, item, n - 1);
      if stamps[n - 1].item == item && (before.Some? ==> stamps[before.value].snapshot <= stamps[n - 1].snapshot)
      then Some(n - 1) else before
  }

  lemma {:induction false} NewestOfIsNewest(stamps: seq<Stamp>, item: Item, n: nat, k: nat)
    requires k < n <= |stamps| && stamps[k].item == item
    ensures var r := NewestOf(stamps, item, n);
      && r.Some? && stamps[k].snapshot <= stamps[r.value].snapshot
      && (stamps[k].snapshot == stamps[r.value].snapshot ==> k <= r.value)
  {
    if k < n - 1 {
      NewestOfIsNewest(stamps, item, n - 1, k);
    }
  }

  /** No earlier note about the item stems from a newer snapshot than note j. */
  predicate IsNewest(notes: seq<Note>, j: nat)
    requires j < |notes|
  {
    var before := NewestOf(StampsOf(notes), notes[j].item, j);
    before.Some? ==> notes[before.value].snapshot <= notes[j].snapshot
  }

  /** The newest snapshot so far has the item raised. */
  predicate NewestRaised(notes: seq<Note>, item: Item, n: nat)
    requires n <= |notes|
  {
    var newest := NewestOf(StampsOf(notes), item, n);
    newest.Some? && notes[newest.value].raised
  }

  /** The target has the item open exactly if the newest snapshot so far has it raised. */
  predicate Agrees(notes: seq<Note>, turns: seq<Turn>, item: Item, n: nat)
    requires n <= |notes| == |turns|
  {
    item in OpenItems(notes, turns, n) <==> NewestRaised(notes, item, n)
  }

  // --- Agreement, exactly -------------------------------------------------------------------

  /** The last of the first n notes that was forwarded for the item. */
  function LastForwarded(notes: seq<Note>, turns: seq<Turn>, item: Item, n: nat): (r: Option<nat>)
    requires n <= |notes| == |turns|
    ensures r.Some? ==> r.value < n && notes[r.value].item == item && turns[r.value].Succeeded?
  {
    if n == 0 then None
    else if notes[n - 1].item == item && turns[n - 1].Succeeded? then Some(n - 1)
    else LastForwarded(notes, turns, item, n - 1)
  }

  lemma {:induction false} LastForwardedIsLast(notes: seq<Note>, turns: seq<Turn>, item: Item, n: nat, i: nat)
    requires i < n <= |notes| == |turns| && notes[i].item == item && turns[i].Succeeded?
    ensures LastForwarded(notes, turns, item, n).Some? && i <= LastForwarded(notes, turns, item, n).value
  {
    if i < n - 1 {
      LastForwardedIsLast(notes, turns, item, n - 1, i);
    }
  }

  /** The last thing the target was told about the item is a raise. */
  predicate ToldRaised(notes: seq<Note>, turns: seq<Turn>, item: Item, n: nat)
    requires n <= |notes| == |turns|
  {
    var last := LastForwarded(notes, turns, item, n);
    last.Some? && notes[last.value].raised
  }

  lemma {:induction false} OpenIsToldRaised(notes: seq<Note>, turns: seq<Turn>, item: Item, n: nat)
    requires n <= |notes| == |turns|
    ensures item in OpenItems(notes, turns, n) <==> ToldRaised(notes, turns, item, n)
  {
    if n > 0 {
      OpenIsToldRaised(notes, turns, item, n - 1);
    }
  }

  /** Note j reaches the target: it is no repeat of a note marked within the window, and the target takes it. */
  ghost predicate Arrives(ttl: int, notes: seq<Note>, turns: seq<Turn>, j: nat)
    requires j < |notes| == |turns|
  {
    !turns[j].Failed? && !Repeated(ttl, KeysOf(notes), turns, j)
  }

  /** News that does not reach the target although the target was last told the opposite, or never told of it. */
  ghost predicate Lost(ttl: int, notes: seq<Note>, turns: seq<Turn>, j: nat)
    requires j < |notes| == |turns|
  {
    && IsNewest(notes, j) && !Arrives(ttl, notes, turns, j)
    && ToldRaised(notes, turns, notes[j].item, j) != notes[j].raised
  }

  /** Old news, from a batch that came back, that does reach the target and contradicts the newest snapshot. */
  ghost predicate Stale(ttl: int, notes: seq<Note>, turns: seq<Turn>, j: nat)
    requires j < |notes| == |turns|
  {
    && !IsNewest(notes, j) && Arrives(ttl, notes, turns, j)
    && NewestRaised(notes, notes[j].item, j) != notes[j].raised
  }

  ghost predicate Strays(ttl: int, notes: seq<Note>, turns: seq<Turn>, j: nat)
    requires j < |notes| == |turns|
  {
    Lost(ttl, notes, turns, j) || Stale(ttl, notes, turns, j)
  }

  lemma OneMoreNewest(notes: seq<Note>, item: Item, n: nat)
    requires 0 < n <= |notes|
    ensures NewestRaised(notes, item, n)
       <==> if notes[n - 1].item == item && IsNewest(notes, n - 1) then notes[n - 1].raised
            else NewestRaised(notes, item, n - 1)
  {
  }

  /** A target that agreed before a note agrees after it unless the note strays. */
  lemma OneMoreNote(ttl: int, start: int, notes: seq<Note>, turns: seq<Turn>, item: Item, n: nat)
    requires Handled(ttl, start, notes, turns) && 0 < n <= |notes|
    ensures Agrees(notes, turns, item, n - 1) ==>
              (Agrees(notes, turns, item, n) <==> (notes[n - 1].item == item ==> !Strays(ttl, notes, turns, n - 1)))
  {
    OneMoreNewest(notes, item, n);
    DroppedIffRepeated(ttl, start, KeysOf(notes), turns, n - 1);
    OpenIsToldRaised(notes, turns, item, n - 1);
  }

  ghost predicate AgreesThroughout(notes: seq<Note>, turns: seq<Turn>, item: Item, n: nat)
    requires n <= |notes| == |turns|
  {
    forall k :: 0 <= k <= n ==> Agrees(notes, turns, item, k)
  }

  ghost predicate NeverStrays(ttl: int, notes: seq<Note>, turns: seq<Turn>, item: Item, n: nat)
    requires n <= |notes| == |turns|
  {
    forall j :: 0 <= j < n && notes[j].item == item ==> !Strays(ttl, notes, turns, j)
  }

  /**
   * The target agrees about an item after every note if and only if no note about it strays: no news is dropped or
   * fails while the target was last told otherwise, and no old news gets through that contradicts the newest.
   */
  lemma {:induction false} AgreesIffNeverStrays(
      ttl: int, start: int, notes: seq<Note>, turns: seq<Turn>, item: Item, n: nat)
    requires Handled(ttl, start, notes, turns) && n <= |notes|
    ensures AgreesThroughout(notes, turns, item, n) <==> NeverStrays(ttl, notes, turns, item, n)
  {
    if n == 0 {
      assert Agrees(notes, turns, item, 0);
    } else {
      AgreesIffNeverStrays(ttl, start, notes, turns, item, n - 1);
      OneMoreNote(ttl, start, notes, turns, item, n);
      OneMoreMoment(notes, turns, item, n);
      OneMoreStray(ttl, notes, turns, item, n);
    }
  }

  lemma OneMoreMoment(notes: seq<Note>, turns: seq<Turn>, item: Item, n: nat)
    requires 0 < n <= |notes| == |turns|
    ensures AgreesThroughout(notes, turns, item, n)
       <==> AgreesThroughout(notes, turns, item, n - 1) && Agrees(notes, turns, item, n)
  {
  }

  lemma OneMoreStray(ttl: int, notes: seq<Note>, turns: seq<Turn>, item: Item, n: nat)
    requires 0 < n <= |notes| == |turns|
    ensures NeverStrays(ttl, notes, turns, item, n)
       <==> NeverStrays(ttl, notes, turns, item, n - 1)
            && (notes[n - 1].item == item ==> !Strays(ttl, notes, turns, n - 1))
  {
  }

  // --- Simpler conditions -----------------------------------------------------------------------

  /** The target never fails a forward for the item. */
  ghost predicate NeverFails(notes: seq<Note>, turns: seq<Turn>, item: Item)
    requires |notes| == |turns|
  {
    forall i :: 0 <= i < |notes| && notes[i].item == item ==> !turns[i].Failed?
  }

  /**
   * No newest snapshot brings back a state of the item within a window of that state's last mark after the
   * opposite state of the item was forwarded.
   */
  ghost predicate NoFlapping(ttl: int, notes: seq<Note>, turns: seq<Turn>, item: Item)
    requires |notes| == |turns|
  {
    forall i, m, j :: 0 <= i < m < j < |notes| && notes[i].item == notes[m].item == item && notes[i].key == notes[j].key
      && turns[i].Succeeded? && turns[m].Succeeded? && notes[m].raised != notes[i].raised && IsNewest(notes, j)
      ==> turns[j].at > turns[i].markedAt + ttl
  }

  /** What comes back of the item after a newer snapshot is dropped as a repeat, or says the same as the newest. */
  ghost predicate NoStaleNews(ttl: int, notes: seq<Note>, turns: seq<Turn>, item: Item)
    requires |notes| == |turns|
  {
    forall j :: 0 <= j < |notes| && notes[j].item == item && !IsNewest(notes, j) ==>
      Repeated(ttl, KeysOf(notes), turns, j) || notes[j].raised == NewestRaised(notes, item, j)
  }

  /** The snapshots of the item are handled in the order of their arrival. */
  ghost predicate InOrder(notes: seq<Note>, item: Item) {
    forall i, j :: 0 <= i < j < |notes| && notes[i].item == notes[j].item == item ==>
      notes[i].snapshot <= notes[j].snapshot
  }

  lemma NoFlappingNeverLoses(ttl: int, notes: seq<Note>, turns: seq<Turn>, item: Item, j: nat)
    requires |notes| == |turns| && Keyed(notes) && NeverFails(notes, turns, item)
    requires ttl <= 0 || NoFlapping(ttl, notes, turns, item)
    requires j < |notes| && notes[j].item == item
    ensures !Lost(ttl, notes, turns, j)
  {
    if Repeated(ttl, KeysOf(notes), turns, j) && IsNewest(notes, j) {
      var i :| 0 <= i < j && Repeats(ttl, KeysOf(notes), turns, i, j);
      assert SameState(notes[i], notes[j]);
      LastForwardedIsLast(notes, turns, item, j, i);
    }
  }

  /** In-order handling, or old news dropped or harmless, without flapping: the target agrees at every moment. */
  lemma AgreesWithoutFlapping(ttl: int, start: int, notes: seq<Note>, turns: seq<Turn>, item: Item)
    requires Handled(ttl, start, notes, turns) && Keyed(notes) && NeverFails(notes, turns, item)
    requires ttl <= 0 || NoFlapping(ttl, notes, turns, item)
    requires InOrder(notes, item) || NoStaleNews(ttl, notes, turns, item)
    ensures AgreesThroughout(notes, turns, item, |notes|)
  {
    forall j | 0 <= j < |notes| && notes[j].item == item
      ensures !Strays(ttl, notes, turns, j)
    {
      NoFlappingNeverLoses(ttl, notes, turns, item, j);
    }
    AgreesIffNeverStrays(ttl, start, notes, turns, item, |notes|);
  }

  // --- In terms of servers ---------------------------------------------------------------------

  /**
   * One condition of one snapshot, judged when the snapshot is parsed and handled for one target. A snapshot,
   * known by its arrival number, contributes one reading per enabled condition and target, and more of them when
   * its batch is retried.
   */
  datatype Reading = Reading(snapshot: nat, parsedAt: int, payload: ServerPayload, condition: Condition, target: string)

  function ItemOf(r: Reading): Item {
    (r.target, ServerKey(KeyBase(r.payload), ConditionName(r.condition)))
  }

  predicate Unhealthy(r: Reading) {
    IsProblem(r.payload, r.condition, r.parsedAt)
  }

  function NoteOf(hash: string -> string, r: Reading): Note {
    var e := ServerEvent(hash, r.payload, r.condition, r.parsedAt);
    Note(DeliveryKey(e, r.target), (r.target, e.correlationKey), r.snapshot, e.action.Raise?)
  }

  function NotesOf(hash: string -> string, readings: seq<Reading>): (notes: seq<Note>)
    ensures |notes| == |readings|
  {
    if readings == [] then [] else
      var n := |readings| - 1;
      NotesOf(hash, readings[..n]) + [NoteOf(hash, readings[n])]
  }

  lemma {:induction false} NoteAt(hash: string -> string, readings: seq<Reading>, i: nat)
    requires i < |readings|
    ensures NotesOf(hash, readings)[i] == NoteOf(hash, readings[i])
  {
    var n := |readings| - 1;
    if i < n {
      var before := readings[..n];
      assert NotesOf(hash, readings)[i] == NotesOf(hash, before)[i];
      assert before[i] == readings[i];
      NoteAt(hash, before, i);
    }
  }

  lemma NotesAt(hash: string -> string, readings: seq<Reading>)
    ensures forall i :: 0 <= i < |readings| ==> NotesOf(hash, readings)[i] == NoteOf(hash, readings[i])
  {
    forall i | 0 <= i < |readings|
      ensures NotesOf(hash, readings)[i] == NoteOf(hash, readings[i])
    {
      NoteAt(hash, readings, i);
    }
  }

  /** An item is one (target, server, condition); a delivery key is one state of it. */
  lemma NotesIdentify(hash: string -> string, r: Reading, r': Reading)
    requires IsHash(hash)
    ensures SameState(NoteOf(hash, r), NoteOf(hash, r'))
    ensures ItemOf(r) == ItemOf(r')
       <==> r.target == r'.target && KeyBase(r.payload) == KeyBase(r'.payload) && r.condition == r'.condition
  {
    var e := ServerEvent(hash, r.payload, r.condition, r.parsedAt);
    var e' := ServerEvent(hash, r'.payload, r'.condition, r'.parsedAt);
    ServerEventsIdentify(hash, r.payload, r.condition, r.parsedAt, r'.payload, r'.condition, r'.parsedAt);
    DeliveryKeyInjective(e, r.target, e', r'.target);
  }

  lemma ReadingsAreKeyed(hash: string -> string, readings: seq<Reading>)
    requires IsHash(hash)
    ensures Keyed(NotesOf(hash, readings))
  {
    var notes := NotesOf(hash, readings);
    NotesAt(hash, readings);
    forall i, j | 0 <= i < |notes| && 0 <= j < |notes|
      ensures SameState(notes[i], notes[j])
    {
      NotesIdentify(hash, readings[i], readings[j]);
    }
  }

  lemma NoteReads(hash: string -> string, r: Reading)
    ensures NoteOf(hash, r).item == ItemOf(r) && NoteOf(hash, r).snapshot == r.snapshot
    ensures NoteOf(hash, r).raised <==> Unhealthy(r)
  {
  }

  /** The readings' items and snapshots. */
  function Stamps(readings: seq<Reading>): seq<Stamp> {
    seq(|readings|, i requires 0 <= i < |readings| => Stamp(ItemOf(readings[i]), readings[i].snapshot))
  }

  lemma SameStamps(hash: string -> string, readings: seq<Reading>)
    ensures StampsOf(NotesOf(hash, readings)) == Stamps(readings)
  {
    var notes := NotesOf(hash, readings);
    NotesAt(hash, readings);
    forall i | 0 <= i < |readings|
      ensures StampsOf(notes)[i] == Stamps(readings)[i]
    {
      NoteReads(hash, readings[i]);
    }
  }

  /** The item is a (target, server, condition) that is unhealthy in its newest snapshot among the first n readings. */
  predicate NewestUnhealthy(readings: seq<Reading>, item: Item, n: nat)
    requires n <= |readings|
  {
    var newest := NewestOf(Stamps(readings), item, n);
    newest.Some? && Unhealthy(readings[newest.value])
  }

  lemma NewestRaisedIsUnhealthy(hash: string -> string, readings: seq<Reading>, item: Item, n: nat)
    requires n <= |readings|
    ensures NewestRaised(NotesOf(hash, readings), item, n) <==> NewestUnhealthy(readings, item, n)
  {
    SameStamps(hash, readings);
    NotesAt(hash, readings);
    var newest := NewestOf(Stamps(readings), item, n);
    if newest.Some? {
      NoteReads(hash, readings[newest.value]);
    }
  }

  /** The item is open exactly if it is a (server, condition) pair that is unhealthy in its newest snapshot. */
  predicate OpenIffUnhealthy(
      hash: string -> string, readings: seq<Reading>, turns: seq<Turn>, item: Item, n: nat)
    requires n <= |readings| == |turns|
  {
    item in OpenItems(NotesOf(hash, readings), turns, n) <==> NewestUnhealthy(readings, item, n)
  }

  lemma AgreesIsOpenIffUnhealthy(hash: string -> string, readings: seq<Reading>, turns: seq<Turn>, item: Item, n: nat)
    requires n <= |readings| == |turns|
    ensures Agrees(NotesOf(hash, readings), turns, item, n) <==> OpenIffUnhealthy(hash, readings, turns, item, n)
  {
    NewestRaisedIsUnhealthy(hash, readings, item, n);
  }

  /** deliver() handled the readings in these turns. */
  ghost predicate Delivered(hash: string -> string, ttl: int, start: int, readings: seq<Reading>, turns: seq<Turn>) {
    Handled(ttl, start, NotesOf(hash, readings), turns)
  }

  /**
   * Of a (server, condition) pair's item at a target: it is open, at every moment, exactly when the pair is unhealthy
   * in its newest snapshot handled so far, if and only if none of its readings strays. This holds of any target,
   * whether it fails or not, and whatever other targets do.
   */
  lemma TargetAgreesIff(
      hash: string -> string, ttl: int, start: int, readings: seq<Reading>, turns: seq<Turn>, item: Item)
    requires Delivered(hash, ttl, start, readings, turns)
    ensures (forall n :: 0 <= n <= |readings| ==> OpenIffUnhealthy(hash, readings, turns, item, n))
       <==> NeverStrays(ttl, NotesOf(hash, readings), turns, item, |readings|)
  {
    var notes := NotesOf(hash, readings);
    AgreesIffNeverStrays(ttl, start, notes, turns, item, |notes|);
    forall n | 0 <= n <= |readings|
      ensures Agrees(notes, turns, item, n) <==> OpenIffUnhealthy(hash, readings, turns, item, n)
    {
      AgreesIsOpenIffUnhealthy(hash, readings, turns, item, n);
    }
  }

  /** What is asked of an item for its target to agree: no failure, no flapping, and no harmful old news. */
  ghost predicate Orderly(hash: string -> string, ttl: int, readings: seq<Reading>, turns: seq<Turn>, item: Item)
    requires |readings| == |turns|
  {
    var notes := NotesOf(hash, readings);
    && NeverFails(notes, turns, item)
    && (ttl <= 0 || NoFlapping(ttl, notes, turns, item))
    && (InOrder(notes, item) || NoStaleNews(ttl, notes, turns, item))
  }

  /**
   * With de-dup disabled, or no state of a pair coming back within the window of its mark after its opposite, and
   * snapshots handled in order or old ones dropped or harmless, an item is open at a target that does not fail for
   * it exactly when it is a (server, condition) pair unhealthy in its newest snapshot.
   */
  lemma TargetAgreesWithServers(
      hash: string -> string, ttl: int, start: int, readings: seq<Reading>, turns: seq<Turn>, item: Item, n: nat)
    requires IsHash(hash) && Delivered(hash, ttl, start, readings, turns) && n <= |readings|
    requires Orderly(hash, ttl, readings, turns, item)
    ensures OpenIffUnhealthy(hash, readings, turns, item, n)
  {
    ReadingsAreKeyed(hash, readings);
    AgreesWithoutFlapping(ttl, start, NotesOf(hash, readings), turns, item);
    AgreesIsOpenIffUnhealthy(hash, readings, turns, item, n);
  }

  // --- Two ways to stray ---------------------------------------------------------------------------

  lemma FirstTurnsInTime(start: int, turns: seq<Turn>)
    requires |turns| >= 2 && turns[0].Succeeded? && !turns[1].Skipped?
    requires start <= turns[0].at <= turns[0].returnedAt <= turns[0].markedAt <= turns[1].at <= turns[1].returnedAt
    requires turns[1].Succeeded? ==> turns[1].returnedAt <= turns[1].markedAt
    ensures InTime(start, turns, 2)
  {
    assert InTime(start, turns, 0) && EndOf(start, turns, 0) == start;
    assert InTime(start, turns, 1) && EndOf(start, turns, 1) == turns[0].markedAt;
  }

  /** Off, on, off, and the last dropped. */
  lemma LastNewsIsLost(ttl: int, start: int, notes: seq<Note>, turns: seq<Turn>)
    requires ttl > 0 && |notes| == |turns| == 3 && InTime(start, turns, 3)
    requires turns[0].Succeeded? && turns[1].Succeeded? && turns[2].Skipped?
    requires turns[2].at <= turns[0].markedAt + ttl
    requires notes[0].key == notes[2].key != notes[1].key && notes[0].item == notes[1].item == notes[2].item
    requires notes[0].snapshot < notes[1].snapshot < notes[2].snapshot
    requires notes[0].raised && !notes[1].raised && notes[2].raised
    ensures Handled(ttl, start, notes, turns)
    ensures Lost(ttl, notes, turns, 2) && !Agrees(notes, turns, notes[2].item, 3)
  {
    var keys, stamps, item := KeysOf(notes), StampsOf(notes), notes[2].item;
    assert Repeats(ttl, keys, turns, 0, 2);
    assert keys[..3] == keys && turns[..3] == turns;
    HandledIffInTime(ttl, start, keys, turns, 3);
    assert NewestOf(stamps, item, 1) == Some(0);
    assert NewestOf(stamps, item, 2) == Some(1);
    assert LastForwarded(notes, turns, item, 2) == Some(1);
    OneMoreNewest(notes, item, 3);
    OpenIsToldRaised(notes, turns, item, 3);
  }

  /**
   * Off for two targets, the second of which fails; then on for both; then the first batch comes back to the first
   * target. It is dropped if its mark is still live there, and otherwise contradicts the newer snapshot.
   */
  lemma OldNewsComesBack(ttl: int, notes: seq<Note>, turns: seq<Turn>, later: int)
    requires |notes| == 5 && later >= 10
    requires turns == [Succeeded(0, 0, 0), Failed(0, 0), Succeeded(10, 10, 10), Succeeded(10, 10, 10),
                       if 0 < ttl && later <= ttl then Skipped(later) else Succeeded(later, later, later)]
    requires notes[4].key == notes[0].key && notes[4].item == notes[0].item && notes[4].raised
    requires forall i, j :: 0 <= i < j < 4 ==> notes[i].key != notes[j].key
    requires notes[0].item == notes[2].item && notes[1].item == notes[3].item != notes[0].item
    requires notes[0].snapshot == notes[4].snapshot < notes[2].snapshot
    requires notes[0].raised && !notes[2].raised
    ensures Handled(ttl, 0, notes, turns)
    ensures Stale(ttl, notes, turns, 4) <==> turns[4].Succeeded?
    ensures Agrees(notes, turns, notes[0].item, 5) <==> turns[4].Skipped?
  {
    var keys, stamps, item := KeysOf(notes), StampsOf(notes), notes[0].item;
    OldNewsIsRepeated(ttl, keys, turns, later);
    assert keys[..5] == keys && turns[..5] == turns;
    FirstTurnsInTime(0, turns);
    assert EndOf(0, turns, 2) == 0 && InTime(0, turns, 3);
    assert EndOf(0, turns, 3) == 10 && InTime(0, turns, 4);
    assert EndOf(0, turns, 4) == 10 && InTime(0, turns, 5);
    HandledIffInTime(ttl, 0, keys, turns, 5);
    assert NewestOf(stamps, item, 2) == Some(0);
    assert NewestOf(stamps, item, 3) == Some(2);
    assert NewestOf(stamps, item, 4) == Some(2);
    OneMoreNewest(notes, item, 5);
    assert LastForwarded(notes, turns, item, 4) == Some(2);
    OpenIsToldRaised(notes, turns, item, 5);
  }

  lemma OldNewsIsRepeated(ttl: int, keys: seq<Key>, turns: seq<Turn>, later: int)
    requires |keys| == |turns| == 5 && keys[4] == keys[0] && turns[4].at == later
    requires forall i, j :: 0 <= i < j < 4 ==> keys[i] != keys[j]
    requires turns[0] == Succeeded(0, 0, 0) && (turns[4].Skipped? <==> 0 < ttl && later <= ttl)
    requires forall i :: 0 <= i < 4 ==> !turns[i].Skipped?
    ensures DropsRepeats(ttl, keys, turns, 5)
  {
    if 0 < ttl && later <= ttl {
      assert Repeats(ttl, keys, turns, 0, 4);
    }
  }

  /** The server in one snapshot, switched off or on, as read for one target. */
  function Switched(p: ServerPayload, snapshot: nat, at: int, off: bool, target: string): Reading {
    Reading(snapshot, at, p.(powerState := if off then "OFF" else "ON"), Power, target)
  }

  lemma SwitchedNote(hash: string -> string, p: ServerPayload, snapshot: nat, at: int, off: bool, target: string)
    ensures var note := NoteOf(hash, Switched(p, snapshot, at, off, target));
      note.item == (target, ServerKey(KeyBase(p), "power")) && note.snapshot == snapshot && note.raised == off
  {
    assert "ON"[1] != "OFF"[1];
  }

  /** Two such readings have the same delivery key exactly if switch and target are the same. */
  lemma SwitchedKeys(
      hash: string -> string, p: ServerPayload, s: nat, at: int, off: bool, target: string,
      s': nat, at': int, off': bool, target': string)
    requires IsHash(hash)
    ensures NoteOf(hash, Switched(p, s, at, off, target)).key == NoteOf(hash, Switched(p, s', at', off', target')).key
       <==> off == off' && target == target'
  {
    SwitchedNote(hash, p, s, at, off, target);
    SwitchedNote(hash, p, s', at', off', target');
    NotesIdentify(hash, Switched(p, s, at, off, target), Switched(p, s', at', off', target'));
  }

  /**
   * News is lost: off, on, off of one server for one target. Checked within a window of the first raise's mark,
   * however long the forwards took, the last raise is dropped, and the item stays closed on a dead server. So a gap
   * of more than a window between the two checks is not enough.
   */
  lemma FlappingStrays(
      hash: string -> string, ttl: int, p: ServerPayload, target: string,
      a: int, b: int, c: int, d: int, e: int, f: int, g: int)
    requires IsHash(hash) && 0 < ttl && a <= b <= c <= d <= e <= f <= g <= c + ttl
    ensures var readings :=
              [Switched(p, 1, a, true, target), Switched(p, 2, d, false, target), Switched(p, 3, g, true, target)];
            var turns := [Succeeded(a, b, c), Succeeded(d, e, f), Skipped(g)];
            && Delivered(hash, ttl, a, readings, turns) && Strays(ttl, NotesOf(hash, readings), turns, 2)
            && !OpenIffUnhealthy(hash, readings, turns, ItemOf(readings[2]), 3)
  {
    var readings :=
      [Switched(p, 1, a, true, target), Switched(p, 2, d, false, target), Switched(p, 3, g, true, target)];
    var turns := [Succeeded(a, b, c), Succeeded(d, e, f), Skipped(g)];
    SwitchedNote(hash, p, 1, a, true, target);
    SwitchedNote(hash, p, 2, d, false, target);
    SwitchedNote(hash, p, 3, g, true, target);
    SwitchedKeys(hash, p, 1, a, true, target, 2, d, false, target);
    SwitchedKeys(hash, p, 1, a, true, target, 3, g, true, target);
    FirstTurnsInTime(a, turns);
    NotesAt(hash, readings);
    LastNewsIsLost(ttl, a, NotesOf(hash, readings), turns);
    NoteReads(hash, readings[2]);
    AgreesIsOpenIffUnhealthy(hash, readings, turns, ItemOf(readings[2]), 3);
  }

  /**
   * Old news gets through: an off snapshot reaches target x but not y, which is down; an on snapshot reaches both;
   * then the first batch comes back. While x's mark is live it is dropped there and all is well. Once the mark has
   * expired, or with de-dup disabled, x is told again, and has the item open on a running server, although x itself
   * never failed.
   */
  lemma RetryStrays(hash: string -> string, ttl: int, p: ServerPayload, x: string, y: string, later: int)
    requires IsHash(hash) && x != y && later >= 10
    ensures var readings :=
              [Switched(p, 1, 0, true, x), Switched(p, 1, 0, true, y), Switched(p, 2, 10, false, x),
               Switched(p, 2, 10, false, y), Switched(p, 1, later, true, x)];
            var live := 0 < ttl && later <= ttl;
            var turns := [Succeeded(0, 0, 0), Failed(0, 0), Succeeded(10, 10, 10), Succeeded(10, 10, 10),
                          if live then Skipped(later) else Succeeded(later, later, later)];
            && Delivered(hash, ttl, 0, readings, turns)
            && (Strays(ttl, NotesOf(hash, readings), turns, 4) <==> !live)
            && (OpenIffUnhealthy(hash, readings, turns, ItemOf(readings[0]), 5) <==> live)
  {
    var readings :=
      [Switched(p, 1, 0, true, x), Switched(p, 1, 0, true, y), Switched(p, 2, 10, false, x),
       Switched(p, 2, 10, false, y), Switched(p, 1, later, true, x)];
    var live := 0 < ttl && later <= ttl;
    var turns := [Succeeded(0, 0, 0), Failed(0, 0), Succeeded(10, 10, 10), Succeeded(10, 10, 10),
                  if live then Skipped(later) else Succeeded(later, later, later)];
    var notes := NotesOf(hash, readings);
    FiveNotes(hash, p, x, y, later, readings);
    NotesAt(hash, readings);
    OldNewsComesBack(ttl, notes, turns, later);
    assert !IsNewest(notes, 4) by {
      assert NewestOf(StampsOf(notes), notes[0].item, 3) == Some(2);
      assert NewestOf(StampsOf(notes), notes[0].item, 4) == Some(2);
    }
    NoteReads(hash, readings[0]);
    AgreesIsOpenIffUnhealthy(hash, readings, turns, ItemOf(readings[0]), 5);
  }

  lemma FourKeys(hash: string -> string, p: ServerPayload, x: string, y: string, readings: seq<Reading>)
    requires IsHash(hash) && x != y
    requires readings == [Switched(p, 1, 0, true, x), Switched(p, 1, 0, true, y), Switched(p, 2, 10, false, x),
                          Switched(p, 2, 10, false, y)]
    ensures forall i, j :: 0 <= i < j < 4 ==> NoteOf(hash, readings[i]).key != NoteOf(hash, readings[j]).key
  {
    SwitchedKeys(hash, p, 1, 0, true, x, 1, 0, true, y);
    SwitchedKeys(hash, p, 1, 0, true, x, 2, 10, false, x);
    SwitchedKeys(hash, p, 1, 0, true, x, 2, 10, false, y);
    SwitchedKeys(hash, p, 1, 0, true, y, 2, 10, false, x);
    SwitchedKeys(hash, p, 1, 0, true, y, 2, 10, false, y);
    SwitchedKeys(hash, p, 2, 10, false, x, 2, 10, false, y);
  }

  lemma FiveNotes(hash: string -> string, p: ServerPayload, x: string, y: string, later: int, readings: seq<Reading>)
    requires IsHash(hash) && x != y
    requires readings == [Switched(p, 1, 0, true, x), Switched(p, 1, 0, true, y), Switched(p, 2, 10, false, x),
                          Switched(p, 2, 10, false, y), Switched(p, 1, later, true, x)]
    ensures var notes := NotesOf(hash, readings);
      && notes[4].key == notes[0].key && notes[4].item == notes[0].item && notes[4].raised
      && (forall i, j :: 0 <= i < j < 4 ==> notes[i].key != notes[j].key)
      && notes[0].item == notes[2].item && notes[1].item == notes[3].item != notes[0].item
      && notes[0].snapshot == notes[4].snapshot < notes[2].snapshot
      && notes[0].raised && !notes[2].raised
  {
    NotesAt(hash, readings);
    SwitchedNote(hash, p, 1, 0, true, x);
    SwitchedNote(hash, p, 1, 0, true, y);
    SwitchedNote(hash, p, 2, 10, false, x);
    SwitchedNote(hash, p, 2, 10, false, y);
    SwitchedNote(hash, p, 1, later, true, x);
    SwitchedKeys(hash, p, 1, 0, true, x, 1, later, true, x);
    FourKeys(hash, p, x, y, readings[..4]);
  }
}
