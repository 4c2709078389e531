/** Finding the group of a device by paging through all groups. */
module Compliance {
  import opened Common

  const PAGE_SIZE := 100

  datatype Device = Device(deviceId: Option<string>, id: Option<string>)

  datatype Group = Group(name: string, devices: seq<Device>)

  /** One answer of GET /groups, with absent items and totals already read as none and 0. */
  datatype Page = Page(items: seq<Group>, total: int)

  predicate Holds(group: Group, deviceId: string) {
    exists i :: 0 <= i < |group.devices|
      && (group.devices[i].deviceId == Some(deviceId) || group.devices[i].id == Some(deviceId))
  }

  /** Some device of the group goes by that id. */
  ghost predicate Names(group: Group, deviceId: string) {
    exists d :: d in group.devices && (d.deviceId == Some(deviceId) || d.id == Some(deviceId))
  }

  lemma HoldsIsNaming(group: Group, deviceId: string)
    ensures Holds(group, deviceId) <==> Names(group, deviceId)
  {
    if Names(group, deviceId) {
      var d :| d in group.devices && (d.deviceId == Some(deviceId) || d.id == Some(deviceId));
      var i :| 0 <= i < |group.devices| && group.devices[i] == d;
    }
  }

  /** The first group holding the device. */
  function FirstWith(groups: seq<Group>, deviceId: string): Option<Group> {
    if groups == [] then None
    else if Holds(groups[0], deviceId) then Some(groups[0])
    else FirstWith(groups[1..], deviceId)
  }

  /** Group i holds the device and none before it does. */
  ghost predicate IsFirst(groups: seq<Group>, deviceId: string, i: nat) {
    i < |groups| && Names(groups[i], deviceId) && forall j :: 0 <= j < i ==> !Names(groups[j], deviceId)
  }

  /** What the linear search finds, and when it finds nothing. */
  lemma {:induction false} FirstWithIsFirst(groups: seq<Group>, deviceId: string)
    ensures FirstWith(groups, deviceId).None? <==> forall i :: 0 <= i < |groups| ==> !Names(groups[i], deviceId)
    ensures forall i: nat :: IsFirst(groups, deviceId, i) ==> FirstWith(groups, deviceId) == Some(groups[i])
  {
    if groups != [] {
      HoldsIsNaming(groups[0], deviceId);
      var rest := groups[1..];
      FirstWithIsFirst(rest, deviceId);
      assert forall i :: 0 <= i < |rest| ==> rest[i] == groups[i + 1];
      assert forall i :: 0 < i < |groups| ==> groups[i] == rest[i - 1];
      forall i: nat | IsFirst(groups, deviceId, i)
        ensures FirstWith(groups, deviceId) == Some(groups[i])
      {
        if i > 0 {
          assert IsFirst(rest, deviceId, i - 1);
        }
      }
    }
  }

  lemma {:induction false} FirstWithAppend(a: seq<Group>, b: seq<Group>, deviceId: string)
    ensures FirstWith(a + b, deviceId)
            == if FirstWith(a, deviceId).Some? then FirstWith(a, deviceId) else FirstWith(b, deviceId)
  {
    if a == [] {
      assert a + b == b;
    } else {
      assert (a + b)[0] == a[0] && (a + b)[1..] == a[1..] + b;
      FirstWithAppend(a[1..], b, deviceId);
    }
  }

  /** A client that answers each call, numbered from 0, for the page at an offset. */
  type Pager = (nat, nat) -> Page

  /** The pager serves the list `groups` a full page at a time, with its true total. */
  ghost predicate Honest(pager: Pager, groups: seq<Group>) {
    forall call: nat, offset: nat :: offset <= |groups| ==>
      pager(call, offset) == Page(groups[offset..Min(offset + PAGE_SIZE, |groups|)], |groups|)
  }

  /** `maxGroups` rounded up to whole pages, since a page once fetched is searched to its end. */
  function Reach(maxGroups: int): (r: nat)
    ensures r % 100 == 0 && maxGroups <= r && (maxGroups > 0 ==> r < maxGroups + 100) && (maxGroups <= 0 ==> r == 0)
  {
    if maxGroups <= 0 then 0 else (maxGroups + PAGE_SIZE - 1) / PAGE_SIZE * PAGE_SIZE
  }

  /** How far an honest pager has been searched without a match, at the start of a page. */
  ghost predicate Searched(groups: seq<Group>, scanned: nat, deviceId: string, maxGroups: int) {
    && scanned <= |groups| && scanned <= Reach(maxGroups) && scanned % PAGE_SIZE == 0
    && FirstWith(groups[..scanned], deviceId).None?
  }

  ghost predicate Fails(groups: seq<Group>, deviceId: string, maxGroups: int) {
    FirstWith(groups[..Min(|groups|, Reach(maxGroups))], deviceId).None?
  }

  /** The first match on one page. */
  method SearchPage(items: seq<Group>, deviceId: string) returns (found: Option<Group>)
    ensures found == FirstWith(items, deviceId)
    ensures found.Some? ==> Holds(found.value, deviceId)
  {
    for i := 0 to |items|
      invariant FirstWith(items[..i], deviceId).None?
    {
      FirstWithAppend(items[..i], items[i..], deviceId);
      assert items == items[..i] + items[i..];
      if Holds(items[i], deviceId) {
        return Some(items[i]);
      }
      assert items[..i + 1] == items[..i] + [items[i]];
      FirstWithAppend(items[..i], [items[i]], deviceId);
    }
    assert items[..|items|] == items;
    return None;
  }

  /**
   * Against any pager at all, no more pages are fetched than `maxGroups` groups fill; against an honest one the
   * result is that of a linear search of the first groups, as far as those pages reach.
   */
  method FindGroupForDevice(pager: Pager, deviceId: string, maxGroups: int, ghost groups: seq<Group>)
    returns (found: Option<Group>, calls: nat)
    ensures calls * PAGE_SIZE <= Reach(maxGroups)
    ensures found.Some? ==> Names(found.value, deviceId)
    ensures Honest(pager, groups) ==> found == FirstWith(groups[..Min(|groups|, Reach(maxGroups))], deviceId)
  {
    ghost var honest := Honest(pager, groups);
    var scanned: nat, offset: nat := 0, 0;
    calls := 0;
    while scanned < maxGroups
      invariant scanned == offset && calls * PAGE_SIZE <= scanned && calls * PAGE_SIZE <= Reach(maxGroups)
      invariant honest ==> Searched(groups, scanned, deviceId, maxGroups)
      decreases maxGroups - scanned
    {
      var page := pager(calls, offset);
      if honest {
        HonestPage(pager, groups, calls, offset);
      }
      WholePages(calls, maxGroups);
      calls := calls + 1;
      if page.items == [] {
        if honest {
          EndOfList(groups, scanned, page.items, deviceId, maxGroups);
        }
        return None, calls;
      }
      found := SearchPage(page.items, deviceId);
      if honest {
        PageIsNext(groups, scanned, page.items, deviceId, maxGroups);
      }
      if found.Some? {
        HoldsIsNaming(found.value, deviceId);
        return;
      }
      scanned := scanned + |page.items|;
      offset := offset + |page.items|;
      if |page.items| < PAGE_SIZE || offset >= page.total {
        return None, calls;
      }
    }
    found := None;
    assert honest ==> Min(|groups|, Reach(maxGroups)) == scanned;
  }

  lemma EndOfList(groups: seq<Group>, scanned: nat, items: seq<Group>, deviceId: string, maxGroups: int)
    requires Searched(groups, scanned, deviceId, maxGroups)
    requires items == [] == groups[scanned..Min(scanned + PAGE_SIZE, |groups|)]
    ensures Fails(groups, deviceId, maxGroups)
  {
    assert scanned == |groups|;
  }

  /** A match on the next page is the first match overall; without one the search has come a page further. */
  lemma PageIsNext(groups: seq<Group>, scanned: nat, items: seq<Group>, deviceId: string, maxGroups: int)
    requires Searched(groups, scanned, deviceId, maxGroups) && scanned < maxGroups
    requires items == groups[scanned..Min(scanned + PAGE_SIZE, |groups|)]
    ensures FirstWith(items, deviceId).Some? ==>
              FirstWith(groups[..Min(|groups|, Reach(maxGroups))], deviceId) == FirstWith(items, deviceId)
    ensures FirstWith(items, deviceId).None? && |items| == PAGE_SIZE ==>
              Searched(groups, scanned + |items|, deviceId, maxGroups)
    ensures FirstWith(items, deviceId).None? && scanned + |items| == |groups| ==> Fails(groups, deviceId, maxGroups)
  {
    var end := Min(scanned + PAGE_SIZE, |groups|);
    AnotherPage(scanned, maxGroups);
    var all := groups[..Min(|groups|, Reach(maxGroups))];
    assert all == groups[..scanned] + (items + all[end..]);
    assert groups[..end] == groups[..scanned] + items;
    FirstWithAppend(groups[..scanned], items + all[end..], deviceId);
    FirstWithAppend(items, all[end..], deviceId);
    FirstWithAppend(groups[..scanned], items, deviceId);
    if end == |groups| {
      assert all == groups[..end];
    }
  }

  lemma HonestPage(pager: Pager, groups: seq<Group>, call: nat, offset: nat)
    requires Honest(pager, groups) && offset <= |groups|
    ensures pager(call, offset) == Page(groups[offset..Min(offset + PAGE_SIZE, |groups|)], |groups|)
  {
  }

  /** By default 500 groups are searched, in at most 5 calls. */
  lemma DefaultReach(calls: nat)
    requires calls * PAGE_SIZE <= Reach(500)
    ensures Reach(500) == 500 && calls <= 5
  {
  }

  lemma AnotherPage(scanned: nat, maxGroups: int)
    requires scanned % PAGE_SIZE == 0 && scanned < maxGroups
    ensures scanned + PAGE_SIZE <= Reach(maxGroups) && (scanned + PAGE_SIZE) % PAGE_SIZE == 0
  {
  }

  lemma WholePages(calls: nat, maxGroups: int)
    requires calls * PAGE_SIZE < maxGroups
    ensures (calls + 1) * PAGE_SIZE <= Reach(maxGroups)
  {
  }
}
