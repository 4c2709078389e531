/** The on-disk spool: a two-lane, byte-budgeted queue of accepted bodies with per-row retry times. */
module Spool {
  import opened Common

  type Body = seq<bv8>

  /** One row of the `spool` table. Rows of the normal lane are enriched, those of the overflow lane are not. */
  datatype Row = Row(id: nat, body: Body, enqueuedAt: int, attempts: nat, nextAttempt: int, enrich: bool)

  /** SELECT COALESCE(SUM(LENGTH(body)), 0) WHERE enrich = lane. */
  function LaneBytes(rows: seq<Row>, lane: bool): nat {
    if rows == [] then 0 else
      var n := |rows| - 1;
      LaneBytes(rows[..n], lane) + (if rows[n].enrich == lane then |rows[n].body| else 0)
  }

  /** The first row whose retry time has arrived, in table order. */
  function FirstDue(rows: seq<Row>, now: int): Option<Row> {
    if rows == [] then None
    else if rows[0].nextAttempt <= now then Some(rows[0])
    else FirstDue(rows[1..], now)
  }

  /** DELETE WHERE id = ?. */
  function Without(rows: seq<Row>, id: nat): seq<Row> {
    if rows == [] then []
    else if rows[|rows| - 1].id == id then Without(rows[..|rows| - 1], id)
    else Without(rows[..|rows| - 1], id) + [rows[|rows| - 1]]
  }

  /** UPDATE SET attempts = ?, next_attempt = ? WHERE id = ?. */
  function Rescheduled(rows: seq<Row>, id: nat, attempts: nat, nextAttempt: int): (r: seq<Row>)
    ensures |r| == |rows|
    ensures forall i :: 0 <= i < |rows| ==>
      r[i] == if rows[i].id == id then rows[i].(attempts := attempts, nextAttempt := nextAttempt) else rows[i]
  {
    seq(|rows|, i requires 0 <= i < |rows| =>
      if rows[i].id == id then rows[i].(attempts := attempts, nextAttempt := nextAttempt) else rows[i])
  }

  /** Rows are kept in id order, with ids the counter has already handed out. */
  ghost predicate Ordered(rows: seq<Row>, lastId: nat) {
    && (forall i :: 0 <= i < |rows| ==> 1 <= rows[i].id <= lastId)
    && (forall i, j :: 0 <= i < j < |rows| ==> rows[i].id < rows[j].id)
  }

  // --- The query answers what ORDER BY id LIMIT 1 promises --------------------

  lemma {:induction false} FirstDueIsOldest(rows: seq<Row>, lastId: nat, now: int)
    requires Ordered(rows, lastId)
    ensures FirstDue(rows, now).None? <==> forall r :: r in rows ==> r.nextAttempt > now
    ensures FirstDue(rows, now).Some? ==>
      var d := FirstDue(rows, now).value;
      d in rows && d.nextAttempt <= now && forall r :: r in rows && r.nextAttempt <= now ==> d.id <= r.id
  {
    if rows != [] {
      FirstDueIsOldest(rows[1..], lastId, now);
      assert forall r :: r in rows <==> r == rows[0] || r in rows[1..];
    }
  }

  lemma {:induction false} WithoutMembers(rows: seq<Row>, id: nat, r: Row)
    ensures r in Without(rows, id) <==> r in rows && r.id != id
  {
    if rows != [] {
      WithoutMembers(rows[..|rows| - 1], id, r);
      assert rows == rows[..|rows| - 1] + [rows[|rows| - 1]];
    }
  }

  lemma {:induction false} WithoutAbsent(rows: seq<Row>, id: nat)
    requires forall r :: r in rows ==> r.id != id
    ensures Without(rows, id) == rows
  {
    if rows != [] {
      WithoutAbsent(rows[..|rows| - 1], id);
      assert rows == rows[..|rows| - 1] + [rows[|rows| - 1]];
    }
  }

  /** Deleting row i of an ordered table takes out that row and nothing else. */
  lemma {:induction false} WithoutIsCut(rows: seq<Row>, lastId: nat, i: nat)
    requires Ordered(rows, lastId) && i < |rows|
    ensures Without(rows, rows[i].id) == rows[..i] + rows[i + 1..]
  {
    var n := |rows| - 1;
    if i == n {
      WithoutAbsent(rows[..n], rows[i].id);
      assert rows[..i] + rows[i + 1..] == rows[..n];
    } else {
      WithoutIsCut(rows[..n], lastId, i);
      assert rows[..n][..i] + rows[..n][i + 1..] + [rows[n]] == rows[..i] + rows[i + 1..];
    }
  }

  lemma WithoutKeepsOrder(rows: seq<Row>, lastId: nat, id: nat)
    requires Ordered(rows, lastId)
    ensures Ordered(Without(rows, id), lastId)
  {
    if i :| 0 <= i < |rows| && rows[i].id == id {
      WithoutIsCut(rows, lastId, i);
    } else {
      WithoutAbsent(rows, id);
    }
  }

  lemma {:induction false} WithoutBytes(rows: seq<Row>, id: nat, lane: bool)
    ensures LaneBytes(Without(rows, id), lane) <= LaneBytes(rows, lane)
  {
    if rows != [] {
      var n := |rows| - 1;
      WithoutBytes(rows[..n], id, lane);
      if rows[n].id != id {
        assert Without(rows, id)[..|Without(rows, id)| - 1] == Without(rows[..n], id);
      }
    }
  }

  lemma {:induction false} SameBodiesSameBytes(rows: seq<Row>, rows': seq<Row>, lane: bool)
    requires |rows| == |rows'|
    requires forall i :: 0 <= i < |rows| ==> rows[i].body == rows'[i].body && rows[i].enrich == rows'[i].enrich
    ensures LaneBytes(rows, lane) == LaneBytes(rows', lane)
  {
    if rows != [] {
      SameBodiesSameBytes(rows[..|rows| - 1], rows'[..|rows| - 1], lane);
    }
  }

  lemma AppendBytes(rows: seq<Row>, r: Row, lane: bool)
    ensures LaneBytes(rows + [r], lane) == LaneBytes(rows, lane) + (if r.enrich == lane then |r.body| else 0)
  {
    assert (rows + [r])[..|rows|] == rows;
  }

  // --- The store ------------------------------------------------------------------

  class SpoolStore {
    const maxBytes: int
    const overflowMaxBytes: int
    var rows: seq<Row>
    var lastId: nat  // SQLite's AUTOINCREMENT counter

    ghost predicate Valid()
      reads this
    {
      && Ordered(rows, lastId)
      && LaneBytes(rows, true) <= Max(maxBytes, 0)
      && LaneBytes(rows, false) <= Max(overflowMaxBytes, 0)
    }

    constructor (maxBytes: int, overflowMaxBytes: int)
      ensures Valid() && rows == [] && lastId == 0
      ensures this.maxBytes == maxBytes && this.overflowMaxBytes == overflowMaxBytes
    {
      this.maxBytes := maxBytes;
      this.overflowMaxBytes := overflowMaxBytes;
      rows := [];
      lastId := 0;
    }

    function Limit(enrich: bool): int {
      if enrich then maxBytes else overflowMaxBytes
    }

    /** Inserts into one lane; None is SpoolFull. The other lane's backlog plays no part. */
    method PutIn(body: Body, now: int, enrich: bool) returns (id: Option<nat>)
      requires Valid()
      modifies this
      ensures Valid()
      ensures id.None? <==> old(LaneBytes(rows, enrich)) + |body| > Limit(enrich)
      ensures id.None? ==> rows == old(rows) && lastId == old(lastId)
      ensures id.Some? ==>
        && id.value == lastId == old(lastId) + 1
        && rows == old(rows) + [Row(lastId, body, now, 0, now, enrich)]
    {
      var pending := LaneBytes(rows, enrich);
      if pending + |body| > Limit(enrich) {
        return None;
      }
      lastId := lastId + 1;
      var row := Row(lastId, body, now, 0, now, enrich);
      AppendBytes(rows, row, true);
      AppendBytes(rows, row, false);
      rows := rows + [row];
      id := Some(lastId);
    }

    method Put(body: Body, now: int) returns (id: Option<nat>)
      requires Valid()
      modifies this
      ensures Valid()
      ensures id.None? <==> old(LaneBytes(rows, true)) + |body| > maxBytes
      ensures id.None? ==> rows == old(rows) && lastId == old(lastId)
      ensures id.Some? ==>
        id.value == lastId == old(lastId) + 1 && rows == old(rows) + [Row(lastId, body, now, 0, now, true)]
    {
      id := PutIn(body, now, true);
    }

    method PutOverflow(body: Body, now: int) returns (id: Option<nat>)
      requires Valid()
      modifies this
      ensures Valid()
      ensures id.None? <==> old(LaneBytes(rows, false)) + |body| > overflowMaxBytes
      ensures id.None? ==> rows == old(rows) && lastId == old(lastId)
      ensures id.Some? ==>
        id.value == lastId == old(lastId) + 1 && rows == old(rows) + [Row(lastId, body, now, 0, now, false)]
    {
      id := PutIn(body, now, false);
    }

    /** The oldest row whose retry time has arrived. */
    method ClaimDue(now: int) returns (claimed: Option<Row>)
      requires Valid()
      ensures claimed == FirstDue(rows, now)
      ensures claimed.None? <==> forall r :: r in rows ==> r.nextAttempt > now
      ensures claimed.Some? ==>
        && claimed.value in rows && claimed.value.nextAttempt <= now
        && forall r :: r in rows && r.nextAttempt <= now ==> claimed.value.id <= r.id
    {
      claimed := FirstDue(rows, now);
      FirstDueIsOldest(rows, lastId, now);
    }

    method Delete(id: nat)
      requires Valid()
      modifies this`rows
      ensures Valid()
      ensures rows == Without(old(rows), id)
      ensures forall r :: r in rows <==> r in old(rows) && r.id != id
    {
      WithoutKeepsOrder(rows, lastId, id);
      WithoutBytes(rows, id, true);
      WithoutBytes(rows, id, false);
      forall r ensures r in Without(rows, id) <==> r in rows && r.id != id {
        WithoutMembers(rows, id, r);
      }
      rows := Without(rows, id);
    }

    method Reschedule(id: nat, attempts: nat, nextAttempt: int)
      requires Valid()
      modifies this`rows
      ensures Valid()
      ensures rows == Rescheduled(old(rows), id, attempts, nextAttempt)
    {
      var updated := Rescheduled(rows, id, attempts, nextAttempt);
      SameBodiesSameBytes(rows, updated, true);
      SameBodiesSameBytes(rows, updated, false);
      rows := updated;
    }

    method Pending() returns (n: nat)
      ensures n == |rows|
    {
      n := |rows|;
    }
  }
}
