/**
 * The bridge as one transition system: the HTTP handler, the spool, the worker and the delivery ledger,
 * interleaved in any order, with time passing and crashes landing between any two steps.
 *
 * Every lock region, target call and HTTP answer is one step; requests are handled one at a time, as the
 * event loop does. The spool and the de-dup table survive a crash, the handler's and the worker's locals do
 * not. `hist` is history the program does not store.
 */
module Engine {
  import opened Common
  import opened Events
  import opened Dedup
  import L = Ledgers
  import opened Deliver
  import opened Enrich
  import opened Spool
  import opened Backoff

  datatype Config = Config(
    ttl: int,
    base: int,
    cap: int,
    maxBytes: int,
    overflowMaxBytes: int,
    adapters: seq<string>,
    decodable: Body -> bool,
    normalize: (Body, int) -> Option<seq<Event>>,  // None: normalize() raised; it may look at the clock
    enrichers: seq<Enricher>)

  datatype Handler =
    | Ready
    | Overflowing(body: Body, normalBytes: nat)  // refused by the normal lane, overflow lane not tried yet
    | Stored(id: nat)                            // row committed, 202 not sent yet

  datatype Worker =
    | Idle
    | Claimed(row: Row)
    | Discarding(row: Row)
    | Failing(row: Row)
    | Delivering(row: Row, parsedAt: int, pass: nat, keys: seq<Key>, checks: seq<int>, failed: set<nat>, base: nat)

  /** An accepted body, its lane, and the normal lane's backlog when that lane was tried. */
  datatype Acceptance = Acceptance(body: Body, enrich: bool, normalBytes: nat)

  datatype Refusal = Refusal(body: Body, normalBytes: nat, overflowBytes: nat)

  /** Why a row left the spool. `base` and `upTo` delimit the log entries of the processing that removed it. */
  datatype Removal =
    | Poison
    | Delivered(parsedAt: int, pass: nat, keys: seq<Key>, checks: seq<int>, base: nat, upTo: nat)

  /** When a row first failed, and how much later than its backoff alone it has been running since. */
  datatype Lag = Lag(firstFailedAt: int, slack: int)

  datatype History = History(
    accepted: seq<Acceptance>,    // the row with id n is accepted[n - 1]
    answered: seq<nat>,           // ids answered 202
    unanswered: nat,              // rows committed whose 202 a crash prevented
    refused: seq<Refusal>,        // bodies answered 503
    removed: map<nat, Removal>,
    order: seq<nat>,              // ids in removal order
    passes: nat,                  // batches that went through enrichment
    failures: nat,                // attempts that ended in a reschedule
    lags: map<nat, Lag>)

  datatype State = State(
    ledger: L.Ledger,
    rows: seq<Row>,
    lastId: nat,
    handler: Handler,
    worker: Worker,
    hist: History)

  datatype Label =
    | Tick(d: nat)
    | Post(body: Body)
    | PostOverflow
    | Answer
    | Claim
    | Parse
    | Check
    | Return(ok: bool)
    | Mark
    | Finish
    | Crash

  function Init(now: int): State {
    State(L.Start(now), [], 0, Ready, Idle, History([], [], 0, [], map[], [], 0, 0, map[]))
  }

  // --- Steps --------------------------------------------------------------------------

  function EnrichersFor(cfg: Config, enrich: bool): seq<Enricher> {
    if enrich then cfg.enrichers else []
  }

  /** The keys the worker visits for a body parsed at a given time and pass; None when normalize() raises. */
  function KeysFor(cfg: Config, body: Body, enrich: bool, at: int, pass: nat): Option<seq<Key>> {
    match cfg.normalize(body, at)
    case None => None
    case Some(events) => Some(BatchKeys(EnrichAll(EnrichersFor(cfg, enrich), pass, events), cfg.adapters))
  }

  predicate Enabled(s: State, l: Label) {
    match l
    case Tick(_) => true
    case Post(_) => s.handler.Ready?
    case PostOverflow => s.handler.Overflowing?
    case Answer => s.handler.Stored?
    case Claim => s.worker.Idle?
    case Parse => s.worker.Claimed?
    case Check => s.worker.Delivering? && |s.worker.checks| < |s.worker.keys| && s.ledger.call.Between?
    case Return(_) => s.worker.Delivering? && s.ledger.call.Sending?
    case Mark => s.worker.Delivering? && s.ledger.call.Unmarked? && |s.ledger.log| > 0
    case Finish =>
      || s.worker.Discarding?
      || s.worker.Failing?
      || (s.worker.Delivering? && |s.worker.checks| == |s.worker.keys| && s.ledger.call.Between?)
    case Crash => true
  }

  function Insert(s: State, body: Body, enrich: bool, normalBytes: nat): State {
    var id := s.lastId + 1;
    s.(rows := s.rows + [Row(id, body, s.ledger.now, 0, s.ledger.now, enrich)],
       lastId := id,
       handler := Stored(id),
       hist := s.hist.(accepted := s.hist.accepted + [Acceptance(body, enrich, normalBytes)]))
  }

  function NextPost(cfg: Config, s: State, body: Body): State {
    var pending := LaneBytes(s.rows, true);
    if pending + |body| > cfg.maxBytes then s.(handler := Overflowing(body, pending))
    else Insert(s, body, true, pending)
  }

  function NextPostOverflow(cfg: Config, s: State): State
    requires s.handler.Overflowing?
  {
    var pending := LaneBytes(s.rows, false);
    var body := s.handler.body;
    if pending + |body| > cfg.overflowMaxBytes then
      s.(handler := Ready,
         hist := s.hist.(refused := s.hist.refused + [Refusal(body, s.handler.normalBytes, pending)]))
    else Insert(s, body, false, s.handler.normalBytes)
  }

  function NextClaim(s: State): State {
    match FirstDue(s.rows, s.ledger.now)
    case None => s
    case Some(r) => s.(worker := Claimed(r))
  }

  function NextParse(cfg: Config, s: State): State
    requires s.worker.Claimed?
  {
    var row := s.worker.row;
    var at := s.ledger.now;
    if !cfg.decodable(row.body) then s.(worker := Discarding(row))
    else match KeysFor(cfg, row.body, row.enrich, at, s.hist.passes)
      case None => s.(worker := Failing(row))
      case Some(keys) =>
        s.(worker := Delivering(row, at, s.hist.passes, keys, [], {}, |s.ledger.log|),
           hist := s.hist.(passes := s.hist.passes + 1))
  }

  function Advance(w: Worker, checkedAt: int, failed: bool): Worker
    requires w.Delivering?
  {
    w.(checks := w.checks + [checkedAt], failed := w.failed + if failed then {|w.checks|} else {})
  }

  function NextCheck(cfg: Config, s: State): State
    requires Enabled(s, Check)
  {
    var ledger := L.Next(cfg.ttl, s.ledger, L.Check(s.worker.keys[|s.worker.checks|]));
    s.(ledger := ledger,
       worker := if ledger.call.Between? then Advance(s.worker, s.ledger.now, false) else s.worker)
  }

  function NextReturn(cfg: Config, s: State, ok: bool): State
    requires Enabled(s, Return(ok))
  {
    s.(ledger := L.Next(cfg.ttl, s.ledger, L.Return(ok)),
       worker := if ok then s.worker else Advance(s.worker, s.ledger.call.checkedAt, true))
  }

  function NextMark(cfg: Config, s: State): State
    requires Enabled(s, Mark)
  {
    s.(ledger := L.Next(cfg.ttl, s.ledger, L.Mark),
       worker := Advance(s.worker, s.ledger.log[|s.ledger.log| - 1].checkedAt, false))
  }

  function Remove(s: State, id: nat, why: Removal): State {
    s.(rows := Without(s.rows, id),
       worker := Idle,
       hist := s.hist.(removed := s.hist.removed[id := why], order := s.hist.order + [id]))
  }

  function Retry(cfg: Config, s: State, row: Row): State {
    var attempts := row.attempts + 1;
    var lag := if row.attempts >= 1 && row.id in s.hist.lags
               then s.hist.lags[row.id].(slack := s.hist.lags[row.id].slack + (s.ledger.now - row.nextAttempt))
               else Lag(s.ledger.now, 0);
    s.(rows := Rescheduled(s.rows, row.id, attempts, s.ledger.now + Delay(cfg.base, cfg.cap, attempts)),
       worker := Idle,
       hist := s.hist.(failures := s.hist.failures + 1, lags := s.hist.lags[row.id := lag]))
  }

  function NextFinish(cfg: Config, s: State): State
    requires Enabled(s, Finish)
  {
    var w := s.worker;
    if w.Discarding? then Remove(s, w.row.id, Poison)
    else if w.Delivering? && w.failed == {} then
      Remove(s, w.row.id, Delivered(w.parsedAt, w.pass, w.keys, w.checks, w.base, |s.ledger.log|))
    else Retry(cfg, s, w.row)
  }

  function NextCrash(cfg: Config, s: State): State {
    s.(ledger := L.Next(cfg.ttl, s.ledger, L.Crash),
       handler := Ready,
       worker := Idle,
       hist := s.hist.(unanswered := s.hist.unanswered + if s.handler.Stored? then 1 else 0))
  }

  function Next(cfg: Config, s: State, l: Label): State
    requires Enabled(s, l)
  {
    match l
    case Tick(d) => s.(ledger := L.Next(cfg.ttl, s.ledger, L.Tick(d)))
    case Post(body) => NextPost(cfg, s, body)
    case PostOverflow => NextPostOverflow(cfg, s)
    case Answer => s.(handler := Ready, hist := s.hist.(answered := s.hist.answered + [s.handler.id]))
    case Claim => NextClaim(s)
    case Parse => NextParse(cfg, s)
    case Check => NextCheck(cfg, s)
    case Return(ok) => NextReturn(cfg, s, ok)
    case Mark => NextMark(cfg, s)
    case Finish => NextFinish(cfg, s)
    case Crash => NextCrash(cfg, s)
  }

  /** Runs a list of labels; None when one of them is not enabled. */
  function Run(cfg: Config, s: State, labels: seq<Label>): Option<State>
    decreases |labels|
  {
    if labels == [] then Some(s)
    else if !Enabled(s, labels[0]) then None
    else Run(cfg, Next(cfg, s, labels[0]), labels[1..])
  }

  /** The states of all runs: any start time, any interleaving. */
  ghost predicate Reachable(cfg: Config, s: State) {
    exists start: int, labels: seq<Label> :: Run(cfg, Init(start), labels) == Some(s)
  }

  // --- The ledger inside -------------------------------------------------------------

  lemma StepKeepsLedger(cfg: Config, s: State, l: Label)
    requires L.Inv(cfg.ttl, s.ledger) && Enabled(s, l)
    ensures L.Inv(cfg.ttl, Next(cfg, s, l).ledger)
    ensures s.ledger.now <= Next(cfg, s, l).ledger.now
  {
    match l
    case Tick(d) => L.StepKeepsInv(cfg.ttl, s.ledger, L.Tick(d));
    case Check => L.StepKeepsInv(cfg.ttl, s.ledger, L.Check(s.worker.keys[|s.worker.checks|]));
    case Return(ok) => L.StepKeepsInv(cfg.ttl, s.ledger, L.Return(ok));
    case Mark => L.StepKeepsInv(cfg.ttl, s.ledger, L.Mark);
    case Crash => L.StepKeepsInv(cfg.ttl, s.ledger, L.Crash);
    case Post(_) =>
    case PostOverflow =>
    case Answer =>
    case Claim =>
    case Parse =>
    case Finish =>
  }

  // --- The spool: nothing appears or disappears unaccounted ---------------------------

  ghost predicate HasRow(rows: seq<Row>, id: nat) {
    exists i :: 0 <= i < |rows| && rows[i].id == id
  }

  /** The rows are in id order, unremoved, and hold the body and lane they were accepted with. */
  ghost predicate Faithful(rows: seq<Row>, lastId: nat, accepted: seq<Acceptance>, removed: map<nat, Removal>) {
    && Ordered(rows, lastId)
    && lastId == |accepted|
    && forall i :: 0 <= i < |rows| ==>
         && rows[i].body == accepted[rows[i].id - 1].body
         && rows[i].enrich == accepted[rows[i].id - 1].enrich
         && rows[i].id !in removed
  }

  /** Every accepted id that was not removed is a row. */
  ghost predicate Complete(rows: seq<Row>, lastId: nat, removed: map<nat, Removal>) {
    forall id: nat :: 1 <= id <= lastId && id !in removed ==> HasRow(rows, id)
  }

  ghost predicate Counted(rows: seq<Row>, lastId: nat, removed: map<nat, Removal>, order: seq<nat>) {
    && (forall id :: id in removed ==> 1 <= id <= lastId)
    && |rows| + |order| == lastId
    && |order| == |removed|
    && (forall id :: id in order <==> id in removed)
  }

  /** Every accepted id is either a row, with the body and lane it was accepted with, or removed; never both. */
  ghost predicate Conserved(s: State) {
    && Faithful(s.rows, s.lastId, s.hist.accepted, s.hist.removed)
    && Complete(s.rows, s.lastId, s.hist.removed)
    && Counted(s.rows, s.lastId, s.hist.removed, s.hist.order)
  }

  ghost predicate InLanes(cfg: Config, rows: seq<Row>) {
    LaneBytes(rows, true) <= Max(cfg.maxBytes, 0) && LaneBytes(rows, false) <= Max(cfg.overflowMaxBytes, 0)
  }

  lemma HasRowAppend(rows: seq<Row>, row: Row, id: nat)
    requires HasRow(rows, id) || row.id == id
    ensures HasRow(rows + [row], id)
  {
    if HasRow(rows, id) {
      var i :| 0 <= i < |rows| && rows[i].id == id;
      assert (rows + [row])[i].id == id;
    } else {
      assert (rows + [row])[|rows|].id == id;
    }
  }

  lemma InsertConserves(s: State, body: Body, enrich: bool, normalBytes: nat)
    requires Conserved(s)
    ensures var n := Insert(s, body, enrich, normalBytes); Conserved(n)
  {
    var n := Insert(s, body, enrich, normalBytes);
    forall id: nat | 1 <= id <= n.lastId && id !in n.hist.removed
      ensures HasRow(n.rows, id)
    {
      HasRowAppend(s.rows, n.rows[|s.rows|], id);
    }
  }

  lemma InsertInLanes(cfg: Config, s: State, body: Body, enrich: bool, normalBytes: nat)
    requires InLanes(cfg, s.rows)
    requires LaneBytes(s.rows, enrich) + |body| <= if enrich then cfg.maxBytes else cfg.overflowMaxBytes
    ensures InLanes(cfg, Insert(s, body, enrich, normalBytes).rows)
  {
    AppendBytes(s.rows, Insert(s, body, enrich, normalBytes).rows[|s.rows|], true);
    AppendBytes(s.rows, Insert(s, body, enrich, normalBytes).rows[|s.rows|], false);
  }

  lemma CutKeepsHasRow(rows: seq<Row>, i: nat, id: nat)
    requires i < |rows| && HasRow(rows, id) && id != rows[i].id
    ensures HasRow(rows[..i] + rows[i + 1..], id)
  {
    var j :| 0 <= j < |rows| && rows[j].id == id;
    var cut := rows[..i] + rows[i + 1..];
    assert j < i ==> cut[j] == rows[j];
    assert j > i ==> cut[j - 1] == rows[j];
  }

  lemma RemoveStaysFaithful(s: State, i: nat, why: Removal)
    requires Faithful(s.rows, s.lastId, s.hist.accepted, s.hist.removed) && i < |s.rows|
    ensures var n := Remove(s, s.rows[i].id, why);
      n.rows == s.rows[..i] + s.rows[i + 1..] && Faithful(n.rows, n.lastId, n.hist.accepted, n.hist.removed)
  {
    WithoutIsCut(s.rows, s.lastId, i);
    var cut := s.rows[..i] + s.rows[i + 1..];
    forall j | 0 <= j < |cut| ensures cut[j] == s.rows[if j < i then j else j + 1] {
    }
  }

  lemma RemoveStaysComplete(s: State, i: nat, why: Removal)
    requires Complete(s.rows, s.lastId, s.hist.removed) && i < |s.rows|
    requires Without(s.rows, s.rows[i].id) == s.rows[..i] + s.rows[i + 1..]
    ensures var n := Remove(s, s.rows[i].id, why); Complete(n.rows, n.lastId, n.hist.removed)
  {
    var n := Remove(s, s.rows[i].id, why);
    forall k: nat | 1 <= k <= n.lastId && k !in n.hist.removed
      ensures HasRow(n.rows, k)
    {
      CutKeepsHasRow(s.rows, i, k);
    }
  }

  lemma RemoveStaysCounted(s: State, i: nat, why: Removal)
    requires Counted(s.rows, s.lastId, s.hist.removed, s.hist.order) && i < |s.rows|
    requires 1 <= s.rows[i].id <= s.lastId && s.rows[i].id !in s.hist.removed
    requires Without(s.rows, s.rows[i].id) == s.rows[..i] + s.rows[i + 1..]
    ensures var n := Remove(s, s.rows[i].id, why); Counted(n.rows, n.lastId, n.hist.removed, n.hist.order)
  {
    var id := s.rows[i].id;
    NewKeyCounts(s.hist.removed, id, why);
    SnocMembers(s.hist.order, id);
  }

  lemma NewKeyCounts<K, V>(m: map<K, V>, k: K, v: V)
    requires k !in m
    ensures |m[k := v]| == |m| + 1
  {
    assert m[k := v].Keys == m.Keys + {k};
  }

  lemma SnocMembers(xs: seq<nat>, x: nat)
    ensures forall y :: y in xs + [x] <==> y in xs || y == x
  {
  }

  lemma RemoveConserves(s: State, i: nat, why: Removal)
    requires Conserved(s) && i < |s.rows|
    ensures var n := Remove(s, s.rows[i].id, why);
      Conserved(n) && n.rows == s.rows[..i] + s.rows[i + 1..]
  {
    RemoveStaysFaithful(s, i, why);
    RemoveStaysComplete(s, i, why);
    RemoveStaysCounted(s, i, why);
  }

  lemma RetryConserves(cfg: Config, s: State, row: Row)
    requires Conserved(s)
    ensures var n := Retry(cfg, s, row); Conserved(n)
  {
    SameIdsConserve(s, Retry(cfg, s, row));
  }

  /** Only retry times may differ. */
  ghost predicate SameIds(rows: seq<Row>, rows': seq<Row>) {
    && |rows'| == |rows|
    && forall i :: 0 <= i < |rows| ==>
         rows'[i].id == rows[i].id && rows'[i].body == rows[i].body && rows'[i].enrich == rows[i].enrich
  }

  lemma SameIdsConserve(s: State, n: State)
    requires Conserved(s) && SameIds(s.rows, n.rows) && n.lastId == s.lastId
    requires n.hist.accepted == s.hist.accepted && n.hist.removed == s.hist.removed && n.hist.order == s.hist.order
    ensures Conserved(n)
  {
    assert Faithful(n.rows, n.lastId, n.hist.accepted, n.hist.removed);
    forall id: nat | 1 <= id <= n.lastId && id !in n.hist.removed
      ensures HasRow(n.rows, id)
    {
      var i :| 0 <= i < |s.rows| && s.rows[i].id == id;
      assert n.rows[i].id == id;
    }
  }

  ghost predicate Pending(s: State) {
    !s.worker.Idle? ==> s.worker.row in s.rows
  }

  lemma FinishConserves(cfg: Config, s: State)
    requires Conserved(s) && Pending(s) && Enabled(s, Finish)
    ensures var n := NextFinish(cfg, s); Conserved(n)
  {
    var w := s.worker;
    var i :| 0 <= i < |s.rows| && s.rows[i] == w.row;
    if w.Discarding? {
      RemoveConserves(s, i, Poison);
    } else if w.Delivering? && w.failed == {} {
      RemoveConserves(s, i, Delivered(w.parsedAt, w.pass, w.keys, w.checks, w.base, |s.ledger.log|));
    } else {
      RetryConserves(cfg, s, w.row);
    }
  }

  predicate Quiet(l: Label) {
    !l.Post? && !l.PostOverflow? && !l.Finish?
  }

  /** Only admission and the end of a processing touch the spool. */
  lemma QuietLeavesSpool(cfg: Config, s: State, l: Label)
    requires Quiet(l) && Enabled(s, l)
    ensures var n := Next(cfg, s, l);
      && n.rows == s.rows && n.lastId == s.lastId
      && n.hist.accepted == s.hist.accepted && n.hist.refused == s.hist.refused
      && n.hist.removed == s.hist.removed && n.hist.order == s.hist.order
      && n.hist.failures == s.hist.failures && n.hist.lags == s.hist.lags
      && s.ledger.now <= n.ledger.now
  {
  }

  lemma StepConserves(cfg: Config, s: State, l: Label)
    requires Conserved(s) && Pending(s) && Enabled(s, l)
    ensures Conserved(Next(cfg, s, l))
  {
    if Quiet(l) {
      QuietLeavesSpool(cfg, s, l);
      SameIdsConserve(s, Next(cfg, s, l));
    } else {
      match l
      case Post(body) => InsertConserves(s, body, true, LaneBytes(s.rows, true));
      case PostOverflow => InsertConserves(s, s.handler.body, false, s.handler.normalBytes);
      case Finish => FinishConserves(cfg, s);
    }
  }

  lemma RetrySameBytes(cfg: Config, s: State, row: Row, lane: bool)
    ensures LaneBytes(Retry(cfg, s, row).rows, lane) == LaneBytes(s.rows, lane)
  {
    SameBodiesSameBytes(s.rows, Retry(cfg, s, row).rows, lane);
  }

  lemma StepKeepsLanes(cfg: Config, s: State, l: Label)
    requires InLanes(cfg, s.rows) && Enabled(s, l)
    ensures InLanes(cfg, Next(cfg, s, l).rows)
  {
    if Quiet(l) {
      QuietLeavesSpool(cfg, s, l);
    } else {
      match l
      case Post(body) =>
        if LaneBytes(s.rows, true) + |body| <= cfg.maxBytes {
          InsertInLanes(cfg, s, body, true, LaneBytes(s.rows, true));
        }
      case PostOverflow =>
        if LaneBytes(s.rows, false) + |s.handler.body| <= cfg.overflowMaxBytes {
          InsertInLanes(cfg, s, s.handler.body, false, s.handler.normalBytes);
        }
      case Finish =>
        WithoutBytes(s.rows, s.worker.row.id, true);
        WithoutBytes(s.rows, s.worker.row.id, false);
        RetrySameBytes(cfg, s, s.worker.row, true);
        RetrySameBytes(cfg, s, s.worker.row, false);
    }
  }

  lemma ClaimFindsRow(rows: seq<Row>, lastId: nat, now: int)
    requires Ordered(rows, lastId) && FirstDue(rows, now).Some?
    ensures FirstDue(rows, now).value in rows && FirstDue(rows, now).value.nextAttempt <= now
  {
    FirstDueIsOldest(rows, lastId, now);
  }

  lemma StepKeepsPending(cfg: Config, s: State, l: Label)
    requires Ordered(s.rows, s.lastId) && Pending(s) && Enabled(s, l)
    ensures Pending(Next(cfg, s, l))
  {
    match l
    case Claim =>
      if FirstDue(s.rows, s.ledger.now).Some? {
        ClaimFindsRow(s.rows, s.lastId, s.ledger.now);
      }
    case Post(_) =>
    case PostOverflow =>
    case Finish =>
    case Tick(_) =>
    case Answer =>
    case Parse =>
    case Check =>
    case Return(_) =>
    case Mark =>
    case Crash =>
  }
}
