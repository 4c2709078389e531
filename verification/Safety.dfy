/** What holds in every reachable state of the bridge, and what follows for whole runs. */
module Safety {
  import opened Common
  import opened Dedup
  import L = Ledgers
  import opened Spool
  import opened Backoff
  import opened Engine

  // --- No loss ------------------------------------------------------------------------

  lemma StepExtends(cfg: Config, s: State, l: Label)
    requires L.Inv(cfg.ttl, s.ledger) && Enabled(s, l)
    ensures L.Extends(s.ledger.log, Next(cfg, s, l).ledger.log)
  {
    if !l.Return? && !l.Mark? {
      assert Next(cfg, s, l).ledger.log == s.ledger.log;
    }
  }

  /** The keys really are those of a decodable body parsed at `parsedAt`, each was checked, each has its evidence. */
  ghost predicate FullyDelivered(cfg: Config, log: seq<L.Attempt>, a: Acceptance, r: Removal)
    requires r.Delivered?
  {
    && cfg.decodable(a.body)
    && KeysFor(cfg, a.body, a.enrich, r.parsedAt, r.pass) == Some(r.keys)
    && |r.checks| == |r.keys|
    && r.base <= r.upTo <= |log|
    && forall i :: 0 <= i < |r.keys| ==> L.Evidence(cfg.ttl, log, r.base, r.upTo, r.keys[i], r.checks[i])
  }

  ghost predicate RemovedWithReason(
      cfg: Config, log: seq<L.Attempt>, accepted: seq<Acceptance>, removed: map<nat, Removal>) {
    forall id :: id in removed ==>
      && 1 <= id <= |accepted|
      && (removed[id].Poison? ==> !cfg.decodable(accepted[id - 1].body))
      && (removed[id].Delivered? ==> FullyDelivered(cfg, log, accepted[id - 1], removed[id]))
  }

  /** What the worker knows while it processes a row. */
  ghost predicate Processing(cfg: Config, ledger: L.Ledger, w: Worker) {
    && (!w.Idle? ==> w.row.nextAttempt <= ledger.now)
    && (!w.Delivering? ==> ledger.call.Between?)
    && (w.Discarding? ==> !cfg.decodable(w.row.body))
    && (w.Delivering? ==>
          && cfg.decodable(w.row.body)
          && KeysFor(cfg, w.row.body, w.row.enrich, w.parsedAt, w.pass) == Some(w.keys)
          && |w.checks| <= |w.keys|
          && w.base <= |ledger.log|
          && (ledger.call.Sending? ==> |w.checks| < |w.keys| && ledger.call.key == w.keys[|w.checks|])
          && (ledger.call.Unmarked? ==>
                |w.checks| < |w.keys| && ledger.call.key == w.keys[|w.checks|] && w.base < |ledger.log|)
          && Evidenced(cfg, ledger.log, w))
  }

  lemma EarlierEvidenceLasts(cfg: Config, l: L.Ledger, l': L.Ledger, w: Worker)
    requires w.Delivering? && |w.checks| <= |w.keys| && L.Extends(l.log, l'.log) && Evidenced(cfg, l.log, w)
    ensures Evidenced(cfg, l'.log, w)
  {
    forall i | 0 <= i < |w.checks| && i !in w.failed
      ensures L.Evidence(cfg.ttl, l'.log, w.base, |l'.log|, w.keys[i], w.checks[i])
    {
      L.EvidenceLasts(cfg.ttl, l.log, l'.log, w.base, |l.log|, |l'.log|, w.keys[i], w.checks[i]);
    }
  }

  /** Every key that was checked and did not fail has its evidence. */
  ghost predicate Evidenced(cfg: Config, log: seq<L.Attempt>, w: Worker)
    requires w.Delivering? && |w.checks| <= |w.keys|
  {
    forall i :: 0 <= i < |w.checks| && i !in w.failed ==>
      L.Evidence(cfg.ttl, log, w.base, |log|, w.keys[i], w.checks[i])
  }

  lemma AdvanceStaysEvidenced(cfg: Config, log: seq<L.Attempt>, w: Worker, at: int, failed: bool)
    requires w.Delivering? && |w.checks| < |w.keys| && Evidenced(cfg, log, w)
    requires !failed ==> L.Evidence(cfg.ttl, log, w.base, |log|, w.keys[|w.checks|], at)
    ensures Evidenced(cfg, log, Advance(w, at, failed))
  {
  }

  lemma CheckKeepsProcessing(cfg: Config, s: State)
    requires L.Inv(cfg.ttl, s.ledger) && Processing(cfg, s.ledger, s.worker) && Enabled(s, Check)
    ensures var n := NextCheck(cfg, s); Processing(cfg, n.ledger, n.worker)
  {
    var key := s.worker.keys[|s.worker.checks|];
    if Suppresses(cfg.ttl, s.ledger.seen, key, s.ledger.now) {
      L.SuppressionIsEvidence(cfg.ttl, s.ledger, s.worker.base, key);
      AdvanceStaysEvidenced(cfg, s.ledger.log, s.worker, s.ledger.now, false);
    }
  }

  lemma ReturnKeepsProcessing(cfg: Config, s: State, ok: bool)
    requires L.Inv(cfg.ttl, s.ledger) && Processing(cfg, s.ledger, s.worker) && Enabled(s, Return(ok))
    ensures var n := NextReturn(cfg, s, ok); Processing(cfg, n.ledger, n.worker)
  {
    var n := NextReturn(cfg, s, ok);
    EarlierEvidenceLasts(cfg, s.ledger, n.ledger, s.worker);
    if !ok {
      AdvanceStaysEvidenced(cfg, n.ledger.log, s.worker, s.ledger.call.checkedAt, true);
    }
  }

  /** The forward that is being marked is evidence for its key. */
  lemma MarkIsEvidence(cfg: Config, s: State)
    requires L.Inv(cfg.ttl, s.ledger) && Processing(cfg, s.ledger, s.worker) && Enabled(s, Mark)
    ensures var log := NextMark(cfg, s).ledger.log;
      && L.Extends(s.ledger.log, log) && |log| == |s.ledger.log|
      && L.Evidence(cfg.ttl, log, s.worker.base, |log|, s.worker.keys[|s.worker.checks|],
                    s.ledger.log[|s.ledger.log| - 1].checkedAt)
  {
    var log := NextMark(cfg, s).ledger.log;
    var last := |s.ledger.log| - 1;
    assert log[last].key == s.ledger.call.key && log[last].ok;
  }

  lemma MarkKeepsProcessing(cfg: Config, s: State)
    requires L.Inv(cfg.ttl, s.ledger) && Processing(cfg, s.ledger, s.worker) && Enabled(s, Mark)
    ensures var n := NextMark(cfg, s); Processing(cfg, n.ledger, n.worker)
  {
    var n := NextMark(cfg, s);
    MarkIsEvidence(cfg, s);
    EarlierEvidenceLasts(cfg, s.ledger, n.ledger, s.worker);
    AdvanceStaysEvidenced(cfg, n.ledger.log, s.worker, s.ledger.log[|s.ledger.log| - 1].checkedAt, false);
  }

  lemma TickKeepsProcessing(cfg: Config, s: State, d: nat)
    requires Processing(cfg, s.ledger, s.worker)
    ensures Processing(cfg, Next(cfg, s, Tick(d)).ledger, s.worker)
  {
  }

  lemma StepKeepsProcessing(cfg: Config, s: State, l: Label)
    requires L.Inv(cfg.ttl, s.ledger) && Processing(cfg, s.ledger, s.worker)
    requires Ordered(s.rows, s.lastId) && Enabled(s, l)
    ensures Processing(cfg, Next(cfg, s, l).ledger, Next(cfg, s, l).worker)
  {
    match l
    case Tick(d) => TickKeepsProcessing(cfg, s, d);
    case Claim =>
      if FirstDue(s.rows, s.ledger.now).Some? {
        ClaimFindsRow(s.rows, s.lastId, s.ledger.now);
      }
    case Check => CheckKeepsProcessing(cfg, s);
    case Return(ok) => ReturnKeepsProcessing(cfg, s, ok);
    case Mark => MarkKeepsProcessing(cfg, s);
    case Parse =>
    case Finish =>
    case Crash =>
    case Post(_) =>
    case PostOverflow =>
    case Answer =>
  }

  lemma ReasonsLast(
      cfg: Config, log: seq<L.Attempt>, log': seq<L.Attempt>,
      accepted: seq<Acceptance>, accepted': seq<Acceptance>, removed: map<nat, Removal>)
    requires RemovedWithReason(cfg, log, accepted, removed) && L.Extends(log, log') && accepted <= accepted'
    ensures RemovedWithReason(cfg, log', accepted', removed)
  {
    forall id | id in removed && removed[id].Delivered?
      ensures FullyDelivered(cfg, log', accepted'[id - 1], removed[id])
    {
      var r := removed[id];
      forall i | 0 <= i < |r.keys|
        ensures L.Evidence(cfg.ttl, log', r.base, r.upTo, r.keys[i], r.checks[i])
      {
        L.EvidenceLasts(cfg.ttl, log, log', r.base, r.upTo, r.upTo, r.keys[i], r.checks[i]);
      }
    }
  }

  lemma RowKnowsItsBody(s: State)
    requires Faithful(s.rows, s.lastId, s.hist.accepted, s.hist.removed) && Pending(s) && !s.worker.Idle?
    ensures 1 <= s.worker.row.id <= |s.hist.accepted|
    ensures s.worker.row.body == s.hist.accepted[s.worker.row.id - 1].body
    ensures s.worker.row.enrich == s.hist.accepted[s.worker.row.id - 1].enrich
  {
    var i :| 0 <= i < |s.rows| && s.rows[i] == s.worker.row;
  }

  lemma FinishKeepsReasons(cfg: Config, s: State)
    requires Conserved(s) && Pending(s) && Processing(cfg, s.ledger, s.worker) && Enabled(s, Finish)
    requires RemovedWithReason(cfg, s.ledger.log, s.hist.accepted, s.hist.removed)
    ensures RemovedWithReason(cfg, s.ledger.log, s.hist.accepted, NextFinish(cfg, s).hist.removed)
  {
    RowKnowsItsBody(s);
    var w := s.worker;
    if w.Discarding? {
      OneMoreReason(cfg, s, w.row.id, Poison);
    } else if w.Delivering? && w.failed == {} {
      assert forall i :: 0 <= i < |w.keys| ==> i !in w.failed;
      OneMoreReason(cfg, s, w.row.id, Delivered(w.parsedAt, w.pass, w.keys, w.checks, w.base, |s.ledger.log|));
    }
  }

  lemma OneMoreReason(cfg: Config, s: State, id: nat, r: Removal)
    requires RemovedWithReason(cfg, s.ledger.log, s.hist.accepted, s.hist.removed)
    requires 1 <= id <= |s.hist.accepted|
    requires r.Poison? ==> !cfg.decodable(s.hist.accepted[id - 1].body)
    requires r.Delivered? ==> FullyDelivered(cfg, s.ledger.log, s.hist.accepted[id - 1], r)
    ensures RemovedWithReason(cfg, s.ledger.log, s.hist.accepted, s.hist.removed[id := r])
  {
  }

  lemma StepKeepsReasons(cfg: Config, s: State, l: Label)
    requires L.Inv(cfg.ttl, s.ledger) && Conserved(s) && Pending(s)
    requires Processing(cfg, s.ledger, s.worker) && Enabled(s, l)
    requires RemovedWithReason(cfg, s.ledger.log, s.hist.accepted, s.hist.removed)
    ensures var n := Next(cfg, s, l); RemovedWithReason(cfg, n.ledger.log, n.hist.accepted, n.hist.removed)
  {
    if l.Finish? {
      FinishKeepsReasons(cfg, s);
    } else {
      var n := Next(cfg, s, l);
      StepExtends(cfg, s, l);
      AcceptedGrows(cfg, s, l);
      ReasonsLast(cfg, s.ledger.log, n.ledger.log, s.hist.accepted, n.hist.accepted, s.hist.removed);
    }
  }

  lemma AcceptedGrows(cfg: Config, s: State, l: Label)
    requires Enabled(s, l) && !l.Finish?
    ensures s.hist.accepted <= Next(cfg, s, l).hist.accepted
    ensures Next(cfg, s, l).hist.removed == s.hist.removed
  {
    if Quiet(l) {
      QuietLeavesSpool(cfg, s, l);
    }
  }

  // --- Answers --------------------------------------------------------------------------

  /** Every 202 is for a committed row, in increasing order. */
  ghost predicate Answered(s: State) {
    && |s.hist.answered| + s.hist.unanswered + (if s.handler.Stored? then 1 else 0) == |s.hist.accepted|
    && (forall i :: 0 <= i < |s.hist.answered| ==> 1 <= s.hist.answered[i] <= s.lastId)
    && (forall i, j :: 0 <= i < j < |s.hist.answered| ==> s.hist.answered[i] < s.hist.answered[j])
    && (s.handler.Stored? ==>
          && s.handler.id == s.lastId >= 1
          && forall i :: 0 <= i < |s.hist.answered| ==> s.hist.answered[i] < s.handler.id)
  }

  /** A body is in the overflow lane iff the normal lane could not fit it, and refused only if neither lane could. */
  ghost predicate Admitted(cfg: Config, s: State) {
    && (s.handler.Overflowing? ==> s.handler.normalBytes + |s.handler.body| > cfg.maxBytes)
    && (forall i :: 0 <= i < |s.hist.accepted| ==>
          (s.hist.accepted[i].enrich <==> s.hist.accepted[i].normalBytes + |s.hist.accepted[i].body| <= cfg.maxBytes))
    && (forall i :: 0 <= i < |s.hist.refused| ==>
          && s.hist.refused[i].normalBytes + |s.hist.refused[i].body| > cfg.maxBytes
          && s.hist.refused[i].overflowBytes + |s.hist.refused[i].body| > cfg.overflowMaxBytes)
  }

  lemma AnswerKeepsAnswered(cfg: Config, s: State)
    requires Answered(s) && s.handler.Stored?
    ensures Answered(Next(cfg, s, Answer))
  {
  }

  lemma StepKeepsAnswered(cfg: Config, s: State, l: Label)
    requires Answered(s) && s.lastId == |s.hist.accepted| && Enabled(s, l)
    ensures Answered(Next(cfg, s, l))
  {
    var n := Next(cfg, s, l);
    if l.Answer? {
      AnswerKeepsAnswered(cfg, s);
    } else {
      assert n.hist.answered == s.hist.answered;
      assert l.Post? || l.PostOverflow? || l.Crash? || (
        n.handler == s.handler && n.lastId == s.lastId && n.hist.unanswered == s.hist.unanswered &&
        n.hist.accepted == s.hist.accepted);
    }
  }

  lemma StepKeepsAdmitted(cfg: Config, s: State, l: Label)
    requires Admitted(cfg, s) && Enabled(s, l)
    ensures Admitted(cfg, Next(cfg, s, l))
  {
    if !l.Post? && !l.PostOverflow? {
      var n := Next(cfg, s, l);
      assert n.hist.accepted == s.hist.accepted && n.hist.refused == s.hist.refused;
      assert n.handler.Overflowing? ==> n.handler == s.handler;
    }
  }

  // --- Retry times ------------------------------------------------------------------------

  /**
   * A row's next attempt is never more than the cap ahead of the clock, and it is exactly the first failure
   * plus the backoff horizon of its attempts plus the slack the row has accumulated.
   */
  ghost predicate OnSchedule(cfg: Config, now: int, r: Row, lags: map<nat, Lag>) {
    && r.nextAttempt <= now + Max(cfg.cap, 0)
    && (r.attempts >= 1 ==>
          && r.id in lags
          && lags[r.id].slack >= 0
          && lags[r.id].firstFailedAt <= now
          && r.nextAttempt == lags[r.id].firstFailedAt + Horizon(cfg.base, cfg.cap, r.attempts) + lags[r.id].slack)
  }

  ghost predicate AllOnSchedule(cfg: Config, now: int, rows: seq<Row>, lags: map<nat, Lag>) {
    forall i :: 0 <= i < |rows| ==> OnSchedule(cfg, now, rows[i], lags)
  }

  lemma RetryKeepsSchedule(cfg: Config, s: State, row: Row)
    requires Ordered(s.rows, s.lastId) && row in s.rows && row.nextAttempt <= s.ledger.now
    requires AllOnSchedule(cfg, s.ledger.now, s.rows, s.hist.lags)
    ensures var n := Retry(cfg, s, row); AllOnSchedule(cfg, n.ledger.now, n.rows, n.hist.lags)
  {
    var n := Retry(cfg, s, row);
    DelayBounds(cfg.base, cfg.cap, row.attempts + 1);
    forall i | 0 <= i < |n.rows|
      ensures OnSchedule(cfg, n.ledger.now, n.rows[i], n.hist.lags)
    {
      assert OnSchedule(cfg, s.ledger.now, s.rows[i], s.hist.lags);
      if s.rows[i].id == row.id {
        var k :| 0 <= k < |s.rows| && s.rows[k] == row;
        assert s.rows[i] == row;
      }
    }
  }

  lemma LaterKeepsSchedule(cfg: Config, now: int, now': int, rows: seq<Row>, rows': seq<Row>, lags: map<nat, Lag>)
    requires AllOnSchedule(cfg, now, rows, lags) && now <= now'
    requires forall i :: 0 <= i < |rows'| ==>
               rows'[i] in rows || (rows'[i].attempts == 0 && rows'[i].nextAttempt <= now')
    ensures AllOnSchedule(cfg, now', rows', lags)
  {
    forall i | 0 <= i < |rows'|
      ensures OnSchedule(cfg, now', rows'[i], lags)
    {
      if k :| 0 <= k < |rows| && rows[k] == rows'[i] {
        assert OnSchedule(cfg, now, rows[k], lags);
      }
    }
  }

  lemma FinishKeepsSchedule(cfg: Config, s: State)
    requires Ordered(s.rows, s.lastId) && Pending(s) && Enabled(s, Finish)
    requires s.worker.row.nextAttempt <= s.ledger.now
    requires AllOnSchedule(cfg, s.ledger.now, s.rows, s.hist.lags)
    ensures var n := NextFinish(cfg, s); AllOnSchedule(cfg, n.ledger.now, n.rows, n.hist.lags)
  {
    var n := NextFinish(cfg, s);
    if n.hist.failures == s.hist.failures {
      forall i | 0 <= i < |n.rows| ensures n.rows[i] in s.rows {
        WithoutMembers(s.rows, s.worker.row.id, n.rows[i]);
      }
      LaterKeepsSchedule(cfg, s.ledger.now, s.ledger.now, s.rows, n.rows, s.hist.lags);
    } else {
      RetryKeepsSchedule(cfg, s, s.worker.row);
    }
  }

  lemma StepKeepsSchedule(cfg: Config, s: State, l: Label)
    requires Ordered(s.rows, s.lastId) && Pending(s) && Enabled(s, l)
    requires !s.worker.Idle? ==> s.worker.row.nextAttempt <= s.ledger.now
    requires AllOnSchedule(cfg, s.ledger.now, s.rows, s.hist.lags)
    ensures var n := Next(cfg, s, l); AllOnSchedule(cfg, n.ledger.now, n.rows, n.hist.lags)
  {
    if l.Finish? {
      FinishKeepsSchedule(cfg, s);
    } else {
      var n := Next(cfg, s, l);
      if Quiet(l) {
        QuietLeavesSpool(cfg, s, l);
      }
      LaterKeepsSchedule(cfg, s.ledger.now, n.ledger.now, s.rows, n.rows, s.hist.lags);
    }
  }

  // --- First in, first out -----------------------------------------------------------------

  /** Every row is due, and rows leave in id order with no gap. */
  ghost predicate Queued(order: seq<nat>, rows: seq<Row>, now: int) {
    && (forall i :: 0 <= i < |order| ==> order[i] == i + 1)
    && (forall i :: 0 <= i < |rows| ==> rows[i].id == |order| + i + 1 && rows[i].nextAttempt <= now)
  }

  /** Until an attempt fails the spool is a queue and the worker holds its head. */
  ghost predicate InOrder(s: State) {
    s.hist.failures == 0 ==>
      && Queued(s.hist.order, s.rows, s.ledger.now)
      && (!s.worker.Idle? ==> |s.rows| > 0 && s.worker.row == s.rows[0])
  }

  lemma DequeueHead(order: seq<nat>, rows: seq<Row>, lastId: nat, now: int)
    requires Queued(order, rows, now) && Ordered(rows, lastId) && |rows| > 0
    ensures Queued(order + [rows[0].id], Without(rows, rows[0].id), now)
  {
    WithoutHead(rows, lastId);
    TailStaysQueued(order, rows, now);
  }

  lemma WithoutHead(rows: seq<Row>, lastId: nat)
    requires Ordered(rows, lastId) && |rows| > 0
    ensures Without(rows, rows[0].id) == rows[1..]
  {
    calc {
      Without(rows, rows[0].id);
      { WithoutIsCut(rows, lastId, 0); }
      rows[..0] + rows[0 + 1..];
      { assert rows[..0] == []; }
      rows[1..];
    }
  }

  lemma TailStaysQueued(order: seq<nat>, rows: seq<Row>, now: int)
    requires Queued(order, rows, now) && |rows| > 0
    ensures Queued(order + [rows[0].id], rows[1..], now)
  {
    var rest := rows[1..];
    forall i | 0 <= i < |rest|
      ensures rest[i].id == |order + [rows[0].id]| + i + 1 && rest[i].nextAttempt <= now
    {
      assert rest[i] == rows[i + 1];
    }
  }

  lemma FinishKeepsOrder(cfg: Config, s: State)
    requires InOrder(s) && Ordered(s.rows, s.lastId) && Enabled(s, Finish)
    ensures InOrder(NextFinish(cfg, s))
  {
    if s.hist.failures == 0 {
      DequeueHead(s.hist.order, s.rows, s.lastId, s.ledger.now);
    }
  }

  lemma QuietKeepsOrder(cfg: Config, s: State, l: Label)
    requires InOrder(s) && Quiet(l) && Enabled(s, l)
    ensures InOrder(Next(cfg, s, l))
  {
    var n := Next(cfg, s, l);
    QuietLeavesSpool(cfg, s, l);
    if l.Claim? {
      assert s.rows != [] && s.rows[0].nextAttempt <= s.ledger.now ==>
          FirstDue(s.rows, s.ledger.now) == Some(s.rows[0]);
    } else {
      assert !n.worker.Idle? ==> !s.worker.Idle? && n.worker.row == s.worker.row;
    }
  }

  lemma InsertKeepsOrder(s: State, body: Body, enrich: bool, normalBytes: nat)
    requires InOrder(s) && Conserved(s)
    ensures InOrder(Insert(s, body, enrich, normalBytes))
  {
  }

  lemma StepKeepsOrder(cfg: Config, s: State, l: Label)
    requires InOrder(s) && Conserved(s) && Enabled(s, l)
    ensures InOrder(Next(cfg, s, l))
  {
    if Quiet(l) {
      QuietKeepsOrder(cfg, s, l);
    } else {
      match l
      case Finish => FinishKeepsOrder(cfg, s);
      case Post(body) => InsertKeepsOrder(s, body, true, LaneBytes(s.rows, true));
      case PostOverflow => InsertKeepsOrder(s, s.handler.body, false, s.handler.normalBytes);
    }
  }

  // --- Together --------------------------------------------------------------------------------

  ghost predicate Inv(cfg: Config, s: State) {
    && L.Inv(cfg.ttl, s.ledger)
    && Conserved(s)
    && InLanes(cfg, s.rows)
    && Pending(s)
    && Processing(cfg, s.ledger, s.worker)
    && RemovedWithReason(cfg, s.ledger.log, s.hist.accepted, s.hist.removed)
    && Answered(s)
    && Admitted(cfg, s)
    && AllOnSchedule(cfg, s.ledger.now, s.rows, s.hist.lags)
    && InOrder(s)
  }

  lemma InitInv(cfg: Config, now: int)
    ensures Inv(cfg, Init(now))
  {
    L.StartInv(cfg.ttl, now);
  }

  lemma StepKeepsInv(cfg: Config, s: State, l: Label)
    requires Inv(cfg, s) && Enabled(s, l)
    ensures Inv(cfg, Next(cfg, s, l))
  {
    StepKeepsLedger(cfg, s, l);
    StepConserves(cfg, s, l);
    StepKeepsLanes(cfg, s, l);
    StepKeepsPending(cfg, s, l);
    StepKeepsProcessing(cfg, s, l);
    StepKeepsReasons(cfg, s, l);
    StepKeepsAnswered(cfg, s, l);
    StepKeepsAdmitted(cfg, s, l);
    StepKeepsSchedule(cfg, s, l);
    StepKeepsOrder(cfg, s, l);
  }

  lemma {:induction false} RunKeepsInv(cfg: Config, s: State, labels: seq<Label>)
    requires Inv(cfg, s) && Run(cfg, s, labels).Some?
    ensures Inv(cfg, Run(cfg, s, labels).value)
    decreases |labels|
  {
    if labels != [] {
      StepKeepsInv(cfg, s, labels[0]);
      RunKeepsInv(cfg, Next(cfg, s, labels[0]), labels[1..]);
    }
  }

  lemma ReachableInv(cfg: Config, s: State)
    requires Reachable(cfg, s)
    ensures Inv(cfg, s)
  {
    var start: int, labels: seq<Label> :| Run(cfg, Init(start), labels) == Some(s);
    InitInv(cfg, start);
    RunKeepsInv(cfg, Init(start), labels);
  }

  // --- Theorems ----------------------------------------------------------------------------------

  /**
   * No loss. A body answered 202 is still a row holding that very body, or was undecodable, or each of its
   * (event, target) keys was successfully forwarded during the processing that removed it or at most ttl
   * seconds before that processing checked the key. And it is exactly one of these.
   */
  lemma NoAcceptedEventIsLost(cfg: Config, s: State, id: nat)
    requires Reachable(cfg, s) && id in s.hist.answered
    ensures 1 <= id <= |s.hist.accepted|
    ensures id in s.hist.removed <==> !HasRow(s.rows, id)
    ensures forall r :: r in s.rows && r.id == id ==> r.body == s.hist.accepted[id - 1].body
    ensures id in s.hist.removed && s.hist.removed[id].Poison? ==> !cfg.decodable(s.hist.accepted[id - 1].body)
    ensures id in s.hist.removed && s.hist.removed[id].Delivered? ==>
      FullyDelivered(cfg, s.ledger.log, s.hist.accepted[id - 1], s.hist.removed[id])
  {
    ReachableInv(cfg, s);
  }

  /** Normalisation raises on this body whenever it is tried. */
  ghost predicate NeverUsable(cfg: Config, a: Acceptance) {
    forall at, pass :: KeysFor(cfg, a.body, a.enrich, at, pass).None?
  }

  /** A decodable body whose normalisation always raises is never discarded, however often it fails. */
  lemma UnusableJsonIsKept(cfg: Config, s: State, id: nat)
    requires Reachable(cfg, s) && 1 <= id <= |s.hist.accepted|
    requires cfg.decodable(s.hist.accepted[id - 1].body) && NeverUsable(cfg, s.hist.accepted[id - 1])
    ensures HasRow(s.rows, id)
  {
    ReachableInv(cfg, s);
    assert forall r: Removal :: r.Delivered? ==> !FullyDelivered(cfg, s.ledger.log, s.hist.accepted[id - 1], r);
  }

  /**
   * At most once per window, over whole runs with crashes: every later forward of a marked key was checked
   * after the window closed, and a window holds one success more than the crashes in the unmarked gap.
   */
  lemma NoDuplicateWithinWindow(cfg: Config, s: State, key: Key, from: int, to: int)
    requires Reachable(cfg, s) && cfg.ttl > 0 && to - from <= cfg.ttl
    ensures L.CountOverlaps(s.ledger.log, key, from, to) <= 1 + s.ledger.lost[key]
    ensures L.Apart(cfg.ttl, s.ledger.log)
  {
    ReachableInv(cfg, s);
    L.AtMostOncePerWindow(cfg.ttl, s.ledger, key, from, to);
  }

  /**
   * Lane budgets and admission, in every reachable state: each lane stays within its own limit, 202s are
   * increasing ids, they account for every row ever committed except those a crash cut off from their
   * answer, and 503 means each lane, at its own check, could not fit the body.
   */
  lemma AdmissionIsBounded(cfg: Config, s: State)
    requires Reachable(cfg, s)
    ensures LaneBytes(s.rows, true) <= Max(cfg.maxBytes, 0)
    ensures LaneBytes(s.rows, false) <= Max(cfg.overflowMaxBytes, 0)
    ensures |s.hist.answered| + s.hist.unanswered + (if s.handler.Stored? then 1 else 0)
         == |s.rows| + |s.hist.removed| == s.lastId
    ensures forall i, j :: 0 <= i < j < |s.hist.answered| ==> s.hist.answered[i] < s.hist.answered[j]
    ensures forall i :: 0 <= i < |s.hist.refused| ==>
      && s.hist.refused[i].normalBytes + |s.hist.refused[i].body| > cfg.maxBytes
      && s.hist.refused[i].overflowBytes + |s.hist.refused[i].body| > cfg.overflowMaxBytes
    ensures forall i :: 0 <= i < |s.hist.accepted| ==>
      (s.hist.accepted[i].enrich <==> s.hist.accepted[i].normalBytes + |s.hist.accepted[i].body| <= cfg.maxBytes)
  {
    ReachableInv(cfg, s);
  }

  /** In a run where no attempt has failed, rows leave in acceptance order and nothing is overtaken. */
  lemma FirstInFirstOut(cfg: Config, s: State)
    requires Reachable(cfg, s) && s.hist.failures == 0
    ensures forall i :: 0 <= i < |s.hist.order| ==> s.hist.order[i] == i + 1
    ensures forall i, j :: 0 <= i < |s.hist.order| && 0 <= j < |s.rows| ==> s.hist.order[i] < s.rows[j].id
    ensures FirstDue(s.rows, s.ledger.now) == if s.rows == [] then None else Some(s.rows[0])
  {
    ReachableInv(cfg, s);
  }

  /** No retry is ever further away than the cap, and none comes before the backoff horizon of its attempts. */
  lemma BackoffIsBounded(cfg: Config, s: State, r: Row)
    requires Reachable(cfg, s) && r in s.rows
    ensures r.nextAttempt <= s.ledger.now + Max(cfg.cap, 0)
    ensures r.attempts >= 1 ==>
      && r.id in s.hist.lags
      && r.nextAttempt >= s.hist.lags[r.id].firstFailedAt + Horizon(cfg.base, cfg.cap, r.attempts)
  {
    ReachableInv(cfg, s);
    var i :| 0 <= i < |s.rows| && s.rows[i] == r;
    assert OnSchedule(cfg, s.ledger.now, s.rows[i], s.hist.lags);
  }

  // --- The duplicate-free retry horizon -----------------------------------------------------------

  /** Log entry i is the last mark of its key. */
  ghost predicate LastMark(log: seq<L.Attempt>, i: nat) {
    && i < |log| && log[i].ok && log[i].markedAt.Some?
    && forall j :: 0 <= j < |log| && log[j].key == log[i].key && log[j].markedAt.Some? ==>
         log[j].markedAt.value <= log[i].markedAt.value
  }

  /** A key is skipped exactly until its last mark is older than the TTL. */
  lemma LastMarkDecides(ttl: int, l: L.Ledger, i: nat)
    requires L.Inv(ttl, l) && ttl > 0 && LastMark(l.log, i)
    ensures Suppresses(ttl, l.seen, l.log[i].key, l.now) <==> l.now <= l.log[i].markedAt.value + ttl
  {
    var k := l.log[i].key;
    if k in l.seen {
      assert L.MarkedIn(l.log, k, l.seen[k]);
      var j :| 0 <= j < |l.log| && l.log[j].key == k && l.log[j].ok && l.log[j].markedAt == Some(l.seen[k]);
    }
  }

  /**
   * When retry n of a row reaches a key last marked at m, the key is skipped if and only if the backoff
   * horizon D(n), plus the time from that mark to the row's first failure, plus the slack of the attempts
   * since, plus the lateness of this one, is within the TTL; otherwise it is forwarded again.
   */
  lemma RetryHorizon(cfg: Config, s: State, i: nat)
    requires Reachable(cfg, s) && cfg.ttl > 0 && Enabled(s, Check)
    requires s.worker.row.attempts >= 1
    requires LastMark(s.ledger.log, i) && s.ledger.log[i].key == s.worker.keys[|s.worker.checks|]
    ensures s.worker.row.id in s.hist.lags
    ensures var row := s.worker.row;
      var lag := s.hist.lags[row.id];
      var sinceMark := lag.firstFailedAt - s.ledger.log[i].markedAt.value;
      var lateness := s.ledger.now - row.nextAttempt;
      && lag.slack >= 0 && lateness >= 0
      && (Next(cfg, s, Check).ledger.call.Between? <==>
            sinceMark + Horizon(cfg.base, cfg.cap, row.attempts) + lag.slack + lateness <= cfg.ttl)
  {
    ReachableInv(cfg, s);
    var k :| 0 <= k < |s.rows| && s.rows[k] == s.worker.row;
    assert OnSchedule(cfg, s.ledger.now, s.rows[k], s.hist.lags);
    LastMarkDecides(cfg.ttl, s.ledger, i);
  }
}
