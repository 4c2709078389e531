/** With the clock and the handler standing still, the worker empties the due part of the spool. */
module Drain {
  import opened Spool
  import opened Backoff
  import opened Engine
  import opened Safety

  /** How many rows are due. */
  function DueCount(rows: seq<Row>, now: int): nat {
    if rows == [] then 0 else
      var n := |rows| - 1;
      DueCount(rows[..n], now) + (if rows[n].nextAttempt <= now then 1 else 0)
  }

  lemma {:induction false} DueCountSplit(a: seq<Row>, b: seq<Row>, now: int)
    ensures DueCount(a + b, now) == DueCount(a, now) + DueCount(b, now)
  {
    if b == [] {
      assert a + b == a;
    } else {
      var n := |b| - 1;
      assert (a + b)[..|a + b| - 1] == a + b[..n];
      DueCountSplit(a, b[..n], now);
    }
  }

  lemma DueCountAt(rows: seq<Row>, i: nat, now: int)
    requires i < |rows|
    ensures DueCount(rows, now)
         == DueCount(rows[..i], now) + (if rows[i].nextAttempt <= now then 1 else 0) + DueCount(rows[i + 1..], now)
  {
    assert rows == rows[..i] + ([rows[i]] + rows[i + 1..]);
    DueCountSplit(rows[..i], [rows[i]] + rows[i + 1..], now);
    DueCountSplit([rows[i]], rows[i + 1..], now);
    assert DueCount([rows[i]], now) == if rows[i].nextAttempt <= now then 1 else 0;
  }

  lemma {:induction false} NothingDue(rows: seq<Row>, now: int)
    ensures DueCount(rows, now) == 0 <==> forall r :: r in rows ==> r.nextAttempt > now
  {
    if rows != [] {
      var n := |rows| - 1;
      NothingDue(rows[..n], now);
      assert rows == rows[..n] + [rows[n]];
    }
  }

  lemma RescheduledCut(rows: seq<Row>, lastId: nat, i: nat, attempts: nat, next: int)
    requires Ordered(rows, lastId) && i < |rows|
    ensures Rescheduled(rows, rows[i].id, attempts, next)
         == rows[..i] + [rows[i].(attempts := attempts, nextAttempt := next)] + rows[i + 1..]
  {
  }

  lemma RetryDropsOne(rows: seq<Row>, lastId: nat, i: nat, attempts: nat, next: int, now: int)
    requires Ordered(rows, lastId) && i < |rows| && rows[i].nextAttempt <= now
    ensures DueCount(Rescheduled(rows, rows[i].id, attempts, next), now)
         == DueCount(rows, now) - (if next > now then 1 else 0)
  {
    var rows' := Rescheduled(rows, rows[i].id, attempts, next);
    RescheduledCut(rows, lastId, i, attempts, next);
    DueCountAt(rows, i, now);
    DueCountAt(rows', i, now);
    assert rows'[..i] == rows[..i] && rows'[i + 1..] == rows[i + 1..];
  }

  lemma RemoveDropsOne(rows: seq<Row>, lastId: nat, i: nat, now: int)
    requires Ordered(rows, lastId) && i < |rows| && rows[i].nextAttempt <= now
    ensures DueCount(Without(rows, rows[i].id), now) == DueCount(rows, now) - 1
  {
    WithoutIsCut(rows, lastId, i);
    DueCountAt(rows, i, now);
    DueCountSplit(rows[..i], rows[i + 1..], now);
  }

  /** As much of the invariant as draining needs: the worker holds a due row, and is in step with its call. */
  ghost predicate Steady(s: State) {
    && Ordered(s.rows, s.lastId)
    && (!s.worker.Idle? ==> s.worker.row in s.rows && s.worker.row.nextAttempt <= s.ledger.now)
    && (s.worker.Delivering? ==> |s.worker.checks| <= |s.worker.keys|)
    && (!s.ledger.call.Between? ==> s.worker.Delivering? && |s.worker.checks| < |s.worker.keys|)
    && (s.ledger.call.Unmarked? ==> |s.ledger.log| > 0)
  }

  lemma InvIsSteady(cfg: Config, s: State)
    requires Inv(cfg, s)
    ensures Steady(s)
  {
  }

  lemma FinishStaysSteady(cfg: Config, s: State)
    requires Steady(s) && Enabled(s, Finish)
    ensures Steady(NextFinish(cfg, s))
  {
    WithoutKeepsOrder(s.rows, s.lastId, s.worker.row.id);
  }

  lemma StepStaysSteady(cfg: Config, s: State, l: Label)
    requires Steady(s) && ByWorker(l) && Enabled(s, l)
    ensures Steady(Next(cfg, s, l))
  {
    match l
    case Claim =>
      if FirstDue(s.rows, s.ledger.now).Some? {
        ClaimFindsRow(s.rows, s.lastId, s.ledger.now);
      }
    case Finish => FinishStaysSteady(cfg, s);
    case Parse =>
    case Check =>
    case Return(_) =>
    case Mark =>
  }

  lemma RetryTakesOne(cfg: Config, s: State, row: Row)
    requires Ordered(s.rows, s.lastId) && row in s.rows && row.nextAttempt <= s.ledger.now
    ensures DueCount(Retry(cfg, s, row).rows, s.ledger.now)
         == DueCount(s.rows, s.ledger.now) - (if Delay(cfg.base, cfg.cap, row.attempts + 1) > 0 then 1 else 0)
  {
    var i :| 0 <= i < |s.rows| && s.rows[i] == row;
    var delay := Delay(cfg.base, cfg.cap, row.attempts + 1);
    RetryDropsOne(s.rows, s.lastId, i, row.attempts + 1, s.ledger.now + delay, s.ledger.now);
  }

  lemma RemoveTakesOne(s: State, row: Row, why: Removal)
    requires Ordered(s.rows, s.lastId) && row in s.rows && row.nextAttempt <= s.ledger.now
    ensures DueCount(Remove(s, row.id, why).rows, s.ledger.now) == DueCount(s.rows, s.ledger.now) - 1
  {
    var i :| 0 <= i < |s.rows| && s.rows[i] == row;
    RemoveDropsOne(s.rows, s.lastId, i, s.ledger.now);
  }

  /**
   * The end of a processing takes exactly one row out of the due ones: always when the row is removed, and
   * when it is rescheduled if and only if the delay is positive.
   */
  lemma FinishDropsOne(cfg: Config, s: State)
    requires Steady(s) && Enabled(s, Finish)
    ensures var n := NextFinish(cfg, s);
      var comesBack := n.hist.failures != s.hist.failures;
      && n.ledger == s.ledger
      && DueCount(n.rows, s.ledger.now) == DueCount(s.rows, s.ledger.now) -
           (if comesBack && Delay(cfg.base, cfg.cap, s.worker.row.attempts + 1) <= 0 then 0 else 1)
  {
    var w := s.worker;
    if w.Discarding? {
      RemoveTakesOne(s, w.row, Poison);
    } else if w.Delivering? && w.failed == {} {
      RemoveTakesOne(s, w.row, Delivered(w.parsedAt, w.pass, w.keys, w.checks, w.base, |s.ledger.log|));
    } else {
      RetryTakesOne(cfg, s, w.row);
    }
  }

  predicate ByWorker(l: Label) {
    l.Claim? || l.Parse? || l.Check? || l.Return? || l.Mark? || l.Finish?
  }

  predicate AllByWorker(labels: seq<Label>) {
    forall i :: 0 <= i < |labels| ==> ByWorker(labels[i])
  }

  function Finishes(labels: seq<Label>): nat {
    if labels == [] then 0 else (if labels[0].Finish? then 1 else 0) + Finishes(labels[1..])
  }

  function Due(s: State): nat {
    DueCount(s.rows, s.ledger.now)
  }

  lemma WorkerStepCountsDown(cfg: Config, s: State, l: Label)
    requires Steady(s) && cfg.base > 0 && cfg.cap > 0 && ByWorker(l) && Enabled(s, l)
    ensures Next(cfg, s, l).ledger.now == s.ledger.now
    ensures Due(Next(cfg, s, l)) + (if l.Finish? then 1 else 0) == Due(s)
  {
    if l.Finish? {
      FinishDropsOne(cfg, s);
      DelayBounds(cfg.base, cfg.cap, s.worker.row.attempts + 1);
    }
  }

  /** Any stretch of worker steps: due rows fall by exactly the number of processings it completed. */
  lemma {:induction false} WorkerRunCountsDown(cfg: Config, s: State, labels: seq<Label>)
    requires Steady(s) && cfg.base > 0 && cfg.cap > 0
    requires AllByWorker(labels) && Run(cfg, s, labels).Some?
    ensures var e := Run(cfg, s, labels).value;
      Steady(e) && e.ledger.now == s.ledger.now && Due(e) + Finishes(labels) == Due(s)
    decreases |labels|
  {
    if labels != [] {
      assert ByWorker(labels[0]);
      StepStaysSteady(cfg, s, labels[0]);
      WorkerStepCountsDown(cfg, s, labels[0]);
      WorkerRunCountsDown(cfg, Next(cfg, s, labels[0]), labels[1..]);
    }
  }

  /**
   * Starting idle with n rows due, claim_due finds nothing exactly when n processings are complete,
   * whatever the targets answered on the way, and never more than n are.
   */
  lemma DrainsInExactlyAsManyRounds(cfg: Config, s: State, labels: seq<Label>)
    requires Reachable(cfg, s) && s.worker.Idle? && cfg.base > 0 && cfg.cap > 0
    requires AllByWorker(labels) && Run(cfg, s, labels).Some?
    ensures Finishes(labels) <= Due(s)
    ensures var e := Run(cfg, s, labels).value;
      FirstDue(e.rows, e.ledger.now).None? <==> Finishes(labels) == Due(s)
  {
    ReachableInv(cfg, s);
    InvIsSteady(cfg, s);
    WorkerRunCountsDown(cfg, s, labels);
    var e := Run(cfg, s, labels).value;
    FirstDueIsOldest(e.rows, e.lastId, e.ledger.now);
    NothingDue(e.rows, e.ledger.now);
  }

  // --- It does get there ------------------------------------------------------------------

  /** The step the worker takes next; `ok` is what a target would answer. */
  function WorkerStep(s: State, ok: bool): Label {
    match s.worker
    case Idle => Claim
    case Claimed(_) => Parse
    case Discarding(_) => Finish
    case Failing(_) => Finish
    case Delivering(_, _, _, keys, checks, _, _) =>
      if s.ledger.call.Sending? then Return(ok)
      else if s.ledger.call.Unmarked? then Mark
      else if |checks| < |keys| then Check
      else Finish
  }

  function Stage(s: State): nat {
    match s.worker
    case Idle => 3
    case Claimed(_) => 2
    case _ => 1
  }

  /** Steps left for the keys of the row in hand. */
  function Left(s: State): int {
    if s.worker.Delivering? then
      3 * (|s.worker.keys| - |s.worker.checks|)
        - (if s.ledger.call.Sending? then 1 else if s.ledger.call.Unmarked? then 2 else 0)
    else 0
  }

  lemma WorkerStepAdvances(cfg: Config, s: State, ok: bool)
    requires Steady(s) && !(s.worker.Idle? && FirstDue(s.rows, s.ledger.now).None?)
    ensures ByWorker(WorkerStep(s, ok)) && Enabled(s, WorkerStep(s, ok))
    ensures var n := Next(cfg, s, WorkerStep(s, ok));
      WorkerStep(s, ok).Finish? || Stage(n) < Stage(s) || (Stage(n) == Stage(s) && 0 <= Left(n) < Left(s))
  {
  }

  /** From any steady state, for any answers the targets may give, the worker reaches an empty due list. */
  lemma {:induction false} DrainEnds(cfg: Config, s: State, answers: nat -> bool, at: nat) returns (labels: seq<Label>)
    requires Steady(s) && cfg.base > 0 && cfg.cap > 0
    ensures AllByWorker(labels) && Run(cfg, s, labels).Some?
    ensures Obeys(labels, answers, at)
    ensures var e := Run(cfg, s, labels).value; e.worker.Idle? && FirstDue(e.rows, e.ledger.now).None?
    decreases Due(s), Stage(s), Left(s)
  {
    if s.worker.Idle? && FirstDue(s.rows, s.ledger.now).None? {
      labels := [];
    } else {
      var l := WorkerStep(s, answers(at));
      WorkerStepAdvances(cfg, s, answers(at));
      StepStaysSteady(cfg, s, l);
      WorkerStepCountsDown(cfg, s, l);
      var rest := DrainEnds(cfg, Next(cfg, s, l), answers, at + 1);
      Prepend(cfg, s, l, rest, answers, at);
      labels := [l] + rest;
    }
  }

  ghost predicate Obeys(labels: seq<Label>, answers: nat -> bool, at: nat) {
    forall i :: 0 <= i < |labels| && labels[i].Return? ==> labels[i].ok == answers(at + i)
  }

  lemma Prepend(cfg: Config, s: State, l: Label, rest: seq<Label>, answers: nat -> bool, at: nat)
    requires ByWorker(l) && Enabled(s, l) && (l.Return? ==> l.ok == answers(at))
    requires AllByWorker(rest) && Obeys(rest, answers, at + 1)
    ensures AllByWorker([l] + rest) && Obeys([l] + rest, answers, at)
    ensures Run(cfg, s, [l] + rest) == Run(cfg, Next(cfg, s, l), rest)
  {
    assert ([l] + rest)[1..] == rest;
    forall i | 0 <= i < |rest| + 1 && ([l] + rest)[i].Return?
      ensures ([l] + rest)[i].ok == answers(at + i)
    {
      if i > 0 {
        assert ([l] + rest)[i] == rest[i - 1] && at + i == at + 1 + (i - 1);
      }
    }
  }
}
