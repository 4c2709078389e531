/** The bridge's two threads as code: every call runs a sequence of the engine's atomic steps. */
module Bridge {
  import opened Common
  import opened Events
  import opened Dedup
  import L = Ledgers
  import opened Deliver
  import opened Enrich
  import opened Spool
  import opened Backoff
  import opened Engine
  import opened Safety

  // --- Runs --------------------------------------------------------------------------

  lemma {:induction false} RunAppend(cfg: Config, s: State, a: seq<Label>, b: seq<Label>)
    requires Run(cfg, s, a).Some?
    ensures Run(cfg, s, a + b) == Run(cfg, Run(cfg, s, a).value, b)
    decreases |a|
  {
    if a == [] {
      assert a + b == b;
    } else {
      assert (a + b)[0] == a[0] && (a + b)[1..] == a[1..] + b;
      RunAppend(cfg, Next(cfg, s, a[0]), a[1..], b);
    }
  }

  lemma RunOne(cfg: Config, s: State, l: Label)
    requires Enabled(s, l)
    ensures Run(cfg, s, [l]) == Some(Next(cfg, s, l))
  {
    assert Run(cfg, Next(cfg, s, l), [l][1..]) == Some(Next(cfg, s, l));
  }

  /** One more enabled step at the end of a run. */
  lemma RunThen(cfg: Config, s: State, a: seq<Label>, l: Label)
    requires Run(cfg, s, a).Some? && Enabled(Run(cfg, s, a).value, l)
    ensures Run(cfg, s, a + [l]) == Some(Next(cfg, Run(cfg, s, a).value, l))
  {
    RunAppend(cfg, s, a, [l]);
    RunOne(cfg, Run(cfg, s, a).value, l);
  }

  /** `s` is the end of some run from `s0`. */
  ghost predicate Follows(cfg: Config, s0: State, s: State) {
    exists labels :: Run(cfg, s0, labels) == Some(s)
  }

  lemma FollowsItself(cfg: Config, s: State)
    ensures Follows(cfg, s, s)
  {
    assert Run(cfg, s, []) == Some(s);
  }

  lemma FollowsStep(cfg: Config, s0: State, s: State, l: Label)
    requires Follows(cfg, s0, s) && Enabled(s, l)
    ensures Follows(cfg, s0, Next(cfg, s, l))
  {
    var labels :| Run(cfg, s0, labels) == Some(s);
    RunThen(cfg, s0, labels, l);
  }

  lemma FollowsTransitively(cfg: Config, a: State, b: State, c: State)
    requires Follows(cfg, a, b) && Follows(cfg, b, c)
    ensures Follows(cfg, a, c)
  {
    var before :| Run(cfg, a, before) == Some(b);
    var after :| Run(cfg, b, after) == Some(c);
    RunAppend(cfg, a, before, after);
  }

  lemma StaysReachable(cfg: Config, s0: State, s: State)
    requires Reachable(cfg, s0) && Follows(cfg, s0, s)
    ensures Reachable(cfg, s)
  {
    var start: int, before: seq<Label> :| Run(cfg, Init(start), before) == Some(s0);
    var after :| Run(cfg, s0, after) == Some(s);
    RunAppend(cfg, Init(start), before, after);
  }

  // --- Enrichment never changes delivery ------------------------------------------------

  function Plain(cfg: Config): Config {
    cfg.(enrichers := [])
  }

  lemma ConfinedKeys(cfg: Config, body: Body, enrich: bool, at: int, pass: nat)
    requires AllConfined(cfg.enrichers)
    ensures KeysFor(cfg, body, enrich, at, pass) == KeysFor(Plain(cfg), body, enrich, at, pass)
  {
    match cfg.normalize(body, at)
    case None =>
    case Some(events) =>
      EnrichmentKeepsKeys(EnrichersFor(cfg, enrich), pass, events, cfg.adapters);
      EnrichmentKeepsKeys([], pass, events, cfg.adapters);
  }

  /**
   * With enrichers that raise at will or write only analysis, advisory and management-address fields, any run
   * with the same target outcomes and times goes through the very same states as with no enrichers at all:
   * same forwarded keys, same de-dup table, same spool.
   */
  lemma {:induction false} EnrichmentNeverChangesDelivery(cfg: Config, s: State, labels: seq<Label>)
    requires AllConfined(cfg.enrichers)
    ensures Run(cfg, s, labels) == Run(Plain(cfg), s, labels)
    decreases |labels|
  {
    if labels != [] && Enabled(s, labels[0]) {
      if labels[0].Parse? {
        ConfinedKeys(cfg, s.worker.row.body, s.worker.row.enrich, s.ledger.now, s.hist.passes);
      }
      assert Next(cfg, s, labels[0]) == Next(Plain(cfg), s, labels[0]);
      EnrichmentNeverChangesDelivery(cfg, Next(cfg, s, labels[0]), labels[1..]);
    }
  }

  // --- deliver_events as engine steps ------------------------------------------------------

  /** The worker and ledger after the first n keys of a batch had the given turns. */
  function AfterTurns(cfg: Config, s: State, turns: seq<Turn>): State
    requires s.worker.Delivering? && |turns| <= |s.worker.keys|
  {
    s.(ledger := PlayAll(cfg.ttl, s.ledger, s.worker.keys[..|turns|], turns),
       worker := s.worker.(checks := seq(|turns|, i requires 0 <= i < |turns| => turns[i].at),
                           failed := set i | 0 <= i < |turns| && turns[i].Failed?))
  }

  function TurnLabels(now: int, t: Turn): seq<Label>
    requires now <= t.at
    requires t.Failed? ==> t.at <= t.returnedAt
    requires t.Succeeded? ==> t.at <= t.returnedAt <= t.markedAt
  {
    match t
    case Skipped(at) => [Tick(at - now), Check]
    case Failed(at, r) => [Tick(at - now), Check] + [Tick(r - at), Return(false)]
    case Succeeded(at, r, m) => [Tick(at - now), Check] + ([Tick(r - at), Return(true)] + [Tick(m - r), Mark])
  }

  function AfterTurn(cfg: Config, s: State, t: Turn): State
    requires s.worker.Delivering? && |s.worker.checks| < |s.worker.keys|
  {
    s.(ledger := Play(cfg.ttl, s.ledger, s.worker.keys[|s.worker.checks|], t),
       worker := Advance(s.worker, t.at, t.Failed?))
  }

  lemma FailedIsLabels(cfg: Config, s: State, key: Key, at: int, r: int)
    requires s.worker.Delivering? && s.ledger.call == L.Sending(key, at) && s.ledger.now == at <= r
    ensures Run(cfg, s, [Tick(r - at), Return(false)])
         == Some(s.(ledger := s.ledger.(now := r, call := L.Between,
                                log := s.ledger.log + [L.Attempt(key, at, r, false, None)]),
                    worker := Advance(s.worker, at, true)))
  {
    RunOne(cfg, s, Tick(r - at));
    RunThen(cfg, s, [Tick(r - at)], Return(false));
  }

  lemma SucceededIsLabels(cfg: Config, s: State, key: Key, at: int, r: int, m: int)
    requires s.worker.Delivering? && s.ledger.call == L.Sending(key, at) && s.ledger.now == at <= r <= m
    ensures Run(cfg, s, [Tick(r - at), Return(true)] + [Tick(m - r), Mark])
         == Some(s.(ledger := s.ledger.(now := m, call := L.Between,
                                seen := AfterMark(cfg.ttl, s.ledger.seen, key, m),
                                log := s.ledger.log
                                       + [L.Attempt(key, at, r, true, if cfg.ttl > 0 then Some(m) else None)]),
                    worker := Advance(s.worker, at, false)))
  {
    RunOne(cfg, s, Tick(r - at));
    RunThen(cfg, s, [Tick(r - at)], Return(true));
    RunAppend(cfg, s, [Tick(r - at), Return(true)], [Tick(m - r), Mark]);
    var returned := Run(cfg, s, [Tick(r - at), Return(true)]).value;
    RunOne(cfg, returned, Tick(m - r));
    RunThen(cfg, returned, [Tick(m - r)], Mark);
    MarkedLast(cfg.ttl, s.ledger, key, at, r, m);
  }

  lemma TurnIsLabels(cfg: Config, s: State, t: Turn)
    requires s.worker.Delivering? && |s.worker.checks| < |s.worker.keys|
    requires Playable(cfg.ttl, s.ledger, s.worker.keys[|s.worker.checks|], t)
    ensures Run(cfg, s, TurnLabels(s.ledger.now, t)) == Some(AfterTurn(cfg, s, t))
  {
    var key := s.worker.keys[|s.worker.checks|];
    var first := [Tick(t.at - s.ledger.now)];
    RunOne(cfg, s, first[0]);
    RunThen(cfg, s, first, Check);
    var checked := Run(cfg, s, first + [Check]).value;
    match t
    case Skipped(_) =>
    case Failed(at, r) =>
      FailedIsLabels(cfg, checked, key, at, r);
      RunAppend(cfg, s, first + [Check], [Tick(r - at), Return(false)]);
    case Succeeded(at, r, m) =>
      SucceededIsLabels(cfg, checked, key, at, r, m);
      RunAppend(cfg, s, first + [Check], [Tick(r - at), Return(true)] + [Tick(m - r), Mark]);
  }

  lemma AfterTurnsSnoc(cfg: Config, s: State, turns: seq<Turn>, t: Turn)
    requires s.worker.Delivering? && |turns| < |s.worker.keys|
    ensures AfterTurn(cfg, AfterTurns(cfg, s, turns), t) == AfterTurns(cfg, s, turns + [t])
  {
    var n := |turns|;
    var keys := s.worker.keys[..n + 1];
    assert keys[..n] == s.worker.keys[..n] && (turns + [t])[..n] == turns;
    assert AfterTurn(cfg, AfterTurns(cfg, s, turns), t).worker.checks == AfterTurns(cfg, s, turns + [t]).worker.checks;
    assert AfterTurn(cfg, AfterTurns(cfg, s, turns), t).worker.failed == AfterTurns(cfg, s, turns + [t]).worker.failed;
  }

  lemma OneMoreTurn(cfg: Config, s: State, turns: seq<Turn>, t: Turn)
    requires s.worker.Delivering? && |turns| < |s.worker.keys| && Follows(cfg, s, AfterTurns(cfg, s, turns))
    requires Playable(cfg.ttl, PlayAll(cfg.ttl, s.ledger, s.worker.keys[..|turns|], turns),
                      s.worker.keys[|turns|], t)
    ensures Follows(cfg, s, AfterTurns(cfg, s, turns + [t]))
  {
    var mid := AfterTurns(cfg, s, turns);
    TurnIsLabels(cfg, mid, t);
    AfterTurnsSnoc(cfg, s, turns, t);
    FollowsTransitively(cfg, s, mid, AfterTurns(cfg, s, turns + [t]));
  }

  /** A whole deliver_events call is a run of the engine's steps. */
  lemma {:induction false} BatchIsARun(cfg: Config, s: State, turns: seq<Turn>)
    requires s.worker.Delivering? && s.worker.checks == [] && s.worker.failed == {} && |turns| <= |s.worker.keys|
    requires AllPlayable(cfg.ttl, s.ledger, s.worker.keys[..|turns|], turns)
    ensures Follows(cfg, s, AfterTurns(cfg, s, turns))
    decreases |turns|
  {
    if turns == [] {
      FollowsItself(cfg, s);
      assert AfterTurns(cfg, s, turns) == s;
    } else {
      var n := |turns| - 1;
      var keys := s.worker.keys[..n + 1];
      PrefixPlayable(cfg.ttl, s.ledger, keys, turns, n);
      assert keys[..n] == s.worker.keys[..n];
      BatchIsARun(cfg, s, turns[..n]);
      OneMoreTurn(cfg, s, turns[..n], turns[n]);
      assert turns[..n] + [turns[n]] == turns;
    }
  }

  lemma NoFailuresMeansNoneFailed(names: seq<string>, turns: seq<Turn>)
    requires |names| == |turns|
    ensures FailedNames(names, turns) == [] <==> (set i | 0 <= i < |turns| && turns[i].Failed?) == {}
    ensures FailedNames(names, turns) == [] <==> NoneFailed(turns)
  {
    NoFailedNames(names, turns);
    var failed := set i | 0 <= i < |turns| && turns[i].Failed?;
    if failed == {} {
      forall i | 0 <= i < |turns| ensures !turns[i].Failed? {
        assert i !in failed;
      }
    }
  }

  // --- The two threads ------------------------------------------------------------------

  /** The webhook's answer in spool mode: 202 with the row id, or 503. */
  datatype Response = Accepted(id: nat) | Unavailable

  /** What became of a claimed body before delivery. */
  datatype Parsed = Undecodable | Unusable(at: int) | Usable(events: seq<Event>, at: int, pass: nat)

  /** What a processing came to; `turns` are those of the batch's shares, in order, and `sends` what they sent. */
  datatype Report =
    | Poisoned
    | NotNormalized(at: int)
    | Attempted(at: int, pass: nat, turns: seq<Turn>, sends: seq<Sent>)

  /** One iteration of the worker's loop, with what it claimed and when. */
  datatype Round = Idled(at: int) | Worked(at: int, row: Row, report: Report)

  /** The batch as it is delivered: enriched in the normal lane, as it is in the overflow lane. */
  function Batch(cfg: Config, enrich: bool, pass: nat, events: seq<Event>): seq<Event> {
    if enrich then EnrichAll(cfg.enrichers, pass, events) else events
  }

  lemma BatchIsForItsLane(cfg: Config, enrich: bool, pass: nat, events: seq<Event>)
    ensures Batch(cfg, enrich, pass, events) == EnrichAll(EnrichersFor(cfg, enrich), pass, events)
  {
  }

  /** The row is done with. */
  predicate Removes(report: Report) {
    report.Poisoned? || (report.Attempted? && NoneFailed(report.turns))
  }

  /** The bridge's own fields apart from the one table `rows`, the worker and the clock. */
  ghost predicate SameElsewhere(s: State, n: State) {
    n.lastId == s.lastId && n.handler == s.handler && n.hist.passes == s.hist.passes
  }

  /** No processing has ended. */
  ghost predicate SameCounts(s: State, n: State) {
    n.hist.order == s.hist.order && n.hist.failures == s.hist.failures
  }

  function SentIn(report: Report): seq<Sent> {
    if report.Attempted? then report.sends else []
  }

  /**
   * The report is what the row's body, the clock, the targets and the de-dup table made of the processing, and `l'`
   * is what that made of the ledger `l`. In the normal lane the enriched events are delivered, in the overflow lane
   * the events as they are.
   */
  ghost predicate Reports(cfg: Config, row: Row, l: L.Ledger, l': L.Ledger, report: Report) {
    match report
    case Poisoned => !cfg.decodable(row.body) && Waits(l, l.now, l')
    case NotNormalized(at) => cfg.decodable(row.body) && cfg.normalize(row.body, at).None? && Waits(l, at, l')
    case Attempted(at, pass, turns, sends) =>
      && cfg.decodable(row.body) && cfg.normalize(row.body, at).Some? && l.now <= at
      && var events := cfg.normalize(row.body, at).value;
         var batch := if row.enrich then EnrichAll(cfg.enrichers, pass, events) else events;
         Delivers(cfg, batch, l.(now := at), turns, sends, l')
  }

  /** Nothing but time passed, until `at` and maybe longer. */
  ghost predicate Waits(l: L.Ledger, at: int, l': L.Ledger) {
    l.now <= at <= l'.now && l' == l.(now := l'.now)
  }

  /** Every share of the batch has its turn, in order; then time may pass. */
  ghost predicate Delivers(
      cfg: Config, batch: seq<Event>, l: L.Ledger, turns: seq<Turn>, sends: seq<Sent>, l': L.Ledger)
  {
    && AllPlayable(cfg.ttl, l, BatchKeys(batch, cfg.adapters), turns)
    && |BatchShares(batch, cfg.adapters)| == |turns|
    && sends == Sends(BatchShares(batch, cfg.adapters), turns)
    && var done := PlayAll(cfg.ttl, l, BatchKeys(batch, cfg.adapters), turns);
       Waits(done, done.now, l')
  }

  /** A row done with is taken out; any other gets one more attempt, its backoff from now. */
  ghost predicate Ends(cfg: Config, s: State, n: State, row: Row, report: Report) {
    && n.lastId == s.lastId && n.handler == s.handler
    && n.hist.passes == s.hist.passes + (if report.Attempted? then 1 else 0)
    && (report.Attempted? ==> report.pass == s.hist.passes)
    && if Removes(report) then
         && n.rows == Without(s.rows, row.id)
         && n.hist.order == s.hist.order + [row.id] && n.hist.failures == s.hist.failures
       else
         && n.rows == Rescheduled(s.rows, row.id, row.attempts + 1,
                                  n.ledger.now + Delay(cfg.base, cfg.cap, row.attempts + 1))
         && n.hist.order == s.hist.order && n.hist.failures == s.hist.failures + 1
  }

  /** All of the processing is over but its end: the state has still to show for it. */
  ghost predicate Undecided(s: State, t: State, report: Report) {
    && t.rows == s.rows && t.lastId == s.lastId && t.handler == s.handler && SameCounts(s, t)
    && t.hist.passes == s.hist.passes + (if report.Attempted? then 1 else 0)
    && (report.Attempted? ==> report.pass == s.hist.passes)
  }

  lemma RemovalEnds(cfg: Config, s: State, t: State, n: State, row: Row, report: Report)
    requires Undecided(s, t, report) && Removes(report) && SameElsewhere(t, n)
    requires n.rows == Without(t.rows, row.id)
    requires n.hist.order == t.hist.order + [row.id] && n.hist.failures == t.hist.failures
    ensures Ends(cfg, s, n, row, report)
  {
  }

  lemma RetryEnds(cfg: Config, s: State, t: State, n: State, row: Row, report: Report)
    requires Undecided(s, t, report) && !Removes(report) && SameElsewhere(t, n)
    requires n.rows == Rescheduled(t.rows, row.id, row.attempts + 1,
                                   n.ledger.now + Delay(cfg.base, cfg.cap, row.attempts + 1))
    requires n.hist.order == t.hist.order && n.hist.failures == t.hist.failures + 1
    ensures Ends(cfg, s, n, row, report)
  {
  }

  lemma ReportsLater(cfg: Config, row: Row, l: L.Ledger, l': L.Ledger, l'': L.Ledger, report: Report)
    requires Reports(cfg, row, l, l', report) && Waits(l', l'.now, l'')
    ensures Reports(cfg, row, l, l'', report)
  {
  }

  /** The row is due at `at`, and no due row is older. */
  ghost predicate IsOldestDue(rows: seq<Row>, row: Row, at: int) {
    row in rows && row.nextAttempt <= at && forall r :: r in rows && r.nextAttempt <= at ==> row.id <= r.id
  }

  /** One iteration: nothing is due and nothing changes, or the oldest due row is processed. */
  ghost predicate Iterates(cfg: Config, s: State, n: State, round: Round) {
    match round
    case Idled(at) =>
      s.ledger.now <= at && (forall r :: r in s.rows ==> r.nextAttempt > at) && n == s.(ledger := s.ledger.(now := at))
    case Worked(at, row, report) =>
      && s.ledger.now <= at && IsOldestDue(s.rows, row, at)
      && Reports(cfg, row, s.ledger.(now := at), n.ledger, report) && Ends(cfg, s, n, row, report)
  }

  /** A claim, and then a processing of what was claimed. */
  lemma WorkIterates(cfg: Config, s: State, n: State, at: int, row: Row, report: Report)
    requires s.ledger.now <= at && IsOldestDue(s.rows, row, at)
    requires var claimed := s.(ledger := s.ledger.(now := at), worker := Claimed(row));
             Reports(cfg, row, claimed.ledger, n.ledger, report) && Ends(cfg, claimed, n, row, report)
    ensures Iterates(cfg, s, n, Worked(at, row, report))
  {
  }

  /** `states` are those between the rounds. */
  ghost predicate AllIterate(cfg: Config, states: seq<State>, rounds: seq<Round>) {
    && |states| == |rounds| + 1
    && forall i :: 0 <= i < |rounds| ==> Iterates(cfg, states[i], states[i + 1], rounds[i])
  }

  function WorkedRounds(rounds: seq<Round>): nat {
    if rounds == [] then 0 else WorkedRounds(rounds[..|rounds| - 1]) + if rounds[|rounds| - 1].Worked? then 1 else 0
  }

  function SentInRounds(rounds: seq<Round>): seq<Sent> {
    if rounds == [] then [] else
      var last := rounds[|rounds| - 1];
      SentInRounds(rounds[..|rounds| - 1]) + if last.Worked? then SentIn(last.report) else []
  }

  lemma OneMoreIteration(cfg: Config, states: seq<State>, rounds: seq<Round>, n: State, round: Round)
    requires AllIterate(cfg, states, rounds) && Iterates(cfg, states[|rounds|], n, round)
    ensures AllIterate(cfg, states + [n], rounds + [round])
  {
    var states', rounds' := states + [n], rounds + [round];
    forall i | 0 <= i < |rounds'|
      ensures Iterates(cfg, states'[i], states'[i + 1], rounds'[i])
    {
      if i < |rounds| {
        assert Iterates(cfg, states[i], states[i + 1], rounds[i]);
      }
    }
  }

  lemma OneMoreRoundSent(rounds: seq<Round>, round: Round, before: seq<Sent>, sent: seq<Sent>)
    requires sent == before + SentInRounds(rounds)
    ensures sent + (if round.Worked? then SentIn(round.report) else []) == before + SentInRounds(rounds + [round])
  {
    assert (rounds + [round])[..|rounds|] == rounds;
  }

  /** Each round that worked ended one processing, in a removal or in a failure. */
  lemma {:induction false} RoundsAddUp(cfg: Config, states: seq<State>, rounds: seq<Round>)
    requires AllIterate(cfg, states, rounds)
    ensures |states[|rounds|].hist.order| + states[|rounds|].hist.failures
         == |states[0].hist.order| + states[0].hist.failures + WorkedRounds(rounds)
    decreases |rounds|
  {
    if rounds != [] {
      var n := |rounds| - 1;
      RoundsAddUp(cfg, states[..n + 1], rounds[..n]);
      assert Iterates(cfg, states[n], states[n + 1], rounds[n]);
    }
  }

  /** The end of a processing that did not succeed. */
  lemma FinishRetries(cfg: Config, s0: State, s: State, row: Row, next: int) returns (n: State)
    requires Follows(cfg, s0, s) && Enabled(s, Finish) && s.worker.row == row
    requires next == s.ledger.now + Delay(cfg.base, cfg.cap, row.attempts + 1)
    requires s.worker.Failing? || (s.worker.Delivering? && s.worker.failed != {})
    ensures Follows(cfg, s0, n) && SameElsewhere(s, n) && n.worker.Idle? && n.ledger == s.ledger
    ensures n.rows == Rescheduled(s.rows, row.id, row.attempts + 1, next)
    ensures n.hist.order == s.hist.order && n.hist.failures == s.hist.failures + 1
  {
    FollowsStep(cfg, s0, s, Finish);
    n := Retry(cfg, s, row);
  }

  /** The end of a processing after which the row is done with. */
  lemma FinishRemoves(cfg: Config, s0: State, s: State, row: Row) returns (n: State)
    requires Follows(cfg, s0, s) && Enabled(s, Finish) && s.worker.row == row
    requires s.worker.Discarding? || (s.worker.Delivering? && s.worker.failed == {})
    ensures Follows(cfg, s0, n) && SameElsewhere(s, n) && n.worker.Idle? && n.ledger == s.ledger
    ensures n.rows == Without(s.rows, row.id)
    ensures n.hist.order == s.hist.order + [row.id] && n.hist.failures == s.hist.failures
  {
    FollowsStep(cfg, s0, s, Finish);
    n := NextFinish(cfg, s);
  }

  /** The handler between its two lane attempts, or after the last. */
  ghost predicate SameButAdmission(s: State, n: State) {
    && n.worker == s.worker && n.ledger == s.ledger && n.hist.answered == s.hist.answered
    && n.hist.passes == s.hist.passes
  }

  /** One more row, stored and not yet answered. */
  ghost predicate StoredIn(s: State, n: State, row: Row) {
    n.lastId == row.id && n.handler == Stored(row.id) && n.rows == s.rows + [row]
  }

  /** Trying the normal lane. */
  lemma PostTries(cfg: Config, s0: State, s: State, body: Body, row: Row) returns (n: State)
    requires Follows(cfg, s0, s) && s.handler.Ready?
    requires row == Row(s.lastId + 1, body, s.ledger.now, 0, s.ledger.now, true)
    ensures Follows(cfg, s0, n) && SameButAdmission(s, n)
    ensures if LaneBytes(s.rows, true) + |body| > cfg.maxBytes
            then n.rows == s.rows && n.lastId == s.lastId && n.handler == Overflowing(body, LaneBytes(s.rows, true))
            else StoredIn(s, n, row)
  {
    FollowsStep(cfg, s0, s, Post(body));
    n := NextPost(cfg, s, body);
  }

  lemma OverflowTries(cfg: Config, s0: State, s: State, body: Body, row: Row) returns (n: State)
    requires Follows(cfg, s0, s) && s.handler.Overflowing? && s.handler.body == body
    requires row == Row(s.lastId + 1, body, s.ledger.now, 0, s.ledger.now, false)
    ensures Follows(cfg, s0, n) && SameButAdmission(s, n)
    ensures if LaneBytes(s.rows, false) + |body| > cfg.overflowMaxBytes
            then n.rows == s.rows && n.lastId == s.lastId && n.handler.Ready?
            else StoredIn(s, n, row)
  {
    FollowsStep(cfg, s0, s, PostOverflow);
    n := NextPostOverflow(cfg, s);
  }

  /** Reading what the claimed row holds. */
  lemma ParseReads(cfg: Config, s0: State, s: State, row: Row) returns (n: State)
    requires Follows(cfg, s0, s) && s.worker == Claimed(row)
    ensures Follows(cfg, s0, n) && SameCounts(s, n)
    ensures n.rows == s.rows && n.lastId == s.lastId && n.handler == s.handler && n.ledger == s.ledger
    ensures !cfg.decodable(row.body) ==> n.worker == Discarding(row) && n.hist.passes == s.hist.passes
    ensures cfg.decodable(row.body) ==>
              match cfg.normalize(row.body, s.ledger.now)
              case None => n.worker == Failing(row) && n.hist.passes == s.hist.passes
              case Some(events) =>
                && n.hist.passes == s.hist.passes + 1
                && n.worker == Fresh(cfg, row, s.ledger.now, s.hist.passes, events, |s.ledger.log|)
  {
    FollowsStep(cfg, s0, s, Parse);
    n := NextParse(cfg, s);
    if cfg.normalize(row.body, s.ledger.now).Some? {
      BatchIsForItsLane(cfg, row.enrich, s.hist.passes, cfg.normalize(row.body, s.ledger.now).value);
    }
  }

  /** The worker at the start of a delivery. */
  function Fresh(cfg: Config, row: Row, at: int, pass: nat, events: seq<Event>, base: nat): Worker {
    Delivering(row, at, pass, BatchKeys(Batch(cfg, row.enrich, pass, events), cfg.adapters), [], {}, base)
  }

  /** A whole delivery of a batch. */
  lemma DeliveryFinishes(cfg: Config, s0: State, s: State, names: seq<string>, turns: seq<Turn>) returns (n: State)
    requires Follows(cfg, s0, s) && s.worker.Delivering? && s.worker.checks == [] && s.worker.failed == {}
    requires AllPlayable(cfg.ttl, s.ledger, s.worker.keys, turns) && |names| == |turns|
    ensures Follows(cfg, s0, n) && SameElsewhere(s, n) && SameCounts(s, n) && n.rows == s.rows
    ensures n.ledger == PlayAll(cfg.ttl, s.ledger, s.worker.keys, turns)
    ensures n.worker.Delivering? && n.worker.row == s.worker.row && Enabled(n, Finish)
    ensures n.worker.failed == {} <==> FailedNames(names, turns) == []
    ensures n.worker.failed == {} <==> NoneFailed(turns)
  {
    var keys := s.worker.keys;
    assert keys[..|keys|] == keys;
    BatchIsARun(cfg, s, turns);
    n := AfterTurns(cfg, s, turns);
    FollowsTransitively(cfg, s0, s, n);
    PlayAllKeeps(cfg.ttl, s.ledger, keys, turns);
    NoFailuresMeansNoneFailed(names, turns);
  }

  class Bridge {
    const cfg: Config
    const spool: SpoolStore
    const dedup: DedupStore
    const world: World
    var passes: nat      // numbers the enriched batches: what the enrichers remember is a function of it
    ghost var st: State  // the engine state this bridge is in

    /** The real tables and clock are those of the engine state. */
    ghost predicate Linked()
      reads this, spool, dedup, world
    {
      && spool.maxBytes == cfg.maxBytes && spool.overflowMaxBytes == cfg.overflowMaxBytes && dedup.ttl == cfg.ttl
      && spool.rows == st.rows && spool.lastId == st.lastId && passes == st.hist.passes
      && world.ledger == st.ledger && world.now == st.ledger.now && dedup.seen == st.ledger.seen
    }

    ghost predicate Valid()
      reads this, spool, dedup, world
    {
      Linked() && spool.Valid() && Reachable(cfg, st) && st.worker.Idle? && st.handler.Ready?
    }

    constructor (cfg: Config, start: int)
      ensures Valid() && fresh(spool) && fresh(dedup) && fresh(world)
      ensures this.cfg == cfg && st == Init(start)
    {
      this.cfg := cfg;
      spool := new SpoolStore(cfg.maxBytes, cfg.overflowMaxBytes);
      dedup := new DedupStore(cfg.ttl);
      world := new World(start);
      passes := 0;
      st := Init(start);
      new;
      assert Run(cfg, Init(start), []) == Some(st);
    }

    method Clock(ghost s0: State) returns (t: int)
      requires Linked() && Follows(cfg, s0, st)
      modifies this`st, world
      ensures Linked() && Follows(cfg, s0, st)
      ensures t == st.ledger.now && old(st.ledger.now) <= t && world.sent == old(world.sent)
      ensures st == old(st).(ledger := old(st.ledger).(now := t))
    {
      t := world.ReadClock();
      FollowsStep(cfg, s0, st, Tick(t - st.ledger.now));
      st := st.(ledger := st.ledger.(now := t));
    }

    // The HTTP handler.

    /** spool.put(); None is SpoolFull. */
    method TryNormalLane(body: Body, ghost s0: State) returns (id: Option<nat>)
      requires Linked() && spool.Valid() && Follows(cfg, s0, st) && st.handler.Ready?
      modifies this`st, spool, world
      ensures Linked() && spool.Valid() && Follows(cfg, s0, st)
      ensures st.worker == old(st.worker) && st.hist.answered == old(st.hist.answered)
      ensures world.sent == old(world.sent)
      ensures id.None? <==> old(LaneBytes(spool.rows, true)) + |body| > cfg.maxBytes
      ensures id.None? ==>
        && spool.rows == old(spool.rows) && spool.lastId == old(spool.lastId)
        && st.handler.Overflowing? && st.handler.body == body
      ensures id.Some? ==>
        && st.handler == Stored(id.value) && id.value == spool.lastId == old(spool.lastId) + 1
        && spool.rows == old(spool.rows) + [Row(id.value, body, world.now, 0, world.now, true)]
    {
      var now := Clock(s0);
      ghost var row := Row(spool.lastId + 1, body, now, 0, now, true);
      id := spool.Put(body, now);
      st := PostTries(cfg, s0, st, body, row);
    }

    /** spool.put_overflow(), after the normal lane was full. */
    method TryOverflowLane(body: Body, ghost s0: State) returns (id: Option<nat>)
      requires Linked() && spool.Valid() && Follows(cfg, s0, st)
      requires st.handler.Overflowing? && st.handler.body == body
      modifies this`st, spool, world
      ensures Linked() && spool.Valid() && Follows(cfg, s0, st)
      ensures st.worker == old(st.worker) && st.hist.answered == old(st.hist.answered)
      ensures world.sent == old(world.sent)
      ensures id.None? <==> old(LaneBytes(spool.rows, false)) + |body| > cfg.overflowMaxBytes
      ensures id.None? ==>
        spool.rows == old(spool.rows) && spool.lastId == old(spool.lastId) && st.handler.Ready?
      ensures id.Some? ==>
        && st.handler == Stored(id.value) && id.value == spool.lastId == old(spool.lastId) + 1
        && spool.rows == old(spool.rows) + [Row(id.value, body, world.now, 0, world.now, false)]
    {
      var now := Clock(s0);
      ghost var row := Row(spool.lastId + 1, body, now, 0, now, false);
      id := spool.PutOverflow(body, now);
      st := OverflowTries(cfg, s0, st, body, row);
    }

    /** Durable admission: normal lane first, then overflow lane, then 503. */
    method AcceptToSpool(body: Body) returns (response: Response)
      requires Valid()
      modifies this`st, spool, world
      ensures Valid() && Follows(cfg, old(st), st)
      ensures response.Unavailable? <==>
        && old(LaneBytes(spool.rows, true)) + |body| > cfg.maxBytes
        && old(LaneBytes(spool.rows, false)) + |body| > cfg.overflowMaxBytes
      ensures response.Unavailable? ==> spool.rows == old(spool.rows)
      ensures world.sent == old(world.sent)
      ensures response.Accepted? ==>
        && response.id == spool.lastId == old(spool.lastId) + 1
        && st.hist.answered == old(st.hist.answered) + [response.id]
        && spool.rows == old(spool.rows) + [Row(response.id, body, world.now, 0, world.now,
                           old(LaneBytes(spool.rows, true)) + |body| <= cfg.maxBytes)]
    {
      ghost var s0 := st;
      FollowsItself(cfg, s0);
      var id := TryNormalLane(body, s0);
      if id.None? {
        id := TryOverflowLane(body, s0);
        if id.None? {
          StaysReachable(cfg, s0, st);
          return Unavailable;
        }
      }
      FollowsStep(cfg, s0, st, Answer);
      st := Next(cfg, st, Answer);
      StaysReachable(cfg, s0, st);
      response := Accepted(id.value);
    }

    // The worker.

    /** The failure branch of the loop: back off, capped, and try again later. */
    method Reschedule(row: Row, ghost s0: State)
      requires Linked() && spool.Valid() && Follows(cfg, s0, st)
      requires st.worker.Failing? || (st.worker.Delivering? && st.worker.failed != {})
      requires st.worker.row == row && Enabled(st, Finish)
      modifies this`st, spool`rows, world
      ensures Linked() && spool.Valid() && Follows(cfg, s0, st)
      ensures st.worker.Idle? && st.handler == old(st.handler)
      ensures SameElsewhere(old(st), st) && Waits(old(st.ledger), old(world.now), st.ledger)
      ensures var next := world.now + Delay(cfg.base, cfg.cap, row.attempts + 1);
              spool.rows == Rescheduled(old(spool.rows), row.id, row.attempts + 1, next)
      ensures st.hist.order == old(st.hist.order) && st.hist.failures == old(st.hist.failures) + 1
      ensures world.sent == old(world.sent)
    {
      ghost var rows := spool.rows;
      var attempts := row.attempts + 1;
      var delay := Delay(cfg.base, cfg.cap, attempts);
      var now := Clock(s0);
      var next := now + delay;
      ghost var n := FinishRetries(cfg, s0, st, row, next);
      assert n.rows == Rescheduled(rows, row.id, attempts, next);
      spool.Reschedule(row.id, attempts, next);
      st := n;
    }

    /** The row is done with: delivered everywhere, or undecodable. */
    method Drop(row: Row, ghost s0: State)
      requires Linked() && spool.Valid() && Follows(cfg, s0, st)
      requires st.worker.Discarding? || (st.worker.Delivering? && st.worker.failed == {})
      requires st.worker.row == row && Enabled(st, Finish)
      modifies this`st, spool`rows
      ensures Linked() && spool.Valid() && Follows(cfg, s0, st)
      ensures st.worker.Idle? && st.handler == old(st.handler)
      ensures SameElsewhere(old(st), st) && st.ledger == old(st.ledger)
      ensures spool.rows == Without(old(spool.rows), row.id)
      ensures st.hist.order == old(st.hist.order) + [row.id] && st.hist.failures == old(st.hist.failures)
    {
      spool.Delete(row.id);
      st := FinishRemoves(cfg, s0, st, row);
    }

    /** Enrich (normal lane only), then deliver every event to every target. */
    method EnrichAndDeliver(row: Row, events: seq<Event>, at: int, pass: nat, ghost s0: State)
      returns (failures: seq<string>, ghost turns: seq<Turn>)
      requires Linked() && Follows(cfg, s0, st) && L.Inv(cfg.ttl, st.ledger) && st.ledger.call.Between?
      requires st.worker == Fresh(cfg, row, at, pass, events, |st.ledger.log|)
      modifies this`st, dedup, world
      ensures Linked() && Follows(cfg, s0, st) && SameElsewhere(old(st), st) && st.rows == old(st.rows)
      ensures SameCounts(old(st), st)
      ensures var batch := if row.enrich then EnrichAll(cfg.enrichers, pass, events) else events;
              && AllPlayable(cfg.ttl, old(st.ledger), BatchKeys(batch, cfg.adapters), turns)
              && st.ledger == PlayAll(cfg.ttl, old(st.ledger), BatchKeys(batch, cfg.adapters), turns)
              && |BatchShares(batch, cfg.adapters)| == |turns|
              && world.sent == old(world.sent) + Sends(BatchShares(batch, cfg.adapters), turns)
      ensures st.worker.Delivering? && st.worker.row == row && Enabled(st, Finish)
      ensures st.worker.failed == {} <==> failures == []
      ensures failures == [] <==> NoneFailed(turns)
    {
      var batch := new Event[|events|](i requires 0 <= i < |events| => events[i]);
      assert batch[..] == events;
      EnrichEvents(batch, if row.enrich then cfg.enrichers else [], pass);
      BatchIsForItsLane(cfg, row.enrich, pass, events);
      failures, turns := DeliverEvents(batch[..], cfg.adapters, dedup, world);
      st := DeliveryFinishes(cfg, s0, st, BatchNames(|events|, cfg.adapters), turns);
    }

    /** json.loads and normalize: the body is poison, or cannot be normalised now, or gives events. */
    method ParseRow(row: Row, ghost s0: State) returns (parsed: Parsed)
      requires Linked() && Follows(cfg, s0, st) && L.Inv(cfg.ttl, st.ledger)
      requires st.worker == Claimed(row) && st.ledger.call.Between?
      modifies this`st, this`passes, world
      ensures Linked() && Follows(cfg, s0, st) && L.Inv(cfg.ttl, st.ledger)
      ensures st.rows == old(st.rows) && st.lastId == old(st.lastId) && st.handler == old(st.handler)
      ensures Waits(old(st.ledger), old(world.now), st.ledger) && world.sent == old(world.sent)
      ensures SameCounts(old(st), st) && passes == old(passes) + if parsed.Usable? then 1 else 0
      ensures parsed.Usable? ==> parsed.pass == old(passes)
      ensures parsed.Undecodable? <==> !cfg.decodable(row.body)
      ensures parsed.Undecodable? ==> st.worker == Discarding(row)
      ensures parsed.Unusable? ==>
                cfg.normalize(row.body, parsed.at).None? && parsed.at == st.ledger.now && st.worker == Failing(row)
      ensures parsed.Usable? ==>
                && cfg.normalize(row.body, parsed.at) == Some(parsed.events) && parsed.at == st.ledger.now
                && st.worker == Fresh(cfg, row, parsed.at, parsed.pass, parsed.events, |st.ledger.log|)
    {
      ghost var ledger := st.ledger;
      var now := Clock(s0);
      assert L.Inv(cfg.ttl, st.ledger) by {
        L.TickKeepsInv(cfg.ttl, ledger, now - ledger.now);
      }
      st := ParseReads(cfg, s0, st, row);
      if !cfg.decodable(row.body) {
        return Undecodable;
      }
      var events := cfg.normalize(row.body, now);
      if events.None? {
        return Unusable(now);
      }
      parsed := Usable(events.value, now, passes);
      passes := passes + 1;
    }

    /** The end of the loop body: the row goes, or comes back later. */
    method FinishRow(row: Row, done: bool, ghost report: Report, ghost s: State, ghost s0: State)
      requires Linked() && spool.Valid() && Follows(cfg, s0, st)
      requires !st.worker.Idle? && st.worker.row == row && Enabled(st, Finish)
      requires done <==> Removes(report)
      requires if done then st.worker.Discarding? || (st.worker.Delivering? && st.worker.failed == {})
               else st.worker.Failing? || (st.worker.Delivering? && st.worker.failed != {})
      requires Reports(cfg, row, s.ledger, st.ledger, report)
      requires Undecided(s, st, report)
      modifies this`st, spool`rows, world
      ensures Linked() && spool.Valid() && Follows(cfg, s0, st) && st.worker.Idle?
      ensures Reports(cfg, row, s.ledger, st.ledger, report) && Ends(cfg, s, st, row, report)
      ensures world.sent == old(world.sent)
    {
      ghost var t := st;
      if done {
        Drop(row, s0);
        RemovalEnds(cfg, s, t, st, row, report);
      } else {
        Reschedule(row, s0);
        ReportsLater(cfg, row, s.ledger, t.ledger, st.ledger, report);
        RetryEnds(cfg, s, t, st, row, report);
      }
    }

    /**
     * What the loop does with a claimed row. It is removed exactly when it is undecodable or no target failed,
     * and otherwise rescheduled.
     */
    method Process(row: Row, ghost s0: State) returns (ghost report: Report)
      requires Linked() && spool.Valid() && Follows(cfg, s0, st) && L.Inv(cfg.ttl, st.ledger)
      requires st.worker == Claimed(row) && st.ledger.call.Between?
      modifies this`st, this`passes, spool`rows, dedup, world
      ensures Linked() && spool.Valid() && Follows(cfg, s0, st) && st.worker.Idle?
      ensures Reports(cfg, row, old(st.ledger), st.ledger, report) && Ends(cfg, old(st), st, row, report)
      ensures world.sent == old(world.sent) + SentIn(report)
    {
      var parsed := ParseRow(row, s0);
      var done := parsed.Undecodable?;
      report := if done then Poisoned else NotNormalized(st.ledger.now);
      if parsed.Usable? {
        ghost var sent := world.sent;
        var failures; ghost var turns;
        failures, turns := EnrichAndDeliver(row, parsed.events, parsed.at, parsed.pass, s0);
        done := failures == [];
        report := Attempted(parsed.at, parsed.pass, turns, world.sent[|sent|..]);
      }
      FinishRow(row, done, report, old(st), s0);
    }

    /** claim_due(): the oldest row whose retry time has arrived, if any. */
    method ClaimRow(ghost s0: State) returns (claimed: Option<Row>)
      requires Linked() && spool.Valid() && Follows(cfg, s0, st) && st.worker.Idle?
      modifies this`st, world
      ensures Linked() && Follows(cfg, s0, st) && old(world.now) <= world.now && world.sent == old(world.sent)
      ensures claimed.None? ==> forall r :: r in spool.rows ==> r.nextAttempt > world.now
      ensures claimed.Some? ==> IsOldestDue(spool.rows, claimed.value, world.now)
      ensures var s := old(st).(ledger := old(st.ledger).(now := world.now));
              st == if claimed.Some? then s.(worker := Claimed(claimed.value)) else s
    {
      var now := Clock(s0);
      claimed := spool.ClaimDue(now);
      FollowsStep(cfg, s0, st, Claim);
      st := NextClaim(st);
    }

    /**
     * One iteration of the loop: the oldest due row is processed; or nothing is due, and the worker would wait.
     */
    method WorkOnce() returns (worked: bool, ghost round: Round)
      requires Valid()
      modifies this`st, this`passes, spool`rows, dedup, world
      ensures Valid() && Follows(cfg, old(st), st)
      ensures worked == round.Worked? && Iterates(cfg, old(st), st, round)
      ensures worked <==> exists r :: r in old(spool.rows) && r.nextAttempt <= round.at
      ensures world.sent == old(world.sent) + if worked then SentIn(round.report) else []
    {
      ghost var s0 := st;
      FollowsItself(cfg, s0);
      var claimed := ClaimRow(s0);
      StaysReachable(cfg, s0, st);
      worked := claimed.Some?;
      round := Idled(world.now);
      if worked {
        ReachableInv(cfg, st);
        ghost var at := world.now;
        ghost var report := Process(claimed.value, s0);
        round := Worked(at, claimed.value, report);
        WorkIterates(cfg, s0, st, at, claimed.value, report);
        StaysReachable(cfg, s0, st);
      }
    }

    /** One iteration more, for the history of `Work`. */
    method WorkMore(ghost states: seq<State>, ghost rounds: seq<Round>, ghost s0: State, ghost sent0: seq<Sent>)
      returns (ghost states': seq<State>, ghost rounds': seq<Round>)
      requires Valid() && Follows(cfg, s0, st) && AllIterate(cfg, states, rounds)
      requires states[0] == s0 && states[|rounds|] == st && world.sent == sent0 + SentInRounds(rounds)
      modifies this`st, this`passes, spool`rows, dedup, world
      ensures Valid() && Follows(cfg, s0, st) && |rounds'| == |rounds| + 1 && AllIterate(cfg, states', rounds')
      ensures states'[0] == s0 && states'[|rounds'|] == st && world.sent == sent0 + SentInRounds(rounds')
    {
      ghost var before, sent := st, world.sent;
      var worked; ghost var round;
      worked, round := WorkOnce();
      FollowsTransitively(cfg, s0, before, st);
      OneMoreIteration(cfg, states, rounds, st, round);
      OneMoreRoundSent(rounds, round, sent0, sent);
      states', rounds' := states + [st], rounds + [round];
    }

    /** Any finite stretch of the worker thread's life. */
    method Work(iterations: nat) returns (ghost states: seq<State>, ghost rounds: seq<Round>)
      requires Valid()
      modifies this`st, this`passes, spool`rows, dedup, world
      ensures Valid() && Follows(cfg, old(st), st)
      ensures |rounds| == iterations && AllIterate(cfg, states, rounds)
      ensures states[0] == old(st) && states[iterations] == st
      ensures world.sent == old(world.sent) + SentInRounds(rounds)
      ensures |st.hist.order| + st.hist.failures
           == |old(st.hist.order)| + old(st.hist.failures) + WorkedRounds(rounds)
    {
      FollowsItself(cfg, st);
      states, rounds := [st], [];
      var i := 0;
      while i < iterations
        invariant 0 <= i <= iterations && |rounds| == i && AllIterate(cfg, states, rounds)
        invariant Valid() && Follows(cfg, old(st), st) && states[0] == old(st) && states[i] == st
        invariant world.sent == old(world.sent) + SentInRounds(rounds)
      {
        states, rounds := WorkMore(states, rounds, old(st), old(world.sent));
        i := i + 1;
      }
      RoundsAddUp(cfg, states, rounds);
    }
  }
}
