# Durable delivery of Compute Ops Management events, verified

This project models the delivery engine behind the COM event bridge and relay and proves what it promises over
whole runs. `dafny verify dfyconfig.toml` checks all of it.

## What is modelled

The centre is one transition system, `Engine`: an HTTP handler that admits bodies into a two-lane, byte-budgeted
spool, a worker that claims, enriches, delivers and removes or reschedules rows, and a TTL de-duplication table
shared by all deliveries. Every lock region, target call and HTTP answer is one step. Steps interleave freely,
time passes between any two of them, targets answer as they like, and a crash may land anywhere; the spool and
the de-dup table survive it, locals do not.

* `Dedup`, `Ledgers`, `Deliver`, `Retry` - the de-dup table as a class, the check / forward / mark ledger with
  its invariant, `deliver` and `deliver_events` as methods tied to that ledger, and what retries forward.
* `Spool`, `Backoff`, `Engine`, `Safety`, `Drain` - the spool as a class, the retry schedule, the transition
  system, its invariants and run-level theorems, and draining.
* `Bridge`, `Shim` - the two programs as imperative code. `Bridge` proves that each of its calls is a run of the
  engine's steps, so the theorems of `Safety` apply to it; `Shim` proves the queue acknowledgement protocol. A call
  of `Bridge` runs to its end before the next starts, so its two threads do not interleave there: that, and crashes
  in the middle of a call, is what `Engine` covers.
* `Identity`, `Normalize`, `Reconcile` - keys and hashes, the mapping from payloads to events, and whether a
  target that opens on raise and closes on clear ends up agreeing with the servers when `deliver` handles its
  events one after another, each forward taking any time, and failed batches come back after newer ones.
* `Enrich`, `Registry`, `Budget`, `Cache`, `IloAi`, `HpeAdvisories` - the fail-open enrichment stage, its run
  order, and the AI and advisory enrichers with their caches and analysis budget.
* `Advisories`, `Compliance`, `Redfish` - the advisory page parser against a document walk, the paged group
  search against a linear one, and the bounding of collected evidence.
* `Sorting`, `Common`, `Events` - the stable sort, small helpers, and the canonical event.

An enricher is a pair of functions of the event and of the moment of the call, and every call has a moment of its
own. So whatever an enricher with caches, budgets and clocks answered over a whole run is such a pair, and the
theorems about enrichment cover it; what each of the two shipped enrichers, as an object, has done to events is shown
to be such a pair, confined to its own fields.

Parameters stand for what the code cannot see into: whether a body decodes, what normalisation makes of a payload
at a given time, what a target, an enricher, the analyzer, the COM API or the management controller answers.
Clock readings are integers in the delivery engine, as in the code, and reals in budget and caches. The clock
never runs backwards where a theorem says so; the hash is taken to be collision-free (`IsHash`).

## Where the code and its prose differ

The model follows the code.

* A suppressed repeat does not refresh the de-dup window: `deliver` skips before `mark_done`
  (com-event-core/com_event_core/deliver.py:64-67), while
  com-event-bridge/docs/Deploy-End-to-End-On-Prem.md:561 says each repeat refreshes it. `Dedup.RepeatDoesNotRefresh`.
* `already_done` is documented as read-only but deletes expired rows
  (com-event-core/com_event_core/dedup.py:33-53). `Dedup.PurgeIsInvisible` shows that no later look-up can tell.
* Server events come out in the order of SERVER_MONITORS, not of the condition registry
  (com-event-core/com_event_core/normalize.py:207 and 369-376, against the comment at 348-349).
* Only undecodable bodies are discarded from the spool. JSON that decodes but cannot be normalised is
  rescheduled without end (com-event-bridge/bridge/core/spool.py:182-195). `Safety.UnusableJsonIsKept`.

Properties that do not hold unconditionally come with the exact condition and an example:

* A target has open exactly the (server, condition) pairs unhealthy in their newest snapshot handled so far, newest by
  arrival, if and only if no reading strays (`Reconcile.TargetAgreesIff`). Readings stray in two ways. News is lost when
  the newest snapshot is dropped as a repeat, or its forward fails, while the target was last told otherwise: off - on -
  off inside the window, which runs from the mark and so from after the forward, leaves a dead server's item closed
  (`Reconcile.FlappingStrays`). Old news gets through when a batch comes back after a newer one, because some other
  target failed it, and its mark is no longer live: a target that never failed is told again, and opens an item on a
  running server (`Reconcile.RetryStrays`); while the mark is live the retry is dropped there and does no harm.
* De-dup keys of generic resource types are ambiguous exactly for ids or operations containing `|`
  (`Identity.GenericConfusion`, `Identity.GenericConfusionExample`).

## Model

| member | source | states |
|---|---|---|
| Dedup.DedupStore.AlreadyDone | com-event-core/com_event_core/dedup.py:33-53 | A key is done iff it was marked within the TTL; the look-up leaves the purged table; disabled de-dup neither answers nor purges |
| Dedup.DedupStore.MarkDone | com-event-core/com_event_core/dedup.py:55-66 | The key's time becomes now, all other rows stay; no effect when disabled |
| Dedup.PurgeIsInvisible | com-event-core/com_event_core/dedup.py:46-53 | Purging at an earlier time never changes what a later look-up answers |
| Dedup.RepeatDoesNotRefresh | com-event-core/com_event_core/deliver.py:64-67 | After a suppressed repeat the window still ends ttl after the original mark |
| Ledgers.StepKeepsInv | com-event-core/com_event_core/deliver.py:61-78 | Each check, forward, mark, tick and crash keeps: log in time order, table backed by marked forwards and holding every live mark, forwards of a marked key apart by more than the TTL, unmarked successes only from crashes |
| Ledgers.AtMostOncePerWindow | com-event-core/com_event_core/deliver.py:61-78 | A window no longer than the TTL holds at most 1 + (crashes between forward and mark) successful forwards of a key |
| Ledgers.OverlapsAreCounted | com-event-core/com_event_core/deliver.py:61-78 | The count bounded there is the number of logged successful forwards of the key under way in the window |
| Ledgers.SuppressionIsEvidence | com-event-core/com_event_core/dedup.py:43-53 | A skipped key was successfully forwarded and marked at most ttl before the check |
| Deliver.DeliverTo | com-event-core/com_event_core/deliver.py:61-78 | One adapter's share is one turn on the ledger: skipped, failed, or forwarded and only then marked; unless skipped, just the event itself is sent to just that adapter, once |
| Deliver.DeliverEvent | com-event-core/com_event_core/deliver.py:48-81 | Every adapter gets its turn in order whatever the others did; the event is sent to each that was not skipped; the failures raised are those of the failed turns |
| Deliver.DeliverEvents | com-event-core/com_event_core/deliver.py:84-106 | Every (event, adapter) pair of the batch gets its turn in order; the pairs not skipped are what is sent; one error lists the failed ones |
| Deliver.BatchInOrder | com-event-core/com_event_core/deliver.py:99-104 | The batch's shares, keys and names are those of event e and adapter a at position e * adapters + a, and there are no others |
| Deliver.SendsAreTheTurnsNotSkipped | com-event-core/com_event_core/deliver.py:61-72 | What is sent are, in order, exactly the shares whose turn was not skipped, each with its own event, adapter and outcome |
| Deliver.FailedNamesAreTheFailedTurns | com-event-core/com_event_core/deliver.py:71-81 | The names raised are, in order, exactly those whose forward failed |
| Deliver.TurnIsSteps | com-event-core/com_event_core/deliver.py:61-78 | A turn is a run of the ledger's atomic steps |
| Deliver.NoFailedNames | com-event-core/com_event_core/deliver.py:105-106 | Nothing is raised iff no turn failed |
| Retry.ForwardsTheComplement | com-event-core/com_event_core/deliver.py:84-106 | Within the TTL a call forwards exactly the keys not yet done, adds exactly those that succeed, and returns normally iff all are done |
| Retry.OrderDoesNotMatter | com-event-core/com_event_core/deliver.py:61-78 | With one verdict per key, the keys done afterwards do not depend on adapter order or on other adapters |
| Retry.RetriesForwardOnlyWhatIsMissing | com-event-core/com_event_core/deliver.py:91-97 | Over any number of calls within the TTL, with any ledger steps in between, a key is forwarded in a call iff it was not done at the start and has neither succeeded nor been marked since; once it succeeded it is skipped |
| Retry.LastRoundReturnsIffAllDone | com-event-core/com_event_core/deliver.py:55-58 | The last call returns normally iff every key was done at the start, succeeded in some call or was marked in between |
| Retry.DisabledForwardsEverything | com-event-core/com_event_core/dedup.py:40-41 | With de-dup disabled each call forwards every key again |
| Spool.FirstDueIsOldest | com-event-bridge/bridge/core/spool.py:108-117 | The claimed row is due and has the smallest id of the due ones; None iff nothing is due |
| Spool.SpoolStore.PutIn | com-event-bridge/bridge/core/spool.py:86-106 | SpoolFull iff this lane's bytes plus the body exceed its limit; otherwise one row with a fresh larger id; lane budgets and id order kept |
| Spool.SpoolStore.Put | com-event-bridge/bridge/core/spool.py:78-80 | The normal lane: refused iff over its own budget, otherwise appended, due at once, to be enriched |
| Spool.SpoolStore.PutOverflow | com-event-bridge/bridge/core/spool.py:82-84 | The overflow lane: refused iff over its own budget, otherwise appended, not to be enriched |
| Spool.SpoolStore.ClaimDue | com-event-bridge/bridge/core/spool.py:108-117 | Returns the oldest due row without changing the table; None iff nothing is due |
| Spool.SpoolStore.Delete | com-event-bridge/bridge/core/spool.py:119-122 | Removes exactly the row with that id |
| Spool.SpoolStore.Reschedule | com-event-bridge/bridge/core/spool.py:124-130 | Changes attempts and retry time of that row and nothing else |
| Spool.WithoutIsCut | com-event-bridge/bridge/core/spool.py:119-122 | Deleting row i of the ordered table leaves the rows before and after it, in order |
| Backoff.HorizonBeforeCap | com-event-bridge/bridge/core/spool.py:187-195 | Until the cap, the first n waits add up to base * (2^n - 1) |
| Backoff.HorizonAfterCap | com-event-bridge/bridge/core/spool.py:187-195 | After k uncapped waits, they add up to base * (2^k - 1) + (n - k) * cap |
| Backoff.DelayBounds | com-event-bridge/bridge/core/spool.py:189 | A wait never exceeds the cap, and is positive for positive base and cap |
| Backoff.DefaultHorizon | com-event-bridge/bridge/core/spool.py:187-195 | With the shipped 30 s base and one-hour cap, six waits take 1890 s, seven 3810 s, and each further one an hour |
| Engine.StepConserves | com-event-bridge/bridge/core/spool.py:86-134 | Every step keeps: each id ever handed out is either a row with the body and lane it was accepted with, or removed, never both |
| Engine.StepKeepsLanes | com-event-bridge/bridge/core/spool.py:88-98 | Every step keeps both lanes within their own byte limits |
| Engine.QuietLeavesSpool | com-event-bridge/bridge/core/spool.py:156-195 | Only admission and the end of a processing touch the spool |
| Safety.ReachableInv | com-event-bridge/bridge/core/spool.py:156-195 | Every state of every run satisfies all invariants of ledger, spool, worker, admission, schedule and order together |
| Safety.NoAcceptedEventIsLost | com-event-bridge/bridge/core/spool.py:156-195 | A body answered 202 is still a row holding that body, or was undecodable, or each of its keys was successfully forwarded while it was processed or at most ttl before its check |
| Safety.UnusableJsonIsKept | com-event-bridge/bridge/core/spool.py:182-195 | A decodable body that normalisation always rejects stays in the spool for ever |
| Safety.NoDuplicateWithinWindow | com-event-core/com_event_core/deliver.py:61-78 | In every run with crashes, forwards of a marked key lie more than the TTL apart, and a window holds at most 1 + (crashes in the unmarked gap) successes |
| Safety.AdmissionIsBounded | com-event-bridge/bridge/app.py:242-275 | Lanes within budget; 202 ids strictly increase; 202s plus answers lost to a crash account for every row pending or removed; 503 only when each lane at its own check could not fit the body; overflow only when the normal lane could not |
| Safety.FirstInFirstOut | com-event-bridge/bridge/core/spool.py:108-117 | While no attempt has failed, rows of both lanes leave in acceptance order without a gap and the head is always due |
| Safety.BackoffIsBounded | com-event-bridge/bridge/core/spool.py:187-195 | No row's retry is more than the cap ahead of the clock, nor earlier than its first failure plus the horizon of its attempts |
| Safety.LastMarkDecides | com-event-core/com_event_core/dedup.py:43-53 | A key is skipped iff its last mark is at most ttl old |
| Safety.RetryHorizon | com-event-bridge/bridge/core/spool.py:187-195 | Retry n skips a target iff D(n) plus the time from its mark to the first failure, the slack of the attempts and the lateness are within the TTL; otherwise it is forwarded again |
| Drain.FinishDropsOne | com-event-bridge/bridge/core/spool.py:178-195 | The end of a processing takes exactly one row out of the due ones; a reschedule does so iff the delay is positive |
| Drain.WorkerRunCountsDown | com-event-bridge/bridge/core/spool.py:159-195 | Over any worker steps the due rows fall by exactly the number of completed processings |
| Drain.DrainsInExactlyAsManyRounds | com-event-bridge/bridge/core/spool.py:159-195 | From n due rows nothing is due exactly when n processings are complete, whatever the targets did, and never more than n are |
| Drain.DrainEnds | com-event-bridge/bridge/core/spool.py:159-163 | For any answers the targets may give, the worker reaches a state in which nothing is due |
| Bridge.EnrichmentNeverChangesDelivery | com-event-core/com_event_core/enrich/__init__.py:75-101 | With confined enrichers, stateful or not, any run goes through the very states of the run without enrichers: same forwards, de-dup table and spool |
| Bridge.BatchIsARun | com-event-core/com_event_core/deliver.py:84-106 | A whole deliver_events call is a run of the engine's steps |
| Bridge.Bridge.TryNormalLane | com-event-bridge/bridge/core/spool.py:78-106 | The handler's first attempt is an engine step: refused iff over the normal lane's budget, otherwise one row to be enriched |
| Bridge.Bridge.TryOverflowLane | com-event-bridge/bridge/core/spool.py:82-106 | The second attempt likewise: refused iff over the overflow lane's budget, otherwise one row not to be enriched |
| Bridge.Bridge.AcceptToSpool | com-event-bridge/bridge/app.py:242-275 | 503 iff the body fits neither lane, and then nothing changed; otherwise one row, in the normal lane iff it fits there, and 202 with its id |
| Bridge.Bridge.ParseRow | com-event-bridge/bridge/core/spool.py:165-167 | A claimed body is discarded iff undecodable, is unusable only when normalisation raises at that moment, and otherwise yields just what it was normalised to |
| Bridge.Bridge.EnrichAndDeliver | com-event-bridge/bridge/core/spool.py:169-178 | What is sent are the shares of the enriched events in the normal lane and of the plain events in the overflow lane; every key has its turn in order, and no failure is reported iff none failed |
| Bridge.Bridge.Reschedule | com-event-bridge/bridge/core/spool.py:187-195 | A failed row gets one more attempt and its capped exponential delay from now; nothing else changes |
| Bridge.Bridge.Process | com-event-bridge/bridge/core/spool.py:165-195 | A claimed row is removed iff it is undecodable or every target took its turn without failing; otherwise, normalisation having raised or a target failed, it gets one more attempt and its backoff; the ledger and what was sent are those of the turns |
| Bridge.Bridge.WorkOnce | com-event-bridge/bridge/core/spool.py:159-195 | It works iff some row is due when it claims, and then on the due row of smallest id: that row is processed, and removed or rescheduled; otherwise only time passes |
| Bridge.Bridge.Work | com-event-bridge/bridge/core/spool.py:156-195 | Each iteration is such a one from where the last ended; what was sent is what they sent, and removals and failures grow by exactly the iterations that worked |
| Shim.Shim.HandleMessage | com-event-relay/shim/worker.py:54-79 | Exactly one terminal action per received message: dead-lettered iff undecodable; abandoned if it cannot be normalised; otherwise every share of the enriched batch has its turn and is sent unless skipped, and the message is completed iff no turn failed, or abandoned with the failed targets; it leaves the queue only when completed or dead-lettered |
| Shim.Shim.DeliverUntil | com-event-relay/shim/worker.py:64-72 | Up to a death the turns and sends are those of a prefix of the batch's shares, and the next share's turn is cut anywhere: before its check, in the forward, or after it and before the mark |
| Shim.Shim.Die | com-event-relay/shim/worker.py:54-79 | A process that dies at any of these points, or before or after the delivery, leaves the message on the queue and the protocol intact |
| Shim.Shim.Run | com-event-relay/shim/worker.py:54-79 | Any finite run with arrivals, redelivery in any order and deaths at any point keeps the protocol, and while messages are queued every receipt is of one of them |
| Shim.CleanBatchHasEvidence | com-event-relay/shim/worker.py:63-73 | When nothing is raised each key was forwarded in this call or at most ttl before its check |
| Shim.NothingLeavesUndelivered | com-event-relay/shim/worker.py:54-79 | A message that arrived is still queued, or undecodable, or completed with evidence for each of its (event, target) pairs |
| Identity.ServerKeyInjective | com-event-core/com_event_core/normalize.py:204-210 | Server keys are equal iff server and condition are, even when serials contain ':' |
| Identity.KeyFamiliesAreDisjoint | com-event-core/com_event_core/normalize.py:204-210 | Server, alert and generic correlation keys never coincide |
| Identity.PreimageInjective | com-event-core/com_event_core/normalize.py:135-137 | The joined text is equal iff correlation key, action and severity are all equal, whatever the key contains |
| Identity.DedupKeyIdentifies | com-event-core/com_event_core/normalize.py:135-137 | So are the hashes; a raise and its clear share the correlation key but never the de-dup key |
| Identity.DeliveryKeyInjective | com-event-core/com_event_core/deliver.py:62 | Per-target keys are equal iff de-dup key and target name are |
| Identity.GenericConfusion | com-event-core/com_event_core/normalize.py:442-454 | A generic event's hashed text is shared with a different event iff its id or operation contains the separator |
| Identity.GenericConfusionExample | com-event-core/com_event_core/normalize.py:442-454 | Two different generic events with one hashed text |
| Normalize.NormalizePayload | com-event-core/com_event_core/normalize.py:172-185 | Servers give one event per enabled condition, alerts and all other types exactly one, each saying what the payload's own fields say; it raises for a server iff a monitor name is unknown, and on whatever payloads the model is told are ill-typed |
| Normalize.NormalizeServer | com-event-core/com_event_core/normalize.py:188-233 | One event per enabled condition, in that order: health clears iff the summary is OK and is critical iff CRITICAL, minor iff WARNING, else a warning; off is a warning, disconnected major, unsubscribed or expired minor |
| Normalize.OtherEventsRead | com-event-core/com_event_core/normalize.py:394-457 | An alert clears iff cleared or deleted, critical iff CRITICAL, normal iff OK or informational, else a warning; any other event raises, as bad as its health summary |
| Normalize.KeyBaseIsSerial | com-event-core/com_event_core/normalize.py:140-148 | A server is known by its serial number, else by what follows the first + of its id, else by the whole id |
| Normalize.EnabledMonitors | com-event-core/com_event_core/normalize.py:358-376 | Each named condition once, in the order of first mention; health by default; refused iff some name is unknown |
| Normalize.RaiseIffAbnormal | com-event-core/com_event_core/normalize.py:268-345 | A server event raises iff the condition is a problem, iff its severity is not normal |
| Normalize.ServerEventsIdentify | com-event-core/com_event_core/normalize.py:204-226 | Two server events are one problem iff server and condition agree, and one delivery iff action and severity also do |
| Normalize.AlertEventsIdentify | com-event-core/com_event_core/normalize.py:394-432 | An alert's events share one problem by id; it clears iff cleared or deleted; only a change of state is a new delivery |
| Normalize.FamiliesNeverMeet | com-event-core/com_event_core/normalize.py:172-185 | Events of different resource types never share a correlation key nor a de-dup key |
| Normalize.SnapshotKeysDistinct | com-event-core/com_event_core/normalize.py:206-233 | A snapshot's batch has no delivery key twice, so retries of it forward only what is missing |
| Reconcile.DroppedIffRepeated | com-event-core/com_event_core/deliver.py:61-78 | An event is dropped iff one with the same key was forwarded and marked at most ttl before its check |
| Reconcile.HandledIffInTime | com-event-core/com_event_core/deliver.py:61-78 | Exactly those outcomes are possible whose times follow one another and in which just the repeats are dropped |
| Reconcile.NewestOfIsNewest | com-event-bridge/bridge/core/spool.py:100-106 | The newest reading of an item is the one of greatest arrival number, and of its handlings the last |
| Reconcile.OpenIsWhatWasSent | com-event-core/com_event_core/deliver.py:61-72 | The items held to be open at the targets are those that the events really sent, raised and cleared, have opened and not closed |
| Reconcile.AgreesIffNeverStrays | com-event-core/com_event_core/deliver.py:61-78 | A target, failing or not, agrees with the newest snapshot about an item after every event iff no newest one is dropped or fails against what was last told, and no older one is forwarded against the newest |
| Reconcile.AgreesWithoutFlapping | com-event-core/com_event_core/deliver.py:61-78 | Enough for a target that does not fail: no newest state returns within the TTL of its mark after its opposite, and snapshots come in order, or what comes back late is dropped or says the same |
| Reconcile.TargetAgreesIff | com-event-core/com_event_core/normalize.py:188-233 | At every moment an item is open iff it is a (server, condition) pair unhealthy in its newest snapshot handled so far, iff none of its readings strays; retried batches and failing targets included |
| Reconcile.TargetAgreesWithServers | com-event-core/com_event_core/normalize.py:188-233 | Under the simpler conditions of AgreesWithoutFlapping an item is open iff its pair is unhealthy in its newest snapshot |
| Reconcile.FlappingStrays | com-event-core/com_event_core/deliver.py:64-78 | Off, on, off with the last check within the TTL of the first mark: the last raise is dropped and the target disagrees, however long the forwards took |
| Reconcile.RetryStrays | com-event-bridge/bridge/core/spool.py:159-195 | A batch that failed for one target comes back after a newer snapshot: another target, which never failed, is told the old state again and disagrees iff its mark is no longer live |
| Enrich.EnrichEvents | com-event-core/com_event_core/enrich/__init__.py:75-101 | Every event passes every enricher in order, in place, each call free to answer anew; nothing is raised, and a failing enricher leaves the event as it was then |
| Enrich.EarlierActFirst | com-event-core/com_event_core/enrich/__init__.py:88-94 | Each enricher acts once on an event, on what those listed before it left and before those listed after it |
| Enrich.EnrichActsOnWantedOnly | com-event-core/com_event_core/enrich/__init__.py:90-101 | An enricher that declines or raises in wants() leaves what it had written and its enrich() has no say |
| Enrich.EnrichmentKeepsKeys | com-event-core/com_event_core/enrich/__init__.py:75-101 | With confined enrichers, stateful or not, the events stay the same problems in the same order, with the same delivery keys |
| Enrich.ReplayIsFaithful | com-event-core/com_event_core/enrich/__init__.py:90-94 | The functions replayed from a stage's history do to each event just what the stage did |
| Enrich.ReplayIsConfined | com-event-core/com_event_core/enrich/__init__.py:78-84 | A stage that never changed a problem is, as functions, confined |
| Registry.GetEnrichers | com-event-core/com_event_core/enrich/__init__.py:64-72 | Refused iff some name is unknown; otherwise each named enricher once, in stable priority order |
| Registry.ListingOrderDoesNotMatter | com-event-core/com_event_core/enrich/__init__.py:55-60 | With distinct priorities the run order is the same for any listing of the same names |
| Registry.DependenciesComeFirst | com-event-core/com_event_core/enrich/__init__.py:55-60 | An enricher of lower priority number always runs before one of higher |
| Registry.LowerPriorityActsFirst | com-event-core/com_event_core/enrich/__init__.py:55-94 | Whatever the listing order, an event reaches an enricher with the work of every enricher of lower priority number already on it |
| Registry.UniqueInOrder | com-event-core/com_event_core/enrich/__init__.py:65-69 | Before sorting, the names stand in the order of their first mention |
| Sorting.SortIsSorted | com-event-core/com_event_core/enrich/__init__.py:71 | The sort's result is ordered and has the same elements as often |
| Sorting.SortIsStable | com-event-core/com_event_core/enrich/__init__.py:71 | Elements with equal keys keep their order |
| Sorting.StableSortIsUnique | com-event-core/com_event_core/enrich/__init__.py:71 | Being ordered and stable determines the result |
| Budget.Budget.Take | com-event-core/com_event_core/enrich/ilo_ai.py:90-117 | Follows the two-window breaker over all calls so far, and grants whenever fewer than the caps were granted in the hour and in the day before; the breaker is tripped exactly when this call was refused |
| Budget.GrantedBelowCaps | com-event-core/com_event_core/enrich/ilo_ai.py:90-117 | Under a monotone clock a call is granted whenever fewer than perHour calls were granted in the 3600 s and fewer than perDay in the 86400 s before it |
| Budget.TurnKeepsSound | com-event-core/com_event_core/enrich/ilo_ai.py:92-117 | A call keeps: no window grants more than its cap, and grants of different windows are further apart than the windows between them |
| Budget.HistoryIsGranted | com-event-core/com_event_core/enrich/ilo_ai.py:115-117 | Both windows have counted exactly the granted calls |
| Budget.SlidingBound | com-event-core/com_event_core/enrich/ilo_ai.py:94-101 | Any interval of at most n window lengths holds at most cap * (n + 1) grants |
| Budget.CountInCounts | com-event-core/com_event_core/enrich/ilo_ai.py:90-117 | The count bounded here is the number of granted times in the interval |
| Budget.AnalysesAreBounded | com-event-core/com_event_core/enrich/ilo_ai.py:90-117 | Under a monotone clock any half-open interval has at most perHour * (hours + 1) and perDay * (days + 1) grants |
| Cache.Cache.Get | com-event-core/com_event_core/enrich/ilo_ai.py:129-140 | Answers only the latest put for the key aged at most ttl; with increasing put times, answers nothing only if that put is too old or max puts came after it |
| Cache.Cache.Put | com-event-core/com_event_core/enrich/ilo_ai.py:142-149 | Never more than max entries; a full cache drops its first oldest entry first, even when the key is present; a replaced key keeps its place |
| Cache.FirstOldestIsFirst | com-event-core/com_event_core/enrich/ilo_ai.py:147 | The entry dropped is no newer than any other, and the first of the equally old ones |
| Cache.OldestIsLate | com-event-core/com_event_core/enrich/ilo_ai.py:146-149 | With increasing put times the oldest of n entries has at least n - 1 puts after its own, so an entry survives the next max - 1 puts |
| Cache.StoringKeepsRetained | com-event-core/com_event_core/enrich/ilo_ai.py:142-149 | Storing an entry keeps: a key is missing only when its latest put is too old or max puts came after it |
| IloAi.Analyst.Wants | com-event-core/com_event_core/enrich/ilo_ai.py:245-266 | Wants exactly raises of sufficient severity with an address; an alert without one, and nothing else, is first given what its device's look-up finds |
| Events.RankIsScale | com-event-core/com_event_core/enrich/ilo_ai.py:62-68 | A threshold lets through the severities from it upwards on the scale normal, warning, minor, major, critical, and no others |
| IloAi.Analyst.Resolve | com-event-core/com_event_core/enrich/ilo_ai.py:268-325 | A live cached address, even a negative one, is reused; the COM API is asked only when none is owed, and only its answers are stored |
| IloAi.Analyst.Enrich | com-event-core/com_event_core/enrich/ilo_ai.py:328-348 | Applies a live analysis without asking; otherwise asks exactly when the budget allows, applies what is answered and stores it; every analyzer call was paid for |
| IloAi.Analyst.Analyze | com-event-core/com_event_core/enrich/ilo_ai.py:336-345 | After a cache miss the analyzer is asked iff the budget allows; an answer is stored and applied, a failure is neither |
| IloAi.Apply | com-event-core/com_event_core/enrich/ilo_ai.py:404-410 | Summary and root cause, empty ones as none, confidence and actions each go to their own field; nothing else changes |
| IloAi.CallKeepsPaced | com-event-core/com_event_core/enrich/ilo_ai.py:328-348 | Two analyzer calls for one problem, the first successful, stay more than ttl or at least max stored analyses apart |
| IloAi.Analyst.Attend | com-event-core/com_event_core/enrich/__init__.py:90-101 | One pass over an event: given an address if that is all it lacks, wanted or not, and if wanted enriched with what cache or analyzer had; recorded at a moment of its own, and the problem unchanged |
| IloAi.AnalystIsConfined | com-event-core/com_event_core/enrich/ilo_ai.py:245-348 | All the object ever did to events is the passes of one enricher, and that enricher changes nothing delivery depends on |
| HpeAdvisories.ReferencesAreMatches | com-event-core/com_event_core/enrich/hpe_advisories.py:324-337 | Nothing but the two advisory fields is written; the evidence is the whole bundle and the compliance record; the references are exactly the bundle's advisories that match the event, by list, open ones first |
| HpeAdvisories.RelevantAreTheMatches | com-event-core/com_event_core/enrich/hpe_advisories.py:118-138 | Of one list each matching advisory is referred to once, in order, with the list it stands in |
| HpeAdvisories.Adviser.ResolveBundle | com-event-core/com_event_core/enrich/hpe_advisories.py:185-198 | A live cached bundle is used without a fetch; otherwise one fetch, remembered if it succeeds |
| HpeAdvisories.Adviser.ResolveCompliance | com-event-core/com_event_core/enrich/hpe_advisories.py:203-233 | Likewise for the device's compliance record; a failed or empty look-up is not remembered |
| HpeAdvisories.Adviser.Enrich | com-event-core/com_event_core/enrich/hpe_advisories.py:184-201 | One look-up of the bundle through its cache; without a bundle the event is untouched and no compliance is looked up; with one, and if checked, one look-up of the compliance record through its cache, and both are applied |
| HpeAdvisories.Adviser.Wants | com-event-core/com_event_core/enrich/hpe_advisories.py:169-181 | Wants exactly the raises of sufficient severity that stem from servers |
| HpeAdvisories.Adviser.Attend | com-event-core/com_event_core/enrich/__init__.py:90-101 | One pass over an event: untouched and nothing looked up unless wanted, otherwise enriched as above; recorded, and the problem unchanged |
| HpeAdvisories.AdviserIsConfined | com-event-core/com_event_core/enrich/hpe_advisories.py:169-201 | All the object ever did to events is the passes of one enricher, and that enricher changes nothing delivery depends on |
| Advisories.MachineIsWalk | com-event-core/com_event_core/enrich/advisories.py:167-233 | Over any well-nested document whose headings hold only text, the tag machine yields exactly the entries of the recursive walk and the sections of its headings |
| Advisories.RunIsSane | com-event-core/com_event_core/enrich/advisories.py:189-233 | On any stream, however unbalanced, an open entry implies a section, and every entry has text and a section that was opened |
| Advisories.InsideEntry | com-event-core/com_event_core/enrich/advisories.py:189-233 | Inside an entry nested list items and rows only contribute text, the first link, header cells and headings |
| Advisories.SectionParser.HandleStartTag | com-event-core/com_event_core/enrich/advisories.py:189-205 | The parser object takes the machine's step and keeps its depth invariant |
| Advisories.SectionParser.HandleEndTag | com-event-core/com_event_core/enrich/advisories.py:207-225 | The same for an end tag, heading or entry |
| Advisories.SectionParser.HandleData | com-event-core/com_event_core/enrich/advisories.py:227-233 | The same for text |
| Advisories.SectionParser.Feed | com-event-core/com_event_core/enrich/advisories.py:167-233 | A whole stream through the object is the machine's run, leftovers of finished headings and entries aside |
| Advisories.ParseAdvisories | com-event-core/com_event_core/enrich/advisories.py:256-283 | Trusted iff a matching heading was seen; the two results are the entries of the two sections, in order |
| Advisories.OpensIff | com-event-core/com_event_core/enrich/advisories.py:51-52 | A heading opens the open section iff it reads "open customer advisor..." somewhere, in any case, and the resolved one iff it so reads "resolved" and not "open" |
| Advisories.PublishedIsParsed | com-event-core/com_event_core/enrich/advisories.py:167-225 | From a page of two headed tables, of any advisories, the entries read are exactly those published: section, words and link, in order; header rows are not among them |
| Advisories.PublishedIsBucketed | com-event-core/com_event_core/enrich/advisories.py:281-283 | And the two lists returned are those of the two tables |
| Advisories.BucketsShareOut | com-event-core/com_event_core/enrich/advisories.py:281-283 | Every entry is in its own bucket and there are no others |
| Advisories.UntrustedPageIsEmpty | com-event-core/com_event_core/enrich/advisories.py:273-279 | A document without a matching heading has no entries, so none is thrown away |
| Compliance.FindGroupForDevice | com-event-core/com_event_core/enrich/compliance.py:28-50 | Against an honest pager the result of a linear search as far as the pages reach; against any pager no more calls than maxGroups fill, and a group found has a device going by that deviceId or id |
| Compliance.FirstWithIsFirst | com-event-core/com_event_core/enrich/compliance.py:44-46 | The linear search finds the group at the first position with a device going by that deviceId or id, and nothing iff there is none |
| Compliance.DefaultReach | com-event-core/com_event_core/enrich/compliance.py:25-28 | By default exactly 500 groups are within reach, in at most 5 calls |
| Redfish.TrimArrays | com-event-core/com_event_core/enrich/redfish.py:109-133 | The three sensor arrays are filtered and everything else is untouched; the record holds one note with both counts for each non-empty array, in order |
| Redfish.TrimmingIsExact | com-event-core/com_event_core/enrich/redfish.py:82-133 | Each unhealthy or threshold-crossing entry is kept as often as it occurs, and no other |
| Redfish.NotableIff | com-event-core/com_event_core/enrich/redfish.py:67-106 | An entry is kept iff its health is none of ok, enabled, absent, none and empty, or its Celsius reading, else its reading, has reached one of its four limits, a limit of 0 being none |
| Redfish.NotesAreComplete | com-event-core/com_event_core/enrich/redfish.py:119-132 | There is a note just for each of the three arrays that had an entry, in order, with the number kept and the number there was |
| Redfish.TrimmingTwiceIsOnce | com-event-core/com_event_core/enrich/redfish.py:109-133 | Trimming is idempotent |
| Redfish.CollectLog | com-event-core/com_event_core/enrich/redfish.py:231-258 | The newest entries that are not OK up to the limit, and the full count; a missing log is empty |
| Redfish.LoggedAreNotOk | com-event-core/com_event_core/enrich/redfish.py:239-243 | Kept or cut off are exactly the entries whose severity is none of the five healthy words |
| Redfish.NothingNewerIsDropped | com-event-core/com_event_core/enrich/redfish.py:243-257 | min(limit, non-OK) entries are kept, newest first by creation stamp with unstamped ones last; kept and dropped are together the non-OK ones, and none dropped was created after any kept |
| Redfish.CollectUnhealthyMembers | com-event-core/com_event_core/enrich/redfish.py:261-302 | unhealthy <= inspected <= min(total, max); the unhealthy ones are exactly those of the members reached, in order |
| Redfish.UnhealthyAreNotOk | com-event-core/com_event_core/enrich/redfish.py:291-293 | Of the components reached, those kept are exactly the ones whose health is none of the five healthy words |
| Redfish.ReachedAreTheLeading | com-event-core/com_event_core/enrich/redfish.py:278-292 | Every reference with an address that answers with a component is followed, in order, and counted |

## Left out

- Target adapters' HTTP calls and ticket rendering: a target is an oracle that takes time and succeeds or fails.
- HTTP plumbing of the bridge and relay (routes, handshake, secrets, size check, synchronous mode, health, logging).
- Cloud queue SDKs: the queue is a bag that redelivers until a message is completed or dead-lettered; its own actions do not fail.
- SQLite errors, schema migration, threads and locks: each locked method is one durable step.
- The endless loops of the worker and the shim: they are any finite number of rounds.
- Replicated shims or bridges: each has its own de-dup table and no guarantee is documented.
- JSON decoding, ISO dates, SHA-1: a decodable flag, an optional expiry time, and a collision-free hash without ':'.
- Fields that play no part in identity, action, severity or enrichment: tags, descriptions, model names, the spool's properties column.
- Case folding and whitespace: texts the code compares without regard to case arrive in one case, advisory text as its words; only ASCII letters fold in headings.
- Normalize.NormalizePayload: which payloads are ill-typed, so that a mapping raises on them, is given to the model and not computed from their fields.
- A payload id that is null rather than absent.
- Splitting advisory titles into id and component, keyword extraction, and coercion of the analyzer's confidence and actions: parameters.
- The JSON asset shortcut of advisory pages, the choice of firmware bundle for a server, the bundle's own description in the evidence, and the content of a compliance record.
- Redfish discovery and the assembly of the evidence bundle around the three bounded collections.
- Advisories.SectionParser.Feed: an exception of the HTML tokenizer itself is not modelled.
- Compliance.FindGroupForDevice: a pager that raises ends the search with its exception; that path is not modelled.
- Redfish.CollectLog: creation stamps are ranks in their textual order, None for a missing or empty one.
- Reconcile.TargetAgreesIff: the newest snapshot is the newest of those handled, judged when it was last handled; deaths of the process between forward and mark are in `Engine` and `Shim`, not here.
- Reconcile.TargetAgreesWithServers: the same scope as Reconcile.TargetAgreesIff.
