# A model of pg-outbox's delivery protocol

pg-outbox keeps messages in a PostgreSQL table and lets any number of relays
claim, publish and settle them. Nothing but the table coordinates the relays: a
claim is a lease with a random token, and every later statement names that token.
This project models the table, the statements, the relay and cleaner loops, the
algebra of publish outcomes and the retry backoff, and proves what the repository
promises of them over all runs.

`dafny verify dfyconfig.toml` checks the whole project.

## How the model is laid out

| file | contents |
|---|---|
| `Messages.dfy`, `Sets.dfy` | rows, envelopes, statuses; sizes of finite sets |
| `Statements.dfy` | the meaning of each SQL statement, as a function from table to table |
| `Protocol.dfy` | runs: any interleaving of the statements of any number of workers, with stale claim snapshots; the invariant of reachable states |
| `Evolution.dfy` | what any stretch of any run does to the table, as a preorder |
| `Fencing.dfy`, `Conservation.dfy`, `Ordering.dfy`, `Accounting.dfy`, `Progress.dfy`, `Heartbeat.dfy` | the theorems about runs |
| `Outcomes.dfy` | error trees, `errors.As`, and what decides the fate of a batch |
| `Store.dfy` | class `Store`: the statements as operations that change the table in place |
| `Settlement.dfy`, `Refinement.dfy` | what settling a batch must achieve, message by message, and why grouping does not matter |
| `Fates.dfy` | the same read off the columns of each row and the calls of the hooks |
| `Passes.dfy`, `Relay.dfy` | class `Relay`: complete, settle, settleEach, heartbeat, processBatch, drain |
| `Schedules.dfy`, `Scenarios.dfy` | which commit schedules ordered relays keep in order; building blocks for concrete runs |
| `Correspondence.dfy` | the statements of `Store` and `Relay` are steps of the protocol |
| `Cleaner.dfy`, `Backoff.dfy`, `Wake.dfy` | the cleaner's loops, the backoff arithmetic, the wake channel |

A worker that crashes, stalls, is cancelled or is stopped by a fatal error is one
that takes no further step; no special case is needed for it.

The table is a `map` from id to row. Sequences of statements (`Run`) carry the
theorems about any number of workers; the classes carry the code of one worker,
and what the other workers do between its statements is a parameter (`others`,
`meanwhile`) that is arbitrary except where a theorem says otherwise.

## Assumptions

* `gen_random_uuid()` never repeats a lease token; `bigserial` never repeats a
  value and counts up within one statement; the database clock does not run back.
* Statements take effect one at a time, in commit order. A claim evaluates its
  NOT EXISTS guard on a snapshot that may be any earlier state; only the candidate
  row itself is locked and re-checked. `SKIP LOCKED` may skip any set of rows.
* `now()` is the statement's start, and `clock_timestamp()` is a later or equal
  reading, chosen separately for every row. A statement may start long before it
  takes effect.
* Relays may differ in every setting. `relayMax` in a theorem is the largest
  `MaxAttempts` among them, at least 1 as `config.Resolve` leaves it.
* What the outside world decides is a parameter: the executor's answers (done,
  refused, or committed with the answer lost), clock readings, what a backoff returns, tokens, the order in
  which Go visits a map, the text of an error, the `Fatal` classifier, what
  `Publish` returns and how many ticks it takes.

## Where the code and its documentation differ

* Ordered mode is documented as strict order per partition key. `created_at` is the
  start of the producer's transaction, so a transaction that started first may
  commit last, and then its row overtakes. `Schedules.ScheduleIsSafeIff` is the exact
  condition, on nothing but the stamps of the rows in the order of their commits;
  `Schedules.SlowTransactionBreaksOrder` is a four-step run that breaks the order.
* The comment on `drain` argues that rows rescheduled with a backoff are not due.
  A delay can be zero, so this is no reason for the loop to end; the attempts used
  up are (`Relays.Relay.Drain`, `Progress.DrainIsBounded`).
* `Exp` documents a capped doubling. Its overflow test `d < base` can be passed by
  a wrapped value. `Backoffs.ExpIsExactIff` is the exact condition,
  `Backoffs.OverflowEscapes` an input that fails, `Backoffs.SmallConfigIsExact` a
  bound under which every attempt is right; the default is within it.
* `Exp` documents 0 as "no cap". Without a cap the formula holds exactly as long as
  it does not overflow (`Backoffs.UncappedIsExactIff`), and may then drop to zero
  (`Backoffs.UncappedCollapses`). With jitter, `rand.Int64N` panics for exactly the
  configurations of `Backoffs.UnboundedIff`, of which `Backoffs.LargestCapPanics` is one.
* The delay requested by a `RetryAfter` can depend on Go's map order, when the
  settled outcome itself contains a nested `PerMessage`:
  `Outcomes.MapOrderDecidesDelay` is such an outcome, and
  `Outcomes.DelayIsOrderFree` says exactly when it does not.
* Counting an attempt at claim time is documented as protection from poison messages.
  But a claim makes no `attempts < max` test, so a message whose relay crashes is
  claimed again however often that happens (`Accounting.CrashesExceedAnyLimit`).
  `Accounting.OverLimitIff` says exactly which rows are over their limit, and
  `Accounting.AttemptsCeiling` by how much.

## Model

| member | source | states |
|---|---|---|
| `Statements.InsertKeepsFirst` | engine/store.go:46-82 | a batch enqueue leaves every existing row as it is and, of a repeated new id, keeps the earliest item |
| `Statements.InsertAllConcat` | engine/store.go:50-82 | two enqueues in sequence are one enqueue of both lists, so how inserts are grouped never shows |
| `Statements.InsertIsIdempotent` | engine/store.go:46-50 | repeating ids already enqueued, whatever the new contents, changes nothing |
| `Stores.Store.Enqueue` | engine/store.go:50-82 | every message whose id is new, in the table and before it in the list, is stored column by column as given, with NULL for an empty string, no headers for a nil map, a generated id for an empty one, pending, due and stamped at the transaction's start; every other row stays; nothing changes for an empty list or a refused statement |
| `Stores.Store.Claim` | engine/store.go:85-119 | takes the free rows that come first in created_at and seq, as many as a batch holds, where in ordered mode no row is free while an earlier one of its key is unresolved; gives each a new owner, deadline, token and attempt, keeps its other columns, and touches no other row |
| `Stores.SelectOldest` | engine/store.go:103-110 | the selection loop yields a set that no unselected candidate precedes in (created_at, seq), of the size the limit allows |
| `Stores.PickIsDetermined` | engine/store.go:107-109 | in every reachable state ORDER BY with LIMIT picks one determined set |
| `Stores.CountTellsLoss` | engine/store.go:123-146 | a statement reaches as many rows as it names messages if and only if every named claim is live |
| `Stores.Store.Renew` | engine/store.go:133-146 | moves the deadline of exactly the messages still held, by a whole lease from the clock reading, also when others are lost, and returns nil exactly when all are held and the answer arrives |
| `Stores.Store.Finish` | engine/store.go:150-172 | writes every column of exactly the messages still held as the arguments say, and returns exactly those; nothing for an empty batch |
| `Stores.Store.Requeue` | engine/store.go:176-187 | a dead row becomes pending and due, with its message and no attempts, error, times or lease; any other row is left, and a change is reported exactly for a dead row |
| `Stores.Store.Cleanup` | engine/store.go:191-204 | deletes, of the rows that are overdue in their own window and free, those that finished first, by id at equal times, as many as the limit allows, and counts them |
| `Stores.DeletionIsDetermined` | engine/store.go:197-198 | the order is strict and total, so ORDER BY with LIMIT determines the rows that are deleted |
| `Stores.InsertStoresAll` | engine/store.go:57-79 | the insert stores exactly the messages with new ids, each column from the field of that name |
| `Stores.ClaimLeases` | engine/store.go:96-111 | the claim statement in columns: which rows it takes, in which order, and what it writes |
| `Stores.RenewExtends` | engine/store.go:135-138 | the renew statement in columns |
| `Stores.FinishSettles` | engine/store.go:155-166 | the finish statement in columns |
| `Stores.DeletionPurges` | engine/store.go:192-199 | the cleanup statement in columns |
| `Messages.IdLessIsLexicographic` | engine/store.go:197-197 | the order of ids is that of their text |
| `Protocol.ReachableInv` | engine/store.go:97-180 | in every reachable state: processing iff token iff owner iff deadline, terminal iff finished_at, published iff published_at, a processing row was due, tokens and sequence numbers are unique |
| `Protocol.NextKeepsTokens` | engine/store.go:97-103 | no statement puts one token on two rows or an unissued token on any |
| `Protocol.NextKeepsSeqs` | migrations/0003_insert_order.sql:1-5 | no statement lets two rows share a sequence number, so (created_at, seq) stays a strict total order |
| `Evolution.RunEvolves` | engine/store.go:155-165 | between any two states of a run: data changes only by scrubbing a resolved row, a resolved row is never written again, a kept token means nothing but the deadline moved, a gone row or token never returns |
| `Fencing.TokenIssuedOnce` | engine/store.go:97-103 | a token is granted by one claim of the run, to one row |
| `Fencing.StaleClaimIsInert` | engine/store.go:121-166 | once a claim is no longer the row's, naming it in any later renew or finish is the same as leaving it out: same table, same returned rows |
| `Fencing.ClaimEnds` | engine/store.go:97-166 | re-claiming or settling a row makes the claim it carried stale |
| `Fencing.TokenConsumedOnce` | engine/store.go:148-166 | after a finish through a token, or a re-claim, no renew or finish reaches any row through it |
| `Fencing.ExpiredClaimIsInert` | engine/store.go:131-166 | once a deadline has passed, no renew or finish that starts later reaches any row through the token, also when nobody has claimed the row |
| `Fencing.OverdueRests` | engine/store.go:131-138 | an expired lease is never resurrected: as long as the row carries the token, not even its deadline changes |
| `Conservation.InsertionOf` | engine/store.go:97-187 | every row in the table goes back to one insertion of its id; without clearing it still carries exactly that envelope |
| `Conservation.DataConserved` | engine/store.go:155-166 | pending, processing and dead rows carry exactly what was enqueued; a resolved row differs at most by empty payload and headers |
| `Conservation.ResolvedIsFinal` | engine/store.go:155-166 | from the finish that published or discarded it until cleanup, a row keeps status, times, reason, attempts, and is scrubbed in that same step iff clearing is on |
| `Conservation.DeadRests` | engine/store.go:103-182 | nothing but a requeue of its id or its removal touches a dead row |
| `Conservation.DeathIsRecorded` | engine/store.go:155-166 | until requeued, a dead row holds its message unscrubbed, its attempts, the reason and time of death, and no lease |
| `Conservation.UnfinishedIsKept` | engine/store.go:192-199 | no statement removes a pending or processing row |
| `Conservation.RemovedOnlyWhenExpired` | engine/store.go:189-199 | only cleanup with the row's window enabled removes it, once it has been terminal for longer than that window |
| `Conservation.RequeueRestoresInsertion` | engine/store.go:174-182 | a replayed row is the row the producer inserted, apart from its due time, and can be claimed at once |
| `Ordering.NothingSeenIsSkipped` | engine/store.go:86-110 | however old the snapshot of an ordered claim, no same-key predecessor it showed is claimed with it or later |
| `Ordering.OrderedModeOrders` | engine/store.go:86-110 | if producers of a key commit in the order of created_at and seq, every run claims the rows of every key in that order |
| `Ordering.UntouchedIsNew` | engine/store.go:97-110 | a row no claim has touched is exactly the row inserted |
| `Ordering.KeyShape` | engine/store.go:86-110 | in every reachable state a key reads: resolved rows, at most one touched row, then rows exactly as inserted |
| `Ordering.OneInFlightPerKey` | engine/store.go:86-110 | no batch and no two live claims hold two rows of a key |
| `Schedules.ScheduleIsSafeIff` | engine/store.go:86-110 | ordered relays claim every key in order in every run over a schedule of commits if and only if the schedule commits the rows of each key in the order of their stamps |
| `Schedules.StampOrderIsCommitOrder` | engine/store.go:86-94 | a run whose commits are in stamp order, however transactions group them, makes the insertions of each key visible in that order |
| `Schedules.EagerRun` | engine/store.go:96-111 | for every schedule, ids that come back included, there is a valid run of ordered relays that claims its rows in commit order |
| `Schedules.LateRowOvertakes` | migrations/0003_insert_order.sql:1-2 | any earlier-stamped row that commits late is claimed by an ordered relay while a later row of its key is in flight, and the claim log is out of order |
| `Schedules.SlowTransactionBreaksOrder` | migrations/0003_insert_order.sql:1-2 | such a run with concrete stamps |
| `Accounting.AttemptsCountClaims` | engine/store.go:97-103 | attempts equals the number of claims since insertion or last requeue, in every reachable state |
| `Accounting.AttemptsCeiling` | engine/relay.go:98-120 | a pending row is new or below its limit, and attempts never exceed max(1, limit) by more than the claims abandoned since |
| `Accounting.OverLimitIff` | engine/store.go:97-110 | in every reachable state a row is past its first attempt and over its own or the relay's limit if and only if, since it was inserted or last requeued, a claim took it over from an abandoned one with no attempts left |
| `Accounting.ClaimExceedsLimitIff` | engine/store.go:103-110 | a claim takes a row over its limit if and only if before it the row was processing with its attempts used up |
| `Accounting.CrashesExceedAnyLimit` | engine/store.go:103-110 | for every n some valid run takes a message to n attempts, its relay crashing each time, whatever limit the message has |
| `Accounting.ClaimsBalance` | engine/store.go:97-166 | over every run, claims = settlements + abandoned claims + rows in flight |
| `Progress.NothingStranded` | engine/store.go:103-110 | from every reachable state an unfinished row is claimable from one known instant on, a processing row by expiry of its lease alone |
| `Progress.KeyHead` | engine/store.go:86-94 | before every unresolved row of a key stands an unresolved one that nothing blocks, possibly itself |
| `Progress.HeadNotStranded` | engine/store.go:86-110 | in ordered mode that head is dead or claimable from its due instant on |
| `Progress.RetryWaits` | engine/store.go:155-158 | the next claim of a retried row starts no earlier than the finish's clock plus the delay |
| `Progress.FailureIsRecorded` | engine/store.go:155-166 | until then the row holds its message, attempts, reason, due time and no lease |
| `Progress.NextKeepsRank` | engine/relay.go:98-120 | no statement other than enqueue and requeue raises the rank of any row, whatever attempt limit the rank is taken at |
| `Progress.PassLowersItsRow` | engine/relay.go:98-120 | a claim that is settled lowers its row's rank strictly, whatever the delay |
| `Progress.DrainIsBounded` | engine/relay.go:236-260 | among any workers, without new enqueues or requeues, the claims made and settled from a state on, overlapping or not, number at most its total rank |
| `Heartbeat.HealthyLeaseHolds` | engine/relay.go:169-206 | with timely renewals, at every state while Publish runs the row carries the claim and its deadline is ahead of the clock, for any number of ticks |
| `Heartbeat.HealthyLeaseExcludes` | engine/relay.go:169-206 | meanwhile every renewal matches, no worker claims the row, and its deadline never moves back |
| `Heartbeat.PromptFinishLands` | engine/relay.go:178-180 | a finish that commits less than lease - 2 * interval after Publish returned reaches its row |
| `Heartbeat.TicksInColumns` | engine/relay.go:169-169 | tick n comes n thirds of the lease, rounded down, after the start |
| `Outcomes.CountFailed` | port/outcome.go:72-84 | BatchError counts exactly its non-nil entries |
| `Outcomes.UnwrapBatch` | port/outcome.go:86-97 | Unwrap lists the default error first, then every non-nil entry and nothing else, in the order in which the map was visited |
| `Outcomes.AsFinds` | engine/relay.go:217-224 | errors.As succeeds exactly when the tree carries the marker, in any map order, and finds a node of the tree |
| `Outcomes.FirstMatch` | engine/relay.go:86-95 | errors.As stops at the first match in preorder: the node itself, else the first child that has one |
| `Outcomes.MarkersInColumns` | port/outcome.go:13-57 | which constructor carries which marker, and that each shows what it wraps |
| `Outcomes.MarkersOfMany` | port/outcome.go:86-97 | a joined error shows its causes, a BatchError its default and every non-nil entry |
| `Outcomes.FirstBatchOrderFree` | engine/relay.go:48-49 | the BatchError that is settled does not depend on map order |
| `Outcomes.DecisionIsOrderFree` | engine/relay.go:217-224 | every decision on a Publish error is a function of the markers in the tree |
| `Outcomes.WrappingIsTransparent` | engine/relay.go:86-95 | wrapping an outcome changes nothing that is looked up in it |
| `Outcomes.EntriesShowAtRoot` | port/outcome.go:64-69 | a marker in any entry or in the default outcome shows at the root |
| `Outcomes.DelayIsOrderFree` | engine/relay.go:95-116 | the requested retry delay is the same in every map order if and only if all RetryAfter markers that may come first agree |
| `Outcomes.DelayIsOrderFreeWithoutBatch` | engine/relay.go:95-116 | an outcome without a PerMessage inside requests one and the same delay in every map order |
| `Outcomes.MapOrderDecidesDelay` | port/outcome.go:86-97 | an outcome that is itself a PerMessage with two different delays requests either of them, by map order |
| `Settlement.GroupsAreParts` | engine/relay.go:57-73 | the published and the default group hold exactly the messages with a nil outcome, and without an entry |
| `Settlement.SharesMakeUpBatch` | engine/relay.go:57-75 | those groups and the individual entries are disjoint and make up the batch: every message is settled exactly once |
| `Settlement.StatementAdvances` | engine/relay.go:124-155 | one completed statement adds its messages' rows, hook calls and verdict to those already settled, and disturbs none |
| `Fates.DecisionMoves` | engine/relay.go:83-116 | the row of a message after its finish, column by column, from the markers of its outcome |
| `Fates.JobFated` | engine/relay.go:83-150 | in a settled batch each message meets that fate once, by the answer of the statement that named it, with one hook call |
| `Fates.EachFated` | engine/relay.go:57-76 | and in a batch with a BatchError, the fate of its entry or of the default |
| `Refinement.GroupedIsIndividual` | engine/relay.go:55-76 | settleEach leaves exactly the table that settling each message alone leaves, in any order |
| `Refinement.NilIffAllLive` | engine/relay.go:55-76 | when the executor answers, it returns nil exactly when every claim was still live |
| `Refinement.ForeignIdsIgnored` | port/outcome.go:59-66 | entries for ids outside the batch change nothing |
| `Relays.Relay.Complete` | engine/relay.go:124-155 | hooks report exactly the rows that moved; nil is returned exactly when every claim was live and the answer arrived, and otherwise the lost lease or the answer's error |
| `Relays.Relay.Settle` | engine/relay.go:78-122 | each message still held is published for a nil outcome, dead for a Permanent, else discarded for a Discard, else dead at its own or the relay's limit, else pending with the delay due; every column and every hook call follows; lost claims and other rows stay as they are; nil only if every claim was held |
| `Relays.Relay.SettleRows` | engine/relay.go:95-121 | the retry loop finalizes every row by its own attempt limit, also after one of them failed |
| `Relays.Relay.RetryOrBury` | engine/relay.go:100-116 | dead exactly from the message's own limit, or else the relay's, on; otherwise the delay is the least that is no less than the backoff, the requested delay and zero |
| `Relays.Relay.SettleEach` | engine/relay.go:55-76 | each message meets the fate of its entry, a nil entry meaning published, or without an entry that of the default; hook calls, other rows and nil as for settle |
| `Relays.Relay.SettleEntries` | engine/relay.go:57-73 | the loop settles exactly the messages with an error entry and sorts the others into the two groups |
| `Relays.Relay.Heartbeat` | engine/relay.go:183-206 | nil with a live context means that every renewal reached every claim; otherwise it stopped at the first that did not |
| `Relays.Relay.ProcessBatch` | engine/relay.go:28-53 | the claim is made unless refused; a batch is renewed at every tick until a renewal misses; a fatal outcome or a lapsed lease leaves it claimed and silent, anything else is settled per outcome; a refused or unanswered claim publishes nothing |
| `Relays.Relay.Drain` | engine/relay.go:236-260 | every pass is a whole processBatch on what others made of the table the last one left; it ends only with the context or a pass that fails or claims nothing, after at most as many other passes as there was rank; it returns the last pass's error exactly if that is fatal by marker or by the classifier; after an empty claim no free row is left |
| `Passes.NothingAbortedIsSettled` | engine/relay.go:40-53 | no outcome that reaches settle contains an Abort or a Panic |
| `Passes.PassInColumns` | engine/relay.go:31-53 | a whole pass in columns: which rows it leases; that a fatal outcome or a missed renewal leaves them so, silently; else that every message meets the fate of its entry in the first BatchError, of the default there, or without one of the error itself |
| `Passes.RenewedInColumns` | engine/relay.go:192-195 | each renewal gives every message still held a whole lease |
| `Passes.FatalAnswerStops` | engine/relay.go:243-251 | an Abort or a Panic in the answer to any one statement of a settlement makes the pass's error fatal |
| `Passes.QuietIsCalm` | engine/store.go:97-166 | what Drain assumes of other workers holds of every stretch of every run without enqueue or requeue, whatever the draining relay's own attempt limit |
| `Passes.PassUsesUpRank` | engine/relay.go:99-120 | a pass never raises the total rank, and lowers it if it claimed something and settled all of it |
| `Correspondence.ClaimIsAStep` | engine/store.go:96-111 | the claim operation is a claim step of the protocol |
| `Correspondence.CopyIsCurrent` | engine/relay.go:176-178 | as long as a row carries its token, the relay's copy of it is exact but for the deadline |
| `Correspondence.StatementIsAStep` | engine/relay.go:99-120 | every settling statement, decided on such copies, is a finish step: a row sent back to pending has attempts left in the table |
| `Correspondence.SettledFromCopy` | engine/relay.go:124-155 | however settling statements interleave with other workers, a row that one reaches becomes a function of the relay's own copy and the outcome |
| `Correspondence.EnqueueIsAStep` | engine/store.go:50-82 | the enqueue operation is an enqueue step, provided the sequence hands out new and rising numbers |
| `Correspondence.RenewIsAStep` | engine/store.go:133-138 | the renew operation is a renew step |
| `Correspondence.RequeueIsAStep` | engine/store.go:176-182 | the requeue operation is a requeue step, also when it finds no dead row |
| `Correspondence.CleanupIsAStep` | engine/store.go:191-199 | the cleanup operation is a cleanup step |
| `Backoffs.Exp` | backoff/backoff.go:16-37 | the delay before jitter is the wrapped, tested and capped shift; jitter draws from zero to it, and panics exactly for the configurations of UnboundedIff |
| `Backoffs.ShiftLeft` | backoff/backoff.go:25-25 | doubling an int64 bit by bit spells the low 64 bits of the product |
| `Backoffs.UnboundedIff` | backoff/backoff.go:25-36 | the delay is the largest int64 if and only if that is the cap and the shift overflows, or the base at its first attempt, not capped below |
| `Backoffs.ExpIsExactIff` | backoff/backoff.go:14-33 | with a cap, Exp equals min(base * 2^(n-1), cap) if and only if base is not negative, no overflow passes the test and the clamped shift does no harm, or base is negative and it is the first attempt |
| `Backoffs.UncappedIsExactIff` | backoff/backoff.go:14-33 | without a cap, Exp equals base * 2^(n-1) if and only if that fits an int64; for a negative base, at the first attempt only or if the cap happens to be that value |
| `Backoffs.SmallConfigIsExact` | backoff/backoff.go:25-33 | for base = m * 2^t with m * cap at most 2^63 and cap at most 2^62, Exp is exact for every attempt |
| `Backoffs.SmallConfigIsMonotone` | backoff/backoff.go:14-33 | then it is positive, never shrinks with the attempt, and never exceeds the cap |
| `Backoffs.SmallConfigDoubles` | backoff/backoff.go:14-33 | the first delay is the base, and every next one twice the last, up to the cap |
| `Backoffs.DefaultIsExact` | backoff/backoff.go:40-40 | the default backoff is exact for every attempt |
| `Backoffs.OverflowEscapes` | backoff/backoff.go:25-33 | a base and cap for which attempt 25 waits about half as long as attempt 2 |
| `Backoffs.UncappedCollapses` | backoff/backoff.go:28-30 | one second without cap: attempt 35 is retried at once |
| `Backoffs.LargestCapPanics` | backoff/backoff.go:34-36 | a cap of the largest int64, meant as none, makes attempt 35 of a one-second base panic under jitter |
| `Backoffs.FromNextBackOff` | backoff/backoff.go:73-88 | the delay is the fresh source's answer number max(attempt, 1), or zero if it said Stop up to there |
| `Backoffs.FromNexter` | backoff/backoff.go:99-114 | likewise, with a separate stop signal |
| `Cleaners.Cleaner.CleanUp` | engine/cleaner.go:40-55 | every statement runs on what others made of the table the last one left and deletes what Cleanup deletes; all but the last delete a full batch; OnCleanup is called with exactly the positive counts of the answered statements; the loop terminates and ends only with the context, a short batch, or the unanswered statement's error |
| `Cleaners.CountsAddUp` | engine/cleaner.go:49-51 | the reported counts add up to the rows that answered statements removed |
| `Cleaners.SweepInColumns` | engine/cleaner.go:40-55 | a sweep in columns: each statement purges what others made of the table before, and another follows only after an answered full batch |
| `Cleaners.FatalityInColumns` | engine/cleaner.go:42-48 | a sweep's error stops the cleaner exactly if it carries an Abort or a Panic or the classifier calls it fatal |
| `Cleaners.ShortSweepLeavesClean` | engine/cleaner.go:52-54 | after a sweep that ended with a short batch no expired row is left that was not locked |
| `Cleaners.Cleaner.Run` | engine/cleaner.go:28-57 | nothing happens unless a window and the interval are set; otherwise there is one whole sweep per tick, each from the table the last one left, until one ends in a fatal error, which is what is returned; OnCleanup is called with the counts of all sweeps and nothing else |
| `Cleaners.FinishedGrowBySettlements` | engine/store.go:155-180 | rows finish only by settlement, so the bound CleanUp assumes is, in every run, the number of settlements during the sweep |
| `Wake.NoLostWakeUp` | engine/relay.go:343-351 | after a notification the token is pending, or a worker is on its way into a drain, or a drain has started since |
| `Wake.RestMeansDrained` | engine/relay.go:304-318 | once the relay rests again, one worker has started and ended a whole drain since the notification |
| `Wake.DrainWithinThree` | engine/relay.go:304-318 | from every reachable state with an unanswered notification and a worker that has not stopped, at most three events lead to the start of a drain |

## Left out

- PostgreSQL itself: planning, row locking, isolation, JSON encoding, scanning and schema quoting; each statement's meaning is taken as given.
- Publishers, configuration, instance ids, the `Outbox` facade, logging, LISTEN connections and their retry: plumbing around the modelled core.
- Exactly-once delivery: an overtaken publisher may still be sending, and the code promises at-least-once only.
- Panics in hooks, publishers or the executor: a recovered panic is an outcome or an error; the unwinding itself leaves the claims as a crash does.
- Error texts: the reason stored with a row is an uninterpreted function of the outcome.
- The 32-bit `attempts` column: attempts are unbounded integers.
- Intervals as floating-point seconds: durations are exact integers here.
- Map order per visit: one order per `Publish` result; Go may choose anew each time a map is ranged over, which adds no further first candidates.
- Stores.Store.Enqueue: failure to marshal headers is not modelled, since a map of strings always marshals.
- Stores.Store.Finish: one pair of clock readings per row and statement, where PostgreSQL reads the clock anew for each column.
- Relays.Relay.Settle: other workers' statements between two statements of one settlement are not interleaved in the class; `Correspondence.StatementIsAStep` places each statement by itself among any others, and `Correspondence.SettledFromCopy` shows that they cannot change what it does to the rows it reaches.
- Relays.Relay.SettleEach: hook calls are a multiset of (status, id); how they are batched and in which order they come is not stated.
- Relays.Relay.Drain: assumes that no enqueue or requeue intervenes, without which the loop need not end.
- Cleaners.Cleaner.CleanUp: assumes that only finitely many rows finish during one sweep, without which the loop need not end.
- `Relay.Run`: starting the workers and keeping the first failure of several.
- Hooks and the classifier as code: they may not touch the table here.
