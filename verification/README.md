# gascurve, verified

gascurve follows Arbitrum Nitro chains: it replays the gas pricer block by block, keeps time buckets in step
with stored block rows through reorganisations, pruning and gap fills, paces its JSON-RPC calls, and streams a
ring of recent blocks to WebSocket clients. This project models those mechanisms in Dafny and proves what they
promise. `dafny verify dfyconfig.toml` checks everything.

| modules | component |
|---|---|
| `Words`, `Pricer`, `Taylor`, `PricerOrder`, `PricerMeaning` | the pricer: saturating 64-bit arithmetic, the truncated exponential, replay |
| `Receipts`, `Forward`, `Decimal` | receipts, gas split around owner actions, replay in batches with shifted predictions |
| `Buckets`, `BucketLaws`, `BucketMeaning`, `Windows` | the bucket builder, the algebra of merging, every column over its rows, time windows |
| `Store`, `Chain`, `Forks` | the store, the chain transactions over it, and the same across forks and generations |
| `AdditiveFolds`, `ChainRows`, `FoldedOnce` | what those transactions leave below the boundary and past the prune frontier, in the rows, and together with the queue |
| `Backfill`, `BackfillMeaning`, `Holes`, `HoleMerge`, `HoleProgress`, `HoleRuns`, `HoleLedger` | the resumable descent, the queue of missing ranges, and the queue beside head, live start and backfill |
| `Hub`, `HubRuns`, `HubService` | the block ring and its clients, and how they are served |
| `Pacer`, `PacerMeaning`, `PacerWait`, `Turnstile`, `Wire` | the token bucket, its waits, its queue, and the calls it pays for |
| `Endpoint`, `FanOut` | matching, adaptive batches, workers |
| `Series`, `SeriesMeaning` | gaps against chart points |
| `Layers` | multi-row upserts |
| `Abi`, `InternalTx`, `InternalTxMeaning` | calldata codecs |
| `Sorting` | stable insertion |

Objects whose methods update their fields are classes whose methods are proved against functions on their value;
protocols with several parties are state machines over those functions, and the theorems speak of every run.
Numbers have the width of the source where it matters: `u64` and `i64` are ranges, and wrapping, saturating and
truncating operations are written out. The pacer is over exact reals, where the source's `tokenEpsilon` is zero,
with a clock that does not run back. I/O is a parameter: what the store, the node or the archive answers is any
value its interface allows.

Some properties hold only under a condition, which is stated exactly.

- A fill commit keeps the fold watermarks sound if and only if the queue entry it captured still starts where it did, or
  what it folds lies below the watermark of the range now holding it. A range recorded just to the left of one in flight
  breaks this (`HoleRuns.LeftMergeLosesWatermark`).
- A recorded range keeps them sound if and only if it holds nothing folded that its entry's watermark does not cover
  (`HoleRuns.RecordSafeExactlyWhen`). Ranges skipped by the live loop hold nothing folded as long as two tests are met
  (`HoleLedger.NoBlockFoldedTwice`): a rewind below the live start reaches below the backfill's top, so that the
  additive buckets are deleted; and a batch committed while there is no live start ends at or below the head. Without
  the first a block can be folded twice (`HoleLedger.SecondRewindFoldsAgain`), and without the second too
  (`HoleLedger.FillAboveHeadFoldsAgain`); both follow from one converse, for every folded block above the head
  (`HoleLedger.AboveHeadFoldsAgain`).
- The word reader of the ABI decoder is in bounds at every index but one (`Abi.WordExactly`).
- A batch report survives encoding if and only if it is canonical (`InternalTx.ReportRoundTrip`).

## Model

| member | source | states |
|---|---|---|
| `Words.SaturatingUAdd` | internal/pricer/pricer.go:217-223 | the wrap-around test of the sum cuts it at the largest word |
| `Words.SaturatingUSub` | internal/pricer/pricer.go:225-230 | the difference cut at zero |
| `Words.SaturatingUMul` | internal/pricer/pricer.go:232-240 | the quotient test never multiplies and is exactly "the product does not fit" |
| `Words.SaturatingAddBips` | internal/pricer/pricer.go:206-215 | the signed sum cut at both ends |
| `Words.SaturatingCastToBips` | internal/pricer/pricer.go:199-204 | a 64-bit count cut at the largest signed value |
| `Pricer.ApproxExpBips` | internal/pricer/pricer.go:173-191 | the loop, negative arguments and saturation included, is the Horner scheme whose laws are proved in Taylor |
| `Pricer.Pricer.AddGas` | internal/pricer/pricer.go:100-110 | gas lands on every backlog of either model, saturating |
| `Pricer.Pricer.SetBacklogs` | internal/pricer/pricer.go:85-97 | sampled backlogs replace as many slots as they have |
| `Pricer.Pricer.Step` | internal/pricer/pricer.go:115-138 | a step drains every backlog and prices the block by the summed exponent |
| `Pricer.Pricer.StepLegacy` | internal/pricer/pricer.go:140-158 | the legacy model's drain, tolerance and exponent |
| `Pricer.Replay` | internal/pricer/replay.go:34-61 | the loop over blocks with anchors is the state and outcome functions the order theorems are about |
| `Pricer.ErrorBips` | internal/pricer/replay.go:64-76 | the largest number of bips of the actual fee not above the difference, cut at the signed maximum; zero without an actual fee |
| `PricerOrder.ReplaysNeverMoveApart` | internal/pricer/replay.go:34-61 | two replays of the same blocks from states with equal parameters end with every backlog no further apart than it began, despite saturation, in both models |
| `PricerOrder.DistanceNonIncreasing` | internal/pricer/replay.go:34-61 | and the distance never grows from any block to any later one |
| `PricerOrder.ReplayMonotone` | internal/pricer/pricer.go:100-169 | pointwise larger starting backlogs give pointwise larger backlogs, exponents and fees at every block |
| `PricerOrder.PriceMono` | internal/pricer/pricer.go:115-138 | one step's price is monotone in the backlogs |
| `Taylor.ExpMonotone` | internal/pricer/pricer.go:173-191 | the approximation is monotone over every signed exponent, through saturation and the reciprocal for negative ones |
| `Taylor.ExpAtZero` | internal/pricer/pricer.go:173-191 | it is exactly 10000 at zero |
| `Taylor.FeeMonotone` | internal/pricer/pricer.go:162-169 | the fee never drops as the exponent or the minimum grows |
| `Taylor.FeeAboveFloor` | internal/pricer/pricer.go:162-169 | the fee is never below the minimum |
| `Taylor.SaturationThreshold` | internal/pricer/pricer.go:173-191 | over unbounded integers no intermediate leaves its width if and only if the exponent is at most 14495491 bips |
| `Taylor.SaturatesExactlyAbove` | internal/pricer/pricer.go:173-191 | the saturating computation is exact up to that exponent, and above it always gives the same ceiling, strictly below the value it stands for |
| `Taylor.TaylorBound` | internal/pricer/pricer.go:173-191 | without saturation the result is at most 10000 times the degree-4 Taylor polynomial and below it by less than 1 + y + y^2/2 + y^3/6 bips |
| `PricerMeaning.FeeMeans` | internal/pricer/pricer.go:162-169 | the fee itself, at every exponent and minimum: the minimum at or below zero; up to 14495491 bips, 10000 times the fee lies above minimum * (10000 * Taylor4(y) - (1 + y + y^2/2 + y^3/6)) - 10000 and at or below minimum * 10000 * Taylor4(y); above, the minimum times the one ceiling |
| `PricerMeaning.StepMeans` | internal/pricer/pricer.go:115-138 | a step lowers each backlog by elapsed times target, down to zero, prices the exponent as the sum of the drained backlogs' quotients cut at the signed maximum, and returns the fee of that exponent |
| `PricerMeaning.StepLegacyMeans` | internal/pricer/pricer.go:140-158 | the same for the legacy model, and the minimum when there is no model |
| `PricerMeaning.BlockMeans` | internal/pricer/replay.go:34-61 | a replayed block leaves each backlog drained for the time since its predecessor and filled with its gas up to the largest word, or the sampled value where there is one |
| `PricerMeaning.LegacyBlockMeans` | internal/pricer/replay.go:34-61 | and the legacy backlog likewise |
| `PricerMeaning.ConstraintBipsMeans` | internal/pricer/pricer.go:115-138 | a constraint's exponent is 10000 times its backlog over target times window, rounded down, each product cut at the largest word; zero for a zero divisor |
| `PricerMeaning.LegacyBipsMeans` | internal/pricer/pricer.go:140-158 | the legacy exponent is 10000 times the backlog beyond tolerance times speed limit, over inertia times speed limit, rounded down; zero up to the tolerance |
| `Receipts.ParseReceipts` | internal/nitro/types.go:315-398 | receipts are accepted if and only if every one belongs to its transaction, carries sane gas and the totals match the header; accepted ones yield the exact totals and prefix sums |
| `Receipts.CheckReceipt` | internal/nitro/types.go:315-398 | one receipt's checks, overflow of either running total included |
| `Receipts.AcceptedPrefixSums` | internal/nitro/types.go:46-63 | compute gas before a transaction is the exact prefix sum, non-decreasing from any transaction to any later one and within the block's compute gas |
| `Receipts.ApplyPricingChanges` | internal/collector/collector.go:1112-1130 | pricing changes are applied to the pricer in order |
| `Receipts.ChangeMeans` | internal/collector/collector.go:1112-1130 | a change sets exactly what it names: a constraint list also retires the legacy model, a legacy parameter keeps the backlog and needs a model to be set on |
| `Receipts.ApplyActionGas` | internal/collector/actions.go:119-130 | the running total splits the block's gas around its owner actions |
| `Receipts.PortionsConserveGas` | internal/collector/actions.go:119-130 | the portions add up to the block's gas |
| `Receipts.BlockGasSplit` | internal/collector/actions.go:85-97 | the split equals adding each transaction's compute gas one at a time with each action applied just before its own transaction, with no underflow |
| `Forward.ReplayForward` | internal/collector/tick.go:674-713 | the header loop, mutating one pricer, writes the rows and reaches the state the batching law is about |
| `Forward.ShiftPredictions` | internal/collector/tick.go:1065-1085 | the in-place rewrite gives each row the group its predecessor computed, or none after a numbering break, and returns the last group |
| `Forward.CarryRoundTrip` | internal/collector/tick.go:1008-1023 | the stored carry decodes to the prediction it was made from |
| `Forward.BatchingIsOnePass` | internal/collector/tick.go:674-713 | any batching of a contiguous run, carrying state, timestamp and encoded prediction, writes the rows of one pass and ends in the same cursor |
| `Forward.PredictionIsParents` | internal/collector/tick.go:1065-1085 | a block carries exactly what its parent's step computed when the parent was replayed just before it, and nothing otherwise |
| `Forward.ForwardIsReplay` | internal/collector/tick.go:674-713 | with no recorded changes the forward loop reaches the states of the pricer's replay of the same compute gas and its rows hold that replay's results |
| `Forward.ChangesFirst` | internal/collector/tick.go:674-713 | changes in force from a block's start act as if the state had been changed before the block |
| `Forward.ActionsInPlace` | internal/collector/tick.go:674-713 | a block with owner actions ends as if each transaction's gas were added in turn with each action just before its own transaction |
| `Forward.SampledIsHeld` | internal/collector/tick.go:674-713 | after a sampled block the backlogs are the sampled ones in every slot there are both of, the others what was reached, and the row shows them as anchored |
| `Decimal.ParseText` | internal/collector/tick.go:1008-1023 | a fee written in decimal, sign included, reads back |
| `Buckets.BucketBuilder.Add` | internal/db/bucket.go:47-109 | the field-by-field update is the addition function of a block |
| `Buckets.BucketBuilder.constructor` | internal/db/bucket.go:33-42 | a builder starts empty |
| `BucketLaws.MergesEqualOnePass` | internal/db/bucket.go:211-266 | any plan of merges over any partition of blocks with distinct numbers into non-empty batches, in any order, equals one builder pass (set id aside) |
| `BucketLaws.AddedIsMerge` | internal/db/bucket.go:47-109 | adding a block is merging its one-block bucket |
| `BucketLaws.MergeAssoc` | internal/db/bucket.go:211-283 | merging is associative, wrapping counters, version masks and ArbOS ranges included |
| `BucketLaws.MergeComm` | internal/db/bucket.go:211-283 | merging buckets with different last blocks is commutative |
| `BucketLaws.OrderIrrelevant` | internal/db/bucket.go:47-138 | the builder's result does not depend on the order of blocks with distinct numbers |
| `BucketLaws.FeesSplitExactly` | internal/db/bucket.go:47-138 | through any builds and merges, fees are floor plus surplus plus poster fees whenever the split is known |
| `BucketMeaning.SplitMeans` | internal/db/bucket.go:76-84 | a block's floor part is the lesser of minimum and base fee times gas less poster gas, its surplus the excess of the base fee over that rate times the same gas |
| `BucketMeaning.BuiltMeans` | internal/db/bucket.go:47-138 | every column of a built bucket over its rows: wrapped and exact sums, floor, surplus and poster sums exactly when every row knows them, minimum, maximum and average fee, largest backlogs slot by slot, largest replay error, ArbOS span, and the ending of the last row with the highest number, masked when pricing is unknown |
| `BucketMeaning.MergedMeans` | internal/db/bucket.go:211-283 | the same of any plan of merges over any partition of blocks with distinct numbers |
| `BucketMeaning.SetMeans` | internal/db/bucket.go:47-109 | over rows in number order the bucket carries the constraint set of the highest block that has one |
| `Windows.FoldBlocks` | internal/db/bucket.go:185-205 | the loop yields, for each resolution, one bucket for each run of rows in a window |
| `Windows.CoarseIsMergeOfFine` | internal/db/bucket.go:185-205 | over time-ordered rows a coarse bucket is the merge of the finer ones inside it |
| `Windows.OrderedWindows` | internal/db/bucket.go:185-205 | over time-ordered rows each window is folded once, from exactly its rows |
| `Store.MemStore.UpsertBlocks` | internal/db/dbtest/memstore.go:319-332 | rows replace rows of the same number |
| `Store.MemStore.RebuildBuckets` | internal/db/dbtest/memstore.go:591-624 | windows not below the frontier become the builder's over their rows, or vanish when they have none |
| `Store.MemStore.FoldBuckets` | internal/db/dbtest/memstore.go:543-559 | partial buckets are merged into stored ones |
| `Store.MemStore.PruneBlocks` | internal/db/dbtest/memstore.go:522-536 | rows before the cutoff go |
| `Store.MemStore.DeleteBlocksAfter` | internal/db/dbtest/memstore.go:357-371 | rows above a number go and are returned in order |
| `Store.MemStore.DiscardBucketsBelowFrontier` | internal/db/dbtest/memstore.go:656-675 | the named windows below the frontier go, no others |
| `Store.MemStore.DeleteBucketsBefore` | internal/db/dbtest/memstore.go:677-691 | buckets before a time go |
| `Store.MemStore.SetPosterGas` | internal/db/dbtest/memstore.go:447-465 | only rows still lacking a value are given one; an entry outside the column's range ends the loop after whatever part was visited before it |
| `Store.MemStore.RecordPruneFrontier` | internal/collector/slow.go:940-959 | the frontier only rises |
| `Store.ScanFindsWindow` | internal/db/dbtest/memstore.go:591-624 | scanning all rows in order finds exactly a window's rows, in order |
| `Chain.BucketsFollowRows` | internal/collector/tick.go:316-411 | in every state reachable by live commits, fills, backfills, repairs, prunes and rewinds, each bucket starting at or above both the live boundary and the prune frontier equals the builder over the stored rows of its window, and is absent when there are none |
| `Chain.StepKeeps` | internal/collector/fill.go:925-967 | each transaction keeps that |
| `Chain.RebuildRestores` | internal/collector/tick.go:888-897 | rebuilding every window whose rows changed restores it after any change of rows |
| `Chain.FillKeeps` | internal/collector/fill.go:886-976 | a gap fill's rebuilds, additive folds and folds into declined windows keep it |
| `Chain.RewindKeeps` | internal/collector/tick.go:328-373 | a rewind's rebuilds, discards and deletions keep it |
| `Chain.PruneKeeps` | internal/collector/slow.go:1033-1059 | a prune with its frontier keeps it |
| `Chain.RepairKeeps` | internal/collector/postergas.go:199-210 | a poster-gas repair keeps it |
| `Chain.Persist` | internal/collector/tick.go:855-967 | the live commit as store calls is the commit step |
| `Chain.CommitFill` | internal/collector/fill.go:886-976 | the fill's transaction as store calls is the fill step, whose buckets and rows `AdditiveFolds.FillFolds`, `ChainRows.StepRows` and `Chain.FillKeeps` state window by window and row by row |
| `Chain.RewindTo` | internal/collector/tick.go:328-373 | the rewind's interleaved rebuilds and discards, resolution by resolution, are the rewind step |
| `Chain.PruneRows` | internal/collector/slow.go:1030-1068 | prune and frontier in one transaction are the prune step |
| `AdditiveFolds.FillFolds` | internal/collector/fill.go:886-976 | after a fill commit each window below the boundary is the builder's over the blocks already folded there followed by exactly the batch's rows of that window at or above the watermark; a window past the prune frontier gains the same when a bucket is there and nothing when none is |
| `AdditiveFolds.FoldIsMerge` | internal/collector/fill.go:911-963 | so its bucket is the stored one merged with the builder's over those rows alone, or that alone where there was none |
| `AdditiveFolds.BackfillFolds` | internal/collector/backfill.go:246-293 | a backfill batch adds every row of the window below the boundary and nothing past the frontier |
| `AdditiveFolds.StepHolds` | internal/collector/tick.go:328-373 | every transaction's effect on such a window: fills and backfills add, a rewind that clears and a drop delete below the boundary, a rewind past the frontier discards exactly the windows it takes a row from, and nothing else touches one |
| `AdditiveFolds.RunHolds` | internal/collector/fill.go:886-976 | over any run from any state whose window holds known blocks |
| `AdditiveFolds.BucketsHoldWhatWasFolded` | internal/collector/fill.go:886-976 | from an empty store, a window below the boundary has a bucket if and only if a block was folded there since the last deletion, it counts those blocks and every column is theirs |
| `ChainRows.StepRows` | internal/collector/fill.go:925-940 | each transaction, row by row: the last block of the batch with that number stamped at or after the boundary, the kept tail whatever its time, poster gas set once, rows pruned before the cutoff, rows above the ancestor gone; and the frontier, which only a prune and a seed raise |
| `ChainRows.RunRows` | internal/collector/tick.go:855-967 | over any run of transactions |
| `ChainRows.RowsLast` | internal/collector/tick.go:328-373 | a stored row stays, only its poster gas ever changing, until it is written again, pruned or rewound |
| `ChainRows.SortedAscends` | internal/db/dbtest/memstore.go:591-624 | rows are scanned in number order, all of them and no other |
| `FoldedOnce.EachBlockOnce` | internal/collector/fill.go:886-1001 | the queue and the store in one run: after any history every bucket below the boundary is that of blocks with distinct numbers, those folded in its window since the last deletion, each once, in whatever order they came |
| `FoldedOnce.EventKeeps` | internal/collector/fill.go:886-1001 | each fill, stale fill, backfill batch, queue step, rewind and drop keeps store, queue and the list of folded blocks together |
| `Forks.BucketsFollowTheFork` | internal/collector/collector.go:1338-1361 | the same through reorganisations: with writers that each read the fork of the generation they captured and stale ones discarded at commit, the buckets follow the rows and the rows are all of the current fork |
| `Forks.EventKeeps` | internal/collector/collector.go:1350-1361 | a write of the current generation, a discarded stale one and a rewind to another fork each keep it |
| `Forks.FetchedIsEnabled` | internal/collector/collector.go:1350-1361 | rows of the current fork never move a stored block to another window |
| `Hub.NetState.RefreshBlocks` | internal/api/ws.go:310-363 | a refresh appends what is above the tip or, when the tip is gone, cuts to the highest entry the table still holds and appends the canonical rows |
| `Hub.NetState.ReorgRing` | internal/api/ws.go:368-406 | the scan down the ring finds the highest agreeing entry, and the rest is replaced |
| `Hub.NetState.Trim` | internal/api/ws.go:424-432 | the ring keeps its newest 1500 entries and its tip |
| `Hub.FanOut` | internal/api/ws.go:261-282 | every client, in any order, gets reorg, tick and blocks, and its watermark moves |
| `Hub.Client.DeliverBlocks` | internal/api/ws.go:783-798 | blocks at or below the watermark are dropped, the rest queued |
| `Hub.Client.Enqueue` | internal/api/ws.go:804-815 | an open client with fewer than 64 queued messages gains exactly this one and stays open; one with 64 is closed and dropped with its queue as it was; a closing one takes nothing |
| `Hub.Client.Subscribe` | internal/api/ws.go:620-649 | the hello carries the newest 1200 blocks and sets the watermark |
| `Hub.RefreshLeads` | internal/api/ws.go:310-406 | cutting the ring at a position is cutting any ascending view at the ancestor's number |
| `Hub.ForgettingIsHarmless` | internal/api/ws.go:261-282 | a client that drops its oldest blocks holds the newest part of what it would have held |
| `HubRuns.ViewsFollowRing` | internal/api/ws.go:261-432 | in every run with one delta outstanding at a time, once it is fanned out every open client is heading for a view that agrees with the ring on all numbers both reach back to, ends at its tip when it holds anything, and is strictly ascending |
| `HubRuns.EmptyViewExactlyWhen` | internal/api/ws.go:261-282 | a fan-out leaves a client heading for nothing if and only if it brings nothing and the client had nothing or only blocks above a reorg's ancestor |
| `HubRuns.CaughtUp` | internal/api/ws.go:261-432 | a client that has read its queue holds that view |
| `HubRuns.NothingSentTwice` | internal/api/ws.go:783-798 | a blocks message carries only numbers above all the client has, all of the delta for an earlier client and none of it for one that registered after the update |
| `HubRuns.StepKeeps` | internal/api/ws.go:620-649 | updates, fan-outs, subscriptions, reads, closes and departures each keep every client's relation to the ring |
| `HubService.EnqueuedExactly` | internal/api/ws.go:804-815 | the same of the specification: the only way a message closes a client is a full queue |
| `HubService.UnsentExactly` | internal/api/ws.go:783-798 | what is sent of a blocks message is the tail from the first block above the watermark |
| `HubService.FanExactly` | internal/api/ws.go:261-282 | a fan-out to an open client queues reorg, tick and unsent blocks in that order if they all fit, and stays open; otherwise as many as fit, and the client is dropped; the watermark falls to a reorg's ancestor and rises to the last block sent |
| `HubService.FirstJoinServed` | internal/api/ws.go:620-649 | at any moment a first subscription leaves a socket open with one queued hello of the newest 1200 blocks |
| `HubService.ClosedExactlyWhen` | internal/api/ws.go:804-815 | in any run an open client is closed by a step if and only if it closes itself or what the step has for it does not fit its queue |
| `HubService.RunBounded` | internal/api/ws.go:804-815 | no queue of any run exceeds 64 messages |
| `HubService.Drained` | internal/api/ws.go:261-282 | reading the whole queue leaves exactly the view the client was heading for, as open as before |
| `HubService.RefreshReachesTip` | internal/api/ws.go:310-406 | given what the two queries read of the table, the ring ends at the table's tip: on an intact tip it gains exactly the rows after it; otherwise it keeps its entries up to the highest the table still holds and gains the table's rows above that one |
| `HubService.ClientsReachTip` | internal/api/ws.go:261-406 | so after a refresh and its fan-out in any run every open client heads for a view that ends at the table's tip, or for nothing |
| `Pacer.NewParams` | internal/nitro/pacer.go:94-110 | parameters of any rate, time shared exactly below one call per second |
| `Pacer.TokenBucket.Refill` | internal/nitro/pacer.go:164-172 | time is credited to bucket and reserve, both capped, the reserve never above the bucket |
| `Pacer.TokenBucket.DrawReserve` | internal/nitro/pacer.go:230-242 | a Fast caller gets the whole tokens of the reserve it is due |
| `Pacer.TokenBucket.Take` | internal/nitro/pacer.go:247-258 | a caller gets the whole tokens open to its class |
| `Pacer.TokenBucket.Refund` | internal/nitro/pacer.go:215-225 | tokens come back up to the burst |
| `Pacer.TokenBucket.Enter` | internal/nitro/pacer.go:283-291 | a waiting caller is counted in its lane |
| `Pacer.TokenBucket.Leave` | internal/nitro/pacer.go:294-303 | and uncounted |
| `Pacer.RunKeeps` | internal/nitro/pacer.go:215-258 | over every interleaving 0 <= reserve <= tokens <= burst, and tokens granted less refunded came from the bucket or from elapsed time |
| `Pacer.WindowBudget` | internal/nitro/pacer.go:309-375 | in any window of w seconds of any run, granted less refunded is at most burst + rate * w |
| `Pacer.BulkNeverLowersReserve` | internal/nitro/pacer.go:247-258 | on a bucket that is not time shared nothing but Fast draws lowers the reserve |
| `Pacer.OneTurn` | internal/nitro/pacer.go:189-195 | with both lanes waiting exactly one has the turn |
| `Pacer.LanesAlternate` | internal/nitro/pacer.go:230-265 | while both lanes of a time-shared bucket wait, services are single whole tokens in strict alternation |
| `PacerMeaning.ParamsExactly` | internal/nitro/pacer.go:94-110 | the floor of the rate, a burst of two seconds and at least one call, a reserve of a quarter of the rate and at least one token, refilled in a second or as fast as the rate |
| `PacerMeaning.DrawExactly` | internal/nitro/pacer.go:230-242 | a Fast caller draws all it wants or all the whole tokens of the reserve, nothing when Bulk is due, and drawing passes the turn |
| `PacerMeaning.TakeExactly` | internal/nitro/pacer.go:247-258 | a take is all that is wanted or all the whole tokens open to the class, from the bucket, the reserve cut only to what is left |
| `PacerMeaning.RefundExactly` | internal/nitro/pacer.go:215-225 | a refund raises the level by all of it, or to the burst, and changes nothing else |
| `PacerMeaning.RefundUndoes` | internal/nitro/pacer.go:215-258 | giving back what was taken or drawn restores the level |
| `PacerMeaning.LeaveUndoes` | internal/nitro/pacer.go:283-303 | leaving undoes entering, and only the caller's own lane is counted |
| `PacerWait.OpenWaitExact` | internal/nitro/pacer.go:433-454 | the closed form is exactly the first instant at which an undisturbed bucket holds what is wanted, capped at the class capacity, with the reserve refilling alongside |
| `PacerWait.ReserveWaitExact` | internal/nitro/pacer.go:457-459 | likewise for a whole token of the reserve |
| `PacerWait.WaitsAreShort` | internal/nitro/pacer.go:463-471 | no wait exceeds ten seconds, so the one-minute cap never bites |
| `PacerWait.RoundedUp` | internal/nitro/pacer.go:463-471 | rounding to nanoseconds never wakes early, and late by less than one |
| `PacerWait.SleepYields` | internal/nitro/pacer.go:410-419 | after each undisturbed sleep a whole token is handed out |
| `PacerWait.Spend` | internal/nitro/pacer.go:343-375 | the waiting loop ends, within eleven seconds a token, and what it did is a run of refills, draws and takes that hands out exactly the tokens asked for |
| `PacerWait.WaitTurns` | internal/nitro/pacer.go:380-405 | so does the time-shared Fast loop, with draws alone |
| `Turnstile.Gatekeeper.Arrive` | internal/nitro/pacer.go:476-490 | in at once when open, else at the end of the queue |
| `Turnstile.Gatekeeper.Release` | internal/nitro/pacer.go:570-578 | the head of the queue is handed the turnstile, or it opens |
| `Turnstile.Gatekeeper.Dequeue` | internal/nitro/pacer.go:559-567 | a waiter is taken out, the others stay in order |
| `Turnstile.Gatekeeper.Abandon` | internal/nitro/pacer.go:552-556 | a waiter no longer queued passes the turnstile on |
| `Turnstile.OneOwner` | internal/nitro/pacer.go:476-578 | in every reachable state at most one caller holds the turnstile, it is held exactly when one does, and it is open only with nobody queued, races of hand-off and cancellation included |
| `Turnstile.ArrivalOrder` | internal/nitro/pacer.go:476-578 | callers pass in order of arrival, and whoever was overtaken had abandoned |
| `Wire.WireWithinBudget` | internal/nitro/client.go:503-547 | over every run of requests paying, being cancelled, refused, cooled down and sent, calls on the wire are at most granted less refunded, the rest is in hand or lost to failed waits, and all of it is within burst + rate * elapsed |
| `Wire.StepKeeps` | internal/nitro/client.go:503-547 | each step conserves tokens |
| `Wire.WireIsSent` | internal/nitro/client.go:503-547 | over every run what is on the wire is exactly the calls of the requests that were sent |
| `Wire.SendPays` | internal/nitro/client.go:458-487 | a request goes on the wire only with a token for each of its calls |
| `Wire.RefundReachesBucket` | internal/nitro/client.go:503-547 | one refused or cooled down before the wire gives the bucket back all it held, up to the burst |
| `Backfill.Descent.StartSegment` | internal/collector/backfill.go:638-712 | done at the depth, a run below the unfilled top, or a stop with a hole where nothing is known; a failed commit changes nothing |
| `Backfill.Descent.StopWithHole` | internal/collector/backfill.go:773-793 | the rest down to the depth is recorded as one range and the end moves to the depth |
| `Backfill.Descent.SeedWindow` | internal/collector/backfill.go:722-762 | a run is moved up to the window when the archive can seed it |
| `Backfill.Descent.Batch` | internal/collector/backfill.go:187-301 | a batch has between 1 and the remaining blocks, drops the seed's extra one, and advances the cursor with its rows or not at all |
| `Backfill.Descent.ResolveDepth` | internal/collector/backfill.go:320-365 | a lower floor resumes a finished descent and loses nothing written |
| `Backfill.EveryBlockOnce` | internal/collector/backfill.go:187-301 | after any history of runs, batches, failed commits, moved floors and stops, each block of [End, Top) was written exactly once or is recorded as missing and was not written, the run in progress is written exactly once up to its cursor, and nothing else was written |
| `Backfill.StepCovers` | internal/collector/backfill.go:187-301 | each step keeps that |
| `Backfill.AdvanceCovers` | internal/collector/backfill.go:265-301 | so does a batch, seeded windows included |
| `Backfill.Descend` | internal/collector/backfill.go:187-301 | from wherever it was left and whatever each step finds, the descent ends at or below the floor with every block up to the top written exactly once or recorded as missing |
| `Backfill.BatchFalls` | internal/collector/backfill.go:265-301 | End strictly falls with each finished run, the run's rest with each batch |
| `BackfillMeaning.FloorExactly` | internal/collector/backfill.go:665-692 | a run starts at the last set in force below the end (block 1 for one at genesis), failing that at the block a sampled state is replayed from, and there is none if and only if neither is known |
| `BackfillMeaning.StartedExactly` | internal/collector/backfill.go:722-762 | a run starts at its floor, or a window below the end when an archive can seed it and it lies two blocks above the floor, the block below replayed first |
| `BackfillMeaning.BatchExactly` | internal/collector/backfill.go:193-201 | the batch is the configured size, the rest, or half the spare budget if that is smaller, and never below five blocks or the rest for want of budget |
| `BackfillMeaning.BatchWrites` | internal/collector/backfill.go:187-301 | a batch writes each of its consecutive blocks once more and no other, the seeding block left out, and the run that reaches its end hands its start on |
| `BackfillMeaning.RecordsExactlyWhen` | internal/collector/backfill.go:638-793 | a range is recorded as missing if and only if a step gives up, with nothing known or no model for the first batch; it is everything down to the depth, and a choice with anything known starts a run |
| `BackfillMeaning.MissingWasGivenUp` | internal/collector/backfill.go:638-793 | over any history a block recorded as missing was given up by such a step while it lay between depth and end |
| `BackfillMeaning.RefloorResumes` | internal/collector/backfill.go:320-365 | a floor below what a finished descent reached takes it up again, any other does not |
| `Holes.Queue.Save` | internal/collector/fill.go:201-226 | the sort and merge loops are the normal form |
| `Holes.NormalizeKeeps` | internal/collector/fill.go:201-273 | normalising any ranges keeps exactly the missing blocks, and keeps folded blocks below the watermark of every range they are in |
| `Holes.NormalizeSeparates` | internal/collector/fill.go:201-226 | ranges that do not overlap stay apart, in order, with nothing left to merge |
| `Holes.Queue.AdvanceHole` | internal/collector/fill.go:980-1001 | progress is recorded on the entry that starts where the captured one did and reaches as far |
| `Holes.Queue.RewindHoles` | internal/collector/fill.go:1007-1029 | cursors above the ancestor restart, watermarks go only with the buckets, the generation rises |
| `Holes.Queue.CommitFill` | internal/collector/collector.go:1350-1361 | a stale generation changes nothing |
| `Holes.Queue.Record` | internal/collector/collector.go:750-758 | a new range joins the normal form |
| `Holes.RecordKeepsStarts` | internal/collector/fill.go:201-226 | a range that overlaps no other and ends where none starts stands alone or extends the entry below it, and leaves every start where it was |
| `HoleMerge.NormalizedExactly` | internal/collector/fill.go:201-273 | each range, overlapping or not, is taken up in one of the result for the same reason, and watermark, cursor, end and lifecycle of each of the result come from a range within it, the furthest watermark and cursor winning |
| `HoleMerge.NothingHidden` | internal/collector/fill.go:246-273 | merging puts no block below a watermark that was below none of the merged ones |
| `HoleMerge.BackExactly` | internal/collector/fill.go:1007-1029 | a rewind resets a cursor exactly when it stands above the ancestor and a watermark exactly when the additive buckets went |
| `HoleProgress.CommitExactly` | internal/collector/fill.go:980-1001 | a commit of n blocks removes the matching entry if and only if the batch reaches its end, and otherwise leaves it with its range, its cursor at the captured start plus n, and the furthest watermark |
| `HoleProgress.CommitCovers` | internal/collector/fill.go:980-1001 | a block is missing after a live commit if and only if it was before and is not in the entry the batch finishes |
| `HoleProgress.StepCoversExactly` | internal/collector/fill.go:886-1029 | of every step: a recorded range adds its blocks, a commit takes those of the entry it finishes, nothing else adds or takes any |
| `HoleProgress.MissingUntilPassed` | internal/collector/fill.go:886-1029 | over any run a recorded missing block stays in the queue until a live commit finishes its range |
| `HoleProgress.NothingDroppedUnfilled` | internal/collector/fill.go:886-1029 | and then it has been delivered by a live commit that no rewind has orphaned since |
| `HoleLedger.NoBlockFoldedTwice` | internal/collector/fill.go:886-1029 | through any run of ticks with and without skipped ranges, fills, stale commits, marks, backfill starts and rewinds that delete or keep the additive buckets as the cursor's top decides, no block is folded into them twice by fills, given tests on queue, head, live start and top alone: rewinds accounted for, batches that read no live start ending below the bound, and the range being filled keeping its start |
| `HoleLedger.EventKeeps` | internal/collector/tick.go:328-373 | each event that passes its test keeps the folds below the live start, the watermarks sound and the entry being filled in place |
| `HoleLedger.TopAtLiveStart` | internal/collector/tick.go:476-499 | when the backfill walks down from the first live block, every rewind keeps the live start or deletes the additive buckets |
| `HoleLedger.AboveHeadFoldsAgain` | internal/collector/tick.go:242-262 | every folded block above the head, with no live start and nothing queued, can be skipped, filled and folded a second time |
| `HoleLedger.UnaccountedFoldsAgain` | internal/collector/tick.go:476-499 | a rewind that keeps the buckets but leaves a folded block above its ancestor leads, with nothing queued, to that block being folded twice |
| `HoleLedger.SecondRewindFoldsAgain` | internal/collector/tick.go:178-192 | a concrete run: 9 to 29 skipped before a live start of 30 are filled, a rewind to 6 keeps the buckets, and the next skip has block 10 folded again |
| `HoleLedger.FillAboveHeadFoldsAgain` | internal/collector/fill.go:888-911 | a concrete run: a rewind to 3 deletes buckets and live start, the range 4 to 29 is filled above the head with no boundary, and the next skip has block 10 folded again |
| `HoleRuns.NoBlockFoldedTwice` | internal/collector/fill.go:886-1029 | for any queue history, without the collector's state: no block is folded twice when live commits find their entry and new ranges are sheltered |
| `HoleRuns.RecordSafeExactlyWhen` | internal/collector/collector.go:750-758 | a new range keeps the watermarks sound if and only if each folded block of it lies below the watermark of the entry that will hold it |
| `HoleRuns.CommitSafeExactlyWhen` | internal/collector/fill.go:980-1001 | a live commit keeps the watermarks sound if and only if its entry still starts where it did, or nothing it folds is at or above the watermark of the range now holding it |
| `HoleRuns.UnguardedFoldsAgain` | internal/collector/fill.go:886-1029 | an unsound watermark is enough for a later fill to fold a block again |
| `HoleRuns.LeftMergeLosesWatermark` | internal/collector/slow.go:316-318 | the owner scan recording everything below its cutoff while a stateless range just above it is being filled merges it to the left, and the commit's watermark is lost |
| `Endpoint.MatchResults` | internal/nitro/client.go:612-630 | each id gets the last response carrying it, its error, or word that none came |
| `Endpoint.OrderOfAnswersIrrelevant` | internal/nitro/client.go:612-630 | the order of responses does not matter (section 6 of the JSON-RPC 2.0 specification) |
| `Endpoint.MatchedExactly` | internal/nitro/client.go:612-630 | an id is answered by the last response with it, as its error or its raw result, and missing only when none carries it |
| `Endpoint.Adaptive.Observe` | internal/nitro/endpoint.go:190-215 | the cap after any outcome: halved down to its floor by the 429 that opened a cooldown over more than one item, doubled up to its maximum after a minute without a refusal or a step up, and otherwise as it was |
| `Endpoint.Adaptive.ShrinkForSize` | internal/nitro/endpoint.go:330-342 | after a refusal the cap is the lesser of itself and half the refused width, and the clock of recovery restarts; a single item changes nothing |
| `Endpoint.Adaptive.Attempt` | internal/nitro/client.go:458-487 | the reply decides: an error passes through, throttling narrows, and responses are matched to the attempt's own fresh ids |
| `Endpoint.Adaptive.SendRange` | internal/nitro/endpoint.go:296-320 | under any pattern of throttling, refusals and failures the loop ends, by the lexicographic fall of rest, width and attempts left; on success each index of the range holds the answer to its request, none missing if the server leaves none out, and no other index is touched; an error is the one the last attempt broke with, or one chunk was throttled as often as allowed with nothing accepted in between |
| `FanOut.EveryIndexAnswered` | internal/nitro/endpoint.go:247-287 | for every interleaving of workers, when all have stopped without a failure every index holds the answer to its request |
| `FanOut.LowestErrorKept` | internal/nitro/endpoint.go:247-287 | ranges handed out tile a prefix, and the failure kept is that of the lowest range that failed |
| `FanOut.StepKeeps` | internal/nitro/endpoint.go:247-287 | taking, finishing and failing each keep tiling, manning and the answers in place |
| `FanOut.NoneTakenAfterFailure` | internal/nitro/endpoint.go:247-262 | once a range has failed no further one is taken and the failure kept only moves lower |
| `FanOut.RangesAreChunks` | internal/nitro/endpoint.go:253-262 | every range taken is a whole chunk of the width, or what is left |
| `Series.MergeMissing` | internal/api/series.go:355-373 | the loop is the merge function |
| `Series.MergeKeepsUnion` | internal/api/series.go:355-373 | merging keeps exactly the missing and the touched instants and leaves time between intervals |
| `Series.Scan` | internal/api/series.go:389-407 | the bisected scan finds a gap if and only if one meets the window, and the missing time is the size of the union's part of it, never more than the window |
| `Series.NewTimeline` | internal/api/series.go:309-353 | the still-missing suffix of each range is bounded by two usable times, placed by number, or over |
| `Series.Qualify` | internal/api/series.go:389-441 | each point becomes what the union of the original gaps and the ranges placed by number make of it |
| `Series.UnlocatedPoints` | internal/api/series.go:450-480 | a point is marked if and only if a range is placed at it or at a point of its second, or nothing can be placed |
| `Series.TouchedIsUncertain` | internal/api/series.go:450-480 | every point a missing block may lie in by number, and every point of its second, is marked |
| `SeriesMeaning.LedgerExactly` | internal/api/series.go:309-353 | an interval is measured if and only if some range of the ledger has its two times, and a span is placed if and only if it is what some range without two usable times still misses |
| `SeriesMeaning.CompletenessExactly` | internal/api/series.go:408-417 | a point no gap meets and no placed range may reach stays as it is; one a gap meets is partial; a complete one that is only uncertain is unknown |
| `SeriesMeaning.MeasureExactly` | internal/api/series.go:418-440 | coverage is the share of the window outside every gap, or null; the rates are gas over the covered whole seconds, at least one, and zero over none |
| `SeriesMeaning.CompleteIsClear` | internal/api/series.go:389-441 | a point left complete is unchanged, no instant of its window is touched by a located range, and every other range is placed away from it |
| `SeriesMeaning.MoreGapsNeverHelp` | internal/api/series.go:389-480 | recording more ranges never makes a point less missing or less uncertain |
| `Layers.UniqueLayers` | internal/db/postgres.go:325-340 | no layer repeats a key, no row is lost, and each key keeps its rows in order |
| `Layers.Upsert` | internal/db/postgres.go:366-395 | for any key and any conflict rule the statements of the layers, in batches, end in the table that rows one by one end in |
| `Layers.WriteLayer` | internal/db/postgres.go:514-576 | a layer in statements of bounded size is its rows one by one |
| `Layers.StatementIsOneByOne` | internal/db/postgres.go:325-340 | a statement whose rows all see the table before it equals its rows in turn when no key repeats |
| `Abi.PadIsEnc` | internal/nitro/abi.go:201-212 | the encoder's words are the fixed-width big-endian words of the ABI specification |
| `Abi.EncodeSetGasPricingConstraints` | internal/nitro/owneracts.go:196-207 | the appending loop writes selector, offset, length and three words an element |
| `Abi.ConstraintsLayout` | internal/nitro/owneracts.go:196-207 | each word stands at the place the ABI specification gives it |
| `Abi.ConstraintsRoundTrip` | internal/nitro/owneracts.go:139-158 | decoding undoes encoding for every list of constraints |
| `Abi.DecodeTriples` | internal/nitro/abi.go:170-199 | the decoder's loops, first error included, are the decoding function |
| `Abi.WordExactly` | internal/nitro/abi.go:87-93 | with signed 64-bit index arithmetic a word is read if and only if it lies in the data, and read out of bounds at exactly one index, where the tested sum wraps |
| `Abi.TriplesPanicExactlyWhen` | internal/nitro/abi.go:170-199 | the array decoder reads out of bounds if and only if the offset is 2^63 - 32 |
| `InternalTx.HexRoundTrip` | internal/nitro/abi.go:46-60 | what EncodeHex writes DecodeHex reads |
| `InternalTx.StartRoundTrip` | internal/nitro/internaltx.go:178-254 | startBlock decodes to itself if and only if its fee is an unsigned 256-bit number |
| `InternalTx.ReportRoundTrip` | internal/nitro/internaltx.go:159-277 | a batch report decodes to itself if and only if its version is 1 or 2, its poster a lower-case 20-byte address, its fee an unsigned 256-bit number and, in version 1, its calldata counts are zero |
| `InternalTx.DecodedIsCanonical` | internal/nitro/internaltx.go:159-240 | whatever decodes as a report is such a report |
| `InternalTxMeaning.StartLayout` | internal/nitro/internaltx.go:247-254 | startBlock calldata: its selector and four words, each where the ABI specification puts it |
| `InternalTxMeaning.ReportLayout1` | internal/nitro/internaltx.go:257-267 | version 1 of the report: five words, the poster as twelve zeros and its twenty bytes |
| `InternalTxMeaning.ReportLayout2` | internal/nitro/internaltx.go:268-277 | version 2: seven words |
| `InternalTxMeaning.StartReadExactly` | internal/nitro/internaltx.go:178-200 | a startBlock is read if and only if its selector leads four words whose last three fit 64 bits, and its fields are those words' values, whatever follows |
| `InternalTxMeaning.ReportReadExactly` | internal/nitro/internaltx.go:203-240 | a report of either version is read if and only if every 64-bit field is there and fits, and its fields are those words' values |
| `InternalTxMeaning.NibblesExactly` | internal/nitro/abi.go:46-60 | hex is read if and only if every character is a digit of either case, high digit first |

## Left out

- SQL text, the query engine and migrations: the store's semantics are those of its in-memory counterpart and of `bucket.go`.
- HTTP, WebSocket sockets, JSON, metrics, logging, configuration, price fetching and the web client: plumbing or presentation.
- Keccak: the selectors are constants.
- Floating point and `tokenEpsilon` in the pacer, and the float share of coverage in the series: exact reals.
- The constraint set id inside bucket equality: it is kept from the last valid id seen, and later edits of the sets do not rebuild buckets.
- Columns of a block row that no bucket, replay or prediction reads, and the COALESCE of `arbos_version` in the SQL upsert.
- `findAncestor`: the ancestor of a rewind is an input; in `Chain` so is whether the rewind cleared the additive buckets, which `HoleLedger` computes.
- A live start that moves or is cleared by a deep rewind: the boundary is fixed along a run.
- Two refresh deltas fanned out in swapped order, and block number 0 in the ring.
- Owner-action de-duplication in the hub (`markSeen`, `forgetActionsAbove`): it would only add easy members.
- Owner calls other than `setGasPricingConstraints`, and the cost formula of batch reports.
- Log range adaptation, the rate-limiter LRU, endpoint failover, WebSocket health, and the status pages.
- A backfill run stopping at a later batch than its first: versions only rise along a run, so one whose first blocks the model prices is priced to its end.
- Overlap of recorded ranges: a new range is recorded only where it overlaps no other; `Holes.NormalizeKeeps` has no such condition.
- HoleLedger.NoBlockFoldedTwice: for runs whose rewinds delete the additive buckets or leave every block below the live start, whose batches committed without a live start end at or below the head, and whose skips and marks leave the start of the range being filled; ranges recorded below the history, and folds into windows the store declined to rebuild, are in `HoleRuns.NoBlockFoldedTwice`.
- HoleRuns.NoBlockFoldedTwice: for runs whose live commits find their entry and whose new ranges are sheltered, the two conditions shown to be exact.
- AdditiveFolds.StepHolds: for a boundary on the hour, as the source truncates it, live commits and repairs that carry rows at or above it, and rewinds that delete the additive buckets or remove only such rows.
- FoldedOnce.EachBlockOnce: for runs whose live commits find their entry, whose new ranges are sheltered, and whose backfill batches and fills fold different blocks; the first two conditions are shown exact in `HoleRuns`.
- ChainRows.RowsLast: a row's poster gas may be repaired in the meantime.
- HoleProgress.NothingDroppedUnfilled: for ranges recorded with no cursor, as every caller records them, and runs as in `HoleRuns.NoBlockFoldedTwice`.
- Pricer.ApproxExpBips: for accuracies whose product with 10000 fits a word; the source calls it with 4.
- Pacer.NewParams: for positive rates; a rate of zero or less is unlimited and its calls pass without tokens.
- Windows.CoarseIsMergeOfFine: for rows in time order, as the source's callers pass them.
- PacerWait.Spend: for a caller no other disturbs; a Bulk caller of a time-shared bucket additionally has no Fast caller waiting.
- PacerWait.WaitTurns: for a Fast caller with no Bulk caller waiting.
- Wire.WireWithinBudget: bounds calls by tokens over a whole run; tokens may be granted before a window in which their call is sent.
- Endpoint.Adaptive.SendRange: the fall of the width is for one worker on the endpoint; a second worker's quiet minute may widen the cap between attempts.
