# Exchange backend: a verified model

This project models the parts of a centralised-exchange backend (written in Go) whose correctness is hard to see
from the code: the order book and its matching loops, the settlement of trades into positions, the event pipeline
with its checkpoints and crash recovery, the outbox dispatcher, partition ownership transfer, the partition
autoscaler, and node ids, sequence numbers and ownership epochs. `dafny verify dfyconfig.toml` checks everything.

Each component is written twice. A class or a method with loops follows the Go code step by step. A function on
plain values says what it computes, and the method's postcondition ties the two. The lemmas are about that function:
over every input, every run, every interleaving of lock-protected steps, and every crash.

| file | modules | what it holds |
|---|---|---|
| `Ladders.dfy` | `Int64s`, `Ladders` | int64 wrap-around; price-ordered maps of queues |
| `Matching.dfy`, `OrderBook.dfy`, `BookRuns.dfy`, `Priority.dfy`, `BookEvents.dfy` | `Matching`, `OrderBooks`, `BookRuns`, `Priority`, `BookEvents` | the plain-list book, the two-map book that refines it, runs of a book, time priority, the events of a run |
| `Positions.dfy`, `Settlement.dfy`, `Volumes.dfy` | `Positions`, `Settlement`, `Volumes` | average cost, exactly-once settlement, conservation of volume |
| `EventLog.dfy`, `Pipeline.dfy`, `PipelineRuns.dfy`, `Recovery.dfy` | `EventLogs`, `Checkpoints`, `Pipelines`, `PipelineRuns`, `Recovery` | log, dispatch, interleavings, crashes and replay |
| `Outbox.dfy`, `Cleanup.dfy` | `Outboxes`, `OutboxRuns`, `Cleanup` | batch publishing; settlement with cleaning |
| `Transfers.dfy`, `Ownership.dfy`, `TransferProtocol.dfy`, `OwnershipRuns.dfy`, `OwnershipNumbers.dfy` | `Transfers`, `Ownership`, `TransferProtocols`, `OwnershipRuns`, `OwnershipNumbers` | transfer records, state machine, protocol, runs, counters |
| `Autoscaler.dfy` | `Autoscaling`, `AutoscalingSafety` | splitting and merging partitions |
| `Options.dfy`, `Decimal.dfy`, `Sequencer.dfy`, `NodeIds.dfy`, `Epochs.dfy` | `Options`, `Decimal`, `Sequencing`, `NodeIds`, `Epochs` | options, decimals, sequence numbers, node ids, fencing |

## Where the code does less than it seems

Each of these is a lemma, with the exact condition under which the promise does hold.

- A partly filled order can be cancelled: the refusal looks at a field that is never updated
  (`BookRuns.CancelDecidedAtSubmission`, `BookRuns.PartlyFilledOrderIsCancelled`).
- An event overtaken by a later number of its symbol is dropped for good; nothing is lost exactly when arrivals are
  in order and all succeed (`Pipelines.NothingLostIff`).
- Replay with a checkpoint manager set panics exactly when some event would be applied
  (`Pipelines.EventPipeline.ProcessEventsFromLog`, `Pipelines.ReplayPanics`).
- A trade whose published outbox row was cleaned up settles again when it is redelivered
  (`Cleanup.CleanedTradeSettlesTwice`). Each id settles at most once exactly when no delivery finds its trade settled,
  its row gone and its seller holding the quantity (`Cleanup.SettlesOnceIff`).
- Payloads that cannot be parsed block the dispatcher: an entry is published in the end exactly when fewer of them
  than the batch size come before it (`OutboxRuns.PublishedInTheEndIff`).
- A node registered under the address `next_id` overwrites the node id counter; a set of addresses is safe exactly
  when it lacks that one (`NodeIds.CounterKeyClash`, `NodeIds.SafeAddressesIff`).
- An address keeps its registered id over restarts (`NodeIds.RegisteredIdIsKept`), unless a second start of the same
  address was already allocating (`NodeIds.LateSaveReplacesId`).
- A node's sequence numbers increase for exactly the draws before the 2^40th and are distinct for exactly the first
  2^40 (`Sequencing.CapacityIsExact`).
- An updater that dies between its two writes makes an owner count twice; the epoch is the number of owner changes
  exactly when that never happens (`Epochs.TornWriteCountsTwice`, `Epochs.EpochCountsOwnerChanges`).
- The raw state machine calls write the target before the transition is accepted, which can redirect a commit or
  leave a partition without an owner (`OwnershipRuns.RawCallsBreakSafety`). A run that mixes them in is safe
  throughout exactly when every target was permitted when it was written (`OwnershipRuns.RawRunIsSafeIff`).
- A new partition whose id is in use breaks the partition table exactly when that partition held anything else
  (`AutoscalingSafety.CreateExact`, `AutoscalingSafety.MergeExact`). Hot ids can collide, and cold ids come round every
  day (`AutoscalingSafety.CollidingSplitLosesSymbol`, `AutoscalingSafety.SameSecondNextDayLosesSymbol`).

Where code and documentation disagree the code is modelled: `doc/PARTITION_OWNERSHIP_STATE_MACHINE.md` describes a
way out of Standby that the code does not have.

## Model

| member | source | states |
|---|---|---|
| OrderBooks.OrderBook.constructor | biz/service/orderbook.go:88-96 | a new book is valid and stands for two empty lists and no known order |
| OrderBooks.OrderBook.MatchBuyOrder | biz/service/orderbook.go:126-197 | the events are the greedy fill of the asks flattened best price first, then arrival order, one number drawn per fill; the asks left are that list minus the fill; the quantity left is what was not traded; the loop terminates |
| OrderBooks.OrderBook.MatchSellOrder | biz/service/orderbook.go:200-271 | the same against the bids |
| OrderBooks.OrderBook.AddOrderToBook | biz/service/orderbook.go:274-299 | the open rest joins its side behind all entries of its price or better |
| OrderBooks.OrderBook.MatchOrder | biz/service/orderbook.go:99-123 | any order at all: events, remaining quantity and new book are those of the plain-list book and the book stays valid; event i names the i-th best maker and the taker, at the maker's price within the taker's limit; one number is drawn per event |
| OrderBooks.OrderBook.CancelOrder | biz/service/orderbook.go:347-390 | accepted exactly when the id is known and was submitted with nothing filled; the new book is the plain list without that entry |
| OrderBooks.OrderBook.GetDepth | biz/service/orderbook.go:303-344 | each side is the depth of the flattened list |
| OrderBooks.LoopTurn | biz/service/orderbook.go:143-193 | one turn of a matching loop keeps every level sorted, non-empty and open, trades a positive amount, and brings the greedy fill one maker further |
| OrderBooks.LoopEnds | biz/service/orderbook.go:130-141 | the loop stops exactly where the greedy fill of the flat list stops |
| OrderBooks.Append | biz/service/orderbook.go:274-299 | queueing at a level inserts into the flattened side at the place price-time priority gives |
| OrderBooks.RemoveFrom | biz/service/orderbook.go:369-384 | rewriting or dropping the level removes the entry from the flattened side and keeps it valid |
| OrderBooks.FilterQueue | biz/service/orderbook.go:370-378 | the rebuilt queue is the old one without the id, order kept |
| OrderBooks.QueueTotal | biz/service/orderbook.go:303-344 | the loop sums the open quantities of a level, in int64 |
| OrderBooks.SideDepth | biz/service/orderbook.go:303-344 | walking the levels is the depth of the flattened side |
| BookRuns.FillsClosedForm | biz/service/orderbook.go:126-197 | closed form of the greedy fill: the i-th fill is with the i-th maker within the limit, for what all makers before it left over, and it stops only when the quantity is used up, the limit is reached or nobody is left |
| BookRuns.EventTellsFill | biz/service/orderbook.go:163-182 | an event has the symbol, the i-th best maker's id, user and price, the taker's id, user and side, a price within the limit, and the lesser of that maker's open quantity and what earlier makers left of the order |
| BookRuns.OnlyLastMakerCut | biz/service/orderbook.go:145-193 | every maker that traded is used up, except possibly the last |
| BookRuns.LeftoverIsTail | biz/service/orderbook.go:145-193 | what rests afterwards is a tail of the makers, unchanged but for its first entry, and open |
| BookRuns.LeftoverOpenSum | biz/service/orderbook.go:145-193 | the open quantity of the side falls by exactly what was traded |
| BookRuns.LeftoverBeyondLimit | biz/service/orderbook.go:130-141 | if something of the order is left, no remaining maker is within its limit |
| BookRuns.NoIdOnBothSides | biz/service/orderbook.go:274-299 | no id rests on both sides of a book that keeps the invariant |
| BookRuns.SubmitKeepsInv | biz/service/orderbook.go:99-123 | an order with a fresh id keeps the sides best first, uncrossed, open, indexed under their side and price, and without repeated ids |
| BookRuns.CancelExact | biz/service/orderbook.go:347-390 | an accepted cancel removes just that id and leaves all other entries as they were |
| BookRuns.CancelKeepsInv | biz/service/orderbook.go:347-390 | a cancel, accepted or not, keeps that invariant |
| BookRuns.RunKeepsGood | biz/service/orderbook.go:99-299 | every run of submissions with fresh ids and cancels keeps the invariant, the account and the distinct trade keys |
| BookRuns.RunDefined | biz/service/orderbook.go:99-299 | fresh ids are all a run needs: no book on the way is ever malformed |
| BookRuns.RunConserves | biz/service/orderbook.go:99-299 | from an empty book, positive quantity submitted = twice the traded + resting + cancelled |
| BookRuns.ReachableBook | biz/service/orderbook.go:115-120 | in every reachable book the best bid is below the best ask and both sides are sorted, open, without repeated ids and indexed under their user, side and price |
| Priority.InsertInTurn | biz/service/orderbook.go:274-299 | a newcomer stands behind all entries of its price |
| Priority.TimePriority | biz/service/orderbook.go:99-299 | in every reachable book, of two orders resting at one price the one submitted first is in front |
| BookRuns.TradeIdInjective | biz/service/orderbook.go:165 | symbol-order-index texts agree only when order id and index agree, dashes or not |
| BookRuns.TradeIdForInstance | biz/service/orderbook.go:165 | the text of one id, dashes and all |
| BookRuns.TradeIdsDistinct | biz/service/orderbook.go:239 | no two trades of a run's ledger share a trade id text |
| BookEvents.MarkersNeverMerge | biz/service/event_processor_position.go:235-255 | the events returned over a whole run have pairwise different event ids, so the outbox never takes two trades of one book for the same |
| BookEvents.RunNumbers | biz/service/orderbook.go:163-182 | the events of a run are numbered strictly upwards while the counter stays below 2^40, whatever other books draw in between |
| BookEvents.BookLogIsGood | biz/service/event_log_memory.go:40-63 | the log of a book meets everything recovery asks of a log |
| BookEvents.BookRunRecovers | biz/service/event_pipeline.go:166-316 | from matching to positions: settling a run's log with any crashes, then a restart and replay, gives the positions of settling its events once in order |
| BookRuns.CancelDecidedAtSubmission | biz/service/orderbook.go:357-359 | whether a known order can be cancelled depends only on the filled quantity it was submitted with |
| BookRuns.PartlyFilledOrderIsCancelled | biz/service/orderbook.go:357-359 | a run in which an order half traded is cancelled |
| BookRuns.DepthCovers | biz/service/orderbook.go:303-344 | depth lists prices strictly best first, each with all open quantity resting there |
| BookRuns.DepthComplete | biz/service/orderbook.go:303-344 | a resting price is missing from the depth only when that many other levels are listed |
| BookRuns.DepthIsBest | biz/service/orderbook.go:303-344 | a resting price that is not listed is worse than every listed one |
| Matching.FillsBounded | biz/service/orderbook.go:145-162 | every fill is positive and the total stays within the order's quantity, so the zero-quantity branches are dead |
| Positions.PositionTable.BuyPositionTx | biz/service/asset_service.go:45-104 | a new row, or the volume added in int64 and the average recomputed; refused without change when the new volume is zero or the average leaves int64 |
| Positions.PositionTable.SellPositionTx | biz/service/asset_service.go:107-135 | refused without enough volume; otherwise the volume falls and the average is kept, or reset at zero |
| Volumes.SoldKeepsAverage | biz/service/asset_service.go:118-128 | after a sale the average is the old one, or 0 exactly when nothing is left, and no other row is touched |
| Volumes.BoughtCost | biz/service/asset_service.go:64-98 | a first buy costs its price; a later one leaves an average between the old one and the price, short of the exact cost by less than one unit per piece; no other row is touched |
| Positions.BuyMoreStep | biz/service/asset_service.go:74-98 | one further buy adds at most one division's remainder to the rounding error |
| Positions.WeightedAverage | biz/service/asset_service.go:74-98 | for all positive buys within int64: none is refused, the average stays between the prices paid, and total cost minus average times volume lies between 0 and the sum of (running volume - 1) over the later buys |
| Positions.VolumeIsTotalUpToInt64 | biz/service/asset_service.go:74-98 | the row holds what was bought if and only if the total fits int64 |
| Settlement.PositionProcessor.WriteOutboxEntryIfNotExists | biz/dal/pg/outbox_repo.go:30-39 | a row is added exactly when none has the event id |
| Settlement.PositionProcessor.UpdatePositions | biz/service/event_processor_position.go:256-300 | buyer and seller updated taker first, as the taker's side directs; succeeds only when both updates do |
| Settlement.PositionProcessor.HandleTradeExecutedTransactional | biz/service/event_processor_position.go:220-305 | both tables change together or not at all, under any database fault; a duplicate changes nothing and reports success |
| Settlement.RunExactlyOnce | biz/service/event_processor_position.go:220-305 | over every run with duplicates and faults, positions are the fold of the outbox rows in insertion order, each id once |
| Settlement.ReportedExactly | biz/service/event_processor_position.go:231-305 | success is reported exactly when the trade is in the outbox afterwards, unless a fault hit the check of one that was there; a failure or fault has changed nothing |
| Settlement.RedeliveryIsNoOp | biz/service/event_processor_position.go:235-255 | redelivering a settled trade at any later time changes nothing |
| Cleanup.DeliverIsHandled | biz/service/event_processor_position.go:220-305 | while no row has been cleaned, a delivery on the shared table is the processor's transaction |
| Cleanup.PositionsAreFold | biz/service/event_processor_position.go:220-305 | with cleaning in the run, positions are the fold of the committed trades, each as often as it was committed |
| Cleanup.SettlesOnceIff | biz/dal/pg/outbox_repo.go:86-92 | over every run of deliveries, ticks and cleaning each id settles at most once if and only if no delivery finds its trade settled, its row gone and its parties able to settle |
| Cleanup.LongRetentionIsExactlyOnce | biz/dal/pg/outbox_repo.go:86-92 | while every cutoff lies before what the run publishes, cleaning deletes nothing and the whole run is exactly once |
| Cleanup.CleanedTradeSettlesTwice | biz/dal/pg/outbox_repo.go:86-92 | settled, published, cleaned and redelivered, a trade is committed twice and twice its quantity has moved |
| Cleanup.TwiceForInstance | biz/dal/pg/outbox_repo.go:86-92 | a concrete such run: of 10, two sales of 2 leave 6 after one trade |
| Volumes.SettlesIff | biz/service/asset_service.go:45-135 | a trade settles if and only if its seller holds the quantity, or a taker buying from themselves has room for it |
| Volumes.SettledMoves | biz/service/event_processor_position.go:256-300 | a settled trade between two users moves its quantity from the one to the other |
| Volumes.SettledAverages | biz/service/event_processor_position.go:256-280 | a settled trade keeps the seller's average, or 0 once all is sold, takes the quantity into the buyer's at the converted price of the trade, and changes nobody else's row |
| Volumes.SettledConservesIff | biz/service/event_processor_position.go:256-300 | a settled trade keeps every symbol's total and all volumes non-negative if and only if the buyer's volume has room in int64 |
| Volumes.SettledConserves | biz/service/event_processor_position.go:256-300 | while totals fit int64 there always is room |
| Volumes.RunConservesVolume | biz/service/event_processor_position.go:220-305 | over every run no volume goes negative and each symbol's total over all users is constant |
| EventLogs.IndexAgreesWithFilter | biz/service/event_log_memory.go:66-90 | reading through the per-symbol index is filtering the log |
| EventLogs.InMemoryEventLog.AppendEvent | biz/service/event_log_memory.go:40-63 | a missing or unmarshallable event is refused without change; any other is appended and the index of every symbol stays exact |
| EventLogs.InMemoryEventLog.GetEventsBySymbol | biz/service/event_log_memory.go:66-90 | the result is the filtered log, cut at a positive limit |
| EventLogs.LimitedIsPrefix | biz/service/event_log_memory.go:82-88 | a limit keeps the earliest events |
| Checkpoints.CheckpointManager.RecordEventProcessed | biz/service/checkpoint_manager.go:37-65 | the entry of that processor and symbol is replaced, no other touched |
| Checkpoints.CheckpointManager.FlushCheckpoints | biz/service/checkpoint_manager.go:78-99 | whatever order the snapshot is saved in and wherever it stops, each stored checkpoint is the old one or the recorded one of its own key, no empty name is newly stored, and success means all were saved |
| Checkpoints.KeyTextInjective | biz/service/checkpoint_manager.go:37-65 | processors without a colon in their names never share an entry |
| Checkpoints.KeyTextsCollide | biz/service/checkpoint_manager.go:37-65 | with one, two keys share an entry |
| Pipelines.DeliveredAllOk | biz/service/event_pipeline.go:184-227 | applied numbers strictly increase and the offset is the last of them |
| Pipelines.AppliedExactly | biz/service/event_pipeline.go:204-227 | an arrival is applied if and only if it succeeds and exceeds every earlier applied one |
| Pipelines.AppliedInOrder | biz/service/event_pipeline.go:204-227 | what was applied is exactly those arrivals, in arrival order |
| Pipelines.RedeliveryIsNoOp | biz/service/event_pipeline.go:204-209 | redelivering an applied event changes nothing |
| Pipelines.NothingLostIff | biz/service/event_pipeline.go:204-227 | everything that arrived was applied if and only if all succeeded and came in increasing order |
| Pipelines.EventPipeline.DispatchTo | biz/service/event_pipeline.go:184-262 | one processor: its slot moves as specified, no other does; counters and Kafka offset follow; the recorded checkpoint carries the slot's new offset, which is the event's number, and the context's place; panics exactly when an applied event meets a manager without a context |
| Pipelines.EventPipeline.Dispatch | biz/service/event_pipeline.go:166-285 | all processors each deliver the event to their own slot, other slots untouched; recorded checkpoints stay numbers of events their own processor has applied, and every one newly stored is such a number |
| Pipelines.EventPipeline.ProcessEventsFromLog | biz/service/event_pipeline.go:295-316 | every processor is delivered the filtered, limited, decodable log in order; panics exactly when a manager is set and some such event would be applied |
| Pipelines.ReplayAppliesAll | biz/service/event_pipeline.go:295-316 | replaying events in increasing order, all new and accepted, applies every one of them in that order and ends at the last number |
| Pipelines.ReplayIsDelivery | biz/service/event_pipeline.go:295-316 | a replay from nothing is the sequential delivery of its events |
| Pipelines.DecodedInOrder | biz/service/event_pipeline.go:302-306 | skipping what cannot be unmarshalled keeps the order of the rest |
| Pipelines.AllDecoded | biz/service/event_pipeline.go:302-306 | and skips nothing else |
| Pipelines.ReplayPanics | biz/service/event_pipeline.go:239-251 | a pipeline with one event, one processor and a manager whose replay panics |
| PipelineRuns.MoveKeepsLane | biz/service/event_pipeline.go:184-227 | each step under a processor-and-symbol lock keeps the applied events the sequential delivery of the arrivals |
| PipelineRuns.StepKeeps | biz/service/checkpoint_manager.go:37-99 | every step of dispatch, record, snapshot, save and crash keeps every recorded, pending and stored checkpoint the number of an accepted event |
| PipelineRuns.DispatchIsSequential | biz/service/event_pipeline.go:184-227 | under every interleaving with failures and crashes, what was applied since the last start is the sequential delivery in lock order, with increasing numbers |
| PipelineRuns.StoredCheckpointWasApplied | biz/service/checkpoint_manager.go:78-99 | under every interleaving of overlapping, failing flushes a stored checkpoint never passes the applied events |
| Recovery.SettledRestricts | biz/service/event_processor_position.go:256-300 | settling depends on and changes only the rows of the trade's symbol |
| Recovery.FoldRestricts | biz/service/event_processor_position.go:220-305 | settling the log in order is, per symbol, settling that symbol's trades in order |
| Recovery.FilterSuffix | biz/service/event_log_memory.go:66-90 | a query from a higher number returns the end of the symbol's events |
| Recovery.SettleOwn | biz/service/event_processor_position.go:220-305 | the next event of a symbol is accepted; it settles if it is the next one due and changes nothing if it was settled before |
| Recovery.RestartPlace | biz/service/event_pipeline.go:295-316 | replay from the stored checkpoint + 1 starts at or behind what is in the database |
| Recovery.OperatedKeeps | biz/service/event_pipeline.go:166-316 | with any crashes, each symbol's part of the database is always the settlement of a prefix of its events |
| Recovery.RecoveredPositions | biz/service/event_pipeline.go:166-316 | in any run with any crashes at any points, whenever every symbol has caught up the positions are those of one crash-free pass over the log |
| Recovery.ReplayAdvances | biz/service/event_pipeline.go:295-316 | replay never gets stuck: the next event passes the duplicate check, is accepted and makes room for the next |
| Recovery.CatchUpCompletes | biz/service/event_pipeline.go:295-316 | replaying one symbol from any reachable state reaches the end of its events and disturbs no other symbol |
| Recovery.ReplayAllCompletes | biz/service/event_pipeline.go:295-316 | so does replaying all symbols one after the other |
| Recovery.ReplayIsProcessEventsFromLog | biz/service/event_pipeline.go:295-316 | after recovery a symbol's processor has applied exactly the log from the stored checkpoint + 1, in order, as the pipeline's own replay method does on an empty slot |
| Recovery.CrashAndReplayRecovers | biz/service/event_pipeline.go:166-316 | a crash at any point of any run, then a restart and a replay of every symbol from its stored checkpoint, yields the positions of one crash-free pass, with no assumption on where the run had got |
| Outboxes.OutboxRepo.GetUnpublished | biz/dal/pg/outbox_repo.go:42-50 | the first unpublished rows in creation order, up to the limit, all of them for a negative limit |
| Outboxes.OutboxRepo.MarkPublishedBatch | biz/dal/pg/outbox_repo.go:64-72 | exactly the rows with the given ids become published, or none |
| Outboxes.OutboxRepo.RecordPublishError | biz/dal/pg/outbox_repo.go:75-83 | the retry count of that id rises by one and its error text is kept, or nothing changes |
| Outboxes.OutboxRepo.CleanPublished | biz/dal/pg/outbox_repo.go:86-92 | deletes the published rows before the cutoff and counts them, or fails without change |
| Outboxes.OutboxDispatcher.PublishEntry | biz/service/outbox_dispatcher.go:167-186 | the two known types are sent; other types pass unsent; an unparseable payload fails |
| Outboxes.OutboxDispatcher.DispatchBatch | biz/service/outbox_dispatcher.go:130-163 | after a tick every row of the batch is published, has an error recorded, or is as before, as sends and marks went; rows outside the batch are untouched |
| Outboxes.BatchEffect | biz/service/outbox_dispatcher.go:145-162 | marking and recording by event id acts on the batch's own rows only |
| OutboxRuns.NewestIsLast | biz/dal/pg/outbox_repo.go:30-50 | a new entry waits behind all others, unpublished and untried |
| OutboxRuns.CleanInOrder | biz/dal/pg/outbox_repo.go:86-92 | cleaning keeps the order of the rows |
| OutboxRuns.OnlyKnownTypesSent | biz/service/outbox_dispatcher.go:167-186 | nothing but parseable entries of the two known types from unpublished rows is sent |
| OutboxRuns.TickOnRow | biz/service/outbox_dispatcher.go:145-162 | what a tick does to every field of one row |
| OutboxRuns.RetriesCountFailures | biz/dal/pg/outbox_repo.go:75-83 | over any ticks the retry count is the number of recorded failures |
| OutboxRuns.CleanMembers | biz/dal/pg/outbox_repo.go:86-92 | a row survives cleaning if and only if it is unpublished or recent |
| OutboxRuns.PublishedWasSent | biz/service/outbox_dispatcher.go:130-186 | over every run with failing fetches, sends and marks, a published entry of a known type was sent, and no entry of a known type leaves the table unsent |
| OutboxRuns.UnpublishedIsKept | biz/dal/pg/outbox_repo.go:42-92 | no step deletes an unpublished row |
| OutboxRuns.TickServes | biz/service/outbox_dispatcher.go:130-163 | one tick without outside failures leaves the unparseable entries and at most the excess over the batch |
| OutboxRuns.DrainsExactly | biz/service/outbox_dispatcher.go:130-163 | with parseable payloads k such ticks take exactly k batches off the queue |
| OutboxRuns.DrainedIff | biz/service/outbox_dispatcher.go:130-163 | the queue is empty if and only if ticks times batch size reaches its length |
| OutboxRuns.UnlimitedTickServesAll | biz/service/outbox_dispatcher.go:130-163 | with a negative batch size one such tick leaves the unparseable entries only |
| OutboxRuns.PublishedInTheEndIff | biz/service/outbox_dispatcher.go:130-175 | a parseable entry is published in the long run if and only if fewer unparseable entries than the batch size precede it |
| Transfers.DBTransferCoordinator.InitiateTransfer | biz/service/db_transfer_coordinator.go:28-45 | one pending record under a new id, or no change and an error |
| Transfers.DBTransferCoordinator.GetTransfer | biz/service/db_transfer_coordinator.go:48-59 | the record whose number the id text scans to, or an error |
| Transfers.DBTransferCoordinator.IsTargetReady | biz/service/db_transfer_coordinator.go:62-68 | ready exactly when that record can be read and is completed |
| Transfers.DBTransferCoordinator.MarkTransferCompleted | biz/service/db_transfer_coordinator.go:71-82 | completes that record and touches no other |
| Transfers.InsertedIsFound | biz/service/db_transfer_coordinator.go:28-59 | the id handed out finds the new record |
| Ownership.OwnershipStateMachine.constructor | biz/model/partition_ownership.go:133-159 | starts Owned by the given node with a 30 second timeout |
| Ownership.OwnershipStateMachine.Guard | biz/model/partition_ownership.go:162-310 | true for every allowed transition; beyond those only when the coordinator's database then fails the action |
| Ownership.OwnershipStateMachine.Act | biz/model/partition_ownership.go:162-310 | the action's changes, or none when the record cannot be created |
| Ownership.OwnershipStateMachine.Transition | biz/model/partition_ownership.go:325-379 | accepted exactly when guard and action succeed; then state, version and truncated history move, else nothing changes |
| Ownership.OwnershipStateMachine.StartMigration | biz/model/partition_ownership.go:382-388 | the target is written even if the transition is refused |
| Ownership.OwnershipStateMachine.Rollback | biz/model/partition_ownership.go:411-417 | the target is cleared even if the transition is refused |
| Ownership.OwnershipStateMachine.UpdateLastProcessedSeq | biz/model/partition_ownership.go:451-462 | refused without change when the number falls |
| Ownership.OwnershipStateMachine.UpdateCheckpoint | biz/model/partition_ownership.go:465-476 | refused without change above the last processed number |
| Ownership.OwnershipStateMachine.UpdateKafkaOffset | biz/model/partition_ownership.go:479-490 | refused without change when negative |
| TransferProtocols.TransferProtocol.StartTransfer | biz/model/transfer_protocol.go:104-141 | only from Owned; answers the request id with the checkpoint, or with -1 and whether the state or the migration was refused |
| TransferProtocols.TransferProtocol.ApplyFreezeSignal | biz/model/transfer_protocol.go:144-156 | only from MigrationPending within the timeout |
| TransferProtocols.TransferProtocol.CompleteFlushing | biz/model/transfer_protocol.go:159-185 | only from Frozen; acknowledges the machine's own numbers |
| TransferProtocols.TransferProtocol.ApplyTransferSignal | biz/model/transfer_protocol.go:188-205 | only from Flushing |
| TransferProtocols.TransferProtocol.CommitTransfer | biz/model/transfer_protocol.go:208-220 | only from Transferring with the record completed |
| TransferProtocols.TransferProtocol.RollbackTransfer | biz/model/transfer_protocol.go:223-229 | from any in-flight state to Failed |
| TransferProtocols.TransferProtocol.ValidateTransferInvariants | biz/model/transfer_protocol.go:251-280 | passes exactly when all three checks do |
| OwnershipRuns.CheckpointGuardNeverRefuses | biz/model/partition_ownership.go:207-222 | in every run, raw calls included, the checkpoint stays at or below the last processed number, so leaving Flushing is refused only by the coordinator's database |
| OwnershipRuns.HistoryIsRecentTransitions | biz/model/partition_ownership.go:325-371 | the history is the last 100 accepted transitions, which chain from Owned to the current state |
| OwnershipRuns.CommitTakesAllSteps | biz/model/partition_ownership.go:162-310 | in every run a commit directly follows start, freeze, flush and transfer |
| OwnershipNumbers.CountersTellTheCalls | biz/model/partition_ownership.go:325-490 | over every run the last processed number is the highest reported, the checkpoint the latest not ahead of it, each Kafka offset the latest non-negative one, and the version counts accepted transitions and effective updates |
| OwnershipNumbers.HistoryNamesCall | biz/model/partition_ownership.go:352-422 | an accepted call's history entry: states, reason, actor and time |
| OwnershipRuns.MigrationsFreezeInTime | biz/model/partition_ownership.go:181-190 | in every run each freeze directly follows the start of its migration, within the timeout |
| OwnershipRuns.StandbyIsFinal | biz/model/partition_ownership.go:162-310 | Standby is never left and its owner never changes, whatever is called |
| OwnershipRuns.ProtocolRunIsSafe | biz/model/transfer_protocol.go:104-229 | in every protocol-driven run in-flight targets are non-empty and not the owner, the owner is never empty and is the original one until the commit, which happens at most once and last |
| OwnershipRuns.OwnerChangesOnlyAtCommit | biz/model/partition_ownership.go:248-262 | a step changes the owner if and only if it is an accepted commit |
| OwnershipRuns.CommitFollowsOwnRecord | biz/model/partition_ownership.go:224-262 | the new owner is the target of the record opened by this migration's own transfer step, which is completed, for this partition, names the outgoing owner and carries the checkpoint of that step, not beyond what was processed, whatever stale records exist |
| OwnershipRuns.TransferOpensRecord | biz/model/partition_ownership.go:224-239 | a transfer step opens a pending record with the machine's partition, owner, target and checkpoint |
| OwnershipRuns.OpenedIsNew | biz/model/partition_ownership.go:224-239 | that record is one the table did not hold before |
| OwnershipRuns.RollbackThenRecover | biz/model/partition_ownership.go:411-422 | rollback and recover in mid-migration return to Owned under the original owner |
| OwnershipRuns.EndingClearsTarget | biz/model/partition_ownership.go:254-309 | whichever call ends a migration or a failure, raw transitions included, no target is left |
| OwnershipRuns.ValidationExact | biz/model/transfer_protocol.go:251-280 | in a protocol-driven run the validation fails if and only if Kafka offsets are missing in Flushing or Transferring |
| OwnershipRuns.RawRunIsSafeIff | biz/model/partition_ownership.go:382-417 | over every run mixing protocol and raw calls the guarantees hold throughout if and only if every target was permitted when it was written |
| OwnershipRuns.TargetWriteIff | biz/model/partition_ownership.go:382-417 | one write of the target keeps the guarantees if and only if nothing is in flight or the target is another node and the open record's |
| OwnershipRuns.RefusedStartRedirectsCommit | biz/model/partition_ownership.go:382-388 | a refused StartMigration in Transferring sends the pending commit to a node the record does not name |
| OwnershipRuns.CommitInsideRollbackLosesOwner | biz/model/partition_ownership.go:411-417 | a commit between the halves of Rollback leaves no owner |
| OwnershipRuns.RawCallsBreakSafety | biz/model/partition_ownership.go:382-417 | both are reachable from a new machine |
| Autoscaling.SelectIdleWorker | biz/service/partition_autoscaler.go:67-82 | the reference choice, also for no workers |
| Autoscaling.IdleWorkerIsFirstLeast | biz/service/partition_autoscaler.go:67-82 | the chosen worker is the first of least load |
| Autoscaling.FindHotSymbols | biz/service/partition_autoscaler.go:134-142 | the symbols above 800, in order; a symbol without a reading is not hot |
| Autoscaling.Remaining | biz/service/partition_autoscaler.go:144-156 | the list without the given elements, order kept |
| Autoscaling.RemoveSymbolsFromPartition | biz/service/partition_autoscaler.go:144-156 | that partition loses those symbols, nothing else changes |
| Autoscaling.CreateHotPartition | biz/service/partition_autoscaler.go:158-176 | a partition of its own on the idle worker, and the symbol's list moved from the old id to the new |
| Autoscaling.SplitHotSymbols | biz/service/partition_autoscaler.go:119-132 | for any visiting order, inserted partitions included, the table after all splits, and whether there was one |
| Autoscaling.CollectCold | biz/service/partition_autoscaler.go:178-187 | in any order, exactly the symbols below 5, each once |
| Autoscaling.MergeColdSymbols | biz/service/partition_autoscaler.go:178-216 | nothing with fewer than two cold symbols; otherwise the merged table |
| AutoscalingSafety.CreateExact | biz/service/partition_autoscaler.go:158-176 | creating a hot partition keeps the maps exact if and only if its id is free for the symbol |
| AutoscalingSafety.HotIdsCollide | biz/service/partition_autoscaler.go:158-160 | two different partition and symbol pairs with the same new id |
| AutoscalingSafety.CollidingSplitLosesSymbol | biz/service/partition_autoscaler.go:158-176 | splitting two such pairs leaves the first symbol listed and in no partition |
| AutoscalingSafety.SplitKeeps | biz/service/partition_autoscaler.go:119-176 | for every visiting order with free ids the two maps stay inverse and no symbol loses or gains its last partition |
| AutoscalingSafety.SplitIsolatesHot | biz/service/partition_autoscaler.go:119-176 | when all partitions are visited, a hot symbol is left in partitions of its own only |
| AutoscalingSafety.MergeExact | biz/service/partition_autoscaler.go:178-216 | merging keeps the maps inverse if and only if its id is free |
| AutoscalingSafety.SameSecondNextDayLosesSymbol | biz/service/partition_autoscaler.go:188-216 | a table on which a merge in the same second of another day leaves a symbol without a partition |
| AutoscalingSafety.MergeHomes | biz/service/partition_autoscaler.go:178-216 | merged cold symbols are in exactly one partition and no symbol loses its last |
| AutoscalingSafety.ScaleKeeps | biz/service/partition_autoscaler.go:85-105 | a whole round over any orders keeps all of this |
| AutoscalingSafety.SplitPlacesIdle | biz/service/partition_autoscaler.go:158-168 | a split moves no partition to another worker and puts each new one on one worker of least load |
| AutoscalingSafety.MergePlacesIdle | biz/service/partition_autoscaler.go:187-195 | so does a merge, and it keeps ids under their keys |
| AutoscalingSafety.ExceptInOrder | biz/service/partition_autoscaler.go:144-156 | dropping elements keeps the order of the others |
| AutoscalingSafety.NewIdIsLast | biz/service/partition_autoscaler.go:169-176 | a split symbol's list ends with the new id, after its other ids in their old order; other symbols' lists stay |
| AutoscalingSafety.HotInOrder | biz/service/partition_autoscaler.go:134-142 | hot symbols are found in their order |
| AutoscalingSafety.Thresholds | biz/service/partition_autoscaler.go:134-187 | hot from 801, cold up to 4, never both |
| AutoscalingSafety.CollectLoads | biz/service/partition_autoscaler.go:107-117 | a reading for exactly the symbols some partition holds |
| AutoscalingSafety.ScaleIfNeeded | biz/service/partition_autoscaler.go:85-105 | the new table is the split and merged copy, reported exactly when something was split or merged, and safe under free ids |
| Sequencing.PackIsSum | biz/service/sequencer.go:48-56 | shift, mask and or, bit by bit, are the node id times 2^40 plus the counter modulo 2^40, within 64 bits |
| Sequencing.PackWordFields | biz/service/sequencer.go:48-56 | on 64-bit words both fields can be read back |
| Sequencing.PackWordInjective | biz/service/sequencer.go:48-56 | words agree only when both fields do |
| Sequencing.PackWordIncreases | biz/service/sequencer.go:48-56 | one node's words increase with the counter |
| Sequencing.Sequencer.constructor | biz/service/sequencer.go:26-43 | a node id up to 1023 and counters at zero |
| Sequencing.Sequencer.NextGlobalSeq | biz/service/sequencer.go:48-56 | the counter steps with 64-bit wrap-around and is shifted, masked and or-ed with the node id |
| Sequencing.PackInjective | biz/service/sequencer.go:48-56 | two numbers agree only when node and local count agree, and one node's increase |
| Sequencing.SequenceNumbersUnique | biz/service/sequencer.go:48-56 | over every schedule of draws by any nodes below 2^40 each, no number repeats and one node's increase |
| Sequencing.CapacityIsExact | biz/service/sequencer.go:48-56 | a node's draws are distinct if and only if there are at most 2^40 and increase if and only if there are fewer; draw 2^40 + 1 repeats draw 1 |
| NodeIds.KeyValueStore.CompareAndSwap | biz/service/node_id_manager.go:140-153 | succeeds exactly on a matching modify index, 0 meaning absent |
| NodeIds.AllocateNewNodeId | biz/service/node_id_manager.go:113-161 | returns an id only from an attempt nobody raced, and then the counter's value at that moment, which the counter has passed afterwards; otherwise says why and where the counter is, store errors included |
| NodeIds.RunKeepsInv | biz/service/node_id_manager.go:59-161 | every interleaving of lookups, reads, swaps, saves and lost calls keeps granted ids below the counter and registry entries granted |
| NodeIds.NodeIdsSafe | biz/service/node_id_manager.go:59-161 | returned ids lie in 1..1023 and differ between addresses |
| NodeIds.RestartReturnsSameId | biz/service/node_id_manager.go:59-90 | a start under a registered address returns the stored id and leaves the store and its counter alone |
| NodeIds.RegisteredIdIsKept | biz/service/node_id_manager.go:59-161 | once an address is registered and nobody is allocating for it, every later start that returns gets that id, whatever other nodes do, and no further id is taken for it |
| NodeIds.LateSaveReplacesId | biz/service/node_id_manager.go:59-110 | a start already past its lookup replaces the entry |
| NodeIds.CounterKeyClash | biz/service/node_id_manager.go:59-161 | a node called next_id makes the next allocation return 0 |
| NodeIds.SafeAddressesIff | biz/service/node_id_manager.go:59-161 | a set of addresses is safe under all interleavings if and only if it lacks next_id |
| NodeIds.NodesNeverCollide | biz/service/node_id_manager.go:59-161 | sequencers built with ids returned to different addresses never draw the same number |
| Epochs.OwnershipEpochManager.UpdateOwnershipEpoch | biz/service/ownership_epoch_manager.go:101-156 | the epoch rises by one exactly when the owner changes; lock, read and partial write failures leave what was written |
| Epochs.OwnershipEpochManager.VerifyOwnershipFencing | biz/service/ownership_epoch_manager.go:159-171 | valid exactly when the record can be read and the event's epoch is the current one |
| Epochs.UpdateIsAtomic | biz/service/ownership_epoch_manager.go:101-156 | under the lock the separate store calls act as one update |
| Epochs.UpdateIsItsCalls | biz/service/ownership_epoch_manager.go:101-156 | what an update leaves behind, whatever trouble it meets, is what its store calls leave behind |
| Epochs.EpochAccount | biz/service/ownership_epoch_manager.go:101-156 | under every interleaving the epoch rises by the changes of the owner field plus the torn writes, a write in progress counted as begun |
| Epochs.FencingExact | biz/service/ownership_epoch_manager.go:101-171 | outside a write in progress an earlier token passes if and only if the owner has not changed and no write was torn since |
| Epochs.EpochCountsOwnerChanges | biz/service/ownership_epoch_manager.go:101-156 | the epoch is the number of owner changes if and only if no updater gave up between its two writes |
| Epochs.ReturnToSameOwnerIsFenced | biz/service/ownership_epoch_manager.go:101-171 | if the owner is the same at both ends and another in between, the token is refused |
| Epochs.TornWriteCountsTwice | biz/service/ownership_epoch_manager.go:101-156 | a run with one owner change and epoch 2 |

## Left out

- OrderBooks.OrderBook.MatchOrder: resting entries are values in the queues, so aliasing between the book and callers holding an entry is not captured; the skip list is a sequence of levels kept in the order of `Compare` (`CalcScore`, which has the opposite sign, is not used); timestamps and text forms of prices are dropped.
- OrderBooks.OrderBook.GetDepth: returns amounts, not their text.
- Settlement.PositionProcessor.HandleTradeExecutedTransactional: the text conversion of quantities and prices is an arbitrary function of the amount; the in-memory fallback without a database is not modelled.
- Cleanup.SettlesOnceIff: converted quantities are positive, volumes non-negative and totals within int64.
- Volumes.RunConservesVolume: converted quantities are taken to be non-negative and totals to fit int64, which `Volumes.SettledConservesIff` shows to be needed.
- Pipelines.EventPipeline.Dispatch: runs the processors one after another; their interleavings are in `PipelineRuns`.
- Recovery.CrashAndReplayRecovers: each symbol's events reach the processor in log order, numbers increase per symbol, trade ids are distinct, and the crash-free pass settles every trade; replay finishes before new events are dispatched.
- Outboxes.OutboxRepo.GetUnpublished: rows with equal creation times are in some fixed order.
- Ownership.OwnershipStateMachine.Transition: listeners, the symbol list and int64 wrap-around of the version are dropped; time and database failures are parameters.
- TransferProtocols.TransferProtocol.StartTransfer: retries and times of the messages are dropped.
- Transfers.DBTransferCoordinator.GetTransfer: ids are read as digits from the start of the text; blanks before them, which scanning would skip, and ids beyond the machine's range are not modelled.
- Autoscaling.MergeColdSymbols: `MigrationInfo` of the table is not modelled; the copy of the table is a value.
- AutoscalingSafety.SplitKeeps: free ids are assumed per creation, as the ids depend on the clock; the worker loads do not change within a round.
- Sequencing.SequenceNumbersUnique: within one process lifetime per node, since local counters restart at zero.
- NodeIds.NodeIdsSafe: session expiry and the registration with a time to live are not modelled.
- Pipelines.EventPipeline.ProcessEventsFromLog: unmarshalling, which has no effect of its own, is done for all events before the first is dispatched.
- Epochs.FencingExact: runs without expiry of the lock or of the 24-hour hash; the local epoch cache and audit log are not modelled.
- Checkpoints.CheckpointManager.FlushCheckpoints: checksums, counts and recovery status columns are dropped.
- Recovery through the database log (`biz/service/recovery_executor.go`, `biz/service/event_log_postgres.go`): covered in intent by the in-memory replay.
- State snapshots and validators, the Kafka offset tracker and partition queries such as `GetSymbolsForWorker`: only easy members.
- K-lines, HTTP and WebSocket handlers, configuration, metrics, the front end and the clients for SQL, Kafka, Redis and Consul.
