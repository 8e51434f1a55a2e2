# Raiden services: a verified model

The Raiden network relies on two services that follow the chain and listen to peers. The *monitoring
service* (MS) watches payment channels for nodes that are offline and submits their latest balance proof
when a channel is closed. The *pathfinding service* (PFS) keeps a graph of channels and answers route
requests for a fee. Both read the chain through the same synchronisation layer, keep their state in
SQLite, and send transactions or answers based on it. This project models that logic in Dafny and proves
what it keeps over whole runs: chain events, peer messages, scheduler passes and crashes in any order.

Each service appears twice. The *model* modules describe its state as one value and every handler as a
function on it; run theorems are proved about them. The *service* modules hold classes with the same
fields, loops and branches as the service code; each method is proved to change the state as the function says,
so the run theorems speak about the classes.

| module | content |
|---|---|
| `ChainLog`, `Sync` | the confirmed event log, block range queries, adaptive intervals, exactly-once delivery |
| `MonitoringModel`, `MonitoringService` | tables and handlers of the MS, and the classes `Database`, `Service`, `RequestCollector` |
| `ChannelHistory`, `Recovery`, `UpdateSummary` | chain columns under re-chunking and crashes, and what `update_status` means |
| `MonitoringSafety`, `Scheduler`, `MonitoringRuns` | the safety invariant, the schedule, what every smooth run keeps |
| `MonitoringProgress`, `ClaimProgress` | no monitoring and no claim is lost, and exactly when a transaction is sent |
| `MonitoringOrigins`, `RequestStore` | where scheduled events, transactions and monitor requests come from, and what becomes of requests |
| `MonitoringCrash`, `MonitoringReplay` | what a replay can break in any run: the record of what was sent, and the "Should be impossible" assertion |
| `PfsModel`, `PfsNetwork`, `PfsService` | tables and handlers of the PFS, shared `Channel` objects, the graph and the service object |
| `PfsAgreement`, `PfsOrigins`, `PfsStreams`, `PfsDeferral` | memory and database agree, capacity minima, who said what, message order, deferred messages |
| `PfsRecovery` | the channels of the PFS under re-chunking and crashes |
| `Routing`, `RouteSearch`, `NetworkRoutes` | windows, pruning, backward fees, the greedy search for several paths, and what all this means for channels |
| `Iou`, `IouService` | payment sessions, claiming |
| `HexKeys` | the text encoding of integers in the databases |

How the main results are built:

* *Recovery.* The chain columns of a channel row (`View`) are the result of replaying the channel's events.
  Replaying is applying a digest, digests form an idempotent semigroup with a unit, so that a replayed prefix is
  absorbed (`a a b = a b`), and the digests of token network events and of monitoring contract events commute.
  So chunks, which sort events by source, compose. `CrashTransparency` follows by an invariant on the future:
  replaying the rest of the log from the cursor always leads to the undisturbed value. `PfsRecovery` proves the
  same for identifiers, edges and rows of the PFS, where a replay can take the pair of a later channel.
* *Safety.* One invariant (`Safe`) ties schedule, rows and sent transactions together. It makes the deletion
  that omits the event type exact and the "Should be impossible" assertion hold. It is kept by every *smooth*
  run: crashes are allowed anywhere but after a ChannelClosed within the same block range, and between the sending
  or putting back of a monitoring event and the deletion of its row.
* *Any run.* Without that restriction, two exact conditions say per channel what a crash breaks:
  `RecordedUnlessReopened` for "sent at most once", `AssertionHoldsUnlessRearmed` for the assertion.
* *PFS.* `Consistent` says that memory equals rows and that identifiers and participant pairs are in
  bijection; `PfsNetwork` and `PfsService` prove the same for objects: opposite edges are opposite views of
  one `Channel`.
* *Origins.* Safety says what is never done, progress that the rest is done; origins close the gap in between. Over whole
  runs, every stored request, claim, schedule, IOU and scheduled event goes back to a signed message or a log entry
  (`RequestsWereAskedFor`, `EverythingWasSaid`, `RowsAreBacked`, `ScheduleComesFromTheLog`).
* *Routes.* `IsRoute` and the weight of a route are stated over the whole graph, and `RoutesAreOverChannels` restates
  routes in terms of the two sides of every channel row. The library's path enumeration is a parameter with a
  contract (`IsEnumeration`), which `EnumerationExists` shows can be met for all weights; it is asked for
  non-negative weights only, which `RoundWeightsArePositive` shows all weights of a search to be.

## What is assumed of the environment

* A confirmed log is sorted by block, a network is announced before its contracts emit anything, a channel is
  opened once and before its other events (`WellFormed`); a channel is closed at most once, and blocks are
  positive (`Lawful`).
* A NewBalanceProof event with our address appears only after we sent `monitor` for that channel (`Causal`).
* For the PFS: participants of an opened channel are distinct, and a pair opens a channel only after its previous one
  in the network was closed or settled (`PairsExclusive`). The theorems about messages also assume this of replays:
  the opening of a live channel names its participants, and no other live channel has them (`Admissible`). In
  them no participant names itself as its partner in a capacity update; what happens otherwise is stated
  by `PfsAgreement.AppliedUnlessSelfUpdate` and `PfsAgreement.SelfUpdateBreaksMinimum`.
* A service restarts between two handlers, or between handling a scheduled row and deleting it, never between two
  statements of one handler.
* Everything read from clocks and nodes (`World`, `Query`, `Payment`, `Receipts`) is arbitrary.

## Where the code differs from what it says

* `hex256` is documented to make text order and numeric order identical. For magnitudes below 2^256 it does so
  exactly for non-negative numbers, as `+` sorts before `-` (`HexKeys.OrderIsNumericOrder`,
  `HexKeys.NegativeSortsLast`); beyond that width not even positive numbers keep their order
  (`HexKeys.OrderEndsAtTheWidth`; `HexKeys.OrderOfAnyWidth` states which do).
* At most one `monitor` and one `claimReward` per channel: a crash can replay ChannelOpened, which replaces the row
  and forgets the sent transactions, so that another one follows (`MonitoringCrash.CrashCanSendTwice`). The
  rows record what was sent if and only if no opening is handled for a channel with a sent transaction
  (`MonitoringCrash.RecordedUnlessReopened`), and then nothing is sent twice.
* The assertion "Should be impossible" fails when a crash replays ChannelClosed for a channel that was monitored in
  between: the row keeps its transaction and monitoring is scheduled again
  (`MonitoringReplay.CrashCanFailTheAssertion`). It also fails when the service stops after `monitor` was sent and
  before the scheduled row is deleted, as the row is then due again (`MonitoringReplay.StopCanFailTheAssertion`). It
  cannot fail for a channel unless a handled ChannelClosed scheduled its monitoring although it was sent, or
  pending in another row, or such a stop left a row that was sent for or put back
  (`MonitoringReplay.AssertionHoldsUnlessRearmed`).
* A monitoring event that is put back in the very second of its trigger is deleted again
  (`MonitoringProgress.PostponingCanLoseTheEvent`; `Scheduler.PassSchedule` states the exact condition).
* Deleting a scheduled event omits its type, and so deletes a claim together with a monitoring event of the same second,
  channel and participant (`MonitoringSafety.RemovalForgetsTheType`); in a smooth run they are never pending together.
* A capacity update whose sender names itself as the partner passes validation, stores a claim and then fails
  on the missing edge.
* A claim writes back the IOU as it was listed, so fees accepted in between are lost from the row
  (`Iou.LateClaimLosesAFee`; `Iou.SettlingKeepsTheAmount` states the exact condition).
* A replayed ChannelOpened resets the capacities of a PFS channel to zero while the stored claims stay: exactly
  capacities that were not zero are lost, until the next accepted capacity update
  (`PfsAgreement.ReplayLosesCapacities`, `PfsAgreement.ReplayCanLoseCapacities`, `PfsAgreement.UpdateRestoresMinimum`).
* A closing block 0 is stored as NULL, so that our own monitoring update raises instead of scheduling a claim, for a
  channel closed in block 0 and for no other (`MonitoringCrash.ClosingInBlockZeroIsForgotten`).

## Model

| member | source | states |
|---|---|---|
| ChainLog.GetLogsMembers | src/raiden_libs/blockchain.py:93-117 | a log query returns exactly the entries of its contracts and block range |
| Sync.GetBlockchainEvents | src/raiden_libs/blockchain.py:157-227 | one query yields registry, then network, then monitoring events, then the new head; networks created in the range are asked, too |
| Sync.ParseTokenNetworkEvents | src/raiden_libs/blockchain.py:120-154 | the entries that no service handles (deprecation, deposits, withdrawals) are dropped, all others kept in order |
| Sync.BlockchainState.GetBlockchainEventsAdaptive | src/raiden_libs/blockchain.py:317-358 | the range starts after the cursor and ends at the head or the interval; the interval doubles, halves or drops to a fifth; nothing is returned on a timeout; with and without a monitoring contract |
| Sync.IntervalsInBounds | src/raiden_libs/blockchain.py:336-350 | the interval never leaves [2, 100000] in any run |
| Sync.IntervalsAdapt | src/raiden_libs/blockchain.py:336-350 | n fast queries multiply the interval by 2^n up to 100000, n slow ones divide it by 2^n and n timeouts by 5^n down to 2 |
| Sync.CursorFollowsIntervals | src/raiden_libs/blockchain.py:317-323 | to a fixed head, the cursor advances by exactly the intervals of the answered queries |
| Sync.CommittedRangesTile | src/raiden_libs/blockchain.py:317-323 | committed ranges are contiguous and disjoint and never go beyond the head given to their query |
| Sync.DeliveredExactlyOnce | src/raiden_libs/blockchain.py:176-227 | for either service, over any run of fast, slow and timed-out queries, every source's events up to the cursor are delivered exactly once and in order, also those of networks created inside a range |
| Sync.GapCloses | src/raiden_libs/blockchain.py:317-358 | a gap of g blocks to a fixed head is closed by ceil(g/2) answered queries, however slow |
| MonitoringService.Service.TokenNetworkCreated | src/monitoring_service/handlers.py:66-74 | stores the network as the model function does |
| MonitoringService.Service.ChannelOpened | src/monitoring_service/handlers.py:77-92 | replaces the whole channel row |
| MonitoringService.Service.ChannelClosed | src/monitoring_service/handlers.py:110-185 | closes the row and schedules monitoring unless the settlement period is over |
| MonitoringService.Service.NonClosingBalanceProofUpdated | src/monitoring_service/handlers.py:188-258 | keeps the known status on an equal or lower nonce, else takes the new one with the non-closing participant |
| MonitoringService.Service.ChannelSettled | src/monitoring_service/handlers.py:261-283 | settles a known row |
| MonitoringService.Service.MonitorNewBalanceProof | src/monitoring_service/handlers.py:286-386 | keeps the known status only on a lower nonce; for our own update schedules a claim, and raises without a closing block |
| MonitoringService.Service.UpdatedHeadBlock | src/monitoring_service/handlers.py:408-412 | moves the cursor in memory and in the database |
| MonitoringService.Service.ActionMonitoringTriggered | src/monitoring_service/handlers.py:430-562 | all early exits, rescheduling on a low deposit, the assertion, the three results of sending, and the recorded transaction |
| MonitoringService.Service.ActionClaimRewardTriggered | src/monitoring_service/handlers.py:565-661 | claims only when our update is on top, no claim was sent and there is a reward |
| MonitoringService.Service.HandleEvent | src/monitoring_service/service.py:64-92 | a handler's exception is recorded and swallowed |
| MonitoringService.Service.ProcessNewBlocks | src/monitoring_service/service.py:170-184 | asks for the next range, adapts the interval, and handles all events in order, or nothing after a timeout |
| MonitoringService.Service.TriggerScheduledEvents | src/monitoring_service/service.py:186-214 | nothing before the barrier; else the due rows are handled earliest first and removed, up to the first that is too early, which sets the barrier |
| MonitoringService.Service.CheckPendingTransactions | src/monitoring_service/service.py:216-251 | exactly the transactions with a mined and sufficiently confirmed receipt stop waiting, the others keep their order |
| MonitoringService.WaitsUntilConfirmed | src/monitoring_service/service.py:216-251 | a transaction goes on waiting exactly until its block is known and lies the required number of blocks below the head |
| MonitoringService.Service.PurgeOldMonitorRequests | src/monitoring_service/service.py:253-280 | requests with a channel stop waiting; of those that still wait, the aged ones, an arbitrary set, are deleted |
| MonitoringService.Database.GetScheduledEvents | src/monitoring_service/database.py:178-201 | exactly the due rows, each once, by ascending trigger |
| MonitoringService.RequestCollector.OnMonitorRequest | src/request_collector/server.py:74-156 | a request is stored exactly if all guards admit it, else nothing changes |
| ChannelHistory.DigestsAreIdempotent | src/monitoring_service/handlers.py:220-258 | composing digests is associative with a unit, and repeating a part of a channel's history right after itself has no effect on its columns, whatever follows (`a a b = a b`) |
| ChannelHistory.LaterCopiesCount | src/monitoring_service/handlers.py:110-283 | a later copy with another part in between does count: closing, settling, closing |
| ChannelHistory.ReplayIsDigest | src/monitoring_service/handlers.py:188-345 | handling a channel's events one by one equals applying their digest once |
| ChannelHistory.ChunksCompose | src/raiden_libs/blockchain.py:176-227 | handling two adjacent ranges one after the other gives the same columns as handling them as one range, although the events are ordered differently |
| ChannelHistory.CrashAbsorbed | src/monitoring_service/service.py:170-184 | a prefix of a range, followed by the range again, gives what the range alone gives |
| Recovery.HandlerObserves | src/monitoring_service/handlers.py:77-345 | what a handler does to the chain columns of a row depends on these columns and the event alone |
| Recovery.SyncCursor | src/monitoring_service/handlers.py:408-412 | the cursor moves exactly when a range was handled to its end |
| Recovery.CrashTransparency | src/monitoring_service/service.py:170-184 | in every run with any chunks and any crashes, once the cursor is past every block handled at a crash, state, closing block, closing participant and update status of every channel are those of an undisturbed synchronisation |
| Recovery.ChunkIndependence | src/raiden_libs/blockchain.py:317-323 | crash-free runs that reach the same block agree on these columns for every channel, however they were chunked |
| UpdateSummary.UndisturbedIsSummary | src/raiden_libs/blockchain.py:176-227 | an undisturbed synchronisation leaves the digest of the log in chain order, although it handles the log sorted by contract |
| UpdateSummary.DigestIsSummary | src/monitoring_service/handlers.py:220-345 | the update status of a digest has the highest nonce, with the sender of the last monitoring event at that nonce if there is one, else the non-closing participant |
| UpdateSummary.UpdateStatusIsSummary | src/monitoring_service/handlers.py:220-345 | in every recovered run every row holds that summary of the log up to the cursor |
| UpdateSummary.RowIsSummary | src/monitoring_service/handlers.py:77-283 | in every recovered run, participants, state, closing block and closing participant of every row are what the log up to the cursor says last |
| MonitoringSafety.RemovalIsExact | src/monitoring_service/database.py:203-220 | under the invariant, the DELETE without an event type removes the named row and nothing else |
| MonitoringSafety.RemovalForgetsTheType | src/monitoring_service/database.py:203-220 | that DELETE removes the named row and the row of the other type for the same second, channel and participant, so that it is exact if and only if the latter is not pending |
| MonitoringSafety.ChainEventSafe | src/monitoring_service/handlers.py:66-412 | every expected chain event, also the replayed opening of a channel that is not closed, keeps the invariant of schedule, rows and sent transactions, and raises nothing |
| Scheduler.PassSafe | src/monitoring_service/service.py:186-214 | a scheduler pass keeps the invariant |
| Scheduler.PassSchedule | src/monitoring_service/service.py:193-214 | if the k-th due row is too early, exactly the first k are consumed, the barrier is set 10 seconds later, all other rows stay, and a postponed row is pending again if and only if the clock differs from its trigger |
| MonitoringRuns.NothingFails | src/monitoring_service/handlers.py:503-562 | in every run in which no crash follows a ChannelClosed within its block range or comes between a monitoring event's effect and the deletion of its row, no handler raises, at most one `monitor` and one `claimReward` are sent per channel, a channel has at most one pending monitoring event, never one beside a claim and none once `monitor` was sent, and removal is exact |
| MonitoringRuns.CallsAreJustifiedByTheChain | src/monitoring_service/handlers.py:466-475 | in every run with any crashes, once the cursor is past every interrupted range, `monitor` is sent only with a nonce above every update confirmed so far, `claimReward` only when the top confirmed update is ours |
| MonitoringRuns.CallsAreBackedByRequests | src/monitoring_service/handlers.py:452-545 | in every run, a `monitor` call carries the nonce of a stored request between the two participants that pays the minimum, a `claimReward` call has a request with a positive reward, and neither was sent according to the row |
| MonitoringProgress.NoMonitoringIsLost | src/monitoring_service/handlers.py:110-185 | in every run as for `NothingFails`, a closed channel is monitored or its monitoring event is pending if and only if the closing did not come after the settlement period and no pass took one of seven named exits for it |
| MonitoringProgress.MonitorIsSentExactly | src/monitoring_service/handlers.py:430-562 | the exact conditions under which `monitor` is sent, postponed, tried again, refused by the assertion, or nothing changes |
| MonitoringProgress.PassCovers | src/monitoring_service/handlers.py:430-562 | a pass drops the monitoring of a channel if and only if its row is handled and takes a named exit |
| MonitoringProgress.PostponingCanLoseTheEvent | src/monitoring_service/handlers.py:491-501 | a concrete pass that loses a postponed event in the second of its trigger, and keeps it one second later |
| ClaimProgress.ClaimIsSentExactly | src/monitoring_service/handlers.py:565-661 | `claimReward` is sent if and only if the request exists with a positive reward, the row is known and not claimed, our update is on top, and the node accepts; it is tried again exactly when only the node says too early |
| ClaimProgress.OwnUpdateSchedulesClaim | src/monitoring_service/handlers.py:347-386 | our own update schedules exactly one claim, for the end of the settlement period, if and only if the channel is known and closed and the update is not outdated |
| ClaimProgress.NoClaimIsLost | src/monitoring_service/handlers.py:565-661 | in every run with any crashes, a scheduled claim is pending or sent, or a pass took one of six named exits for it, or deleted it with a monitoring event of the same second, channel and participant |
| ClaimProgress.ClaimsEndByExits | src/monitoring_service/service.py:193-214 | in every run as for `NothingFails`, a scheduled claim is pending or sent, or a named exit was taken for it |
| ClaimProgress.OwnUpdatesAreClaimed | src/monitoring_service/handlers.py:347-386 | in such a run, our own update that is handled for a closed channel leads to a claim that is pending or sent or took a named exit |
| MonitoringOrigins.ScheduleComesFromTheLog | src/monitoring_service/handlers.py:110-185 | in every run, a scheduled monitoring event goes back to a logged closing and is for the participant that did not close; a scheduled claim goes back to our own logged update and its participant; settle timeouts and participants of rows are the logged ones |
| MonitoringOrigins.TransactionsAreWatched | src/monitoring_service/service.py:216-251 | in every run, a transaction that a row records waits until it was found mined and confirmed |
| MonitoringCrash.StepKeepsRecord | src/monitoring_service/handlers.py:77-92 | a step keeps the record of what was sent for a channel if and only if it does not handle its opening after something was sent |
| MonitoringCrash.RecordedUnlessReopened | src/monitoring_service/service.py:170-184 | in every run with any crashes, also inside a scheduler pass, a row records at every point what was sent for its channel, and nothing was sent twice, if and only if no opening of the channel is handled after something was sent |
| MonitoringCrash.SentOnceUnlessReopened | src/monitoring_service/handlers.py:503-562 | in every run, a channel that is never reopened in this sense gets at most one `monitor` and one `claimReward` |
| MonitoringCrash.ClosingInBlockZeroIsForgotten | src/monitoring_service/handlers.py:347-386 | after a handled closing, our own monitoring update raises "closing_block not set" if and only if the channel was closed in block 0; otherwise it succeeds |
| MonitoringCrash.CrashCanSendTwice | src/monitoring_service/handlers.py:77-92 | a concrete run with one crash in which `monitor` is sent twice for a channel |
| MonitoringReplay.StepKeepsQuiet | src/monitoring_service/handlers.py:169-171 | a step leaves at most one pending monitoring event, and none for a monitored channel, if and only if it handles no closing that schedules it again and does not stop before deleting a row that was sent for or put back |
| MonitoringReplay.AssertionHoldsUnlessRearmed | src/monitoring_service/handlers.py:503-505 | the same for every run with any crashes, if and only if no step does so; and then the assertion has not failed for the channel |
| MonitoringReplay.StopCanFailTheAssertion | src/monitoring_service/service.py:193-214 | a concrete run whose only disturbance is a stop between sending `monitor` and deleting the row, in which the assertion fails |
| MonitoringReplay.CrashCanFailTheAssertion | src/monitoring_service/handlers.py:503-505 | a concrete run with one crash, no replayed opening and nothing sent twice in which the assertion fails |
| RequestStore.RequestsAreKept | src/monitoring_service/service.py:253-280 | in every run, once a channel row exists its requests are never purged and each replacement raises the nonce |
| RequestStore.RequestsFreeze | src/request_collector/server.py:112-131 | in every run with any crashes, requests of a channel closed for 10 committed blocks never change again |
| RequestStore.CloseAgeGrows | src/monitoring_service/database.py:250-264 | in every run with any crashes, the age of a closing that the cursor has passed grows with the cursor, block by block |
| RequestStore.StoredExactly | src/request_collector/server.py:74-156 | a message is stored if and only if its signers agree, it is for this chain, the channel is not closed for ten committed blocks, and its nonce is new; nothing else changes |
| RequestStore.RequestsWereAskedFor | src/request_collector/server.py:74-156 | in every run, every stored request came from its non-closing participant on this chain with a new nonce, and waits if and only if no purge saw its channel since |
| RequestStore.PurgedExactly | src/monitoring_service/service.py:253-280 | a purge deletes exactly the aged requests that wait and have no channel, ends the waiting of those with one, and changes nothing else |
| RequestStore.OnlyPurgesDelete | src/monitoring_service/service.py:253-280 | in every run, a request disappears only by such a purge |
| PfsNetwork.ChannelView.UpdateCapacity | src/pathfinding_service/model/channel.py:133-142 | writes the viewed side of the shared channel and nothing else |
| PfsNetwork.ChannelView.SetFeeSchedule | src/pathfinding_service/model/channel.py:144-150 | accepted exactly if later than the schedule in force; only the viewed side changes |
| PfsNetwork.LinkedIsChannelGraph | src/pathfinding_service/model/token_network.py:280-287 | adding both views of a channel keeps the graph symmetric, opposite edges opposite views of one object, and identifiers and pairs in bijection, if and only if its identifier and its pair are new together or belong together already |
| PfsNetwork.UnlinkedIsChannelGraph | src/pathfinding_service/model/token_network.py:289-296 | both edges of an indexed channel exist, and removing them and the index entry keeps the graph valid and all other channels in it |
| PfsNetwork.EdgesOfAChannel | src/pathfinding_service/model/token_network.py:280-287 | the edges of one channel are the two directions between its indexed participants, no more |
| PfsNetwork.TokenNetwork.HandleChannelOpened | src/pathfinding_service/model/token_network.py:253-278 | for any identifier and pair: a fresh channel with ordered participants and defaults, exactly its two edges and its index entry are written, and the network stays valid if and only if the channel may be opened |
| PfsNetwork.TokenNetwork.HandleChannelRemoved | src/pathfinding_service/model/token_network.py:289-296 | exactly that channel leaves graph and index |
| PfsNetwork.TokenNetwork.HandleChannelBalanceUpdate | src/pathfinding_service/model/token_network.py:307-335 | both sides of the one shared channel get the minima of the claims; there is no edge exactly if the participants are the same |
| PfsNetwork.TokenNetwork.HandleChannelFeeUpdate | src/pathfinding_service/model/token_network.py:337-351 | the updating side's schedule is replaced exactly if it is later and not more than an hour ahead |
| PfsService.PathfindingService.constructor | src/pathfinding_service/service.py:136-142 | loading yields exactly the stored networks and channels, as valid graphs over new channel objects |
| PfsService.Restart | src/pathfinding_service/service.py:136-142 | after any crash-free step, loading from the database rebuilds the same channels, index and edges |
| PfsService.PathfindingService.HandleEvent | src/pathfinding_service/service.py:225-240 | every chain event acts as the model says, and memory and database agree again afterwards |
| PfsService.PathfindingService.HandleChannelOpened | src/pathfinding_service/service.py:251-271 | the channel is added and stored, also when it is live already, then its waiting messages are handled in order and deleted; an uncaught exception leaves them |
| PfsService.PathfindingService.HandleChannelRemoved | src/pathfinding_service/service.py:273-299 | the row decides; a deleted row's channel also leaves the graph |
| PfsService.PathfindingService.HandleMessage | src/pathfinding_service/service.py:301-320 | accepted, deferred, rejected or failed as the model says, with exactly the model's effect on channel objects and tables |
| PfsService.PathfindingService.ValidateCapacityUpdate | src/pathfinding_service/service.py:366-404 | rejected, deferred or accepted: the exact conditions |
| PfsService.PathfindingService.ValidateFeeUpdate | src/pathfinding_service/service.py:330-358 | rejected, deferred or accepted: the exact conditions |
| PfsService.PathfindingService.OnCapacityUpdate | src/pathfinding_service/service.py:406-422 | the claim is stored before the capacities are set to the minima |
| PfsService.PfsDatabase.SelectWaitingMessages | src/pathfinding_service/database.py:361-374 | the waiting messages of one channel in insertion order |
| PfsAgreement.RunAgrees | src/pathfinding_service/service.py:251-299 | after every step of a lawful run, with replayed openings, rows equal memory, pairs and identifiers are in bijection, and no message waits for an open channel |
| PfsAgreement.RunMinima | src/pathfinding_service/model/token_network.py:314-335 | in every state of a run that opens every channel once, each capacity is the minimum of the owner's last own claim and the partner's last claim about it |
| PfsAgreement.NeverAboveAClaim | src/pathfinding_service/service.py:406-422 | in such a run no capacity exceeds what either participant last claimed |
| PfsOrigins.StrangersAreRefused | src/pathfinding_service/service.py:330-404 | a message in another participant's name is rejected and changes nothing |
| PfsOrigins.FateOfAMessage | src/pathfinding_service/service.py:301-404 | the exact conditions under which any message is accepted, deferred or fails on the missing edge, and that a rejected one changes nothing |
| PfsOrigins.EverythingWasSaid | src/pathfinding_service/service.py:301-422 | in every run, every stored claim, every fee schedule but the initial one, every pair of nonces and every waiting message goes back to a message signed by the participant itself |
| PfsOrigins.CapacitiesWereAgreed | src/pathfinding_service/model/token_network.py:307-335 | in a run that opens every channel once, a positive capacity is the smaller of what its owner and its partner said about it, each under its own signature |
| PfsOrigins.NetworksAreCreated | src/pathfinding_service/service.py:225-249 | in every run, exactly the created networks are followed with their first settle timeout, and the cursor is the last handled head |
| PfsAgreement.ReplayLosesCapacities | src/pathfinding_service/service.py:258-263 | after a replayed opening of a live channel the capacities are minima of the claims if and only if they were zero before; nothing else changes |
| PfsAgreement.ReplayCanLoseCapacities | src/pathfinding_service/service.py:258-263 | a concrete run in which the replayed opening of a channel with capacities 5 and claims 5 leaves capacities 0 |
| PfsAgreement.UpdateRestoresMinimum | src/pathfinding_service/model/token_network.py:314-335 | the next accepted capacity update makes both capacities minima again, whatever they were |
| PfsAgreement.AppliedUnlessSelfUpdate | src/pathfinding_service/service.py:395-402 | an update that passes the checks is applied and keeps the minima if and only if its participants differ |
| PfsAgreement.SelfUpdateBreaksMinimum | src/pathfinding_service/model/token_network.py:298-305 | a state and an update with equal participants after which a stored claim is not reflected |
| PfsRecovery.HandleSound | src/pathfinding_service/service.py:251-299 | whatever entry of the log is handled in whatever sound state, rows stay indexed, the edges are exactly those of the rows, and no removal raises |
| PfsRecovery.AlwaysSound | src/pathfinding_service/service.py:173-240 | so it is in every state of every run, also within a replay |
| PfsRecovery.RestartAbsorbed | src/pathfinding_service/service.py:136-142 | handling a part, restarting from the table and handling everything leaves a channel in table and index as if handled once, if that leaves it in both or neither |
| PfsRecovery.UndisturbedIsLive | src/pathfinding_service/service.py:251-299 | an undisturbed service has in table and index exactly the channels opened and neither closed nor settled so far |
| PfsRecovery.ChannelsRecover | src/pathfinding_service/service.py:136-240 | in every run with any chunks and any crashes, once the cursor is past every interrupted range, table and index hold exactly the live channels of the log between their participants, the edges are exactly theirs, and nothing has raised, also when a pair was closed and opened again inside the range |
| PfsRecovery.StepShown | src/pathfinding_service/service.py:225-320 | these handlers do what those of `PfsModel` do to the channels of every agreeing service, and messages do nothing to them |
| PfsRecovery.UpsertShown | src/pathfinding_service/database.py:181-195 | writing a row displaces the same rows in both, whatever the table holds |
| PfsStreams.InterleavingsAgree | src/pathfinding_service/model/token_network.py:314-335 | final capacities, claims and reveal timeouts are the same for every interleaving of the two participants' capacity updates, with any other messages, channels and chain events in between |
| PfsStreams.FeeUpdateEffect | src/pathfinding_service/service.py:330-364 | a fee update for a live channel is accepted exactly if it passes every check and is later; it replaces one schedule and nothing else, and a rejected one changes neither channel nor row |
| PfsStreams.FeeSchedulesConverge | src/pathfinding_service/model/channel.py:144-150 | updates with distinct timestamps end at the same schedule in any order of delivery, each checked against the clock at its arrival, with any other traffic in between |
| PfsDeferral.DeferralEquivalence | src/pathfinding_service/service.py:251-271 | messages that came before the opening, among any other traffic, leave the whole state as if they had come in the same order right after it |
| Routing.Window | src/pathfinding_service/model/token_network.py:37-48 | exactly the consecutive windows of the given width |
| Routing.PruneGraph | src/pathfinding_service/model/token_network.py:51-65 | exactly the edges between reachable nodes |
| RouteSearch.PruningKeepsRoutes | src/pathfinding_service/model/token_network.py:51-65 | the usable simple paths of the pruned graph are exactly the routes: usable walks of the whole graph over distinct reachable nodes from source to target |
| Routing.CalculateFees | src/pathfinding_service/model/token_network.py:85-142 | one fee per mediator and a zero, no result exactly if a hop cannot be done, and value plus all fees is the right-to-left composition of the hops |
| Routing.CheckValidityAndCalculateFees | src/pathfinding_service/model/token_network.py:182-211 | a result exactly if every edge can carry the bare value and every hop can be done |
| Routing.NewPath | src/pathfinding_service/model/token_network.py:69-83 | a path is valid exactly if it is feasible and all its nodes are online |
| Routing.UsablePathsPay | src/pathfinding_service/model/token_network.py:196-211 | on a valid path the sender pays value plus fees, each mediator keeps its fee, the value arrives, and no edge carries more than its capacity |
| NetworkRoutes.HopAsksTheMediator | src/pathfinding_service/model/token_network.py:85-142 | every hop asks with the mediator's own balances and schedules in the channels it receives and sends over, and with what its predecessor can send |
| NetworkRoutes.FeesAreShares | src/pathfinding_service/model/token_network.py:85-142 | fees are the differences of the amounts that the mediators' own terms yield, and value plus fees is what the sender pays |
| NetworkRoutes.RoutesAreOverChannels | src/pathfinding_service/model/token_network.py:182-211 | a route is a sequence of distinct reachable and online nodes, each of which holds the value in a channel to the next, with amounts that the mediators pass on so that the value arrives: if and only if |
| NetworkRoutes.WeightOverChannels | src/pathfinding_service/model/token_network.py:354-390 | what an edge weighs, in terms of the two sides of its channel row |
| RouteSearch.UpdateWeights | src/pathfinding_service/model/token_network.py:404-414 | every edge weighs what its uses on earlier routes, its fees and its partner's capacity say |
| RouteSearch.UsesAreCounted | src/pathfinding_service/model/token_network.py:554-557 | a route counts as many uses of a channel as it has edges over it |
| RouteSearch.RoundWeightsArePositive | src/pathfinding_service/model/token_network.py:354-414 | with penalties that are not negative, every finite weight of every round is at least one |
| RouteSearch.GetSinglePath | src/pathfinding_service/model/token_network.py:392-433 | the lightest valid route not found before, or none exactly if there is none; no path at all only if nothing was found earlier |
| RouteSearch.GetPaths | src/pathfinding_service/model/token_network.py:493-571 | terminates with new valid routes, each minimal under the weights of its round among those not yet used; fewer than asked for only when all valid routes were returned |
| RouteSearch.GreedyRoutesDiffer | src/pathfinding_service/model/token_network.py:428-430 | no route is returned twice |
| RouteSearch.PrunedWalk | src/pathfinding_service/model/token_network.py:51-65 | a simple path of the pruned graph is a walk of the whole graph over reachable nodes only |
| RouteSearch.EnumerationExists | src/pathfinding_service/model/token_network.py:418-421 | for every graph and all weights there is a list of all simple paths, each once, in order of weight |
| NetworkRoutes.SnapshotShowsChannels | src/pathfinding_service/model/channel.py:57-131 | a valid network is a symmetric graph whose opposite edges show the two sides of one channel row |
| NetworkRoutes.SnapshotShowsRows | src/pathfinding_service/model/channel.py:57-131 | the edges of every valid network show both ends of their channel rows, as the results on routes over channels ask for |
| IouService.ProcessPayment | src/pathfinding_service/api.py:225-314 | the verdict with its error and parameters, in the order of the checks, and the stored IOU |
| IouService.IouDatabase.GetIou | src/pathfinding_service/database.py:170-179 | a fitting row if there is one, none only if there is none |
| IouService.CompareWithKnownIou | src/pathfinding_service/api.py:263-286 | the session check and the expected amount |
| IouService.ClaimIous | src/pathfinding_service/claim_fees.py:96-138 | after any finite number of polling rounds, skipped, failed, confirmed and unchecked claims add up to all listed; exactly the confirmed rows are claimed |
| IouService.SentExactly | src/pathfinding_service/claim_fees.py:106-119 | a claim is sent if and only if it would transfer at least its cost |
| IouService.FirstReceiptCounts | src/pathfinding_service/claim_fees.py:121-136 | a claim is resolved by its first receipt, and unresolved exactly while there is none |
| IouService.FatesAddUp | src/pathfinding_service/claim_fees.py:121-136 | every sent claim is in exactly one of the three groups |
| Iou.AcceptedPayment | src/pathfinding_service/api.py:263-314 | an accepted payment extends the open session by at least the fee or opens one that lasts a week, and replaces no other row |
| Iou.AcceptedExactly | src/pathfinding_service/api.py:225-314 | a payment is accepted if and only if the IOU is signed and made out to this service, chain and contract, belongs to the sender's open session or opens one of at least a week, and covers what is due, with a deposit of twice as much |
| Iou.RefusalsAreTrue | src/pathfinding_service/api.py:225-314 | every refusal states a fact about the IOU, with the right session, expiry, amount or deposit |
| Iou.RowsAreBacked | src/pathfinding_service/api.py:252-314 | in every run, every row and every listed row came from an accepted IOU with a valid signature for this receiver, chain and contract, whose deposit covered twice the fees of the session so far |
| Iou.ClaimsAreWorthwhile | src/pathfinding_service/claim_fees.py:82-94 | in every run, only rows are claimed that were listed open, within the time window and worth the cost, with the amount they had then |
| Iou.ListingIsComplete | src/pathfinding_service/claim_fees.py:82-94 | listing misses no such row |
| Iou.OneSessionPerSender | src/pathfinding_service/schema.sql:53-54 | over all runs of payments and claims a sender has at most one unclaimed IOU |
| Iou.NoSessionIsDropped | src/pathfinding_service/database.py:111-116 | insert-or-replace never drops or changes the row of another session |
| Iou.UnclaimedIouPays | src/pathfinding_service/api.py:266-290 | an unclaimed IOU is worth at least the fees of all requests accepted in its session |
| Iou.ClaimedStaysClaimed | src/pathfinding_service/api.py:272-276 | a claimed session is never reopened and earns nothing more |
| Iou.OpenSessionGrows | src/pathfinding_service/api.py:266-290 | while a session stays open, its row changes only when it earns, by at least the fee |
| Iou.SettlingKeepsTheAmount | src/pathfinding_service/claim_fees.py:129-133 | marking a listed IOU as claimed keeps the session's amount if and only if nothing was accepted in it since it was listed |
| Iou.LateClaimLosesAFee | src/pathfinding_service/claim_fees.py:129-133 | a concrete run in which a payment between listing and settling leaves a claimed row worth less than the fees of its session |
| HexKeys.RoundTrip | src/raiden_libs/database.py:20-51 | every integer reads back as it was written |
| HexKeys.FixedLength | src/raiden_libs/database.py:39-51 | the text has 67 characters exactly for magnitudes below 2^256 |
| HexKeys.TextOrder | src/raiden_libs/database.py:39-51 | the exact order of any two encodings of magnitudes below 2^256 |
| HexKeys.OrderIsNumericOrder | src/raiden_libs/database.py:39-51 | below 2^256, text order is numeric order if and only if both numbers are non-negative, or equal |
| HexKeys.OrderOfAnyWidth | src/raiden_libs/database.py:39-51 | for any non-negative x below y, x sorts first if and only if it is at most what y begins with in as many digits |
| HexKeys.OrderEndsAtTheWidth | src/raiden_libs/database.py:39-51 | 16^64 sorts before the smaller 2 * 16^63 |
| HexKeys.NegativeSortsLast | src/raiden_libs/database.py:39-51 | -1 sorts behind 0 |
| HexKeys.QueriesAgree | src/monitoring_service/database.py:178-189 | SQL filters by a bound and SQL sorting on encoded non-negative columns agree with the numbers |

## Left out

- The HTTP APIs except `process_payment`, command lines, metrics, logging, tracing, feedback tokens, rate limits, `suggest_partner` and the service registry scripts: no state that other results depend on.
- Matrix transport and presence: reachability and online state are arbitrary functions fixed during one route request.
- Contract and RPC calls: their results are parameters (`World`, `Query`, `Receipts`); a failing block or registry read inside a handler is not modelled.
- MonitoringRuns.CallsAreBackedByRequests: of the arguments of the contract calls only channel, non-closing participant and nonce are modelled; the others are copied from the same request.
- Signatures, hashes and checksum addresses: a message carries its recovered signers, an IOU whether its signature is valid.
- Crashes between two statements of one handler; for the PFS, PfsRecovery says what they do to its channels, not what they do to capacities, claims and waiting messages.
- PfsService.PathfindingService.HandleEvent: an opening for an identifier or a pair that is live in another combination, which a replay can produce when a pair was closed and opened again within the interrupted range. PfsNetwork.LinkedIsChannelGraph says that exactly then the graph becomes invalid, and PfsRecovery covers which channels there are until and after the end of that replay; capacities, claims and waiting messages in between are not modelled.
- PfsService.PathfindingService.HandleChannelOpened: the same; and all messages that waited are handled with one clock reading.
- MonitoringRuns.NothingFails: says nothing about runs in which a crash follows a ChannelClosed within its block range or leaves behind a scheduled row that had its effect; MonitoringCrash.RecordedUnlessReopened and MonitoringReplay.AssertionHoldsUnlessRearmed cover the calls and the assertion in every run.
- MonitoringReplay.AssertionHoldsUnlessRearmed: that monitoring is pending again does not mean that the assertion fails, because the request may have become too old by then; for either cause one run in which it fails is shown.
- MonitoringService.Service.PurgeOldMonitorRequests: the schema stores `saved_at` as a text timestamp and the purge compares it with a number, so which waiting requests count as aged is an arbitrary set.
- RequestStore.CloseAgeGrows: the request collector is a second process, but here it acts between two steps; while a block range is handled it could see a closing block above the cursor, whose age is negative, and would accept a request as for a channel just closed.
- Floating point: weights are reals, the deposit margin of 1.1 is the integer comparison 10 d < 11 r, and 1.1 times an amount is rounded down.
- `nx.shortest_simple_paths` and `get_amount_with_fees`: the first is a parameter with a contract, the second an arbitrary function with an optional result that, for schedules whose fees are capped, is never below the amount.
- RouteSearch.GetPaths: says nothing about negative penalties, which the API accepts, as path libraries promise nothing for negative weights; the graph is a snapshot of the channel objects; the service code would also see a message handled during a search; `check_path_request_errors` is not part of this model.
- RouteSearch.GetSinglePath: as `RouteSearch.GetPaths`, for penalties that are not negative.
- IouService.ClaimIous: the program polls for receipts without end; the model sees any finite number of rounds and also says what is still unchecked.
- Iou.ClaimedStaysClaimed: says nothing about the amount of a claimed row, because a claim can be older than the last payment; Iou.SettlingKeepsTheAmount says when.
- HexKeys.RoundTrip: decoding accepts only sign, prefix and digits; the blanks and underscores that Python's `int` also accepts are left out.
- PfsService.Restart: graph nodes without edges are not part of the model; the service does not restore them.
- The update nonces of a PFS channel: both participants write both of them, so they are neither monotone nor independent of the order, and nothing is claimed about them.
