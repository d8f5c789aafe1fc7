# Fog ingest, recovery and client protocol in Dafny

This project models how MobileCoin Fog gets a transaction output from the ledger to its owner, and proves
that it arrives. Several ingest servers with SGX enclaves race through one SQL recovery database; view
servers and wallets read what they wrote.

* `RecoveryTables`, `TableLaws`, `Histories`, `StartBlocks`, `Promises`, `SqlRecoveryDb`: the database. Each
  transaction is a function on the tables; the class carries the transactions out step by step and is proved against
  those functions, and what the rows say about any history of transactions is proved without them.
* `IngestEnclave`, `SgxIngestEnclave`: the enclave, as a function on chunks and as an object with wrapping
  counters and a retry loop.
* `ControllerState`, `IngestProtocol`, `LocalRuns`, `IngestController`, `ControllerRuns`: one server. The protocol
  is a transition system over any number of servers, with crashes, restarts, lost replies and operator actions
  between any two steps; the controller class has the source's loops and is proved to follow it, and what it does
  is proved to extend any run that holds the server (`ControllerRuns.PathIsRun`).
* `StepMeanings`, `StateFiles`, `CoverageRuns`: what the steps of a server, its state file and the key records mean
  in the tables of every run.
* `Contiguity`, `ContiguityRuns`, `RngStreams`, `RngRuns`, `MutualExclusion`, `Invocations`, `InvocationRows`,
  `LedgerRecords`, `ProtocolTheorems`: invariants of every run, proved step by step with a rely/guarantee argument
  (what a transaction of anyone may do to the tables, `TableLaws.Extends`).
* `DrawOrder`, `UnpublishedDraws`, `IngestFailures`, `GapRun`: exactly when the no-gap guarantee fails, over all
  runs, and a run in which it does. `LostRotations`: exactly when a server cannot record a rotation any more.
* `EventPaging`, `EventRuns`, `EventMeanings`, `RngDiscovery`, `RngDelivery`, `TxOutLookup`, `EgressOwners`,
  `BlockTracker`, `ViewServer`, `ViewLoading`, `ViewProgress`, `ClientPolling`, `EndToEnd`, `UserRuns`: the reading
  side, up to the theorem that a user who polls any number of times, on whichever view servers, recovers every output
  addressed to them below their block count, if and only if they were told about its rng
  (`UserRuns.PolledUserRecovers`).
* `StaleCount`, `EarlyEvents`: runs in which that count is wrong, and in which it is right but the user was not
  told about the rng. `RunBuilder` builds the three concrete runs.
* `KexRng`, `FogView`, `Coverage`, `Wallet`: the key-exchange rng, the compressed record form, the block-range
  arithmetic, and the sample wallet's transaction assembly.

Cryptography is symbolic: an rng output is `Prf(secret, counter)`, equal only for equal arguments; a shared
secret is the pair of egress key and view key; a hint opens under one ingress key; an encrypted record is
readable by its owner. The compression lemmas hold for every choice of the underlying functions.
Randomness, timestamps, how a call ends and what peers answer are parameters.

## Where code and documentation disagree

The model follows the code.

* The comment on `process_next_block` says an invocation must be decommissioned when no progress can be made.
  When `ingest_txs` fails the code returns without doing so; `DrawOrder.GapFreeIff` gives the exact condition over
  all runs, `IngestFailures.ChunkKeepsRngsIff` the one for a chunk, and `GapRun.FailedIngestLeavesGap` a run.
* The comment on `confirm_backup` promises an error when a wrong backup is not to be updated. The code answers
  Ok for any idle peer; `IngestController.ConfirmBackup` states both cases.
* Event paging assumes that ids become visible in increasing order. `EventRuns.DeliveredIffAheadOfCursor` gives
  the exact condition for one event, `RngDelivery.LearnedIffAhead` the one for an rng.
* The comment on `highest_fully_processed_block_count` promises that no transaction below the count is missing.
  The view server counts with key records read before the blocks it has loaded since; `StaleCount` shows a run
  in which a newer key is overlooked, and `ViewProgress.CountsSafeIff` gives the exact condition.
* The block count in a query's response is meant to say that what was not found below it is not there. The view
  service reads the user events before the count, so the count may cover a block whose rng the events do not yet
  announce; `EarlyEvents.EventsReadTooEarly` shows a run, and `UserRuns.PolledUserRecovers` and
  `UserRuns.FoundIffAnnouncedAhead` give the exact condition.
* `process_next_block` retries the database when it records a rotation, as if an attempt that reported an error
  could be repeated. If the attempt was committed and only its reply was lost, the id it repeats with is already
  decommissioned, and the event table admits one decommission event per id: every retry fails and the server leaves
  the loop only by a crash (`LostRotations.LostRotationSticks`; exactly then, `LostRotations.RotationEndsIff` and
  `LostRotations.StuckIsLost`).
* `set_report` does not look at the lost flag; `Promises.PublishAfterLossIff` says when that breaks a promise.
* The unique constraint on missed ranges spans all keys, so the second of two lost keys with the same unscanned
  range cannot be reported: `Promises.SecondLossOfSameRangeFails`.
* The wallet adds input values in u64 without overflow checks in release builds; `Wallet.ConservedIff`.

## Model

| member | source | states |
|---|---|---|
| `ContiguityRuns.RunInv` | fog/ingest/server/src/controller.rs:649-688 | in every world of every run the global invariant holds: integrity, contiguity, every server at its key's frontier, every invocation id with one holder |
| `ContiguityRuns.StepKeepsInv` | fog/ingest/server/src/controller.rs:303-543 | one step of anyone keeps that invariant, for any number of servers |
| `ContiguityRuns.StepIsOp` | fog/ingest/server/src/controller.rs:303-543 | a step changes the tables by at most one transaction |
| `ContiguityRuns.ActKeeps` | fog/ingest/server/src/controller.rs:562-716 | each action of a server leaves it placed at its frontier and holding only its own id |
| `Contiguity.ContiguousMeans` | fog/ingest/server/src/controller.rs:649-688 | contiguity of a key means: a block is stored exactly when it is between the start block and the last scanned one |
| `Contiguity.ApplyKeepsDbOk` | fog/sql_recovery_db/src/lib.rs:403-474 | a transaction that adds a key's blocks in order keeps every key's stored blocks an interval |
| `Contiguity.PlacedStable` | fog/sql_recovery_db/src/lib.rs:403-474 | no transaction of another party moves a server off its frontier |
| `ProtocolTheorems.StoredBlocksAreAnInterval` | fog/ingest/server/src/controller.rs:651-688 | in every run, the stored blocks of each key are exactly [start block, last scanned] |
| `ProtocolTheorems.ActiveServerAtFrontier` | fog/ingest/server/src/controller.rs:651-688 | every active server's next block is between its key's start block and one past its last scanned block |
| `ProtocolTheorems.PublishExtendsOrLoses` | fog/ingest/server/src/controller.rs:475-536 | a commit extends the interval by exactly the next block or loses because that block is already stored, and then changes nothing |
| `ProtocolTheorems.NextNeededIsLeastUnstored` | fog/recovery_db_iface/src/types.rs:84-116 | next_needed_block_index is Some of the least covered block not yet stored, and None exactly when all covered blocks are stored |
| `CoverageRuns.CoversIffDue` | fog/recovery_db_iface/src/types.rs:84-95 | in every run a key's record covers a block if and only if, by the tables, it is at or after the start block and: for a lost key stored, for a retired one below the expiry |
| `CoverageRuns.NothingNeededIff` | fog/recovery_db_iface/src/types.rs:97-116 | nothing more is needed of a key if and only if it is lost, or it is retired and every block from its start to its expiry is stored |
| `CoverageRuns.NeededIsLeastDue` | fog/recovery_db_iface/src/types.rs:97-116 | what is needed next is the least block that by the tables the key is to provide and that is not stored |
| `ProtocolTheorems.MissedRangeIsUnstored` | fog/sql_recovery_db/src/lib.rs:482-544 | in every run the range a loss report records is exactly the promised blocks never stored |
| `ProtocolTheorems.GoingIdleStrandsNothing` | fog/ingest/server/src/controller.rs:342-362 | a server that goes idle has every block up to its key's expiry stored, or the block it scanned is stored by another |
| `ProtocolTheorems.RefusedActivationStrandsNothing` | fog/ingest/server/src/controller.rs:690-705 | activation is refused as already retired only when no promised block is left |
| `StepMeanings.GoesIdleIff` | fog/ingest/server/src/controller.rs:338-362 | in every run, a server that publishes a report before a block goes idle if and only if it hears back and the key's row is retired with an expiry below the block; what the report changes in the tables is stated row by row |
| `StepMeanings.RefusesIff` | fog/ingest/server/src/controller.rs:685-707 | the last step of an activation is refused if and only if the report is not acknowledged or the key's row is retired with an expiry below the start block; the next block is the start block |
| `StepMeanings.NewKeyStart` | fog/ingest/server/src/controller.rs:663-678 | a new key's start block is at least the ledger's block count, above every stored block, and no larger than that needs |
| `StepMeanings.KnownKeyStart` | fog/ingest/server/src/controller.rs:650-662 | a known key starts one past the last block stored for it, or at its start block if there is none |
| `StepMeanings.KeyInserted` | fog/ingest/server/src/controller.rs:679-681 | a new key is inserted with the chosen start block and nothing promised, unless it is there already; the activation goes on if and only if the server hears that it was inserted |
| `StepMeanings.InvocationTaken` | fog/ingest/server/src/controller.rs:378-399 | a server goes on with the invocation it holds or records one for its key and egress key from its next block, announced by an event; otherwise the process dies |
| `StepMeanings.ChunkTaken` | fog/ingest/server/src/controller.rs:401-434 | handing over a chunk changes nothing in the tables and nothing of what the server is doing; after a rotation the new egress key is to be recorded, after a failure the block is started again with the invocation held and the rngs as the enclave left them |
| `StepMeanings.InvocationDropped` | fog/ingest/server/src/controller.rs:270-282 | the id is dropped; if the transaction commits, exactly that invocation is decommissioned and announced so |
| `StepMeanings.RotationRecorded` | fog/ingest/server/src/controller.rs:443-463 | a committed rotation decommissions the invocation held and records one for the new egress key from the block being scanned, in one transaction |
| `StepMeanings.BlockStored` | fog/ingest/server/src/controller.rs:488-503 | the row a commit stores holds the server's invocation and key, the block, the ledger's cumulative count, the timestamp it was given and its records; it stores one if and only if the key has none for the block |
| `StepMeanings.TurnFinished` | fog/ingest/server/src/controller.rs:501-522 | a server that won moves to the next block and stays active, one that lost goes idle at the same block |
| `ProtocolTheorems.PublishedExpiryMonotone` | fog/ingest/server/src/controller.rs:1026-1053 | while a server stays active the expiry it publishes never falls |
| `ProtocolTheorems.RunIsHistory` | fog/ingest/server/src/controller.rs:303-543 | a run is a history of database transactions, so every law of histories holds of runs |
| `ProtocolTheorems.RestartRoundTrip` | fog/ingest/server/src/controller.rs:896-972 | restarting from the state file gives the same key, mode, peers, window and next block, no invocation id, a fresh egress key, and the frontier invariant still holds wherever the crash fell |
| `StateFiles.WritesDescribe` | fog/ingest/server/src/controller.rs:1064-1101 | wherever the state file is written, its mode, next block, window, peers and both keys are those of the server |
| `StateFiles.SavedStateSurvives` | fog/ingest/server/src/controller.rs:896-972 | a server that saved its state and has not changed it since crashes and is started: an idle one is back with the same mode, next block, window, peers and key, no invocation id and new rngs, an active one asks its peers first |
| `StateFiles.RestoredAsSaved` | fog/ingest/server/src/controller.rs:896-972 | once every peer has said that it is idle, the active one is back as it was too |
| `StateFiles.FirstStart` | fog/ingest/server/src/controller.rs:94-181 | without a state file a server starts idle at block 0 with the configured window and peers and fresh keys |
| `StateFiles.SettingsSet` | fog/ingest/server/src/controller.rs:200-266 | setting the window or the peers, importing or replacing keys changes that and nothing else of the server |
| `RngRuns.NoRngGaps` | fog/ingest/server/src/controller.rs:292-543 | in every run without ingest failures, each rng's stored search keys are exactly its outputs 0..k-1 in order, and its egress key was announced |
| `RngRuns.RunRngInv` | fog/ingest/server/src/controller.rs:292-543 | published and pending records of every server's every rng form one gapless stream at its counter, through lost races, lost replies, rotations and crashes |
| `RngRuns.StepKeepsRng` | fog/ingest/server/src/controller.rs:401-543 | one step of anyone keeps every stream gapless |
| `RngStreams.KeptChunk` | fog/ingest/server/src/controller.rs:401-432 | absorbing a chunk extends each user's stream by exactly its next outputs |
| `RngStreams.RotatedChunk` | fog/ingest/server/src/controller.rs:434-464 | a mid-block rotation leaves the old key's rows gapless and starts the new key's rngs at 0 |
| `RngStreams.CommittedBlock` | fog/ingest/server/src/controller.rs:475-524 | winning the race turns exactly the pending rows into published ones; losing publishes nothing |
| `IngestFailures.ChunkKeepsRngsIff` | fog/ingest/server/src/controller.rs:416-427 | handing over a chunk keeps the rngs in step with the database if and only if the chunk overflows no more often than it is retried |
| `IngestEnclave.TooBigLeaves` | fog/ingest/enclave/impl/src/lib.rs:303-322 | an enclave that gives up is left under the last egress key it drew, with the last attempt's draws, less the counters the overflow lost |
| `DrawOrder.RunDrawsInOrder` | fog/ingest/server/src/controller.rs:401-543 | in every run, failed ingests included, every server's pending rows are consecutive outputs of each rng, no more of an rng is stored than was drawn, and the current counters say where the pending rows end |
| `DrawOrder.StepGapIff` | fog/ingest/server/src/controller.rs:475-524 | a step makes the first gap if and only if it commits a block in which some rng's rows do not start where the stored ones end |
| `DrawOrder.GapFreeIff` | fog/ingest/server/src/controller.rs:292-543 | in every run the database has no rng gaps if and only if no step so far committed out of step |
| `UnpublishedDraws.OutOfStepIffUnpublished` | fog/ingest/server/src/controller.rs:424-464 | for the rows of any rng, made before a rotation in the same block or after: the commit is out of step if and only if, in the last world in which that egress key was the current one, the enclave had drawn outputs for the user that were neither stored nor pending |
| `UnpublishedDraws.WasCurrent` | fog/ingest/server/src/controller.rs:434-464 | rows that are pending under a replaced egress key have not changed, nor what is stored of their rng, since the rotation that replaced it |
| `LostRotations.LostRotationSticks` | fog/ingest/server/src/controller.rs:440-461 | in every run, after a rotation was committed and its reply lost, the server stays in that rotation, with the same id and enclave, until it crashes |
| `LostRotations.RotationEndsIff` | fog/sql_recovery_db/migrations/2020-11-03-203017_create_initial_db/up.sql:88-89 | an attempt to record a rotation that is answered succeeds if and only if the invocation the server holds is not yet decommissioned |
| `LostRotations.StuckIsLost` | fog/ingest/server/src/controller.rs:440-461 | a server recording a rotation holds a decommissioned id only if it committed this rotation and did not hear of it |
| `LostRotations.RunRotationInv` | fog/sql_recovery_db/src/lib.rs:305-347 | in every run every recorded egress key was drawn by the enclaves, and a new one is not recorded before the transaction that replaces the invocation |
| `DrawOrder.GapsStay` | fog/ingest/server/src/controller.rs:292-301 | a gap is never filled: a database without gaps never had one |
| `GapRun.FailedIngestLeavesGap` | fog/ingest/server/src/controller.rs:424-427 | a concrete run whose failed ingest leaves a gap in a user's rng and an egress key nobody was told about |
| `GapRun.EnclaveGivesUp` | fog/ingest/enclave/impl/src/lib.rs:303-322 | the failure in that run is the enclave's own: eleven overflows in a row |
| `MutualExclusion.NoTwoActivePeers` | fog/ingest/server/src/controller.rs:562-716 | with fixed symmetric peer lists no two peers are ever both active, restores from a state file included |
| `MutualExclusion.RunMutex` | fog/ingest/server/src/controller.rs:562-716 | in every run: of two peers at most one is active or has a state file saying so, and a peer that has been found idle is not |
| `Promises.PromiseCoverage` | fog/sql_recovery_db/src/lib.rs:476-546 | every block promised by any report ever published is covered by the key's record or in a missed range at all later times, if no lost key is published again |
| `Promises.RunKeepsPromises` | fog/sql_recovery_db/src/lib.rs:945-1024 | every history without a publish after loss keeps all promises |
| `Promises.PublishAfterLossIff` | fog/sql_recovery_db/src/lib.rs:961-968 | publishing a lost key, by whatever invocation, keeps its promise iff the new expiry is within the loss horizon or other missed ranges answer the rest |
| `Promises.PublishAfterLossBreaksPromise` | fog/sql_recovery_db/src/lib.rs:961-968 | a concrete history in which publishing a lost key leaves a promised block unanswered |
| `Promises.LostKeyPartition` | fog/sql_recovery_db/src/lib.rs:482-544 | right after the first loss report, each promised block is covered or in the missed range, and never both |
| `Promises.LossAnswers` | fog/sql_recovery_db/src/lib.rs:482-544 | a loss report answers every promised block of its key |
| `Promises.ReportLostCommitsIff` | fog/sql_recovery_db/src/lib.rs:476-546 | a loss report commits iff the key exists and its missed range, if any, is not yet recorded |
| `Promises.SecondLossOfSameRangeFails` | fog/sql_recovery_db/migrations/2020-11-03-203017_create_initial_db/up.sql:92-96 | two lost keys with the same missed range: the second report fails and its key is not marked lost |
| `TableLaws.RunLaws` | fog/sql_recovery_db/src/lib.rs:953-1023 | over every history: integrity, fixed start blocks, expiry never falls, report rows within their key's expiry, rows and events only appended |
| `TableLaws.ApplyKeepsInv` | fog/sql_recovery_db/migrations/2020-11-03-203017_create_initial_db/up.sql:1-131 | every transaction keeps the foreign keys and uniqueness constraints |
| `TableLaws.RetiredExpiryFrozen` | fog/sql_recovery_db/src/lib.rs:953-968 | while a key stays retired its expiry is frozen |
| `TableLaws.FirstWriterWins` | fog/sql_recovery_db/src/lib.rs:403-474 | once a (key, block) row exists no later history changes it |
| `TableLaws.AlreadyScannedIff` | fog/sql_recovery_db/src/lib.rs:455-471 | add_block_data answers already-scanned iff some row of the key has that block |
| `Histories.RetiredIffLastSaid` | fog/sql_recovery_db/src/lib.rs:215-228 | after any history a key is retired if and only if it was retired while it existed and not unretired since |
| `Histories.LostIffReported` | fog/sql_recovery_db/src/lib.rs:476-546 | a key is lost if and only if a loss report for it has committed |
| `Histories.ExpiryIsLargestPublished` | fog/sql_recovery_db/src/lib.rs:953-968 | a key's expiry is the largest one published for it while it was not retired, or 0 |
| `Histories.ReportIsLastPublished` | fog/sql_recovery_db/src/lib.rs:990-1034 | a report is there if and only if it was published and not removed since, and says what was published last under its id |
| `Histories.StartIsInserted` | fog/sql_recovery_db/src/lib.rs:193-213 | a key is there if and only if it was inserted, with the start block of the transaction that inserted it |
| `Invocations.OneOwner` | fog/ingest/server/src/controller_state.rs:197-204 | an idle serving server holds no invocation id, and no id is held by two servers |
| `Invocations.RowsOfInvocation` | fog/recovery_db_iface/src/types.rs:118-175 | all rows of an id are for its ingress key, at or after its start block, inside the key's interval |
| `Invocations.RetiredGetsNoRows` | fog/sql_recovery_db/src/lib.rs:83-108 | a dropped, replaced or decommissioned id never receives another block |
| `Invocations.CannotProvideNeverAppears` | fog/recovery_db_iface/src/types.rs:156-175 | once can_provide_block is false for (id, block) no row for it ever appears |
| `InvocationRows.CanProvideIff` | fog/recovery_db_iface/src/types.rs:156-175 | in every run can_provide_block is exact: a decommissioned invocation can provide precisely the blocks stored under it, another one every block from its start block on |
| `InvocationRows.RunRowsInv` | fog/ingest/server/src/controller.rs:378-536 | in every run the blocks stored under an invocation are consecutive from its start block, and its holder stands right after them or repeats one |
| `Invocations.StartBlockFixed` | fog/recovery_db_iface/src/types.rs:118-175 | an invocation's key, egress key and start block never change |
| `LedgerRecords.RunLedgerInv` | fog/ingest/server/src/controller.rs:401-473 | the records of every stored block are the ledger's outputs in order, each encrypted to its recipient with its global index |
| `LedgerRecords.OneRecordPerOutput` | fog/ingest/enclave/impl/src/lib.rs:100-172 | every stored row has one record for each output of its block, in order, whoever it is for, except those with malformed hints |
| `LedgerRecords.EveryOutputReachesItsOwner` | fog/ingest/server/src/controller.rs:292-301 | in every run in which the database has no gaps, an output whose hint was encrypted to a user has a record at a position of an rng all of whose earlier outputs are stored; without ingest failures that rng was announced |
| `EndToEnd.UserRecoversBelowCount` | fog/view/server/src/block_tracker.rs:75-92 | in a run whose database has no gaps, for requests to any view servers, each of which told a count that overlooks nothing: every output of a promised block below all the counts and not reported missed has a record that decompresses to the ledger's output, and its owner finds it if and only if they were told about its rng |
| `UserRuns.PolledUserRecovers` | fog/view/protocol/src/polling.rs:55-205 | the same for a user who polls any number of times, each request answered by any view server or failing, findings, rngs, cursor and count carried over: right after the poll that moved the count above a block, an owed output of it is found if and only if its rng was known by then, and it stays found |
| `UserRuns.DonePollFindsIff` | fog/view/protocol/src/polling.rs:107-205 | one poll whose search came to its end, with every count told above the block: found if and only if the rng is known |
| `UserRuns.UserNeverForgets` | fog/view/protocol/src/polling.rs:193-203 | over any polls: what was found stays found, what was learned stays known, the count never moves back |
| `UserRuns.UserKnowsDelivered` | fog/view/protocol/src/polling.rs:66-95 | the user knows exactly the rngs announced in the events delivered so far, and stands at the cursor after them |
| `UserRuns.PollIsCallable` | fog/view/protocol/src/polling.rs:107-177 | at any point of such a run, whichever view servers answer, the precondition of the polling loop holds |
| `UserRuns.FoundIffAnnouncedAhead` | fog/view/server/src/fog_view_service.rs:68-86 | whenever the events were read and whatever the order of their ids: right after the poll that moved the count, found if and only if an announcement of the egress key was visible at that poll's look with an id beyond the user's cursor of the time it became visible |
| `EndToEnd.EventsReadLastFindAll` | fog/view/server/src/fog_view_service.rs:68-86 | with ids in commit order and one of the requests answered no later than the last events were read, every output below the counts is found |
| `EndToEnd.ToldOnceStored` | fog/view/server/src/fog_view_service.rs:68-71 | with ids in commit order, a user who looked at the events after a row was stored, or no earlier than the count was computed, was told about its rng |
| `EarlyEvents.EventsReadTooEarly` | fog/view/server/src/fog_view_service.rs:68-86 | a concrete run in which the events are read before the count and an output below the count is not found |
| `EndToEnd.LoadedOutputFoundIff` | fog/view/protocol/src/polling.rs:55-190 | an output addressed to a user in a row that every view server asked has loaded is found if and only if its rng is among those searched |
| `EndToEnd.LoadedWithin` | fog/view/server/src/server.rs:487-548 | whatever part of whatever database a view server has loaded, it answers as the database of any later world |
| `EndToEnd.CountedIsLoaded` | fog/view/server/src/block_tracker.rs:75-92 | a promised block below a count that overlooks nothing, and not missed, is loaded when the contents are looked up, at the count's step or later |
| `EndToEnd.LoadsOnly` | fog/view/server/src/block_tracker.rs:64-73 | a view server never unloads a block |
| `EndToEnd.LoadedServerHoldsPrefixes` | fog/view/protocol/src/polling.rs:107-177 | a gapless store answers a search key of an rng iff its counter is below the stream's length |
| `EndToEnd.ServersArePollable` | fog/view/protocol/src/polling.rs:107-177 | the polling loop's precondition, for requests answered by any view servers at any times, is what the protocol and the view servers guarantee |
| `ViewLoading.LoadedGapFree` | fog/view/server/src/db_fetcher.rs:205-290 | however far a view server has loaded each key of a database without gaps, it holds a prefix of every rng's stream without gaps |
| `ViewLoading.LoadedIsPrefix` | fog/view/server/src/db_fetcher.rs:205-290 | of every rng, the loaded records are a prefix of the stored ones |
| `EgressOwners.RunOwners` | fog/ingest/server/src/controller.rs:759-787 | in every run an egress key serves one ingress key, although an idle server's ingress key can be replaced alone |
| `ViewServer.ViewRunInv` | fog/view/server/src/db_fetcher.rs:192-290 | in every run of the two threads both advance block by block, the worker behind the fetcher, over stored blocks only, and what was fetched is covered by the last records or was stored when they were read |
| `ViewServer.LoadsAreConsecutive` | fog/view/server/src/block_tracker.rs:64-73 | the tracker's assertion that no block is skipped or repeated never fires, and a loaded block is stored |
| `ViewProgress.CountSafeIff` | fog/view/server/src/block_tracker.rs:93-176 | one count is right, given that the last one was, if and only if it passes no block, other than a missed one, promised for a key whose record read last does not cover it |
| `ViewProgress.CountsSafeIff` | fog/view/server/src/block_tracker.rs:75-176 | over every run of the protocol and of a view server beside it, all counts told are right if and only if none of them overlooks a promised key |
| `ViewProgress.SoundCountsAreSafe` | fog/view/server/src/block_tracker.rs:75-92 | after counts that overlook nothing, every promised block below the count is loaded for its key or reported missed, then and ever after |
| `ViewProgress.FreshIsSound` | fog/view/server/src/server.rs:413-421 | a count that does not go past the ledger as it was when the records were read overlooks nothing, if no lost key was published again |
| `ViewProgress.LoadedIsCovered` | fog/recovery_db_iface/src/types.rs:84-95 | a loaded block that a key was promised for is covered by the key's record read last, retired or lost as it may be |
| `ViewProgress.CountWithinLedger` | fog/view/server/src/block_tracker.rs:93-176 | no count goes past the ledger |
| `ViewProgress.PromiseAnswered` | fog/recovery_db_iface/src/types.rs:84-95 | a key promised for a block when it is appended covers it ever after, or the block is reported missed |
| `ViewProgress.RunStarts` | fog/ingest/server/src/controller.rs:663-680 | in every run keys start, and rows stand, within the ledger |
| `StaleCount.StaleRecordsMiscount` | fog/view/server/src/server.rs:400-421 | a concrete run in which counting with key records read earlier passes a block that a newer key was promised for |
| `BlockTracker.BlockTracker.NextBlocks` | fog/view/server/src/block_tracker.rs:32-60 | for each key the block after the last loaded one, or its start block, if its record covers it |
| `BlockTracker.BlockTracker.BlockProcessed` | fog/view/server/src/block_tracker.rs:64-73 | only that key's progress moves, by one block |
| `BlockTracker.BlockTracker.HighestKnownBlockCount` | fog/view/server/src/block_tracker.rs:178-184 | one past the highest loaded block, or 0 |
| `BlockTracker.BlockTracker.HighestFullyProcessedBlockCount` | fog/view/server/src/block_tracker.rs:93-176 | the count stops at the first block that is unknown or that some key must provide and has not; the reason is such a key |
| `CoverageRuns.CountStopsAtFirstAwaited` | fog/view/server/src/block_tracker.rs:93-176 | in every view run a count passes exactly the blocks some key is loaded to and that, by the tables when the records were read, no key still has to provide; so no retired key at or past its expiry holds it up |
| `CoverageRuns.FetchIsNextDue` | fog/view/server/src/block_tracker.rs:32-60 | a block is fetched for a key only if the key is to provide it, is stored, and follows all fetched before, from the start block on |
| `CoverageRuns.LoadedOneByOne` | fog/view/server/src/block_tracker.rs:64-73 | what counts as loaded for a key was loaded, every block of it from the start block, by a step of its own |
| `IngestEnclave.AbsorbDraws` | fog/ingest/enclave/impl/src/rng_store.rs:129-159 | absorbing a chunk draws for every user exactly the next outputs of their rng |
| `IngestEnclave.OutputsRepeat` | fog/ingest/enclave/impl/src/rng_store.rs:129-159 | an rng repeats itself after 2^64 outputs and not before |
| `IngestEnclave.AbsorbFaithful` | fog/ingest/enclave/impl/src/lib.rs:100-172 | a chunk's rows are its outputs in order, to the right users, with the right metadata; malformed hints have none |
| `IngestEnclave.AbsorbJoin` | fog/ingest/server/src/controller.rs:401-473 | absorbing two consecutive pieces is absorbing them at once |
| `IngestEnclave.FaithfulFinds` | fog/ingest/enclave/impl/src/lib.rs:100-172 | every output addressed to a user under this ingress key has its record |
| `IngestEnclave.RotationRestartsChunk` | fog/ingest/enclave/impl/src/lib.rs:285-327 | after overflows the whole chunk is made anew under the last fresh egress key, and that key is the one announced |
| `IngestEnclave.TooBigIff` | fog/ingest/enclave/impl/src/lib.rs:303-310 | ingest_txs gives up iff the chunk overflows more often than it may be retried |
| `SgxIngestEnclave.SgxIngestEnclave.NextRngOutput` | fog/ingest/enclave/impl/src/rng_store.rs:129-159 | the stored wrapping counter yields output number `draws so far`, and counts one more; an overflow is reported after the draw and may lose counters |
| `SgxIngestEnclave.SgxIngestEnclave.IngestTxo` | fog/ingest/enclave/impl/src/lib.rs:102-163 | one output: the draw and the encrypted record |
| `SgxIngestEnclave.SgxIngestEnclave.AttemptIngestTxs` | fog/ingest/enclave/impl/src/lib.rs:88-173 | the loop over a chunk computes Absorb, or stops at the draw with which the table overflows and leaves what the overflow left |
| `SgxIngestEnclave.SgxIngestEnclave.IngestTxs` | fog/ingest/enclave/impl/src/lib.rs:285-327 | the retry loop computes the specification IngestTxs and fails iff it overflows too often |
| `SgxIngestEnclave.SgxIngestEnclave.NewEgressKey` | fog/ingest/enclave/impl/src/lib.rs:341-349 | counters are cleared together with the egress key |
| `SgxIngestEnclave.SgxIngestEnclave.NewKeys` | fog/ingest/enclave/impl/src/lib.rs:329-339 | both keys replaced, nothing drawn |
| `SgxIngestEnclave.SgxIngestEnclave.SetIngressPrivateKey` | fog/ingest/enclave/impl/src/lib.rs:252-268 | only the ingress key changes |
| `IngestController.IngestController.ProcessNextBlock` | fog/ingest/server/src/controller.rs:303-543 | every execution, however its calls end and whatever others commit in between, is a path of the protocol that begins with the report; it ends idle with fresh rngs or one block further, and the state file says so; it gives up only when a chunk overflows too often or a retry loop has made every attempt |
| `IngestController.IngestController.ScanAndCommit` | fog/ingest/server/src/controller.rs:401-542 | scan, commit, conclude and write the state file: a path of the protocol |
| `IngestController.IngestController.ScanChunks` | fog/ingest/server/src/controller.rs:401-473 | for any chunk size and no overflow the rows are those of ingesting the block at once; the running index ends at the cumulative count |
| `IngestController.ChunksAreOneBlock` | fog/ingest/server/src/controller.rs:401-473 | handing a block over in chunks of any size without rotation gives the rows and the enclave of handing it over at once |
| `IngestController.IngestController.IngestOne` | fog/ingest/server/src/controller.rs:416-432 | one enclave call is the protocol's kept, rotated or failed chunk; a rotated or failed one ends under an egress key drawn at an overflow |
| `IngestController.IngestController.RotateInvocation` | fog/ingest/server/src/controller.rs:444-463 | one attempt to replace the invocation after a rotation |
| `IngestController.IngestController.RotateRetrying` | fog/ingest/server/src/controller.rs:440-461 | the retry loop around it; it ends without success only after every attempt |
| `IngestController.IngestController.TryCommit` | fog/ingest/server/src/controller.rs:490-503 | one attempt to commit the block |
| `IngestController.IngestController.CommitRetrying` | fog/ingest/server/src/controller.rs:488-536 | the retry loop around it; it ends without an answer only after every attempt |
| `IngestController.IngestController.Conclude` | fog/ingest/server/src/controller.rs:501-522 | won: next block; lost: idle, no id, fresh rngs |
| `IngestController.IngestController.StartBlock` | fog/ingest/server/src/controller.rs:338-376 | publish a report; idle if and only if it is acknowledged and the key's row is retired with an expiry below the block |
| `IngestController.IngestController.ObtainInvocation` | fog/ingest/server/src/controller.rs:378-399 | use the id we hold or record a new one, else the process dies |
| `IngestController.IngestController.DecommissionInvocation` | fog/ingest/server/src/controller.rs:270-282 | the id is dropped whether or not the database hears of it |
| `IngestController.IngestController.NewEgressKey` | fog/ingest/server/src/controller.rs:250-266 | drop the id, fresh egress key, state file written |
| `IngestController.IngestController.NewKeys` | fog/ingest/server/src/controller.rs:230-246 | refused unless idle; both keys fresh, id dropped, state file of the new key |
| `IngestController.IngestController.PublishReport` | fog/ingest/server/src/controller.rs:1026-1053 | the report carries next block + window and our id; the reply is the key's status |
| `IngestController.IngestController.WriteStateFile` | fog/ingest/server/src/controller.rs:1064-1101 | whatever sealed key was cached, the file written says the server's mode, next block, window, peers and key, with the sealed key of the same ingress key |
| `IngestController.IngestController.Activate` | fog/ingest/server/src/controller.rs:562-716 | a path of the protocol; succeeds if and only if every peer said it was idle and was, or was made, a backup of our key and peer list, every call is answered, no one else inserts the key, and the key is not retired with an expiry below the start block; then it stands at the start block ChooseStart promises, with the state file written; a failed one leaves the server idle |
| `IngestController.IngestController.ConfirmBackups` | fog/ingest/server/src/controller.rs:629-647 | true iff every peer but ourselves is an idle backup of our key and peer list, or was made one |
| `IngestController.IngestController.CheckPeers` | fog/ingest/server/src/controller.rs:598-627 | true iff every peer but ourselves answered idle |
| `IngestController.IngestController.ChooseStart` | fog/ingest/server/src/controller.rs:649-684 | a known key after the last block stored for it, or at its start block; a new one after the ledger and every stored block, and its row is inserted with that start block |
| `IngestController.IngestController.PublishAndActivate` | fog/ingest/server/src/controller.rs:685-707 | active if and only if the report is acknowledged and the key not retired with an expiry below the start block |
| `IngestController.IngestController.RestoreStateFromSummary` | fog/ingest/server/src/controller.rs:896-972 | restores iff idle, our id is listed, and for an active file the key matches and all peers are idle; otherwise nothing changes |
| `IngestController.ConfirmBackup` | fog/ingest/server/src/controller.rs:1218-1337 | with update_if_wrong: Ok iff idle and now holding our key and peers; without it: Ok iff idle, whatever key the peer holds |
| `IngestController.IngestController.Poll` | fog/ingest/server/src/worker.rs:67-145 | any number of worker rounds is a path of the protocol, round by round; it stops early only if the process dies or the watcher never has the timestamp |
| `IngestController.IngestController.PollOnce` | fog/ingest/server/src/worker.rs:67-145 | a round starts on the next block if and only if the server is active, the block is there and the watcher has its timestamp; otherwise it does nothing |
| `IngestController.GetWatcherTimestamp` | fog/ingest/server/src/worker.rs:147-198 | the timestamp of the first answer that settles it, the largest u64 for a block out of bounds; every other answer is asked again |
| `LocalRuns.StepIsProtocolStep` | fog/ingest/server/src/controller.rs:303-543 | a step of such a path is a protocol step in every world with that ledger, database and server |
| `ControllerRuns.PathIsRun` | fog/ingest/server/src/controller.rs:303-543 | a path of the controller object, with the other parties' transactions made by enabled steps of theirs and every drawn egress key new, extends a run that holds the server to a run that ends in the object's state and database |
| `ControllerRuns.FreshDrawsEnable` | fog/ingest/enclave/impl/src/lib.rs:285-327 | when what the enclave draws is new, no failed chunk moves a counter back: the protocol's condition on failed chunks holds |
| `ControllerState.IngestControllerState.IncrementNextBlockIndex` | fog/ingest/server/src/controller_state.rs:143-156 | next block and published expiry grow by one |
| `ControllerState.IngestControllerState.SetNextBlockIndex` | fog/ingest/server/src/controller_state.rs:160-167 | allowed iff idle |
| `ControllerState.IngestControllerState.SetPubkeyExpiryWindow` | fog/ingest/server/src/controller_state.rs:177-194 | refused iff it would shrink an active server's window; the published expiry never falls while active |
| `SqlRecoveryDb.SqlRecoveryDb.NewIngressKey` | fog/sql_recovery_db/src/lib.rs:193-213 | inserts iff the key is new, and says so |
| `SqlRecoveryDb.SqlRecoveryDb.RetireIngressKey` | fog/sql_recovery_db/src/lib.rs:215-228 | only the retired flag of an existing key changes |
| `SqlRecoveryDb.SqlRecoveryDb.DecommissionIngestInvocation` | fog/sql_recovery_db/src/lib.rs:83-108 | flag and event together, once per id, or nothing |
| `SqlRecoveryDb.SqlRecoveryDb.NewIngestInvocation` | fog/sql_recovery_db/src/lib.rs:305-347 | decommission of the previous id, new row and event in one transaction, or nothing |
| `SqlRecoveryDb.SqlRecoveryDb.AddBlockData` | fog/sql_recovery_db/src/lib.rs:403-474 | appends the block's row, or answers already-scanned and changes nothing |
| `SqlRecoveryDb.SqlRecoveryDb.ReportLostIngressKey` | fog/sql_recovery_db/src/lib.rs:476-546 | marks the key lost and records the promised blocks not scanned, or rolls back |
| `SqlRecoveryDb.SqlRecoveryDb.SetReport` | fog/sql_recovery_db/src/lib.rs:945-1024 | raises the expiry, never lowers it and never while retired; no report row for a retired key |
| `SqlRecoveryDb.SqlRecoveryDb.RemoveReport` | fog/sql_recovery_db/src/lib.rs:1027-1034 | only that report goes |
| `SqlRecoveryDb.SqlRecoveryDb.GetTxOuts` | fog/sql_recovery_db/src/lib.rs:727-764 | one answer per query, in order, each the stored payload or NotFound |
| `TxOutLookup.LookupSound` | fog/sql_recovery_db/src/lib.rs:727-764 | Found only with a record stored at or after the start block, NotFound only when there is none |
| `TxOutLookup.AnswerMeans` | fog/sql_recovery_db/src/lib.rs:727-764 | the answer to a query names its search key and is Found with a stored payload, or nothing is stored under the key |
| `TxOutLookup.LookupExact` | fog/sql_recovery_db/src/lib.rs:727-764 | with distinct search keys, Found with a payload iff that record is stored |
| `TxOutLookup.GapFreeDistinct` | fog/sql_recovery_db/src/lib.rs:711-764 | gapless rngs make all stored search keys distinct |
| `TxOutLookup.LookupsAgree` | fog/sql_recovery_db/src/lib.rs:727-764 | in every run without ingest failures a lookup finds exactly the stored record |
| `EventPaging.SearchUserEvents` | fog/sql_recovery_db/src/lib.rs:553-709 | the page tells, once each and in id order, exactly of the events beyond the cursor; the new cursor is the largest id; it fails iff an rng record has no invocation row, and names it |
| `EventPaging.RenderTells` | fog/sql_recovery_db/src/lib.rs:637-696 | what is shown of an event is exactly: id, egress key and start block of a new invocation's row; the last block stored under a decommissioned one, or 0; start and end of a missed range |
| `EventRuns.NeverTwiceAndInOrder` | fog/sql_recovery_db/src/lib.rs:553-709 | over any interleaving of appends and polls, events arrive in id order, none twice |
| `EventRuns.CursorNeverMovesBack` | fog/sql_recovery_db/src/lib.rs:616-636 | the cursor never moves back and nothing delivered is taken back |
| `EventRuns.DeliveredIffAheadOfCursor` | fog/sql_recovery_db/src/lib.rs:575-579 | an event is delivered by the next poll iff its id was beyond the cursor when it became visible |
| `EventRuns.InOrderNothingIsMissed` | fog/sql_recovery_db/src/lib.rs:575-579 | if ids become visible in increasing order every event is delivered |
| `EventRuns.LateCommitIsMissed` | fog/sql_recovery_db/migrations/2020-11-03-203017_create_initial_db/up.sql:80-82 | otherwise one can be lost: an event with id 1 committed after event 2 was read is never returned |
| `RngDelivery.LearnedIffAhead` | fog/sql_recovery_db/src/lib.rs:553-709 | a client that pages beside a run of the protocol knows an egress key if and only if one of its announcements came with an id beyond the cursor, in whatever order ids become visible |
| `RngDiscovery.PageOfIsPage` | fog/sql_recovery_db/src/lib.rs:575-579 | with ids in commit order a poll returns exactly the events not yet seen |
| `RngDiscovery.ReceivedAll` | fog/sql_recovery_db/src/lib.rs:553-709 | polls at any times of a run receive each event of the table once and in order |
| `RngDiscovery.EveryRngIsDiscovered` | fog/sql_recovery_db/src/lib.rs:553-709 | after paging to the end a client knows exactly the egress keys of the database |
| `EventMeanings.MissedBlocksKnown` | fog/sql_recovery_db/src/lib.rs:683-696 | a client that has paged to the end has been told that a block was missed if and only if it was reported missed |
| `EventMeanings.RngRecordsKnown` | fog/sql_recovery_db/src/lib.rs:639-669 | its rng records are exactly the invocation rows: id, egress key and start block |
| `EventMeanings.EndedInvocationsKnown` | fog/sql_recovery_db/src/lib.rs:670-682 | it knows exactly the decommissioned invocations, each with the largest block stored under it, or 0 if there is none |
| `EventMeanings.TellsForGood` | fog/sql_recovery_db/src/lib.rs:553-709 | what was told about an event at any time stays true of all later tables |
| `ClientPolling.MatchRng` | fog/view/protocol/src/user_rng_set.rs:109-118 | one rng takes its hits out of the shared answers and is advanced past them, up to the batch size and to what the server holds; a server that holds less than was consumed does not move it; the other rngs' answers are untouched |
| `ClientPolling.PollRound` | fog/view/protocol/src/polling.rs:119-166 | each live rng advances to the end of its batch or of its stream and is dead iff it fell short; no answer is left over unless a batch ran past the end of the counter |
| `ClientPolling.Search` | fog/view/protocol/src/polling.rs:107-190 | on any servers, any request failing: of each rng the consecutive outputs from where it stood are found; at the end each rng has met a server that holds no more of it, and the count is the least one told; on servers that hold the same the loop ends as soon as the doubled batches exceed what is left of every stream, with every rng at its end |
| `ClientPolling.BatchesDouble` | fog/view/protocol/src/polling.rs:107-190 | the batches are 2, 4, 8 and so on to 512, and then 1000 each time |
| `ClientPolling.Poll` | fog/view/protocol/src/polling.rs:55-205 | the page's rngs are learned and the cursor moved; nothing is searched for a count that is not new; findings are added to those the user has; the count moves only forward and only when the search came to its end |
| `ClientPolling.MovedCountIsLeast` | fog/view/protocol/src/polling.rs:151-203 | if the count moved, the search came to its end and the count is at most every count told in the poll |
| `ClientPolling.DoneMovesCount` | fog/view/protocol/src/polling.rs:151-203 | a search that came to its end moves the count at least to one of the counts told |
| `ClientPolling.PollKeeps` | fog/view/protocol/src/user_rng_set.rs:109-118 | a poll keeps what was found and adds only further consecutive outputs of each rng |
| `ClientPolling.LearnRngs` | fog/view/protocol/src/user_rng_set.rs:58-71 | the rng records of a page are taken in, in order, each egress key once |
| `ClientPolling.LearnedKeeps` | fog/view/protocol/src/user_rng_set.rs:58-71 | exactly the egress keys known before or named in the page are known after, one rng each, and nothing is lost |
| `KexRng.StreamRefinement` | fog/kex_rng/src/versioned/buffered.rs:32-182 | after any sequence of advance, next, clone and store/load steps the buffer is prf(secret, counter) |
| `KexRng.KthDrawIsKthOutput` | fog/kex_rng/src/versioned/macros.rs:9-13 | the k-th draw is prf(secret, k) |
| `KexRng.LoadAfterStore` | fog/kex_rng/src/versioned/buffered.rs:142-181 | load(store(r)) = r |
| `KexRng.StoreAfterLoad` | fog/kex_rng/src/versioned/buffered.rs:142-181 | store(load(s)) = s whenever the load succeeds |
| `KexRng.LoadTrustsBuffer` | fog/kex_rng/src/versioned/buffered.rs:160-181 | a loaded rng is in step iff the stored buffer was |
| `KexRng.LoadErrorSays` | fog/kex_rng/src/versioned/buffered.rs:160-181 | a failed load says why: another version, or the length found and the length expected of buffer or secret |
| `KexRng.VersionedRoundTrip` | fog/kex_rng/src/versioned/macros.rs:55-72 | storing and loading through the version dispatch gives the same rng of the same version |
| `KexRng.UnknownVersionIff` | fog/kex_rng/src/versioned/macros.rs:46-62 | a stored rng is refused as unknown iff no version has its id |
| `KexRng.BufferedKexRng.Advance` | fog/kex_rng/src/versioned/buffered.rs:40-43 | counter and buffer move together, the counter wrapping |
| `KexRng.BufferedKexRng.Next` | fog/kex_rng/src/versioned/macros.rs:9-13 | returns the current output, then advances |
| `KexRng.BufferedKexRng.Take` | fog/view/protocol/src/polling.rs:122-133 | n draws are the next n outputs |
| `Coverage.ValidIffInhabited` | fog/fog_types/src/common.rs:23-29 | a range is valid iff it contains a block |
| `Coverage.OverlapsIffShareBlock` | fog/fog_types/src/common.rs:31-33 | two valid ranges overlap iff they share a block |
| `Coverage.EmptyRangeOverlaps` | fog/fog_types/src/common.rs:31-33 | an empty range inside another counts as overlapping although it shares no block |
| `FogView.RecoveryRoundTrip` | fog/fog_types/src/view.rs:204-333 | recovery returns the same output with its hint zeroed iff the output was built for that view key |
| `FogView.RecordRoundTrip` | fog/fog_types/src/view.rs:212-254 | record form and back is the identity |
| `FogView.OldRecordAgrees` | fog/fog_types/src/view.rs:228-254 | a record with a full 32-byte commitment decodes like the crc-only one |
| `FogView.RecordSaysWhere` | fog/fog_types/src/view.rs:212-226 | a record carries the global index, block index and timestamp it was made with |
| `FogView.RefusedIffWrongLength` | fog/fog_types/src/view.rs:228-254 | a record is refused exactly if a key or the commitment has the wrong length, and the error names a length found |
| `FogView.InvalidKeyIff` | fog/fog_types/src/view.rs:306-333 | recovery fails for an invalid key exactly if the public key is not a point |
| `FogView.CheckedFailsIff` | fog/fog_types/src/view.rs:306-333 | it fails for the amount exactly if none can be formed, and for the checksum exactly if it differs |
| `FogView.OwnerRecovers` | fog/fog_types/src/view.rs:306-333 | the owner recovers amount and commitment |
| `FogView.OnlyOwnerRecovers` | fog/fog_types/src/view.rs:306-333 | a recovery that matches the original means it was built for that key |
| `FogView.RecoveryKeepsKeys` | fog/fog_types/src/view.rs:306-333 | any successful recovery keeps the target and public keys |
| `Wallet.BuildTransaction` | fog/sample-paykit/src/client.rs:505-632 | each input is placed in the ring popped for it; outputs are the payment to the target and, iff positive, the change to ourselves; errors exactly for a ring count mismatch or insufficient (wrapped) funds, and otherwise only for what the library refuses |
| `Wallet.PlaceInput` | fog/sample-paykit/src/client.rs:543-583 | the real member is the input, ring and proofs keep their length (1 if empty), only the first member may be replaced and only when the input was absent |
| `Wallet.Position` | fog/sample-paykit/src/client.rs:553-554 | the first position of the input, if any |
| `Wallet.RingStaysDistinct` | fog/sample-paykit/src/client.rs:543-583 | a ring of distinct members stays one, with the input in it once |
| `Wallet.ProofsStayPaired` | fog/sample-paykit/src/client.rs:543-583 | every proof still proves its own member |
| `Wallet.SumInputs` | fog/sample-paykit/src/client.rs:530 | the u64 sum is the true sum modulo 2^64 |
| `Wallet.ConservedIff` | fog/sample-paykit/src/client.rs:530-534 | inputs = outputs + fee iff both u64 sums wrapped equally often |
| `Wallet.ConservedWithoutOverflow` | fog/sample-paykit/src/client.rs:530-534 | without overflow value is conserved, change is what is left, and funds are insufficient iff they are |
| `Wallet.OverflowLosesValue` | fog/sample-paykit/src/client.rs:530-534 | two inputs of 2^63 and nothing paid: no change is made |
| `Wallet.GetRings` | fog/sample-paykit/src/client.rs:407-468 | different outputs are sampled and their answers cut in order into num_rings rings of ring_size; errors exactly for too few outputs, a failed connection, answers out of order, a failed proof or a missing output |
| `Wallet.Sample` | fog/sample-paykit/src/client.rs:431-435 | draws until there are enough different indices below the limit |
| `Wallet.MembersIn` | fog/sample-paykit/src/client.rs:440-453 | the answers' outputs in order, or the error of the first wrong answer |
| `Wallet.RingIsPiece` | fog/sample-paykit/src/client.rs:456-464 | ring k is the k-th piece of ring_size outputs |
| `Wallet.GetProofs` | fog/sample-paykit/src/client.rs:341-393 | each input gets the ledger's own output and its proof, keeping value and index; fails iff the connection fails or an answer is out of order, without a proof or without an output |

## Left out

- MutualExclusion.NoTwoActivePeers: takes the peer lists as fixed and symmetric; peer lists that differ or change while servers activate are not covered.
- RngRuns.NoRngGaps: takes runs in which `ingest_txs` does not fail; DrawOrder.GapFreeIff covers all runs.
- Promises.PromiseCoverage: takes histories in which no lost key is published again; the excluded case is characterised by Promises.PublishAfterLossIff.
- TxOutLookup.LookupsAgree: takes fewer than 2^64 records per rng, because the counter wraps there; the same holds for the EndToEnd lemmas.
- EndToEnd.UserRecoversBelowCount: takes a database without rng gaps, for which DrawOrder.GapFreeIff gives the exact condition, and counts that overlook nothing, for which ViewProgress.CountsSafeIff does.
- UserRuns.PolledUserRecovers: takes the same of the last database and of every view server that answers.
- UnpublishedDraws.OutOfStepIffUnpublished: takes at most 2^64 draws of the rng, because the counter wraps there.
- IngestProtocol.NeverDrawsAgain: a condition on the protocol's failed chunks: one that keeps the egress key does not move a counter back. The enclave's retry loop only fails under a key it has just drawn (IngestController.IngestController.IngestOne), and for such failures the condition follows (ControllerRuns.FreshDrawsEnable).
- ViewProgress.PromiseAnswered: a block counts as promised for a key when a report reaches past it as the block is appended; that clients use a key only then is not modelled.
- ClientPolling.Poll: search keys of different rngs do not collide, and rng records in events are well formed. The production view enclave ignores the start block of a request, so no filter appears here.
- IngestController.IngestController.Activate: what sending our key and peer list does to a peer is a step of that peer in IngestProtocol; here only its answers appear.
- Wallet.GetRings: `num_rings * ring_size` does not overflow, and a sample that never ends is an error here.
- Wallet.BuildTransaction: what the transaction library accepts is a parameter; signatures and key images are left out.
- `activate`, `set_ingress_private_key` and `sync_keys_from_remote` on one server are taken as serialized with each other; the source checks idleness and changes the key in separate steps.
- Block numbers, counters and ids are natural numbers; casts between u64 and i64 are not modelled, so they stand for values below 2^63. The rng counter and the wallet's sums wrap as in the source.
- `new_keys` on an idle server decommissions no invocation in IngestProtocol, because an idle server holds none (Invocations.OneOwner); the class method does decommission one.
- A poisoned mutex and a failed `expect` are a crash of the process.
- Liveness, lock progress and timing: two activations may wait for each other, and retry loops may go on for ever; a retry loop of the class ends when its script does, which stands for the process being killed there.
- Oblivious RAM, attestation, sealing, gRPC services and clients, URI parsing, configuration, metrics, logging and the diesel layer.
- The view server's enclave, the ledger server, the report server, the load generator, the mobile bindings, and the wallet's cached transaction data.
