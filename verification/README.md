# Models and proofs for the mispricing bot

Dafny models of the parts of the bot whose safety rests on an argument rather than on one branch, with the
properties that argument promises. `dafny verify dfyconfig.toml` checks everything.

Seven parts are modelled.

* **Blob publisher** (`Blob*.dfy`). A content-addressed store on a file system. `BlobProtocol` is the
  conversation with the system-call seam, `BlobKernel` the effect of each call on inodes, directory entries and
  descriptors, with a volatile and an on-disk state for each. Every call may fail, a failed call may have taken
  effect, reads and writes may be short, the disk catches up on entries one by one and may hold garbage for any
  inode not yet synced, and power may be lost at any moment. `BlobInvariant` to `BlobSystem` prove one invariant
  for any number of adapters, interleaved call by call; `BlobTheorems` draws the consequences and `BlobRollback`
  says what a failed call leaves behind, `BlobSuccess` what a call comes to when nothing fails, `BlobFaults` when one
  system call does, and `BlobProgress` that every call ends. `BlobAdapter` is the adapter with its loops, early
  returns and descriptor list; a precondition of the seam's only method makes any other call than the prescribed one
  impossible.
* **Order submission** (`Order*.dfy`). The intent and position tables, the pause row and its audit log as state
  (`OrderStore`), one `execute` call from the pause check to the recovery ladder (`OrderExecution`), the same in
  place (`OrderDesk`), runs of sequential calls (`OrderTheorems`), what every answer of the exchange comes to
  (`OrderOutcomes`), and the history of the pause (`OrderPause`). Every database operation may work, fail, or
  take effect and be reported as failed; the exchange may raise before or after the order was sent, or answer
  anything.
* **Reconciliation** (`DualOracle`, `OraclePermutation`, `OracleVerdicts`, `OracleLoops`, `IntentReconcile`).
  Trade pages turned into the fate of an intent.
* **Depth walks** (`DepthWalk`, `PaperWalk`, `RealSums`). Two separately written greedy walks over an order book.
* **S1 append log** (`S1Log`, `S1Theorems`, `S1Outcomes`, `S1Example`, `S1Circuit`). Append circuits and
  initializers as interleaved steps over shared containers and one single-flight lock.
* **Session breakers and risk state** (`SessionBreakers`, `RiskState`).
* **Position accounting** (`PositionAccounting`, `PaperTracker`).

Decimals and floats are exact reals; `Decimals` holds the explicit roundings and `OrderPricing` the limit price.
SHA-256 is an uninterpreted function, text-to-number parsing an arbitrary partial function: both are parameters
of every statement that needs them.

## Where the code and its words differ

* `execution/reconciliation.py:7` promises that nothing is counted twice. Ids are remembered between calls
  (lines 39 and 46) but not within one page: a page that lists one trade twice counts it twice and can trip the
  emergency pause. `IntentReconcile.RepeatedRowIsCountedTwice` is such a page, and
  `IntentReconcile.CountedOnceExactlyWhen` says for exactly which pages the promise holds.
* `data/clob_reconcile.py:171-176` treats a conflict and an unreadable row alike as fail-closed, but the first one
  met decides: a page with an unreadable row and two different rows of one id gives `RECOVERY_REQUIRED` or
  `PARTIAL_FILLED` depending on the order of its rows, once the order is dead. `OraclePermutation.SomePageIsTangled`
  is such a page, and `OraclePermutation.OrderMattersExactlyWhen` says that this is the only way for the order to show.
* `approval/diagnostic_blob_filesystem_adapter.py:260-263` reports `BLOB_PERSIST_FAILED` without any cleanup when
  the exclusive create fails. An open that fails after it made the file leaves that file under the temp's name:
  `BlobRollback.FailedCreateLeavesFile` is such a call, and `BlobRollback.FailureRollsBack` says that this is the
  only way for a failed call to leave anything.
* `execution/clob_executor.py:538-546` answers a confirmation that raised with a recovery. When its commit took
  effect all the same the position is open, the caller hears of a recovery only, and the token is free for a
  second order. `OrderTheorems.FillGoesUnreported` is such a call, `OrderTheorems.UnreportedFillFreesToken` says that
  every such call is like it, and `OrderTheorems.NoFillIsLost` that no other leaves an open position unreported.
* `monitor/risk_state_store.py:173-175` refuses a day that lies in the past, but
  `monitor/risk_sync.py:41-45` never asks it then: an earlier day is stored with the later day's start equity
  (`RiskState.DayGoesBackExactlyWhen`). The next synchronisation for the later day then starts it anew with the
  equity of that moment, so that the start equity of one day changes within the day (`RiskState.LockIsBroken`).
  `RiskState.EquityIsLockedForTheDay` says that without such a step back it does not, and
  `RiskState.StepBackUnlocks` that every such step allows it.
* `db/logger.py:161-166` keeps cumulative accounts only when partial proceeds are positive: partial fills at a
  price of zero are forgotten in the closing profit (`PositionAccounting.WorthlessFillsAreForgotten`).
  `PositionAccounting.ProfitIsForgetfulExactlyWhen` gives the exact difference and when there is none.

## Model

| member | source | states |
|---|---|---|
| `BlobProtocol.SpellIsInjective` | approval/diagnostic_blob_filesystem_adapter.py:121-122 | temp, target and shard names of valid digests never collide in their spelling |
| `BlobInvariant.OthersDoNotDisturb` | approval/diagnostic_blob_filesystem_adapter.py:153-180 | an adapter's invariant survives every step that guarantees to touch only another adapter's temp |
| `BlobSystem.EveryCall` | approval/diagnostic_blob_filesystem_adapter.py:233-326 | every system call, whatever the kernel does, keeps the adapter's invariant and the guarantee to the others, and publishes only sealed targets |
| `BlobSystem.RunKeepsInv` | approval/diagnostic_blob_filesystem_adapter.py:93-337 | the invariant of all adapters holds after every interleaving with faults, disk activity and power loss |
| `BlobTheorems.TargetsAreAlwaysSealed` | approval/diagnostic_blob_filesystem_adapter.py:270-297 | every `<digest>.json` entry ever made, in memory and on disk, names a durable regular file of mode 0o600 whose bytes hash to the digest |
| `BlobTheorems.TargetsAreNeverTouched` | approval/diagnostic_blob_filesystem_adapter.py:288-297 | short of power loss no step overwrites, alters or removes an existing target |
| `BlobTheorems.OnlyOwnTempIsMoved` | approval/diagnostic_blob_filesystem_adapter.py:153-180 | an adapter renames and unlinks only names of the temp it created, edits no other file, and no two adapters share a temp |
| `BlobTheorems.FinishedMeans` | approval/diagnostic_blob_filesystem_adapter.py:328-347 | at the end every descriptor opened was closed exactly once, and each status means what it promises of target and temp |
| `BlobTheorems.SuccessIsAnchored` | approval/diagnostic_blob_filesystem_adapter.py:299-326 | after a success through durable shards the target is on disk from the root down with the right owner, mode, size and hash, and exactly the snapshot's bytes when it is new |
| `BlobTheorems.AnchoredForever` | approval/diagnostic_blob_filesystem_adapter.py:321-326 | an anchored target survives all later activity and any number of crashes unchanged |
| `BlobSuccess.OutcomeFollowsStore` | approval/diagnostic_blob_filesystem_adapter.py:231-337 | for one adapter alone, when no system call fails, over a root and shards that are right or absent, the call finishes with PERSISTED_NEW if and only if there was no target, with VERIFIED_EXISTING_NOOP if and only if the very blob was there, and otherwise with the verdict and reason that fit what was there |
| `BlobSuccess.RefusedAtOnce` | approval/diagnostic_blob_filesystem_adapter.py:107-119 | a snapshot that fails a check is refused before any system call, with the reason of the first check it fails |
| `BlobFaults.OneFaultTellsReason` | approval/diagnostic_blob_filesystem_adapter.py:120-337 | if exactly one system call fails, without effect, the call ends with the status and reason that belong to that call, whatever the store held |
| `BlobFaults.RootIsChecked` | approval/diagnostic_blob_filesystem_adapter.py:239-247 | the call goes on past the root only if it is a directory of ours with mode 0o700 and the pinned one, else it blocks with the first thing that is wrong |
| `BlobFaults.ShardIsChecked` | approval/diagnostic_blob_filesystem_adapter.py:349-391 | the same for a shard, and a made one is synced first |
| `BlobProgress.CallsEnd` | approval/diagnostic_blob_filesystem_adapter.py:129-151 | whatever the kernel and other adapters do, short of power loss a call has finished after 41 (n + 10) turns for n bytes |
| `BlobRollback.FailureRollsBack` | approval/diagnostic_blob_filesystem_adapter.py:258-297 | a call alone that ends in BLOB_PERSIST_FAILED leaves every file and every file entry as it was if and only if no create was reported as failed after it made its file; otherwise the reason is TEMP_CREATE_FAILED and exactly that file stays |
| `BlobRollback.FailedCreateLeavesFile` | approval/diagnostic_blob_filesystem_adapter.py:260-263 | for every admitted snapshot a call in which a failing create leaves its file behind |
| `BlobAdapter.Seam.Do` | approval/diagnostic_blob_linux_syscalls.py:47-62 | the seam takes only the call the conversation prescribes and moves the conversation on by the reply |
| `BlobAdapter.Adapter.WriteAll` | approval/diagnostic_blob_filesystem_adapter.py:129-139 | the write loop holds its part of the conversation and ends for any replies |
| `BlobAdapter.Adapter.ReadBack` | approval/diagnostic_blob_filesystem_adapter.py:141-151 | the read loop returns all bytes or None exactly where the conversation goes on or fails |
| `BlobAdapter.Adapter.CleanupTemp` | approval/diagnostic_blob_filesystem_adapter.py:153-180 | cleanup keeps the verdict only if the temp was removed under inode proof and synced |
| `BlobAdapter.Adapter.FailAfterCleanup` | approval/diagnostic_blob_filesystem_adapter.py:182-185 | a failure is reported only after a proven cleanup, else recovery is required |
| `BlobAdapter.Adapter.ExistingTarget` | approval/diagnostic_blob_filesystem_adapter.py:187-231 | an existing target is judged and the temp cleaned up whatever the judgement |
| `BlobAdapter.Adapter.OpenOrCreateShard` | approval/diagnostic_blob_filesystem_adapter.py:358-391 | a shard is opened, verified, and made durable with its entry when this call made it |
| `BlobAdapter.Adapter.StageTemp` | approval/diagnostic_blob_filesystem_adapter.py:257-286 | the temp is made and verified up to the rename, or the call ends as the conversation says |
| `BlobAdapter.Adapter.Publish` | approval/diagnostic_blob_filesystem_adapter.py:288-326 | rename, commit and verification end as the conversation says |
| `BlobAdapter.Adapter.CloseAllReverse` | approval/diagnostic_blob_filesystem_adapter.py:340-347 | all tracked descriptors are closed, last opened first, whatever fails |
| `BlobAdapter.Adapter.PersistSnapshotBlob` | approval/diagnostic_blob_filesystem_adapter.py:93-337 | the whole call holds exactly the conversation and returns the outcome reached; a closed adapter or a refused snapshot makes no call; the result's flags agree with its status |
| `OrderPricing.LimitIsTightestOrRejected` | execution/order_pricing.py:28-56 | a price is returned exactly when it is the least tick multiple on the aggressive side and within cap and bounds |
| `OrderPricing.RejectedBecause` | execution/order_pricing.py:45-54 | otherwise the call is rejected, the cap before the bounds, and nothing is clamped |
| `OrderStore.RunsStayConsistent` | execution/order_intent.py:114-199 | over any run of operations with lying failures an intent has a position row exactly when it is FILLED or PARTIAL_FILLED, never two, and the two rows agree |
| `OrderStore.RunsAreMonotonic` | execution/order_intent.py:238-273 | terminal intents stay terminal, open ones and all positions stay unchanged |
| `OrderStore.RunsKeepAudit` | execution/emergency_pause.py:64-117 | the audit log alternates TRIP and RESOLVE from a TRIP on, tells the flag, holds the stored reason and source, and is only appended to |
| `OrderPause.TripTrips` | execution/emergency_pause.py:64-117 | a set whose commit takes effect, reported or not, leaves the database paused: with the given reason, source and intent and one TRIP that says the same if it was clear, and unchanged if it was paused |
| `OrderPause.ResolveResolves` | execution/emergency_pause.py:143-220 | a resolve is reported as RESOLVED exactly when it works, is allowed and there was a pause; then the flag is clear and the log is longer by one RESOLVE |
| `OrderPause.PauseTellsHistory` | execution/emergency_pause.py:64-220 | after any run the pause is set exactly when the last word on it was a set, and the log has grown by exactly the events of the sets and resolves that changed it |
| `OrderTheorems.ExecuteIsGood` | execution/clob_executor.py:325-567 | a call keeps the tables, the audit log and the trace in order, leaves every earlier intent and position alone, and posts only for its own fresh intent after every check |
| `OrderTheorems.NoFillIsLost` | execution/clob_executor.py:458-567 | once an order may have been sent its intent ends blocked, cancelled on the exchange's word that nothing was filled, or open with its position; it is open exactly when the fill can be booked, its position id is free and the confirmation takes effect, and the caller is told so unless that confirmation is reported as failed |
| `OrderTheorems.SentExactlyWhen` | execution/clob_executor.py:325-430 | an order is sent if and only if every check passes, the intent is new, and its creation and its mark both succeed |
| `OrderTheorems.UnreportedFillFreesToken` | execution/clob_executor.py:538-546 | when the exchange reports a fill that can be booked and the confirmation takes effect but is reported as failed, the caller hears of a recovery while the position is open and no intent of the token is unresolved |
| `OrderTheorems.FillGoesUnreported` | execution/clob_executor.py:538-546 | a five-dollar order from an empty database that ends so, after which the same request sends a second order |
| `OrderOutcomes.FilledOrderIsBooked` | execution/order_intent.py:74-112 | for a sent order that the exchange reports as t shares for m dollars the intent is FILLED if and only if m and a millionth reach the dollars requested, else PARTIAL_FILLED, and the position holds t, m and their rounded ratio |
| `OrderOutcomes.AnswersAreHandled` | execution/clob_executor.py:415-567 | every other answer is handled by what it says: cancelled, left unknown, crashed, or recovered with its reason; a recovery write not seen to work leaves the pause set unless that write is lost too |
| `OrderOutcomes.SecondConfirmIsDuplicate` | execution/order_intent.py:114-199 | a confirmation that took effect is never repeated: the next one is a duplicate and changes nothing |
| `OrderOutcomes.BookedAlready` | execution/clob_executor.py:548-563 | booking an intent that has its position tells the caller so, if the position can be read back |
| `OrderOutcomes.MoveMeans` | execution/order_intent.py:238-273 | a move sets the status and the details it brings on an unsettled intent, and leaves a settled one as it is |
| `OrderTheorems.SessionsStayGood` | execution/clob_executor.py:384-404 | in every session each post has its own earlier committed SUBMITTED_UNKNOWN record |
| `OrderTheorems.UnresolvedNeverPostsAgain` | execution/clob_executor.py:337-351 | once an intent of a token is left unresolved no later call of the session posts for that token |
| `OrderTheorems.SecondPostFollowsResolution` | execution/clob_executor.py:337-351 | for any two posts of one token in a session the earlier one's intent was terminal when the turn that made the later one began |
| `OrderTheorems.PostsAreLimited` | execution/clob_executor.py:353-374 | an order is for the token and dollars of its finding, a dollar or more, while the pause is clear, with the lowest cent at least a cent above the live ask, within three percent of it and between 0.01 and 0.99 |
| `OrderTheorems.LiveAskMeans` | execution/clob_executor.py:359-360 | the ask a limit is computed from is the quote's, unless it has none or says zero: then the finding's |
| `OrderDesk.Desk.InsertIntent` | execution/order_intent.py:217-235 | the insert updates the table as `OrderStore.CreateIntent` says |
| `OrderDesk.Desk.MoveIntent` | execution/order_intent.py:238-273 | the guarded transition updates the table as `OrderStore.Transition` says |
| `OrderDesk.Desk.ConfirmFillAtomic` | execution/order_intent.py:114-199 | position and status change together, once per intent, as `OrderStore.ConfirmFill` says |
| `OrderDesk.Desk.SetEmergencyPause` | execution/emergency_pause.py:64-117 | an idempotent trip updates row and log as `OrderStore.SetPause` says |
| `OrderDesk.Desk.ResolveEmergencyPause` | execution/emergency_pause.py:143-220 | a conditional clear updates row and log as `OrderStore.ResolvePause` says |
| `OrderDesk.Desk.RecoveryLadder` | execution/clob_executor.py:106-136 | recovery is written, else the pause tripped, as `OrderExecution.Ladder` says |
| `OrderDesk.Desk.BookFill` | execution/clob_executor.py:538-567 | a fill is confirmed, found a duplicate, or sent to recovery as `OrderExecution.Book` says |
| `OrderDesk.Desk.HandleAnswer` | execution/clob_executor.py:464-536 | an answer is classified and handled as `OrderExecution.OnAnswer` says |
| `OrderDesk.Desk.Run` | execution/clob_executor.py:325-456 | the call changes the tables and returns as `OrderExecution.Execute` says, keeps them in order, leaves earlier rows alone and accounts for its order |
| `IntentReconcile.ReconcileIntent` | execution/reconciliation.py:29-87 | the loop matches, adds up and decides as `IntentReconcile.Reconcile` says, or raises |
| `IntentReconcile.AverageRespectsLimit` | execution/reconciliation.py:65-66 | the average rounded to 0.0001 never violates a limit on that grid |
| `IntentReconcile.VerdictMeans` | execution/reconciliation.py:68-87 | every state is the exact comparison of matched size, intended size and window, and the pause marks exactly the overfill |
| `IntentReconcile.ReportsWhatCounts` | execution/reconciliation.py:14-66 | a reconciliation raises exactly when a row it would look at cannot be read; otherwise it reports the ids of exactly the rows that count, and their average to the nearest 0.0001 |
| `IntentReconcile.EveryTradeIsCounted` | execution/reconciliation.py:39-63 | over rounds that feed ids back, raising ones among them, the ids counted are exactly those of our rows on the pages that did not raise, and the sizes are at least those of the distinct trades |
| `IntentReconcile.CountedOnceExactlyWhen` | execution/reconciliation.py:39-63 | ids and executed sizes over the rounds are those of the distinct trades, each of its own id, if and only if no page has two rows of ours with one id that no earlier page had |
| `IntentReconcile.RepeatedRowIsCountedTwice` | execution/reconciliation.py:44-63 | a page on which one trade of six shares counts as twelve and trips the pause |
| `DualOracle.CopyChangesNothing` | data/clob_reconcile.py:162-322 | an exact copy of any row at any later place leaves the whole resolution unchanged, in both roles, with conflicts and unreadable rows |
| `OraclePermutation.PermutationChangesNothing` | data/clob_reconcile.py:362-454 | for taker-only pages that fit the target every permutation gives the same state, size, average and fee, and permuted ids, unless the page is tangled |
| `OraclePermutation.OrderMattersExactlyWhen` | data/clob_reconcile.py:192-203 | the outcome is the same for every order of the rows if and only if the page is not tangled: an unreadable row, a conflict whose first row is readable, and a dead order |
| `OraclePermutation.SomePageIsTangled` | data/clob_reconcile.py:192-203 | a tangled page that resolves to PARTIAL_FILLED in one order of its rows and stays open in another |
| `OraclePermutation.AverageIsBetween` | data/clob_reconcile.py:210-214 | the average lies between the lowest and the highest fill price |
| `OraclePermutation.FilledIsWhole` | data/clob_reconcile.py:372-418 | FILLED with evidence means exactly the target size where our order plays one role |
| `OraclePermutation.TerminalNeedsConfirmedFill` | data/clob_reconcile.py:336-360 | nothing terminal without a confirmed fill of our order on our side and of positive size |
| `OracleVerdicts.LiveResidualStaysOpen` | data/clob_reconcile.py:420-427 | in either role, while the order is LIVE or MATCHED, a first fill short of the target whose role is not whole gives RECOVERY_REQUIRED without evidence |
| `OracleVerdicts.DeadResidualIsPartial` | data/clob_reconcile.py:429-454 | once it is dead, a short fill whose role is clean gives PARTIAL_FILLED with the totals of its different rows |
| `OracleVerdicts.WholeIsFilled` | data/clob_reconcile.py:364-400 | a clean role whose different rows make up the target is FILLED with their totals, whatever the order's status |
| `OracleVerdicts.WholeFirstFillIsFilled` | data/clob_reconcile.py:402-418 | a first fill of the whole target is enough where its role has no conflict |
| `OracleVerdicts.ConflictStaysOpen` | data/clob_reconcile.py:374-376 | two different rows of one id settle nothing |
| `OracleVerdicts.NothingReadableStaysOpen` | data/clob_reconcile.py:336-360 | without a readable, positive first fill on our side, or a readable target, nothing is settled |
| `OracleVerdicts.FirstFillMeans` | data/clob_reconcile.py:53-66 | the fill that decides is that of the first confirmed row of ours: its own fields where we are its taker, else those of our first slot |
| `OracleVerdicts.FeeIsShared` | data/clob_reconcile.py:216-230 | an account has a fee exactly when all its rows have that one |
| `OracleVerdicts.MakersStandIn` | data/clob_reconcile.py:437-454 | where the order is dead and our taker rows cannot be read our maker rows decide: a conflict settles nothing, a clean account is the partial one |
| `OracleVerdicts.TextsAreNormal` | data/clob_reconcile.py:33-50 | statuses and sides are compared stripped, in capitals and without their prefixes |
| `OracleLoops.FindConfirmedFill` | data/clob_reconcile.py:53-66 | the search returns the first confirmed fill, taker before maker within a row |
| `OracleLoops.AggregateTaker` | data/clob_reconcile.py:162-238 | the taker loop with its early returns aggregates as `DualOracle.Aggregate` says |
| `OracleLoops.AggregateMaker` | data/clob_reconcile.py:241-322 | the nested maker loops aggregate as `DualOracle.Aggregate` says |
| `OracleLoops.TakeSlots` | data/clob_reconcile.py:268-291 | the inner loop adds a row's slots, or stops with what decides the page |
| `OracleLoops.Summarise` | data/clob_reconcile.py:208-238 | totals, average, fee and ids of the kept rows, or no evidence |
| `OracleLoops.UniformFee` | data/clob_reconcile.py:216-230 | a fee rate is reported exactly when all rows agree on a readable one |
| `OracleLoops.DecideArafResolution` | data/clob_reconcile.py:325-454 | the decision with its lazy aggregates is `DualOracle.Decide` |
| `DepthWalk.LoadLevels` | analysis/golden_sample_economics.py:103-119 | a side is loaded exactly when every level is acceptable, then sorted by price and a permutation of the input |
| `DepthWalk.WalkAskDepth` | analysis/golden_sample_economics.py:122-140 | the loop buys the specified shares, spends exactly the stake and returns their ratio |
| `DepthWalk.FailsExactlyWhenShallow` | analysis/golden_sample_economics.py:130-140 | the walk fails if and only if the book's whole notional is below the stake |
| `DepthWalk.WalkIsOptimal` | analysis/golden_sample_economics.py:122-140 | no way to take at most each level's size and spend exactly the stake buys more shares, whatever the order of the book |
| `DepthWalk.WalkIsAPlan` | analysis/golden_sample_economics.py:130-138 | the walk is itself such a way, so the optimum is attained |
| `DepthWalk.LevelsDecide` | analysis/golden_sample_economics.py:118-119 | the result depends on the multiset of levels alone |
| `DepthWalk.AverageNeverFalls` | analysis/golden_sample_economics.py:122-140 | a larger stake never has a lower average price |
| `DepthWalk.EdgeNeverRises` | analysis/golden_sample_economics.py:352-357 | the diagnostic edge never rises with the stake |
| `PaperWalk.EstimateEntryPrice` | execution/paper_tracker.py:53-78 | the loop estimates as `PaperWalk.Buy` and its rounding say |
| `PaperWalk.EstimateIsRoundedAverage` | execution/paper_tracker.py:63-78 | on a deep enough book the estimate is the diagnostic's average rounded to four places, of high quality |
| `PaperWalk.ShallowTakesAll` | execution/paper_tracker.py:66-73 | on a shallower book everything is taken and the rest stays unspent |
| `PaperWalk.QualityExactlyWhen` | execution/paper_tracker.py:59-78 | there is an estimate exactly when the book is not empty, and it is of high quality exactly when all but a billionth of the stake could be spent |
| `PaperWalk.FewestLevels` | execution/paper_tracker.py:65-73 | the levels used are the fewest that together are worth the stake, or all |
| `PaperWalk.DepthWalkSell` | execution/paper_tracker.py:108-125 | the loop sells as `PaperWalk.Sell` and its rounding say |
| `PaperWalk.SaleIsOptimal` | execution/paper_tracker.py:115-122 | no way to sell the same shares brings more proceeds |
| `PaperWalk.LeftUnsold` | execution/paper_tracker.py:123-125 | what stays unsold is exactly what the book does not hold |
| `PaperWalk.SaleIsReported` | execution/paper_tracker.py:123-125 | the average is the proceeds over the shares sold, which are those asked for or all there are; the rest is unsold |
| `PaperWalk.FewestBids` | execution/paper_tracker.py:117-122 | the bids used are the fewest that together hold the shares, or all |
| `PaperWalk.TradableCapacity` | execution/paper_tracker.py:128-137 | stopping at the first bid below the floor gives the notional of all bids at or above it |
| `S1Theorems.RunKeepsInv` | approval/production_s1_append_circuit.py:307-340 | the invariant of log, lock and callers holds after every interleaving from an empty world |
| `S1Theorems.CompareAndAppend` | approval/production_s1_append_circuit.py:245-304 | row k was appended by its own call that expected k rows; rows are numbered upwards, unique by evidence and target, and freshly bound |
| `S1Outcomes.RowsAreAuthorised` | approval/production_s1_append_circuit.py:165-224 | every row was asked for by its author's call, which named its container and position and was bound to a reviewable decision, to the initializer's result, path and schema, to its freshness and to the writer's digest of its own fields |
| `S1Outcomes.AdmittedExactlyWhen` | approval/production_s1_append_circuit.py:165-224 | a call is admitted if and only if it brings all that |
| `S1Outcomes.AppendsExactlyWhen` | approval/production_s1_append_circuit.py:245-340 | an undisturbed call appends its row under the next number if and only if its command is complete and bound, the container is as it was made with the expected rows and none of its key, and the fingerprint is canonical; otherwise nothing changes |
| `S1Outcomes.SidecarBlocks` | approval/production_s1_append_circuit.py:220-224 | a recovery file makes a circuit return without a row |
| `S1Outcomes.BadReadsBlock` | approval/live_s1_db_initialization.py:248-280 | so does a container that cannot be read or whose integrity is broken |
| `S1Theorems.StepAppends` | approval/s1_append_execution_db_writer.py:166-212 | a step adds at most one row, of the caller that expected exactly the rows there were, and no other step touches rows |
| `S1Theorems.ResultTellsTheRow` | approval/production_s1_append_circuit.py:298-304 | a success stands for exactly one row at the expected position with the reported number; any other result stands for a row exactly when it is a failed write whose own commit took effect and was reported as failed |
| `S1Theorems.ToldWrongExactlyWhen` | approval/s1_append_execution_db_writer.py:166-212 | a circuit is told that its write failed while its row stands if and only if its own insert met such a commit |
| `S1Example.SomebodyIsToldWrong` | approval/s1_append_execution_db_writer.py:166-212 | a run of one initializer and one circuit that is told that its write failed while its row is the log |
| `S1Theorems.SingleFlight` | approval/production_s1_append_circuit.py:329-340 | no two circuits are ever between verification and append |
| `S1Theorems.OldRowsStay` | approval/live_s1_db_initialization.py:174-181 | rows are never changed or removed |
| `S1Theorems.InitIsQuiet` | approval/live_s1_db_initialization.py:379-398 | no statement of the initializer, at any point of any interleaving, changes a row |
| `S1Outcomes.InitializerProvisions` | approval/live_s1_db_initialization.py:368-398 | an undisturbed initializer makes an empty canonical container of the requested mode where there is none |
| `S1Outcomes.InitializerAcceptsExactlyWhen` | approval/live_s1_db_initialization.py:327-366 | an existing container is accepted exactly when it is as it was made and still empty, and nothing changes |
| `S1Outcomes.InitializerGivesUp` | approval/live_s1_db_initialization.py:379-398 | a recovery file, a lost write or an object made in the meantime by another makes an initializer give up and change nothing more |
| `S1Circuit.Vault.RunCircuit` | approval/production_s1_append_circuit.py:307-340 | the uninterrupted call is one schedule of the interleaved system and returns its result |
| `S1Circuit.Vault.ExecuteDbPhase` | approval/production_s1_append_circuit.py:245-304 | checks, verification and fingerprint in order, then the writer |
| `S1Circuit.Vault.ExecuteAppend` | approval/s1_append_execution_db_writer.py:215-240 | the writer's gates, then one transaction |
| `S1Circuit.Vault.AtomicAppend` | approval/s1_append_execution_db_writer.py:166-212 | the row is committed once or not at all, and duplicates are refused |
| `SessionBreakers.AnySession` | main_loop.py:272-352 | under any limits opens never exceed submissions, the ratio gate never raises, and both counts are bounded |
| `SessionBreakers.ShippedSession` | monitor/circuit_breaker.py:36-105 | with the shipped limits at most 6 trades open and at most 21 calls return, 18 if each opens or misses |
| `SessionBreakers.RefusalIsFinal` | main_loop.py:272-288 | a gate that refuses refuses for the rest of the session |
| `SessionBreakers.TwentyOneIsReached` | monitor/circuit_breaker.py:75-105 | a session of 21 calls and 6 opens exists |
| `SessionBreakers.EighteenIsReached` | monitor/circuit_breaker.py:54-72 | a session of 18 calls that all open or miss exists |
| `SessionBreakers.ScanAndExecute` | main_loop.py:194-352 | the scan loop updates counters and positions as `SessionBreakers.ScanFrom` says, and ends where `execute` or the position log raises |
| `SessionBreakers.ScanIsSession` | main_loop.py:223-352 | the counters after a scan are those of a stretch of a session |
| `SessionBreakers.ScanOpens` | main_loop.py:223-352 | a scan opens slugs of cleared findings that had not failed and had no position, each once, within the position limit, and counts them |
| `SessionBreakers.NoChanceIsMissed` | main_loop.py:223-288 | with room and open gates a scan that changes nothing met no eligible finding |
| `SessionBreakers.ExecutionStats.IncrementTradeCount` | monitor/execution_stats.py:43-45 | an open moves the trade count and nothing else |
| `SessionBreakers.ExecutionStats.IncrementNoFillStreak` | monitor/execution_stats.py:47-49 | a miss moves the streak and nothing else |
| `SessionBreakers.ExecutionStats.IncrementSubmitCount` | monitor/execution_stats.py:51-53 | a call moves the submit count and nothing else |
| `RiskState.ReduceRiskMode` | monitor/risk_state.py:30-43 | the loop computes the worst mode, or raises on an unknown blocker |
| `RiskState.WorstIsMaximum` | monitor/risk_state.py:30-43 | the mode is the maximum by priority over the blockers |
| `RiskState.SameBlockersSameMode` | monitor/risk_state.py:33-35 | neither order nor repetition of blockers matters |
| `RiskState.ReachableIsHealthy` | monitor/risk_state_store.py:103-143 | from a bootstrap on every stored snapshot is valid, has positive start equity and the mode of its blockers |
| `RiskState.EquityIsLocked` | monitor/risk_sync.py:40-48 | a synchronisation changes the start equity only when its day comes after the stored one, and then to the current equity |
| `RiskState.EquityIsLockedForTheDay` | monitor/risk_sync.py:40-48 | over any run without a synchronisation for a day before the stored one, any two snapshots stored for one day have the same start equity |
| `RiskState.StepBackUnlocks` | monitor/risk_sync.py:40-48 | from any stored day a synchronisation for an earlier day followed by one for the stored day again stores it with whatever equity the account then has |
| `RiskState.UnlockedExactlyWhen` | monitor/risk_sync.py:40-48 | after a synchronisation some next one that is no step back can store the same day with another start equity if and only if the first one was for an earlier day |
| `RiskState.DayGoesBackExactlyWhen` | monitor/risk_sync.py:41-45 | the stored day goes back if and only if the signals carry an earlier day with a known breaker status and the write takes effect |
| `RiskState.LockIsBroken` | monitor/risk_sync.py:41-73 | a run that stores one day with 100, an earlier day, and the first day again with 50 |
| `RiskState.FailureChangesNothing` | monitor/risk_sync.py:38-55 | a synchronisation that raises leaves the store alone, unless its commit took effect and was reported as failed |
| `RiskState.RepeatWritesNothing` | monitor/risk_sync.py:69-73 | repeating a synchronisation with the same day and signals writes nothing |
| `RiskState.OperationalExactlyWhen` | monitor/risk_sync.py:47-55 | the mode is Operational if and only if no signal is active and the loss is under the limit times the locked equity |
| `RiskState.SignalsSetMode` | monitor/risk_state.py:46-84 | after a successful synchronisation the blockers are exactly those of the active signals in canonical order, and the mode is that of the gravest: Kill-Switch, Halted, Exit-Only, Cooldown, each exactly when |
| `RiskState.SucceedsExactlyWhen` | monitor/risk_sync.py:38-73 | a synchronisation whose write works succeeds exactly when the breaker status is known and, for a later day, equity and texts are fit for the rollover |
| `RiskState.LoadsExactlyWhen` | monitor/risk_state_store.py:70-100 | a row is loaded exactly when its schema and blockers are known and its mode is the gravest of theirs; any other makes a synchronisation raise and stays |
| `RiskState.BootstrapsExactlyWhen` | monitor/risk_state_store.py:103-143 | the bootstrap works exactly on a missing row with positive equity and texts that are not blank |
| `RiskState.RolloverMeans` | monitor/risk_state_store.py:156-193 | a rollover to a later day starts the figures again and keeps every blocker but the daily loss; on the same day it changes nothing, and into the past it raises |
| `RiskState.AuditFieldsStay` | monitor/risk_sync.py:57-73 | the schema and who approved the bootstrap and why stay; the snapshot is stamped with the time of the signals unless nothing changed |
| `RiskState.RiskStore.LoadRiskState` | monitor/risk_state_store.py:70-100 | a snapshot is loaded exactly when it is stored and valid |
| `RiskState.RiskStore.SaveRiskState` | monitor/risk_state_store.py:55-67 | an invalid snapshot is never written |
| `RiskState.RiskStore.InitializeDayZero` | monitor/risk_state_store.py:103-143 | the bootstrap writes only where nothing is stored |
| `RiskState.RiskStore.SyncRiskState` | monitor/risk_sync.py:27-73 | the store is loaded, assessed and conditionally written as `RiskState.Sync` says |
| `PositionAccounting.FiguresAreNear` | main_loop.py:661-680 | after n partial fills shares, sold shares and proceeds are within n half-millionths of the exact figures |
| `PositionAccounting.SharesAreConserved` | main_loop.py:661-680 | remaining plus sold shares differ from the initial ones by at most n millionths |
| `PositionAccounting.SharesStayPositive` | main_loop.py:668-671 | partial fills never oversell a position |
| `PositionAccounting.ProfitIsAccounted` | db/logger.py:155-168 | with positive recorded proceeds the closing profit is the exact proceeds, those there were at first included, plus the remaining shares at the exit price less the cost, within n + 1 half-millionths |
| `PositionAccounting.ProfitIsForgetfulExactlyWhen` | db/logger.py:161-166 | otherwise it misses that account by exactly the missing shares' worth at the exit price less the money received, and meets it if and only if the two are equal |
| `PositionAccounting.WorthlessFillsCountExactlyWhen` | db/logger.py:161-166 | where the fills brought in nothing the account is met if and only if the exit price is zero or the remaining shares are all that the cost bought |
| `PositionAccounting.WorthlessFillsAreForgotten` | db/logger.py:161-166 | a position whose recorded profit is 5 where the account is 0 |
| `PositionAccounting.ProfitExactlyWhen` | db/logger.py:155-170 | a profit is recorded exactly when there is an entry price that is not zero and an exit price |
| `PositionAccounting.Position.ApplyPartialFill` | main_loop.py:661-680 | a fill is partial exactly below 98 percent of a positive holding, and then the fields are updated as `PositionAccounting.Applied` says |
| `PositionAccounting.Position.TryExit` | main_loop.py:870-920 | a failed or partial sale leaves the position open, a full one closes it with the logged profit |
| `PaperTracker.OnlineIsReplay` | execution/paper_tracker.py:751-763 | peak and trough are the running extremes with the time each was first reached, breakeven is armed exactly when the peak reached 0.15, and the hits are the levels the peak reached |
| `PaperTracker.EachLevelOnce` | execution/paper_tracker.py:582-594 | each take-profit level is measured exactly once and only if the peak reached it |
| `PaperTracker.FirstExitIsLocked` | execution/paper_tracker.py:572-580 | a model has an exit exactly when a replay over the extremes of the ticks finds an EXIT tick, and it is the first one's price, reason and time |
| `PaperTracker.ModelsExitExactlyWhen` | execution/paper_tracker.py:228-266 | when each model gives up and why, by loss, share of the window passed, reference market, trough and arming |
| `PaperTracker.WindowPasses` | execution/paper_tracker.py:563-570 | the share of the window passed lies between nothing and all of it, and grows |
| `PaperTracker.FinalProfit` | execution/paper_tracker.py:627-653 | the recorded exit and profit are those of the first EXIT tick, or of the close when there was none |
| `PaperTracker.ReturnMeans` | execution/paper_tracker.py:640 | the return is to the dollars what the price's change is to the entry |
| `PaperTracker.PaperPosition.Stamp` | execution/paper_tracker.py:751-763 | a new record stores its value and its time |
| `PaperTracker.PaperPosition.Update` | execution/paper_tracker.py:554-596 | one price update changes the state as `PaperTracker.Updated` says |

## Left out

- `BlobAdapter.Adapter.Close`: the pinned root descriptor and its closing are not modelled; construction, which pins and checks the root, is represented by the identity and owner it yields.
- `BlobSuccess.OutcomeFollowsStore`: a link at the end of a path counts as a special file; shards of the wrong owner or mode are covered by `BlobTheorems.FinishedMeans` alone.
- `DualOracle.CopyChangesNothing`: the name of the accounting source in a resolution is not modelled.
- `BlobRollback.FailureRollsBack`: an inode number is not handed out again while the run lasts.
- `BlobTheorems.SuccessIsAnchored`: needs both shards on disk when they were opened, or made by the call, because an existing shard is not synced again.
- `BlobTheorems.TargetsAreAlwaysSealed`: the store is changed by adapters, the disk and power loss only; other programs working in the same directory are not modelled.
- `OrderTheorems.UnresolvedNeverPostsAgain`: covers sequential calls; concurrent calls for one token and concurrent trips of the pause are outside the code's own assumptions.
- `OrderStore.RunsKeepAudit`: `clear_emergency_pause` writes no audit event and is not among the operations.
- `OrderExecution`: status texts are taken already stripped and in lower case; NaN and infinite amounts, the telemetry rows of a no-match and notifications are not modelled.
- `OrderDesk.Desk.ResolveEmergencyPause`: blank texts are those of spaces, tabs and line ends, not every Unicode space.
- `OraclePermutation.PermutationChangesNothing`: pages whose distinct total exceeds the target, or on which our order plays both roles, depend on row order by design.
- `DualOracle`: rows that are not mappings, NaN numbers and non-ASCII letters in statuses are not modelled; the zero-fill cancel decision over two observations is one branch each and left out.
- `IntentReconcile.AverageRespectsLimit`: trade sides are taken in upper case, numbers as exact decimals.
- `DepthWalk.WalkAskDepth`: Decimal context precision is not modelled; parsing of level texts is taken as done.
- `PaperWalk.EstimateEntryPrice`: levels with missing or non-positive figures, which the loader skips, are taken as already skipped.
- `S1Theorems.CompareAndAppend`: callers without the shared lock, edits from outside and crashes of the process are not modelled; fingerprints are taken to tell schemas apart.
- `SessionBreakers.AnySession`: council, quotes and the risk mode are one flag per finding; resetting counters mid-session is not part of a session.
- `RiskState.EquityIsLocked`: which texts count as dates is a parameter; days are compared as texts, as the code does.
- `PositionAccounting.SharesAreConserved`: positions reloaded with null partial-fill fields are outside the claim.
- `PaperTracker.OnlineIsReplay`: the order book measurement each hit starts, lifecycle closing and the stored event rows are not modelled.
- Fair value mathematics, scanning, the council layers, Telegram, the command line and the phase 5 gates are not part of this model.
