# A verified model of the trading system's durable core

The trading system keeps money-critical state in small files that several
processes share and that must survive a process dying at any moment.  This
project models those parts in Dafny and proves what they promise.  `dafny verify
dfyconfig.toml` checks everything; nothing here runs the original program.

## What is modelled

**The order outbox** (`Outbox*.dfy`, `RetryQueue.dfy`, `Passes`, `Evictions`,
`Consolidation`, `Sums`).  Every order intent is a durable record that goes
through `awaiting_cancel`, `submit_pending` and `accepted`, and comes back as a
new revision for the unfilled remainder.  There are three layers.

- `OutboxRecord` and `OutboxEdits` say what one operation does to one record.
  `RetryQueueFile.RetryQueue` is the queue file under its lock: each locked
  operation is the loop over the stored list, proved against the list functions.
  `OutboxWorker` and `OutboxProducers` are the code around the queue: the
  worker's pass, `Instrument.place` and the monitor's cancel-then-replace.
- `OutboxProtocol` is the concurrent system: producers, one monitor, one worker,
  any number of processes that die at any point, and a venue that answers late,
  never, or with its response lost.  A run is any interleaving of 34 kinds of
  step.  `OutboxInvariant` to `OutboxRuns` prove an inductive invariant, and
  `OutboxTheorems` states what follows for every run.
- `OutboxRefinement` and `OutboxSteps` connect the two: a stored record represents
  a slot of the protocol, and every locked list operation is a protocol step, or a
  run of them, that leads to the slots of the new list.
- `OutboxOrders` looks at one venue order and all the records that replace it.

**The Trade log** (`Trade*.dfy`).  An append-only data file of rows plus a
manifest with stream, revision, committed boundary, counts and a digest chain;
compaction with a kept previous generation; recovery; fencing of stale writers;
incremental suffix reload.  Files are inodes with names, so the kept generation
may be a hard link to the live file, and every byte written is a separate step,
so an append may tear anywhere.  `TradeManagerFile.TradeManager` and
`TradeReaderFile.TradeReader` are the imperative manager and reader; the manager
works on `TradeFiles.Files`, which runs out of fuel when the process dies.
`TradeRuns` interleaves any number of managers, `TradeSteps` shows that what a
manager's methods do are its events, and `TradeTorn` is about appends over a file
that a dead compaction left behind.

**Order fills** (`OrderFills.dfy`).  The order cache merges overlapping fills
exactly once, with a fixed cutoff for legacy aggregates.  Quantities and prices
are integers in units of 1e-8, rounding included.

**Tracked orders and tiered campaigns** (`TrackedLifecycle`, `Campaigns`,
`CampaignHistory`, `CampaignIds`, `CampaignBudget`, `CampaignLimit`,
`AssetGuardian`).  The persist-before-submit lifecycle inside a BUY or SELL campaign
with tier budgets.  A history is a sequence of events, each cut off after any number
of its saves.

**Three algorithms**: the sliding price window with its sorted mirror
(`PriceWindow`), the rate-limited incident digest (`IncidentDigest`), and the
composition of market regimes with a veto (`MarketRegime`).

## What is assumed

- One host clock that never goes backwards; record IDs, tokens and streams are
  fresh; the owner check answers alive, dead or mismatched only when it is so.
- One worker and one monitor at a time; snapshots come only from `claim` and
  `enqueue_claimed`; client IDs are the default ones, and hashes are injective.
- A venue's "not found" inside its declared horizon is final: no call already made
  for that client ID still becomes an order.  Reported statuses are true, an order
  executes at most the quantity it asked for, and a lookup by client ID returns an
  order that was placed under it.  The campaigns' accounting assumes nothing about
  amounts; their budgets assume that a BUY costs at most the cash it asked for, with
  a fee of at most a given share of the cost.
- Symbols are upper case, tier keys are distinct, the Trade log starts from a
  versioned manifest, regime strengths are not negative.
- Floats are reals, except where the code rounds to 8 decimals.

## What the proofs found

Some promises hold only under a condition.  Each has a failing input or run, and a
lemma with the exact condition.

- Cancel-then-replace may execute an order's size twice.  Only `awaiting_cancel`
  records are compared, so after the worker activated a leftover replacement, a
  monitor whose list of open orders is older stores another one for the same order
  (`ReplacedTwice`).  An order is kept exactly when at most one of its replacements
  is ever activated (`OrderKeptExactly`), and comparing with activated replacements
  too would be the exact guard (`GuardIsExact`, `GuardedRunKeepsOrders`).
- Dispatch exclusion is per revision.  The worker may recover the order of a
  live producer; if the venue then rejects it, the next revision can be begun
  while the producer is still inside its call (`SecondBeginWhileFirstLives`,
  `SecondBeginExactly`).  No duplicate order follows (`OneOrderPerRevision`).
- A compaction that dies between data and manifest is recoverable, unless
  another live manager appends before anybody loads: the append checks version
  and size but not the committed bytes (`TornAppendLosesTheLog`).  A run stays
  recoverable exactly when no append does that (`RunRecoverableExactly`).
- The suffix reload refuses a manifest that gained a symbol without rows, which
  the full reload accepts, and keeps refusing until the symbol has a row
  (`EmptySymbolRefused`, `SuffixAcceptsExactly`, `HidingPersists`).
- Within its bound a queue refuses only when nothing may be evicted
  (`CapacityRefusalExactly`).  Above the bound, as after it was lowered, a few trend
  deferrals hide the other evictable records and intents are refused although
  there are enough of them (`OverfullRefused`, `OverfullRefusalExactly`).
- Campaign client IDs repeat across campaigns that start from the same extremum
  timestamp (`ClientIdRepeatsExactly`), and exactly then one venue order can be
  recorded in two campaigns (`OneOrderInTwoCampaigns`, `RecordedAgainExactly`).
- A campaign may spend more than its cash.  A BUY turns all the cash it asks for
  into a quantity, and its fee is booked on top; the reserve for fees at placement
  comes off the free balance, not off the share of the tier (`FeeOverspends`).  With
  a fee share r the budget is kept exactly when (1 + r) times the sum of the
  allocations is at most 1, while the configuration accepts up to 1 + 1e-12
  (`BudgetExactly`).
- Regime weights may sum to slightly more than 1, and the score bound then fails by
  as much (`BoundHoldsExactly`).

## Model

| member | source | states |
|---|---|---|
| `OutboxTheorems.DispatchExclusion` | `order_retry.py:678-741` | In every reachable state: while a live process has begun a record revision and not completed its claim, any other begin that succeeds on the record is for a later revision, and everything sent for the record is over by then |
| `OutboxTheorems.SecondBeginExactly` | `order_retry.py:678-741` | The exact condition under which a second begin succeeds beside an open dispatch: the exact claim is stored and its revision is later than the one being dispatched |
| `OutboxWitness.SecondBeginWhileFirstLives` | `order_retry_worker.py:283-320` | A concrete run in which the worker recovers a live producer's order, the venue rejects it, and the remainder revision is begun while the first producer is still inside its call: exclusion is per revision, not per record |
| `OutboxTheorems.OneDispatcher` | `order_retry.py:954-985` | No two live processes are ever dispatching the same revision of the same record |
| `OutboxTheorems.BeginIsSafe` | `order_retry_worker.py:428-464` | Whenever a begin succeeds, the venue holds no order under the client ID about to be used and nothing of the record is still open there |
| `OutboxTheorems.OneOrderPerRevision` | `order_retry_worker.py:490-557` | Over every run with lost responses and crashes: at most one venue order per (record, revision), and of two orders of a record at least one, the earlier revision's, is terminal |
| `OutboxTheorems.RevisionAfterTerminal` | `order_retry.py:1062-1092` | A record reaches a revision only when every call of its earlier revisions is terminal or never became an order; an order that may exist for the current revision shows in the stored record |
| `OutboxTheorems.QueueConserves` | `order_retry.py:487-511` | In every reachable queue delivered + open quantity equals the requested total, and delivered is exactly what the venue executed for the earlier revisions |
| `OutboxTheorems.FillsWithinAsked` | `order_retry.py:1062-1092` | Fills of all orders of a record over all revisions, also after the record is gone, never exceed the quantity asked for |
| `OutboxTheorems.ReplacementConserves` | `monitororder.py:183-247` | For each single replacement: it is sent only after the old order was seen canceled, and old fills plus everything executed for it stay within the original size |
| `OutboxOrders.OrderKeptExactly` | `order_retry.py:1122-1170` | For a whole order, in every reachable state: its fills and everything asked for by all its replacements together fit into its size exactly when at most one of them was ever activated |
| `OutboxOrders.OrderConserves` | `monitororder.py:183-247` | Then the old fills plus the fills of all records that replace the order, over all revisions, never exceed its size |
| `OutboxTwice.ReplacedTwice` | `order_retry.py:531-547` | A concrete run of 25 steps that executes twice the size of an order: the worker activates a leftover replacement, and a monitor with an older list of open orders stores a second one, because only awaiting records are compared |
| `OutboxOrders.GuardIsExact` | `order_retry.py:531-547` | Which admission of a replacement that would be activated is safe: every continuation that follows the guard keeps the order exactly when no replacement of it had been activated before |
| `OutboxOrders.GuardedRunKeepsOrders` | `monitororder.py:109-117` | Over every run that follows this guard every order is kept: asked and executed quantities of all its replacements stay within its size |
| `OutboxTheorems.OneAwaitingPerOrder` | `order_retry.py:531-547` | At most one `awaiting_cancel` record exists per provider, symbol, side and replaced order |
| `OutboxRuns.NextInv` | `order_retry.py:954-1170` | Every one of the 34 protocol steps keeps the whole invariant (leases, dispatchers, venue truth, quantities) |
| `OutboxRuns.ReachableInv` | `order_retry_worker.py:193-557` | The invariant holds in every state of every run, for any interleaving of producers, monitor, worker, deaths and venue behaviour |
| `OutboxRefinement.ClaimRefines` | `order_retry.py:954-985` | On the slots that the stored list represents, `claim` leases exactly the listed records without a live lease, all under one token |
| `OutboxSteps.WorkerClaims` | `order_retry.py:954-985` | The worker's claim of a list of IDs under one token is a run of protocol claims, one per record without a live lease |
| `OutboxSteps.MonitorClaims` | `monitororder.py:119-128` | The monitor's claim of its replacement is one protocol step, or changes nothing when the record is leased or gone |
| `OutboxSteps.BeginIsStep` | `order_retry.py:678-741` | `begin_claimed_submit` for a task is the protocol's begin step and leads to the slots of the new list, or leaves the list as it was |
| `OutboxSteps.CompleteIsStep` | `order_retry.py:988-1119` | Every completion of a task is its protocol step; only a recovery without a lease may miss its record, and then only the task is forgotten |
| `OutboxSteps.ActivateIsStep` | `order_retry.py:1122-1170` | An activation after an observed cancel is the protocol's activation step, with the quantity the order left |
| `OutboxSteps.DiscardsAreSteps` | `order_retry.py:1242-1290` | `discard_expired` is a run of protocol discards, one per removed record |
| `OutboxSteps.ConsolidationIsStep` | `order_retry.py:758-795` | Consolidation is one protocol step |
| `OutboxSteps.AdditionIsStep` | `order_retry.py:605-675` | Storing a new record, evictions included, is the protocol's admission step of its producer kind |
| `OutboxSteps.RefreshIsStep` | `order_retry.py:561-603` | The symbol/side refresh is the protocol's refresh step |
| `OutboxSteps.ReuseIsStep` | `order_retry.py:531-547` | A duplicate replacement is the monitor's reuse of the stored one |
| `OutboxRefinement.BeginRefines` | `order_retry.py:678-741` | `begin_claimed_submit` changes the represented slot as the protocol's begin does, or changes nothing when token or revision moved on |
| `OutboxRefinement.CompleteRefines` | `order_retry.py:988-1119` | Every outcome of `complete_claim` changes the represented slot as that outcome does in the protocol; a snapshot without a lease matches only an unclaimed record of revision 0 |
| `OutboxRefinement.ActivateRefines` | `order_retry.py:1122-1170` | `activate_claimed_replacement` changes the represented slot as the protocol's activation does |
| `OutboxRefinement.DroppingRefines` | `order_retry.py:1242-1290` | Expiry and consolidation drop only slots that cannot be at a venue (for consolidation: only evictable ones) and touch no other |
| `OutboxRefinement.AddedRefines` | `order_retry.py:605-646` | Storing a new record evicts only evictable slots and stores the protocol's new slot |
| `OutboxRefinement.RefreshedAdmissionRefines` | `order_retry.py:561-603` | The symbol/side refresh re-issues one evictable slot under a new revision |
| `OutboxRefinement.OtherAdmissionRefines` | `order_retry.py:531-547` | A refused admission changes nothing; a duplicate replacement returns the stored awaiting record of the same order |
| `OutboxRefinement.ReplacementIsNew` | `order_retry.py:531-547` | A replacement is added only when no awaiting record of the same order is stored |
| `OutboxRefinement.TestsAgree` | `order_retry.py:1020-1040` | The exact-claim tests of begin, complete and activate all come down to one test on token and revision |
| `OutboxRefinement.ReconciliationDecides` | `order_retry_worker.py:68-78` | A stored record that needs no lookup before submission cannot be at a venue, and the converse fails only for an ambiguous reason that the flag does not confirm |
| `OutboxRefinement.RemovalsAgree` | `order_retry.py:386-414` | Whatever the eviction allowlist or expiry may remove is a slot that the protocol may lose |
| `OutboxEdits.RemainderConserves` | `order_retry.py:1062-1092` | A terminal remainder moves exactly the fill from open to delivered, keeps the total, and takes a new revision and client ID; it vanishes exactly when what is left is within the tolerance |
| `OutboxEdits.ApplyKeepsValid` | `order_retry.py:988-1119` | Every operation keeps every record well formed: quantities add up, the client ID is that of the revision, order ID exactly while accepted |
| `OutboxEdits.TransitionAgrees` | `order_retry.py:1187-1239` | What the worker is told about a venue status agrees with the stored record: an open order stays, a closed one is done even under a retryable name, and a rejected or expired one asks as a new revision for exactly the reported remainder |
| `OutboxList.RewriteKeepsValid` | `order_retry.py:268-298` | Every operation keeps the list well formed: one record per ID, each valid |
| `OutboxEnqueue.AdmitProtects` | `order_retry.py:548-646` | Enqueue never removes or alters a claimed, accepted, awaiting, possibly submitted or evidenced record; an added record leaves at most RETRY_MAX_QUEUE; a refusal changes nothing |
| `OutboxEnqueue.AdmitKeepsValid` | `order_retry.py:417-646` | Enqueue keeps the list well formed |
| `OutboxEnqueue.AdmitKeepsBound` | `order_retry.py:604-646` | Admission keeps the list within RETRY_MAX_QUEUE once it is within it |
| `OutboxEnqueue.CapacityRefusalExactly` | `order_retry.py:604-636` | Within the bound a valid intent is refused exactly when the queue is full, not one of its records may be evicted, and no stored replacement answers it |
| `OutboxEnqueue.OverfullRefusalExactly` | `order_retry.py:604-636` | An intent is refused although evicting only safe records would have made room exactly when the list is over its bound and holds some trend deferrals, but fewer than have to go, and no stored record answers the intent |
| `OutboxEnqueue.OverfullRefused` | `order_retry.py:604-636` | The failing list: a trend deferral and another evictable record under a bound lowered to one; the intent is refused and nothing is evicted |
| `OutboxEnqueue.DiscardProtects` | `order_retry.py:1242-1290` | `discard_expired` leaves exactly the records that are not listed and expired, and so every accepted, awaiting, possibly submitted or live-leased one |
| `Evictions.EvictFrame` | `order_retry.py:604-636` | Eviction removes exactly the requested number of candidates and keeps everything else in order |
| `Evictions.EvictsOldestFirst` | `order_retry.py:604-636` | Eviction never keeps a candidate older than one it removed |
| `OutboxConsolidation.ConsolidationIsCorrect` | `order_retry.py:758-795` | Surviving disposable deferrals are pairwise in different streams, each removed one has a surviving one of its stream that is no older, the rest survives in order, and a second call removes nothing |
| `OutboxConsolidation.CoverIsUnique` | `order_retry.py:758-795` | The result of consolidation is determined by the stored list alone |
| `OutboxConsolidation.StreamNotTransitive` | `order_retry.py:301-325` | The missing-provider wildcard makes the same-stream relation non-transitive |
| `OutboxConsolidation.StreamSymmetric` | `order_retry.py:301-325` | The same-stream relation is symmetric |
| `Consolidation.Sweep` | `order_retry.py:758-795` | The newest-first loop computes the greedy cover |
| `RetryQueueFile.RetryQueue.Claim` | `order_retry.py:954-985` | The loop over the stored list leases and returns exactly the listed records without a live lease; a bad lease raises and changes nothing |
| `RetryQueueFile.RetryQueue.BeginClaimedSubmit` | `order_retry.py:678-741` | Succeeds exactly when a stored record carries the snapshot's exact claim, and then returns the stored refreshed record; otherwise changes nothing |
| `RetryQueueFile.RetryQueue.CompleteClaim` | `order_retry.py:988-1119` | Finalizes exactly the matching leased revision as its outcome says; an outcome outside the contract raises and changes nothing |
| `RetryQueueFile.RetryQueue.AdvanceClaimedStatus` | `order_retry.py:1187-1239` | Classifies the raw status as the code does, closed before the venue's own name, completes the claim accordingly and reports the transition; other snapshots raise |
| `RetryQueueFile.RetryQueue.ActivateClaimedReplacement` | `order_retry.py:1122-1170` | Activates, resolves or refuses, and leaves the list accordingly |
| `RetryQueueFile.RetryQueue.DiscardExpired` | `order_retry.py:1242-1290` | Removes and returns exactly the records that are still the exact expired revision of a snapshot |
| `RetryQueueFile.RetryQueue.Enqueue` | `order_retry.py:417-675` | The imperative enqueue is the admission that the lemmas above speak about |
| `RetryQueueFile.RetryQueue.ConsolidateDeferredStreams` | `order_retry.py:758-795` | Leaves exactly the cover of the stored list and returns exactly what it dropped |
| `OutboxWorker.Scan` | `order_retry_worker.py:193-262` | Sorts one snapshot into work lists, each holding exactly the records of its class in queue order |
| `OutboxWorker.GroupFor` | `order_retry_worker.py:212-256` | The decisions of one turn of the scan, in the code's order, give the class that the lemmas below characterise |
| `OutboxWorker.ClaimedExactly` | `order_retry_worker.py:210-256` | A record is claimed exactly when it is due, not expired and, if a producer began it, that producer is verifiably gone and the venue supports lookup; it is watched exactly when its overdue producer is alive |
| `OutboxWorker.ScanRefines` | `order_retry_worker.py:210-262` | The claim list of a scan is a plan that the protocol's worker may make |
| `OutboxWorker.ListsRefine` | `order_retry_worker.py:212-236` | Expired records may be dropped and overdue live producers watched in the protocol |
| `OutboxWorker.ReconcilePending` | `order_retry_worker.py:428-490` | Submits exactly when the price gate passes and the record needs no lookup or is reliably absent; recovers exactly on a found order; otherwise releases |
| `OutboxWorker.DecisionRefines` | `order_retry_worker.py:428-464` | With a truthful lookup the decisions to submit and to recover are protocol steps |
| `OutboxWorker.FinishDispatch` | `order_retry_worker.py:508-557` | Records the result of a provider call under the exact claim |
| `OutboxWorker.NothingForgotten` | `order_retry_worker.py:508-557` | An order that came back is tracked; a call of unknown fate leaves a record that must be looked up and that neither expiry nor eviction may drop; only a definite refusal removes the record or frees it |
| `OutboxWorker.ReconcileReplacement` | `order_retry_worker.py:316-371` | The worker's treatment of a pre-cancel replacement, for every status of the old order |
| `OutboxWorker.SubmittableAfterCancel` | `order_retry_worker.py:316-371` | The replacement becomes submittable exactly when its order was seen canceled and left something, and then asks for exactly what is left |
| `OutboxProducers.Place` | `instrument.py:500-560` | The provider is called exactly when the guards pass and the exact claim is begun; the queue afterwards records guards, begin and outcome |
| `OutboxProducers.PlacedIsRemembered` | `instrument.py:526-620` | After a placement an order is tracked, an unknown fate is looked up before any resubmission, and only a definite refusal frees or removes the record |
| `OutboxProducers.LostClaimChangesNothing` | `instrument.py:500-513` | A producer whose claim was taken over sends nothing and changes nothing |
| `OutboxProducers.ReplaceOrder` | `monitororder.py:109-247` | Whatever the queue holds at each turn of the lock: the replacement stored or found, the lease taken, what is dispatched and the exact queue afterwards; a lost claim dispatches nothing and changes nothing |
| `OutboxProducers.ReplaceClaimed` | `monitororder.py:129-300` | For every old status, placement result and interference: whether a dispatch happened and the exact queue afterwards, the loss of the claim between activation and dispatch included |
| `OutboxProducers.DispatchFollowsCancel` | `monitororder.py:183-247` | A dispatch follows an observed cancel that left something, under the exact claim taken, and asks for exactly what was left when others left the leased record alone |
| `OutboxProducers.HandledTouchesOne` | `monitororder.py:129-300` | Handling a replacement leaves every record of another intent as it finds it |
| `OutboxProducers.HandledIsRemembered` | `monitororder.py:183-300` | Whatever others do to other records: the replacement leaves the pre-cancel state only after an observed cancel; a placed one is tracked, one of unknown fate will be looked up; it disappears only when blocked, not needed or definitely refused |
| `TradeRuns.RunRecoverableExactly` | `cacheManager.py:769-868` | For every interleaving of loads, growth, appends, compactions, failures and deaths: all its disks are recoverable exactly when no append commits over a live file that does not satisfy the manifest (with the new rows not in the kept generation by chance) |
| `TradeTheorems.CrashAtomic` | `cacheManager.py:1262-1287` | After any such run without that append, interrupted between any two file operations, recovery does not fail, survives its own interruption, and loads exactly the rows of the newest committed manifest |
| `TradeTheorems.VersionLaw` | `cacheManager.py:728-767` | Within a stream the rows of a lower revision are a prefix of a higher one's, and equal versions have equal rows |
| `TradeTheorems.StaleIsFenced` | `cacheManager.py:728-767` | A manager may append only while it remembers the durable version, and then it remembers the durable rows |
| `TradeTheorems.AppendStoresMemory` | `cacheManager.py:769-868` | A committed append makes the log equal to memory, symbol by symbol, and keeps everything committed before |
| `TradeTorn.AppendAnyExactly` | `cacheManager.py:769-868` | An append that died anywhere, over any recoverable disk, leaves a recoverable one exactly when it did not reach its manifest, or the live file (an empty one if it was missing) satisfied the old one, or the kept generation holds the new rows |
| `TradeTorn.TornAppendExactly` | `cacheManager.py:769-868` | A completed append leaves a recoverable disk exactly when the live file, created where it was missing, still satisfies the manifest or the kept generation already holds the new rows |
| `TradeTornRun.TornAppendLosesTheLog` | `cacheManager.py:769-868` | A run from the start that loses the log: two managers load, one dies inside a compaction, the other appends; every earlier disk is recoverable and the last one is not |
| `TradeRuns.HappensInv` | `cacheManager.py:728-880` | Every load, growth, append, compaction, failed attempt and death that does not lose the log keeps its invariant |
| `TradeSteps.SaveIsEvent` | `cacheManager.py:714-868` | A save, wherever the process dies and whatever its outcome, is one event of those runs or changes nothing; a missing data file is created |
| `TradeSteps.CompactIsEvent` | `cacheManager.py:1414-1519` | So is a compaction, the refused ones included |
| `TradeSteps.LoadIsEvent` | `cacheManager.py:1262-1287` | So is a load that finds something to load |
| `TradeCommits.AppendAnyPoint` | `cacheManager.py:769-868` | An append that dies anywhere leaves a live file that satisfies the manifest then on disk |
| `TradeCommits.CompactAnyPoint` | `cacheManager.py:1427-1519` | A compaction that dies anywhere can be recovered from, whether the kept generation is a hard link or a copy; only between data and manifest is the kept generation needed |
| `TradeCommits.CompactRollback` | `cacheManager.py:1487-1519` | A failed compaction puts the kept generation back |
| `TradeDisk.StrictReadExactly` | `cacheManager.py:1007-1031` | A strict read succeeds exactly on bytes that hold the manifest's rows, and returns them |
| `TradeDisk.RecoveryRecovers` | `cacheManager.py:1262-1287` | Recovery may die at any point and be repeated; completed, it leaves a live file with exactly the manifest's rows |
| `TradeRows.ParseEncoded` | `cacheManager.py:962-996` | Parsing inverts encoding |
| `TradeRows.ParsedEncodes` | `cacheManager.py:962-996` | Only complete encodings parse: a torn tail is rejected |
| `TradeRows.ChainLaw` | `cacheManager.py:370-395` | digest(a + b) = digest(b, starting from digest(a)) |
| `TradeRows.DigestDetermines` | `cacheManager.py:370-395` | Equal digests mean equal rows |
| `TradeRows.UniqueByBucket` | `cacheManager.py:481-519` | IDs are unique in the log exactly when they are unique in every bucket |
| `TradeLog.CommittedRows` | `cacheManager.py:796-852` | The manifest of an append certifies the old rows plus, per symbol, what memory holds beyond its persisted count |
| `TradeLog.CompactedRows` | `cacheManager.py:1427-1519` | The manifest of a compaction certifies exactly what memory holds |
| `TradeManagerFile.TradeManager.Validate` | `cacheManager.py:481-519` | The row check passes exactly when every row is in its own bucket and no ID repeats there |
| `TradeManagerFile.TradeManager.SaveAppend` | `cacheManager.py:728-868` | Stale exactly when stream, revision or digest differ from the durable ones; otherwise performs exactly the append's file operations up to the point of death |
| `TradeManagerFile.TradeManager.Save` | `cacheManager.py:714-780` | For every outcome, dying included, disk and memory afterwards: a stale manager or invalid rows change nothing, a shrunk memory is compacted, any other one appended |
| `TradeManagerFile.TradeManager.Compact` | `cacheManager.py:1414-1519` | Compacts only over a certified live file, into an unused stream, by exactly the four file operations |
| `TradeManagerFile.TradeManager.Load` | `cacheManager.py:1262-1287` | Loads the live or the kept generation, or changes nothing; memory then holds exactly the manifest's rows |
| `TradeManagerFile.ReadStrict` | `cacheManager.py:1007-1031` | The imperative strict read equals its specification on every input |
| `TradeManagerFile.Grouped` | `cacheManager.py:1007-1031` | Grouping puts every row into its symbol's bucket, in order, and nothing else |
| `TradeReaderFile.SuffixRefinesFull` | `cacheManager.py:1120-1228` | Whenever the suffix path succeeds, on whatever bytes, loaded plus new rows are exactly what a strict read from byte 0 under the same manifest returns |
| `TradeReaderFile.SuffixAcceptsExactly` | `cacheManager.py:1147-1172` | On a sound file the suffix path succeeds exactly when the manifest gained no symbol without rows; the full reload accepts either way |
| `TradeReaderFile.FollowsAppendExactly` | `cacheManager.py:1147-1172` | After an append by a manager, readers of the version before can follow incrementally exactly when the manager opened no bucket that it left empty |
| `TradeReaderFile.EmptySymbolRefused` | `cacheManager.py:1979-1983` | The failing input: an empty log was loaded, then one bucket is opened without a trade and another one gets its first; the suffix path refuses what a strict read accepts |
| `TradeReaderFile.HidingFails` | `cacheManager.py:1160-1167` | Whatever bytes are read, a version that names a new symbol without rows is refused |
| `TradeReaderFile.HidingPersists` | `cacheManager.py:1979-1983` | Later appends are refused too, for as long as the symbol has no rows |
| `TradeReaderFile.TradeReader.Reload` | `cacheManager.py:1120-1228` | A refused reload changes nothing in the reader, so repeating it is refused again |
| `TradeReaderFile.TradeReader.Prepare` | `cacheManager.py:1120-1172` | Chooses the full path exactly when nothing can be appended; otherwise reads the suffix or fails |
| `TradeReaderFile.TradeReader.Commit` | `cacheManager.py:1174-1228` | On success, by either path, the per-symbol lists are those of the manifest's rows; on failure nothing changed |
| `TradeFiles.Files.WriteRows` | `cacheManager.py:803-830` | Writing rows performs a prefix of the byte writes, all of them if the process lives |
| `OrderFills.MergeAggregates` | `cacheManager.py:2120-2202` | For every sequence of identified fills with duplicates and in any order: quantity, timestamp and fill IDs are those of the distinct fills the base does not cover; for a legacy aggregate, those strictly after its fixed cutoff |
| `OrderFills.DeliveryDoesNotMatter` | `cacheManager.py:2120-2202` | Two deliveries of the same fills to one row give the same quantity, timestamp and fill IDs |
| `OrderFills.RowDoesNotMatter` | `cacheManager.py:2120-2202` | The same for an order that the cache holds or does not hold yet, whichever fill opens its row |
| `OrderFills.CacheDoesNotMatter` | `cacheManager.py:2120-2202` | Two batches of the same identified fills over any orders, in any order and with duplicates, both succeed and leave the same orders, each with the same quantity, timestamp and fill IDs |
| `OrderFills.DeliverBatches` | `cacheManager.py:2120-2202` | It does not matter how a delivery is cut into batches |
| `OrderFills.NewOrderAggregates` | `cacheManager.py:2120-2202` | A row built from fills alone has the quantity, latest time and IDs of the set of its fills |
| `OrderFills.PriceNearAverage` | `cacheManager.py:2174-2185` | After k merges rounded to 1e-8 the stored price is within k half-units of the exact volume-weighted average |
| `OrderFills.NewOrderPrice` | `cacheManager.py:2174-2185` | For an order built from fills alone the bound is (k - 1) half-units for k distinct fills |
| `OrderFills.PriceWithinFills` | `cacheManager.py:2174-2185` | The stored price stays between the smallest and the largest fill price |
| `OrderFills.DeliverByOrder` | `cacheManager.py:2120-2202` | Orders do not disturb each other: a batch leaves in each row what that order's own fills make of it |
| `OrderFills.OrderCache.PersistItems` | `cacheManager.py:2120-2202` | A batch is merged whole into the bucket, and a side conflict leaves the bucket as it was; identified fills of one side per order never conflict |
| `TrackedLifecycle.ReconcileWellTraced` | `order_retry.py:1768-1889` | For every answer of the venue reconciliation keeps the intent's identity and size, writes a terminal status only as its last row, and removes a row only if it had no order ID |
| `TrackedLifecycle.EndedIsHonest` | `order_retry.py:1754-1776` | A final status is the one already persisted or one the venue gave now |
| `CampaignHistory.HistorySound` | `assetguardian.py:687-702` | Every history of events, each cut off after any number of saves and with any answers of the venue, keeps the campaign's accounting |
| `CampaignHistory.ExactlyOnce` | `assetguardian.py:595-684` | Wherever the process died, each order whose terminal status was persisted is in its tier and in the total exactly once, or is the one still pending; the total is the sum of the tiers |
| `CampaignBudget.BudgetHolds` | `assetguardian.py:570-578` | When a BUY costs at most the cash it asked for and its fee is at most a share r of the cost: recorded spending never exceeds initial cash x cash ratio x (1 + r) x sum of allocations (SELL: initial quantity x that sum) |
| `CampaignBudget.TierBudgetHolds` | `assetguardian.py:570-578` | Under the same answers no tier exceeds its share by more than the fee share, and a pending order asks for no more than its tier has left |
| `CampaignLimit.BudgetExactly` | `assetguardian.py:123-150` | For every fee share r: no history exceeds initial cash x cash ratio exactly when (1 + r) x the sum of the allocations is at most 1 (SELL: the sum alone); the configuration accepts any sum up to 1 + 1e-12 and reserves nothing for fees |
| `CampaignLimit.FeeOverspends` | `assetguardian.py:595-620` | The failing fill: one tier of everything, 1000 in cash at ratio 0.995; the BUY of 995 costs 995 and a fee of 1, and 996 are booked against 995 |
| `CampaignHistory.CompletedKept` | `assetguardian.py:558-563` | Between any two points of a history without a clearing in between, completed tiers only grow |
| `CampaignHistory.OwnClientAttempt` | `assetguardian.py:705-726` | Within a campaign no two recorded orders share tier and attempt number, whatever attempts were given back |
| `CampaignIds.ClientIdRepeatsExactly` | `assetguardian.py:581-592` | In every history an intent repeats the client ID of an entry of an earlier campaign exactly when both were submitted from the same extremum timestamp, for the same tier and after equally many attempts |
| `CampaignIds.RecordedOnceInside` | `assetguardian.py:595-684` | Within one campaign no venue order is recorded twice |
| `CampaignIds.RecordedTwiceOnlyIf` | `assetguardian.py:595-684` | A venue order recorded in two campaigns was submitted in both under those same circumstances |
| `CampaignIds.RecordedAgainExactly` | `order_retry.py:1783-1830` | In every history: a recorded order can be recorded again by a truthful lookup, for a later campaign's intent of unknown fate, exactly under those same circumstances |
| `CampaignIds.OneOrderInTwoCampaigns` | `order_retry.py:1783-1830` | A history in which that happens: the second campaign's lookup by the repeated client ID returns the first one's order, and it is recorded again |
| `AssetGuardianFile.Guardian.Reconcile` | `order_retry.py:1768-1889` | The imperative reconciliation persists exactly the rows of its specification, up to the point of death |
| `AssetGuardianFile.Guardian.ReconcilePending` | `assetguardian.py:750-813` | Whatever the venue answers: reconciliation, accounting and returned attempts, save by save |
| `AssetGuardianFile.Guardian.Submit` | `assetguardian.py:925-1006` | The intent is saved before the venue is called and the answer after it |
| `AssetGuardianFile.Guardian.SelectBuyTier` | `assetguardian.py:506-555` | Recovery clears whatever the other observations are; unusable ones change nothing; otherwise the exact campaign left (a higher peak keeps completed tiers and initial cash) and the first crossed tier that is not complete |
| `AssetGuardianFile.Guardian.SelectSellTier` | `assetguardian.py:832-922` | Clears exactly on re-arming, a grown or emptied position or an unusable record; looks for a tier exactly without open SELL orders; and the exact tier and campaign left |
| `AssetGuardianFile.Guardian.ChargeTier` | `assetguardian.py:1137-1157` | A tier already covered by partial fills is completed, not submitted |
| `PriceWindowFile.PriceWindow.ProcessPrice` | `pricewindow.py:188-203` | The window becomes the newest prices and the mirror its sorted permutation; the two inconsistency messages are unreachable |
| `PriceWindowFile.PriceWindow.SetSampleRate` | `pricewindow.py:126-139` | For any rate, fractions included: a window of fixed duration takes as many samples as fit, at least 10, and keeps its newest prices in order |
| `PriceWindowFile.PriceWindow.constructor` | `pricewindow.py:102-120` | The initial prices are cut to the newest ones that fit, with a sorted mirror |
| `PriceWindowFile.WindowIsNewest` | `pricewindow.py:188-203` | Processing one price at a time keeps exactly the newest `size` of all prices |
| `PriceWindowFile.RunFollows` | `pricewindow.py:101-139` | For every sequence of calls the window is the end of the processed stream, within its current size, and holds the newest price |
| `PriceWindowFile.PriceWindow.GetMin` | `pricewindow.py:208-214` | The average of the prices close to the smallest one: not below it, and itself close to it |
| `PriceWindowFile.PriceWindow.GetMax` | `pricewindow.py:216-222` | The average of the prices close to the largest one: not above it, and itself close to it |
| `IncidentDigestFile.NothingIsLost` | `notification_digest.py:42-79` | Per label set, reported plus pending counts and quantities equal all events received; forgetting idle groups loses nothing |
| `IncidentDigestFile.ReportsAreSpaced` | `notification_digest.py:42-79` | Two reports of one incident are at least one interval apart |
| `IncidentDigestFile.IncidentDigest.Collect` | `notification_digest.py:22-79` | `collect` on the list of groups acts on each label set separately as specified; an invalid call saves nothing |
| `MarketRegime.ComposedIsSound` | `market_regime.py:584-683` | For any number of benchmarks and all accepted weights: bull (bear) only if the asset's own weighted score is strictly positive (negative), confidence <= 1 and conviction <= confidence squared, veto included; abs(score) <= confidence when the weights sum to at most 1 |
| `MarketRegime.DirectionIsTheAssets` | `market_regime.py:650-665` | The veto can only cancel a direction, never create or reverse one |
| `MarketRegime.BoundHoldsExactly` | `market_regime.py:590-612` | For every strength cap and threshold: abs(score) <= confidence for all inputs exactly when the weights sum to at most 1 or the asset has no weight; the code accepts sums slightly above 1 |
| `MarketRegime.AllBull` | `market_regime.py:590-612` | The failing inputs: everything bull at full strength |
| `MarketRegime.SignedScore` | `market_regime.py:574-582` | The score is within [-1, 1], has the sign of its regime, and is missing exactly for stale or unknown decisions |
| `MarketRegime.Compose` | `market_regime.py:584-683` | The loop over components computes the specified composition and raises exactly on invalid settings |
| `MarketRegime.Resolve` | `market_regime.py:441-572` | The snapshot first, then the configured sources, only one of either without fallback: the first usable one decides, and without one nothing is decided |
| `MarketRegime.AlternatesDoNotDecide` | `market_regime.py:458-464` | Collecting alternates changes neither the selected source nor the decision |

## Left out

- Legacy paths: `discard`, `resolve`, `resolve_record`, `rewrite`, `mark_failure` and `mark_accepted` of the queue, unversioned Trade migration, de-duplication while compacting legacy rows, old pending-row formats.
- Locks, JSON, validation of malformed stored fields and queue corruption: a locked region is one atomic operation, and stored records are well typed.
- `OutboxProtocol.WorkerScan`: the worker reads queue and owner liveness in one step; in the code they are read one after the other, and only lease times are stale.
- `OutboxProducers.Place` and the methods of `OutboxWorker` act alone on the queue between their own operations; interference there is the subject of the protocol.
- `OutboxTheorems.ReplacementConserves`: is about one replacement record; `OutboxOrders.OrderKeptExactly` is about all records that replace an order.
- `OutboxTheorems.RevisionAfterTerminal`: the symbol/side refresh starts a new revision without a terminal status; it applies only to records that were never submitted, so the lemma speaks of calls rather than statuses.
- The monitor's price tracking, filter and preflight checks, and the guards of `Instrument.place` (profit, weight, cooldown, trend) are one nondeterministic refusal.
- Retries of accepted-order persistence: one exact completion stands for them, and a failed one for the process dying.
- Audit events, alerts, `order_history` and `terminal_orders` texts, counters of a worker pass.
- `TradeTheorems.CrashAtomic`: speaks of runs without an append over a file that does not satisfy its manifest; `TradeRuns.RunRecoverableExactly` says that exactly those lose the log.
- `TradeRows.ParseEncoded`: a symbolic byte names its row, so the JSON text, its line framing and its escapes are not modelled, only which bytes of which rows are there.
- `TradeRows.ParsedEncodes`: for the same reason other texts of the same row and blank lines, which the code also accepts, do not occur.
- `TradeTheorems.StaleIsFenced`: speaks of the append path only; a compaction does not compare versions, only that the live file satisfies its manifest.
- A rollback of a failed compaction that itself fails, and pruning by other threads between a compaction's snapshot and its commit.
- Fetch times, `maxTs` freshness and dirty flags of the cache other than those that decide between full and suffix reload.
- `TradeSteps.LoadIsEvent`: a load that finds neither generation certified changes nothing and is not an event.
- `OrderFills.MergeAggregates`: fills without an ID are merged by the model's code, but the exactly-once statement is about identified fills.
- Fields that a merged fill overwrites besides price, quantity, time, side and IDs.
- `OrderFills.CacheDoesNotMatter`: the stored prices may differ by the roundings that `OrderFills.PriceNearAverage` and `OrderFills.NewOrderPrice` bound, and the rows may come in another order.
- `CampaignBudget.BudgetHolds`: tiers are keyed by their threshold; two thresholds that print alike in six digits share a key in the code.
- Campaign records without a stored peak, initial cash or quantity of an older format.
- Trend deferral, price extrema, and the conversion of a tier's cash into a venue quantity.
- `PriceWindowFile.PriceWindow.constructor`: a window of size zero, with which the code fails at the first price.
- Gradients, trends and the centroid indices of the extrema over the price window.
- Storage and validation of the digest's file; labels are opaque strings.
- Pattern and reason texts of a composite regime, the evaluator's numerics, and the bounded evidence cache.
- `MarketRegime.Resolve`: the configured sources are given as their evidence; how each is obtained from a provider, and the reason texts, are not modelled.
