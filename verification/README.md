# A verified model of the pool's money path

The mining pool hands out jobs, credits shares, and turns every block its miners
find into one on-chain payout. This project models that path in Dafny, from the
difficulty a session's job is frozen at to the last satoshi of a payout batch,
and proves what each part promises and what all of them keep together.

Code that updates state is modelled by classes and loops (`VarDiff.Controller`,
`JobCache.Cache`, `Session.Session`, `Ledger.Book`, `Rounds.Table`,
`Accounting.Service`, the planner in `PayoutPlan` and the window scan in `Pplns`),
each proved against a specification on values. Concurrency is modelled by `Pool`:
a state machine in which every actor (share sessions, any number of sessions that
found a block, the node event consumer, the startup reconciliation, the payout
handler, the admin trigger) is cut at its lock sections, so between any two sections
of one actor all others may run. Node answers, signer results, the PPLNS window and dust
balances a payout transaction reads, and the operator's deletion of payout rows
are inputs of the steps, left arbitrary.

| file | what it holds |
|---|---|
| `Orders`, `Text` | strict orders and stable sorting; decimal text, SQLite `LIKE`, hashes |
| `Apportionment`, `PayoutPlan`, `PlanTheorems` | the largest-remainder rule without loops; the planner's loops refined to it; conservation, fairness, order independence |
| `Pplns`, `Snapshots`, `DustLedger` | the payout window; snapshot rows; dust balances over creations and rebuilds |
| `VarDiff`, `Convergence` | the difficulty controller; its closed loop |
| `JobCache`, `JobId`, `Session`, `SessionTheorems`, `Ledger` | jobs, sessions, share validation, the share ledger |
| `Rounds`, `Tables`, `Accounting` | the round, block and batch tables and the service methods on them |
| `Pool` | the lifecycle state machine |
| `PoolGrowth`, `PoolRounds`, `PoolPayouts`, `PoolConfirmed`, `PoolPaid`, `PoolDepth`, `PoolMoney` | one invariant each, preserved by every step |
| `PoolTheorems`, `Reorg`, `Reconnects`, `PoolStartup` | what follows for every run; reorganisations, undisturbed and under interleaving; the startup work undisturbed |
| `PoolRaces`, `SharedRounds` | runs that show a hypothesis is needed; what goes wrong for two found blocks in one round |

Amounts and ids are unbounded integers with the source's u64/i64 conversions and
products written out; difficulties and quotas are exact reals.

## Where the code and its documentation or intent differ

The model follows the code.

- A worker without a suffix is inserted anew on every share, because a unique
  index never matches NULL, so its shares are never recognised as duplicates
  (`Ledger.ResubmissionIgnoredIff`).
- The dust bonus added to a weight is `dust / gross`; the comment in the planner
  speaks of scaling by the total work.
- Without a fee address the pool fee is still withheld; the FAQ says it is
  distributed. The FAQ allows the ntime to move by twenty minutes; the validator
  demands the job's ntime.
- The design calls an orphaned block final; a reconnect restores it
  (`Reorg.RoundTripIff`).
- The chain tip is never lowered: the consumer does not call the method that would.
- A ceiling below the floor leaves the controller out of bounds
  (`VarDiff.CeilingKeepsBoundsIff` is the exact condition).
- A job handed out on authorize, or broadcast without clearing the queue after such a
  dispatch, may be queued at more than its own network difficulty
  (`SessionTheorems.AuthorizedJobCanRejectBlock`,
  `SessionTheorems.UncleanBroadcastCanRejectBlock`); exactly then block-winning shares
  are rejected (`SessionTheorems.WinningSharesAcceptedIff`).
- Overlapping finds, two finds on one template, or a restart between recording a block
  and closing its round put two blocks in one round
  (`PoolRaces.OverlappingFindsShareRound`, `PoolRaces.SameTemplateSharesRound`,
  `PoolRaces.RestartSharesRound`). It happens exactly when a block is recorded in a round
  that holds one (`PoolRounds.SharesIff`).
- Batches and blocks find each other through the round, so blocks in one round are
  mistaken for each other: a shallow block is matured
  (`SharedRounds.SharedRoundMaturesShallow`), a block is marked paid without a batch of its
  own (`SharedRounds.SharedRoundPaysOther`), a rebuild takes the other block's coinbase
  (`SharedRounds.SharedRoundRebuildsOther`). Each lookup has its exact condition
  (`PoolDepth.RoundHasIff`, `PoolPaid.LookupFindsOwnerIff`,
  `PoolMoney.RebuildFromOtherIff`), and a block alone in its round is never mistaken for
  another, in any run.
- The consumer is started before the startup maturity check, which matures what it listed
  without looking again, so it can mature an orphaned block whose payout was submitted
  (`PoolRaces.StartupCheckMaturesSubmitted`, `Reconnects.StartupMaturesIff`).
- A manual trigger followed by a reorg can mature a shallow block
  (`PoolRaces.TriggerCanMatureShallowBlock`); a trigger is safe exactly on a block that
  was deep (`PoolDepth.TriggerIsSafeIff`).
- A reconnect can un-orphan a block whose payout was just submitted
  (`PoolRaces.ReconnectRacesWithSubmission`); exactly when the submission was recorded
  after the consumer's read (`Reconnects.UnOrphansSubmittedIff`).
- The handler never looks at a block's status, so a block orphaned while its event is
  queued is still paid out (`PoolRaces.OrphanedBlockCanBePaidOut`,
  `PoolPayouts.PaysOrphanIff`).
- A rebuild under another fee rate balances exactly when the fees agree
  (`PoolMoney.RebuildBalancesIff`), and every rebuild credits carried dust again
  (`DustLedger.BalancesAddUp`).

## Model

| member | source | states |
|---|---|---|
| `Apportionment.PaymentsExactIff` | src/payout/plan.rs:133-148 | for arbitrary quotas, the payments add up to the net reward if and only if the leftover is between 0 and the number of addresses |
| `Apportionment.RemainderBounds` | src/payout/plan.rs:117-134 | with exact quotas the leftover is never negative and, when positive, smaller than the number of fractional quotas |
| `Apportionment.PaymentsSumToNet` | src/payout/plan.rs:104-148 | largest-remainder exactness: the payments add up to exactly the net reward |
| `Apportionment.WholeQuotaPaidExactly` | src/payout/plan.rs:137-148 | an address whose quota is a whole number never gets the extra satoshi |
| `Apportionment.WithinOneSatoshi` | src/payout/plan.rs:117-148 | every payment is strictly within one satoshi of its real quota |
| `Apportionment.PayMonotone` | src/payout/plan.rs:117-148 | a larger quota is never paid less |
| `Apportionment.ExtraGoesInOrder` | src/payout/plan.rs:137-148 | extra satoshis go to larger fractional parts first and, of equal ones, to smaller addresses |
| `PayoutPlan.RewardSplitsCoinbase` | src/payout/mod.rs:26-29 | reward and minerfund make up the coinbase for every u64 value but the largest |
| `PayoutPlan.FeeDoesNotOverflow` | src/payout/plan.rs:96-102 | up to 10^12 satoshis and 100% the u64 product does not wrap and the fee is the true share rounded down |
| `PayoutPlan.FeeIsExactIff` | src/payout/plan.rs:96-102 | for every reward the fee is the true share rounded down if and only if the product fits u64 |
| `PayoutPlan.FirstWorkerIsFirst` | src/payout/plan.rs:67-75 | the worker of an output is that of the address's first share in the window |
| `PayoutPlan.DustOfIsLast` | src/payout/plan.rs:77-92 | the last dust row of an address counts, and an address without one has none |
| `PayoutPlan.AggregateWork` | src/payout/plan.rs:67-75 | the map built share by share holds each address's total work and first worker |
| `PayoutPlan.CollectDust` | src/payout/plan.rs:77-92 | the balance map agrees with the rows, the last row of an address winning |
| `PayoutPlan.AddDustBonus` | src/payout/plan.rs:77-92 | exactly the addresses of the window get their dust bonus |
| `PayoutPlan.TotalWork` | src/payout/plan.rs:94 | the loop adds up all weights |
| `PayoutPlan.HandOutRemainder` | src/payout/plan.rs:137-148 | one satoshi to each row from the front until the leftover is used up, for any leftover |
| `PayoutPlan.LargestRemainder` | src/payout/plan.rs:133-148 | sorting by fraction and handing out the leftover pays every row what the rule without loops says |
| `PayoutPlan.Distribute` | src/payout/plan.rs:104-151 | after sorting back, one row per address in address order, each with its payment |
| `PayoutPlan.ClipToMinimum` | src/payout/plan.rs:153-173 | a row of at least the minimum pays its whole part and carries nothing, a smaller one pays 0 and carries its whole part; address, worker and the dust total are kept |
| `PayoutPlan.BuildPayoutPlan` | src/payout/plan.rs:55-195 | the planner's outputs are the largest-remainder outputs of the window's weights; each is paid on chain in full from the minimum on and carried in full below it; fee, totals, retry key |
| `PayoutPlan.RetryKeyIff` | src/payout/plan.rs:180 | a retry key fixes the block hash and the number of outputs |
| `PlanTheorems.OutputsExistIff` | src/payout/plan.rs:104-115 | there are outputs if and only if the total weight and the net reward are positive |
| `PlanTheorems.OneOutputPerAddress` | src/payout/plan.rs:150-173 | outputs are in strict address order and name exactly the window's addresses |
| `PlanTheorems.PlanConserves` | src/payout/plan.rs:104-174 | amounts and dust of a plan add up to the net reward |
| `PlanTheorems.CoinbaseConserved` | src/payout/plan.rs:96-174 | coinbase = minerfund + fee + amounts + dust, for any fee rate that leaves outputs |
| `PlanTheorems.PlanWithinOneSatoshi` | src/payout/plan.rs:117-173 | amount plus dust of every output is strictly within one satoshi of its quota |
| `PlanTheorems.PlanIsProportional` | src/payout/plan.rs:104-173 | without naming quotas: amount plus dust times the total weight is within one total weight of the weight times the net reward |
| `PlanTheorems.PlanClips` | src/payout/plan.rs:153-173 | an output of at least the minimum has no dust, a smaller one no amount |
| `PlanTheorems.TotalsAdd` | src/payout/plan.rs:153-174 | the totals of a plan are the sums of its columns |
| `PlanTheorems.WeightIsWorkAndDust` | src/payout/plan.rs:77-92 | the weight of an address times the reward is its work times the reward plus its dust balance |
| `PlanTheorems.DustRaisesWeight` | src/payout/plan.rs:77-92 | more dust never lowers a weight, and raises it when reward and balance are positive |
| `PlanTheorems.PayFollowsWeight` | src/payout/plan.rs:117-173 | more weight is never paid less, before or after clipping; equal weights differ by at most one satoshi |
| `PlanTheorems.DustOutsideWindowIsIgnored` | src/payout/plan.rs:77-92 | dust of addresses outside the window has no effect |
| `PlanTheorems.OrderIndependence` | src/payout/plan.rs:67-151 | permuting the shares changes no address, amount or dust |
| `PlanTheorems.WorkerIdsOrderIndependentIff` | src/payout/plan.rs:67-75 | worker ids are independent of the order as well if and only if every address has one worker |
| `Pplns.CalculateWindow` | src/payout/pplns.rs:30-74 | the window is the shortest newest-first prefix that reaches the threshold, or everything, and holds only shares with an accepted outcome no later than the find |
| `Pplns.CutoffUnique` | src/payout/pplns.rs:61-73 | that description fixes the window |
| `Pplns.NewestFirstIsSorted` | src/payout/pplns.rs:36-46 | the query returns a share once for each of its accepted outcome rows created no later than the find, newest first |
| `Pplns.ListedIff` | src/payout/pplns.rs:36-46 | a share is listed if and only if some row of it is accepted and created no later than the find |
| `Pplns.WindowMembership` | src/payout/pplns.rs:36-73 | on the columns: a row's share is in the window if and only if it is accepted, no later than the find, and first or preceded by less work than the threshold |
| `Pplns.WindowIgnoresTableOrder` | src/payout/pplns.rs:36-73 | with distinct timestamps the window does not depend on the order of the table |
| `Pplns.WindowGrows` | src/payout/pplns.rs:61-73 | a larger multiplier never shortens the window |
| `Pplns.WindowStable` | src/payout/pplns.rs:36-46 | shares recorded strictly after the find do not change its window |
| `Pplns.SameSecondShareIff` | src/payout/pplns.rs:36-73 | exactly when a share recorded later but in the second of the find enters the window |
| `Pplns.RebuildReproduces` | src/accounting/service.rs:599-664 | a rebuild with unchanged dust reproduces the payout rows, whatever shares came later |
| `Snapshots.SnapshotShares` | src/accounting/service.rs:433-463 | the nested loop collects, per output, the window's shares of its address in order |
| `Snapshots.SnapshotsPartitionWindow` | src/accounting/service.rs:433-463 | when there are outputs every window share is written exactly once and the work units add up to the window's |
| `Snapshots.WorkIsSnapshotWork` | src/payout/plan.rs:67-75 | the work an address is credited is that of the snapshot rows written for it |
| `Snapshots.WeightsAddUp` | src/payout/plan.rs:94 | without dust in the window the total weight is the window's work |
| `Snapshots.CreditDust` | src/accounting/service.rs:484-499 | every address's balance grows by exactly the dust its outputs carry, and rows stay unique |
| `Snapshots.CarriedIsOutputDust` | src/accounting/service.rs:484-499 | with one output per address, an address is credited exactly the positive dust of its output |
| `DustLedger.BalancesAddUp` | src/accounting/service.rs:700-715 | after any creations, deletions and rebuilds a balance is the dust of the current rows plus that of every removed row, and equals the former if and only if no removed row carried dust |
| `DustLedger.RebuildCreditsAgain` | src/accounting/service.rs:700-715 | deleting and rebuilding rows credits the rebuilt dust on top of the balance |
| `VarDiff.Controller.constructor` | src/share_processing/difficulty.rs:68-77 | a new controller starts at the configured part of the network difficulty, or the bound nearest to it, with no shares |
| `VarDiff.Controller.RecordShare` | src/share_processing/difficulty.rs:86-88 | a share not older than the last retarget counts exactly once in the next decision, an older one not at all |
| `VarDiff.Controller.UpdateMax` | src/share_processing/difficulty.rs:95-106 | new ceiling, and the difficulty clamped to it if above |
| `VarDiff.Controller.MaybeRetarget` | src/share_processing/difficulty.rs:120-161 | the controller takes the decision of the specification; a new difficulty is larger when more shares were counted than the elapsed time asks for, smaller when fewer, and there is none when as many |
| `VarDiff.RetargetIff` | src/share_processing/difficulty.rs:120-161 | from the shares counted and the time elapsed alone: exactly when there is a new difficulty, and which |
| `VarDiff.CeilingKeepsBoundsIff` | src/share_processing/difficulty.rs:95-106 | a ceiling keeps the difficulty within bounds if and only if it is not below the floor |
| `VarDiff.RunKeepsInvariant` | src/share_processing/difficulty.rs:68-161 | over every orderly run the difficulty stays within floor and ceiling and every stored timestamp is counted |
| `VarDiff.InitialInvariant` | src/share_processing/difficulty.rs:68-77 | a new session starts within bounds |
| `VarDiff.RetargetsAreGradual` | src/share_processing/difficulty.rs:120-161 | k retargets without a ceiling drop keep the difficulty within 0.67^k and 1.5^k of its start |
| `Convergence.RetargetIsLoopStep` | src/share_processing/difficulty.rs:120-161 | a due retarget that has counted E/current shares per target interval elapsed is one step of the closed loop |
| `Convergence.MovesCloser` | src/share_processing/difficulty.rs:138-160 | every retarget moves strictly closer to the equilibrium and never past it |
| `Convergence.NeverOvershoots` | src/share_processing/difficulty.rs:120-161 | over any number of rounds the difficulty stays between its start and the equilibrium |
| `Convergence.SettledForever` | src/share_processing/difficulty.rs:120-161 | once settled the controller never retargets again |
| `Convergence.SettlesWithin` | src/share_processing/difficulty.rs:120-161 | the number of retargets is at most what the capped gains need to cover the distance |
| `Convergence.ConvergesFromAnywhere` | src/share_processing/difficulty.rs:120-161 | from anywhere in range at most 3 × max/floor retargets ever happen, then none |
| `Convergence.AtRestIff` | src/share_processing/difficulty.rs:140-156 | the controller is at rest if and only if the rate is in the deadband, the equilibrium is within epsilon, or a capped step is below epsilon |
| `Convergence.AtRestMeansDeadband` | src/share_processing/difficulty.rs:140-156 | with a floor whose capped step is at least epsilon, at rest means in the deadband or within epsilon of the equilibrium, for every variance |
| `JobCache.Cache.Insert` | src/node_integration/job_cache.rs:28-44 | push, evict while over size, store |
| `JobCache.Cache.GetLatest` | src/node_integration/job_cache.rs:52-58 | the cached job of the newest queued id |
| `JobCache.QueueIsRecent` | src/node_integration/job_cache.rs:28-44 | the queue is the ids of the last max_size inserts |
| `JobCache.LatestIsLastInserted` | src/node_integration/job_cache.rs:52-58 | with max_size ≥ 1 the latest job is the last inserted |
| `JobCache.CachedIff` | src/node_integration/job_cache.rs:28-44 | exactly what is cached after any inserts, repeated ids included |
| `JobCache.CachedIsQueued` | src/node_integration/job_cache.rs:28-49 | cached ids are among the queued ones |
| `JobCache.CacheIsBoundedFifo` | src/node_integration/job_cache.rs:28-75 | with distinct ids the cache holds exactly the last max_size jobs |
| `JobCache.LenAgreesIff` | src/node_integration/job_cache.rs:72-75 | `len` counts the cached jobs if and only if no recent job repeats a recent id |
| `JobId.ParsePrint` | src/stratum_protocol/job.rs:5-11 | the job-id parser undoes the printer for all pairs of u64 numbers |
| `JobId.KeyFixesNumbers` | src/accounting/share_repository.rs:68-80 | equal dedupe keys name the same worker, template and epoch, whatever the miner's strings |
| `JobId.KeyInjective` | src/accounting/share_repository.rs:68-80 | the key is injective once one side's strings hold no colon |
| `JobId.ColonsCollide` | src/accounting/share_repository.rs:68-80 | strings with colons can collide |
| `Ledger.Book.Upsert` | src/accounting/worker_repository.rs:24-49 | the worker upsert, with NULL suffixes never conflicting |
| `Ledger.Book.InsertShareAndOutcome` | src/accounting/share_repository.rs:232-330 | insert-or-ignore of share and outcome, linked, with the ids of the rows holding the key |
| `Ledger.Book.RecordShare` | src/accounting/service.rs:53-156 | the ledger after one submission: worker, share, outcome, and an event for a new row only |
| `Ledger.DuplicateChangesNothing` | src/accounting/service.rs:122-153 | a known key changes no share, outcome or event |
| `Ledger.FreshAddsOne` | src/accounting/service.rs:122-153 | a new key adds one share, one outcome linked to it and one event |
| `Ledger.FreshColumns` | src/accounting/share_repository.rs:232-330 | which column of the new share, outcome and event holds which field of the submission, its round and its worker |
| `Ledger.WorkerColumns` | src/accounting/worker_repository.rs:24-49 | the worker row has the address and the suffix, NULL for an empty one, and is a known row if and only if the suffix is not empty and the pair is known |
| `Ledger.RecordingRefinesMap` | src/accounting/share_repository.rs:232-330 | recording is insertion into a map from dedupe key to share and outcome unless the key is present |
| `Ledger.RunKeepsLedger` | src/accounting/service.rs:53-156 | over every run shares and outcomes stay one to one by key and recorded rows never change |
| `Ledger.ResubmissionIgnoredIff` | src/accounting/worker_repository.rs:24-49 | an identical resubmission is ignored if and only if the worker has a suffix |
| `Session.Session.HandleAuthorize` | src/stratum_protocol/session.rs:64-79 | authorization of a well-formed name, and the error cases |
| `Session.Session.RecordAssignedJob` | src/stratum_protocol/session.rs:83-92 | the assigned-job queue with its cap of 128 |
| `Session.Session.OnAuthorize` | src/stratum_protocol/server.rs:389-439 | the authorize branch with the dispatch of the newest cached job |
| `Session.Session.OnBroadcast` | src/stratum_protocol/server.rs:451-541 | the broadcast branch: ceiling, clearing, dispatch |
| `Session.Session.HandleSubmit` | src/stratum_protocol/server.rs:610-890 | verdict, persisted metadata, error code and controller update of a submission; a rejected one changes nothing |
| `SessionTheorems.WinningHashesPassIff` | src/share_processing/validator.rs:87-238 | no hash that meets the network target fails the difficulty check if and only if the frozen difficulty is at most the network difficulty |
| `SessionTheorems.AcceptedIff` | src/share_processing/validator.rs:87-238 | a submission on a queued, cached job is accepted if and only if its worker is authorized, its format valid, its ntime the job's, hash times queued difficulty at most diff1 and the target readable; it is a block if and only if the hash is also within the target |
| `SessionTheorems.ReasonIff` | src/share_processing/validator.rs:87-208 | each rejection reason exactly under its own condition |
| `SessionTheorems.NotQueuedIsRejected` | src/stratum_protocol/server.rs:635-680 | a job not queued, or no longer cached, is rejected, and for which reason |
| `SessionTheorems.RecordedWith` | src/stratum_protocol/server.rs:635-680 | a submission is recorded with the difficulty its job was queued at, or the session's, and the cached job's template |
| `SessionTheorems.ValidFormatIff` | src/share_processing/validator.rs:45-71 | the format is valid if and only if the strings decode to 1 to 8, 6 and 8 bytes |
| `SessionTheorems.WorkerNameIff` | src/stratum_protocol/session.rs:64-79 | a worker name is a valid address, alone or with a nonempty suffix after its first dot |
| `SessionTheorems.WinningSharesAcceptedIff` | src/share_processing/validator.rs:87-238 | in every reachable session all block-winning hashes of a well-formed submission on a queued job are accepted if and only if the difficulty of the entry found is at most the job's network difficulty |
| `SessionTheorems.BlockWinningShareSurvives` | src/stratum_protocol/server.rs:451-541 | in every session whose broadcasts clear the queue, as the event consumer's do (consumer.rs line 166), a block-winning share on a queued broadcast job is accepted and recognised, whichever dispatch queued it |
| `SessionTheorems.UncleanBroadcastCanRejectBlock` | src/stratum_protocol/server.rs:494-510 | a broadcast that keeps the queue can leave an older, harder entry in front, so that a winning hash on the broadcast job is rejected |
| `SessionTheorems.AuthorizedJobCanRejectBlock` | src/stratum_protocol/server.rs:389-439 | a job dispatched on authorize can reject a block-winning hash |
| `SessionTheorems.AcceptedShareIsAccountable` | src/stratum_protocol/server.rs:635-680 | an accepted share names an authorized worker and a job dispatched since the last clean, and is credited the difficulty it was checked against |
| `SessionTheorems.WorkersWereAuthorized` | src/stratum_protocol/session.rs:64-79 | only authorize requests with a valid name put a worker in the session |
| `SessionTheorems.EvictionKeepsMetadataIff` | src/stratum_protocol/server.rs:635-680 | eviction never changes the recorded difficulty, and keeps template and epoch if and only if the job is still assigned or both are zero |
| `SessionTheorems.ValidSubmissionKeyIsUnique` | src/share_processing/validator.rs:45-71 | format-valid submissions have distinct dedupe keys |
| `Rounds.Table.GetOrCreateCurrentRound` | src/accounting/round_repository.rs:29-70 | the open round, or a new one exactly when none is open; it covers exactly the templates from its start on |
| `Rounds.Table.CloseRound` | src/accounting/round_repository.rs:74-80 | the closed round is no longer the open one, covers exactly the templates from its start to its end, and one open round at most stays so |
| `Rounds.Table.QueryCovering` | src/accounting/round_repository.rs:91-108 | the covering round with the largest start |
| `Rounds.Table.ResolveRoundForTemplate` | src/accounting/round_repository.rs:87-120 | the two sections run one after the other |
| `Rounds.NeverTwoOpenRounds` | src/accounting/round_repository.rs:29-120 | however sessions interleave between the two sections, there is never more than one open round |
| `Rounds.ResolveTwice` | src/accounting/round_repository.rs:87-120 | resolving a template twice in succession gives the same round and changes nothing |
| `Rounds.ResolvedRoundCoversIff` | src/accounting/round_repository.rs:87-120 | the resolved round covers the template if and only if one covered it before or none was open |
| `Rounds.SameTemplateSameRound` | src/accounting/round_repository.rs:91-108 | a second find on the closing template resolves to the same round, so increasing templates are needed |
| `Tables.GuardIsEquality` | src/accounting/service.rs:393-409 | for 64-digit hashes both the LIKE prefix guard and the handler's starts_with are equality |
| `Tables.GuardIff` | src/payout/handler.rs:93-103 | both guards refuse exactly when the block has a batch |
| `Accounting.Service.RecordFoundBlock` | src/accounting/found_block_repository.rs:42-86 | inserts an immature block unless the hash is known or the value does not fit, and keeps hashes unique |
| `Tables.OrphanRoundTrip` | src/accounting/found_block_repository.rs:89-107 | orphaning then un-orphaning leaves the block immature and every other row unchanged; un-orphaning does nothing to a block that is not orphaned |
| `Accounting.Service.CheckMaturation` | src/accounting/service.rs:1107-1129 | matures exactly the immature blocks with enough confirmations, returns exactly those, and leaves none |
| `Accounting.Service.ReconcileFoundBlocks` | src/accounting/service.rs:927-1000 | orphans exactly the immature blocks above the tip or with another canonical hash, and closes exactly the rounds of those |
| `Accounting.Service.HandleBlockDisconnected` | src/node_integration/nng/consumer.rs:229-289 | the block orphaned and its round closed with end 0, or nothing for a foreign block |
| `Accounting.Service.UpdateBlockConnected` | src/accounting/chain_tip.rs:31-36 | the tip only rises |
| `Accounting.Service.Reconnect` | src/node_integration/nng/consumer.rs:319-360 | restores an orphaned block to matured or immature by its batch, never when the batch is submitted |
| `Accounting.Service.HandleBlockConnected` | src/node_integration/nng/consumer.rs:296-392 | tip, restored block, maturity of every block, and the exact events queued |
| `Accounting.Service.ConfirmBatches` | src/payout/handler.rs:134-166 | confirms exactly the submitted batches whose transaction is in the block and marks paid exactly the latest blocks of their rounds |
| `Accounting.HandlerScans` | src/payout/handler.rs:134-166 | the handler of the state machine, undisturbed after a connected block, does the same to the same rows |
| `Accounting.Service.CreatePayout` | src/accounting/service.rs:303-525 | refuses without winning outcome or with a batch of the hash, changing nothing; otherwise batch, rows, snapshots and dust of the plan |
| `Accounting.Service.HandleMatured` | src/payout/handler.rs:75-131 | however often the event arrives, the block ends with exactly one batch, planned from the given window and dust, and all keys stay distinct |
| `Accounting.Service.RebuildPayout` | src/accounting/service.rs:539-735 | exactly when a rebuild succeeds, what it replaces, and that failure changes nothing |
| `Accounting.Service.ProcessPending` | src/accounting/service.rs:738-915 | one pass submits exactly the pending batches that were answered and have rows, each once; missing rows become those of a rebuild, and nothing is submitted when that fails |
| `PoolGrowth.StepGrows` | src/accounting/service.rs:411-447 | no step changes the identity of a block or batch or loses one |
| `PoolRounds.StepKeepsBase` | src/accounting/round_repository.rs:29-120 | with any number of sessions recording finds at once, on any templates, every step keeps at most one open round and all round ids valid |
| `PoolRounds.FreshIff` | src/stratum_protocol/server.rs:801-816 | the early guard: a step keeps found blocks and finds about to record theirs in different rounds if and only if it does not resolve a find to a round that holds or is claimed for a block |
| `PoolRounds.SharesIff` | src/accounting/found_block_repository.rs:42-86 | a step keeps found blocks in different rounds if and only if it does not record a new block in a round that holds one |
| `PoolRounds.DisciplinedIsSeparate` | src/accounting/round_repository.rs:87-120 | a find started when none is in progress, on a template newer than the last, never resolves to a taken round |
| `PoolRounds.StepKeepsDiscipline` | src/stratum_protocol/server.rs:801-816 | under that discipline, and without a restart between recording a block and closing its round, every step keeps closed rounds ending before the template being found and blocks out of open rounds |
| `PoolPayouts.StepKeepsKeys` | src/accounting/service.rs:393-431 | every step, however finds overlap, keeps batches owned by recorded blocks with pairwise different hashes |
| `PoolPayouts.PayoutsIgnoreStatus` | src/payout/handler.rs:72-174 | what the handler creates, rebuilds, signs and confirms does not depend on any block's status |
| `PoolPayouts.PaysOrphanIff` | src/payout/handler.rs:105-127 | a payout is created for an orphaned block if and only if the block is orphaned by then and has no batch |
| `PoolPayouts.StepKeepsSubmissions` | src/accounting/service.rs:751-912 | every step keeps the signer's log free of repeats and equal to the batches past pending plus the one being marked |
| `PoolConfirmed.StepKeepsSigned` | src/accounting/service.rs:902-908 | every step records for a batch only the transaction the signer answered with for it |
| `PoolConfirmed.StepKeepsReports` | src/payout/handler.rs:134-148 | every step confirms only batches whose transaction was in a connected block or answered for by the node at startup |
| `PoolPaid.LookupFindsOwner` | src/accounting/found_block_repository.rs:155-196 | the block alone in a batch's round is the batch's own |
| `PoolPaid.LookupFindsOwnerIff` | src/accounting/found_block_repository.rs:155-196 | the lookup through a batch's round finds the batch's own block if and only if no later block is in that round |
| `PoolPaid.StepKeepsPaid` | src/accounting/service.rs:1033-1058 | every step, whatever rounds are shared, marks paid only blocks whose own batch is confirmed with a transaction id, or which share their round |
| `PoolDepth.StepKeepsDepth` | src/node_integration/nng/consumer.rs:316-371 | every step, whatever rounds are shared, keeps queued events, batches and every actor's pending work on blocks that were deep, and matured blocks too when alone in their round |
| `PoolDepth.RoundHasIff` | src/node_integration/nng/consumer.rs:323-328 | the reconnect's read finds a batch of a status if and only if some block of the round owns one |
| `PoolMoney.StepKeepsMoney` | src/accounting/service.rs:638-664 | every step, whatever rounds are shared, keeps each batch with the fee of its block, and without rows or accounting for the whole coinbase when the block is alone in its round |
| `PoolMoney.RebuildFromOtherIff` | src/accounting/service.rs:565-574 | rows planned from one block balance another's coinbase if and only if the two have the same reward net of fee |
| `PoolTheorems.SinglePayout` | src/accounting/service.rs:393-431 | in every state reachable by any interleaving, overlapping finds and any templates included, each batch has a block, no block two batches, no batch two submissions |
| `PoolTheorems.BatchesOnlyAdvance` | src/accounting/payout_repository.rs:221-236 | in every step of every run a batch keeps its identity and moves only pending → submitted → confirmed |
| `PoolTheorems.OneOpenRound` | src/accounting/round_repository.rs:29-120 | no run ever has two open rounds |
| `PoolTheorems.RoundsUnsharedIff` | src/accounting/round_repository.rs:87-120 | found blocks and finds about to record theirs are in different rounds throughout a run if and only if no find of the run resolves to a taken round |
| `PoolTheorems.DisciplineSuffices` | src/stratum_protocol/server.rs:801-816 | finds one at a time on strictly increasing positive templates, with no restart between recording a block and closing its round, make such a run, through any orphan closings, and leave no two found blocks in one round |
| `PoolTheorems.OneBlockPerRoundIff` | src/stratum_protocol/server.rs:801-816 | after any run no two found blocks share a round, that is, every block is alone in its own, if and only if none was recorded in a round that held one |
| `PoolTheorems.ConfirmedWasReported` | src/payout/handler.rs:134-148 | after every run a batch past pending has the transaction the signer answered with for it, and a confirmed one has a transaction that a connect event of the run contained or the node answered for at startup |
| `PoolTheorems.PaidMeansConfirmed` | src/payout/handler.rs:141-165 | after every run, a paid block alone in its round has its own batch, confirmed, with the transaction the signer answered with for it, reported on chain during the run |
| `PoolTheorems.PersistedConservation` | src/accounting/service.rs:411-447 | after every run, a batch with rows whose block is alone in its round accounts for the block's whole coinbase, after creation and after any rebuild |
| `PoolTheorems.DepthSafety` | src/accounting/service.rs:1107-1129 | after every run whose triggers hit only deep blocks, queued events and batches belong to blocks that had the required depth under a tip already seen, and so do matured and paid blocks alone in their round |
| `PoolTheorems.TipsWereTold` | src/node_integration/nng/consumer.rs:362-371 | every tip a maturity check of a run used was reported by the node in the run, or is the initial zero |
| `PoolDepth.TriggerIsSafeIff` | src/http_api/routes/payouts.rs:81-126 | a manual trigger keeps depth safety if and only if the block was deep |
| `PoolMoney.RebuildBalancesIff` | src/accounting/service.rs:617-664 | rows rebuilt under another configuration balance the stored fee if and only if the two fees agree |
| `PoolDepth.TriggerTakesIff` | src/http_api/routes/payouts.rs:89-105 | a manual trigger takes a known block if and only if it is neither orphaned nor paid |
| `PoolStartup.StartupReconciles` | src/accounting/service.rs:927-1000 | the block reconciliation of the state machine, undisturbed, orphans exactly the listed blocks that are gone and closes exactly their rounds |
| `PoolStartup.StartupSettles` | src/accounting/service.rs:1012-1075 | the payout reconciliation, undisturbed, confirms exactly the listed batches the node knows on chain and pays exactly the latest blocks of their rounds |
| `PoolStartup.StartupMatures` | src/main.rs:318-345 | the startup check, undisturbed, matures exactly the blocks deep enough under the node's tip and queues their events |
| `Reorg.RoundTripIff` | src/node_integration/nng/consumer.rs:316-371 | the exact status of a block after disconnect and reconnect, and that no other block notices |
| `Reorg.DrainConnect` | src/node_integration/nng/consumer.rs:296-392 | the consumer of the state machine, undisturbed, computes what the service method does |
| `Reorg.DrainDisconnect` | src/node_integration/nng/consumer.rs:229-289 | likewise for a disconnect |
| `Reorg.MaturedSurvivesReorg` | src/node_integration/nng/consumer.rs:316-371 | with the consumer undisturbed, after any run without restart or startup check whose triggers hit only deep blocks, a matured block alone in its round is matured again after a reorg and back, and stays orphaned if its payout was submitted |
| `Reconnects.ReadDecides` | src/node_integration/nng/consumer.rs:319-360 | the read of the batches decides: under any interleaving, the startup maturity check and payout reconciliation included, the block is then left alone, or restored |
| `Reconnects.SubmittedStaysOrphaned` | src/node_integration/nng/consumer.rs:328-333 | a batch submitted before the read keeps the consumer from un-orphaning the block through any interleaving until it listens again; the block is orphaned, paid by the handler, or matured by a startup check that had listed it |
| `Reconnects.StartupMaturesIff` | src/accounting/service.rs:1107-1129 | a section of the startup check matures an orphaned block if and only if the block is next on its list |
| `Reconnects.UnconfirmedStaysOrphaned` | src/node_integration/nng/consumer.rs:328-333 | as long as that batch is not confirmed, a block alone in its round and not listed by the startup check is exactly orphaned |
| `Reconnects.SentIffMarked` | src/accounting/service.rs:904-908 | over any run a batch is past pending if and only if it was before or the run records its submission, never both |
| `Reconnects.UnOrphansSubmittedIff` | src/node_integration/nng/consumer.rs:323-348 | over every interleaving, an orphaned block alone in its round whose own batch is submitted is un-orphaned by the connect event if and only if the submission was recorded after the consumer's read |
| `Reconnects.InterleavedReconnect` | src/node_integration/nng/consumer.rs:316-371 | what the block's status is when the consumer listens again, under every interleaving |
| `Reconnects.DeepBlockSurvivesReorg` | src/node_integration/nng/consumer.rs:316-371 | the reorg round trip under every interleaving, after any run without restart or startup check: a block that was deep ends matured or paid, or orphaned or paid if a payout of its round was submitted at the read |
| `PoolRaces.TriggerCanMatureShallowBlock` | src/http_api/routes/payouts.rs:97-105 | under every configuration a trigger and a reorg can mature a block that was never deep |
| `PoolRaces.ReconnectRacesWithSubmission` | src/node_integration/nng/consumer.rs:323-348 | under every configuration a reconnect that read a pending batch can un-orphan the block after the submission |
| `PoolRaces.OverlappingFindsShareRound` | src/accounting/round_repository.rs:87-120 | a run on increasing templates in which two overlapping finds share a round |
| `PoolRaces.SameTemplateSharesRound` | src/accounting/round_repository.rs:91-108 | a run of finds one at a time in which the second, on the template of the first, shares its round |
| `PoolRaces.RestartSharesRound` | src/stratum_protocol/server.rs:801-816 | a run of finds one at a time on increasing templates in which a restart after recording a block lets the next find share its round |
| `PoolRaces.OrphanedBlockCanBePaidOut` | src/payout/handler.rs:75-131 | under every configuration a block orphaned while its maturation event is queued can still get a submitted batch |
| `PoolRaces.StartupCheckMaturesSubmitted` | src/main.rs:291-332 | under every configuration the startup check can mature an orphaned block whose payout was submitted while its connect event is handled |
| `SharedRounds.SharedRoundMaturesShallow` | src/node_integration/nng/consumer.rs:323-348 | without any trigger, a reconnect that reads the other block's batch matures a block that was never deep |
| `SharedRounds.SharedRoundPaysOther` | src/payout/handler.rs:141-165 | without any trigger, a confirmation pays the later block of the round, which has no batch |
| `SharedRounds.SharedRoundRebuildsOther` | src/accounting/service.rs:565-574 | without any trigger, a rebuild writes rows that do not balance the coinbase, whenever the other block can be planned and has another reward net of fee |
| `SharedRounds.LaterCanBePlanned` | src/accounting/service.rs:565-617 | a configuration and a window for which that is so |

## Left out

- PoolTheorems.PaidMeansConfirmed: for a block alone in its round; `SharedRounds.SharedRoundPaysOther` is a run outside it.
- PoolTheorems.PersistedConservation: for a block alone in its round; `SharedRounds.SharedRoundRebuildsOther` is a run outside it.
- PoolTheorems.DepthSafety: matured and paid blocks alone in their round, events and batches without restriction; `SharedRounds.SharedRoundMaturesShallow` is a run outside it.
- PoolTheorems.SinglePayout: a crash between the signer's answer and the recorded submission is not a step of the machine.
- Reorg.MaturedSurvivesReorg: stated for the consumer undisturbed; `Reconnects.DeepBlockSurvivesReorg` is the form under interleaving.
- Reconnects.UnOrphansSubmittedIff: a restart, and the block reconciliation at startup, which ends before the consumer starts, are outside its window.
- Block, coinbase and header construction and Lotus hashing; the hash of a submission is an input.
- Signers, JSON-RPC and NNG clients: only their success or failure is modelled.
- Failing SQL statements, WAL mode and schema creation; a table is a sequence with its uniqueness constraint.
- `update_block_disconnected` of the chain tip, which nothing calls.
- The cache library's own size-based eviction, which is not bound to insertion order.
- Floating-point rounding: difficulties, weights and quotas are exact reals.
- The i32 range of heights and confirmation counts: depth is compared on unbounded integers.
- Coinbase txid caching, retry counters and error columns of batches.
- HTTP routes other than the payout trigger, authentication, pagination, statistics.
- JSON-RPC request decoding and response formatting, configuration, logging, shutdown.
- Event coalescing and timers.
