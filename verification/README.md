# PSAT: verified models of its stateful core

PSAT analyses smart-contract protocols with a fleet of workers over one Postgres database. This project models
the parts of it where correctness depends on how several steps, jobs or processes interact, and proves what
they keep in every run:

- **Effect verdicts** (`EffectCache`, `EffectsStage`, `EffectsProvenance`, `EffectsTrust`, `EffectsResidue`,
  `EffectsRecording`, `EffectsWorker`): the behaviour cache shared between deployments of the same code, the self-audit of cached
  verdicts, and the per-deployment verdict row merged by an upsert.
- **Contract materializations** (`Materialization`, `MaterializationRuns`, `MaterializationOverlap`,
  `MaterializationHistory`, `MaterializationLateFailures`, `MaterializationCalls`, `MaterializationStore`): callers
  that serve, wait for, copy, claim, build or publish one row per (chain, bytecode).
- **Prepared company pages** (`CompanyPages`, `CompanyPageRuns`, `CompanyPageSummary`, `CompanyPageRenameRace`,
  `CompanyPageSchedule`, `CompanyPagePurge`, `CompanyPageWorker`): a cache of built sections validated by
  revision tokens, its scheduling, and the purge outbox.
- **Admission and fan-out** (`CompanyReadLimit`, `CompanyReadOutcomes`, `CompanyReadLimiter`, `ComputePool`,
  `ComputeIsolation`, `RateLimit`, `RateLimitRuns`, `RateLimiter`, `ParallelMap`): the read limiter between awaits, the pool of warm
  child processes, the sliding-window limiter, and the out-of-order parallel map.
- **Gates, witnesses, names** (`WorkerGate`, `WorkerLifecycle`, `FloorWitnesses`, `ChainText`, `Chains`,
  `ChainSpellings`).

Each protocol is a datatype of its whole state, a `Step` function over events (an event that is not enabled
changes nothing), and `Exec` over arbitrary event sequences; the theorems are about every such sequence. Code
that updates fields or rows in place also appears as a class whose methods are proved against the same
functions, and what those functions decide is stated again without them: what each branch records, returns,
enqueues or answers. The network, clocks, random tokens, probes, builders and the scheduler are event parameters, so
they may behave in any way.

## Findings

These properties one would expect do not hold of the code as written. Each has a concrete run or input and an
exact condition.

1. A summary response labelled `prepared` can be another company's summary, and after one more write nobody's. A
   pass reads the company's name when it locks the row and builds by name in a later snapshot; the summary builder
   tracks nothing, so only the page's own summary scopes are recorded; and a rename touches only the structural
   `protocol:<id>` scope. `CompanyPageRenameRace` gives both runs. A summary build may be shown as prepared if and
   only if the name still denoted its page in the build's snapshot (`CompanyPageSummary.SafeIfAndOnlyIfOwn`). The
   overview and functions sections are always rebuilds.
2. A failure that lands late (the failure write takes no lock) reopens a key that another caller has taken over,
   so two builds overlap although neither claim is stale, and it can mark a row failed between a caller's write
   and its read-back (`MaterializationLateFailures`). Builds of a key overlap early only if a failure landed on it
   between their claims (`MaterializationOverlap.OverlapsNeedAReason`, `MaterializationHistory.CalmRuns`), and any
   landing beside a young build is enough (`MaterializationHistory.LandingLetsBuildsOverlap`). A
   read-back is not ready if and only if a failure landed in between and no ready row was written since
   (`MaterializationHistory.ReadBackIsReady`).
3. A ready row can carry the deterministic-failure flag: neither a finished build nor a donor copy nor a publish
   resets it. It does if and only if the last claim of or failure landed on its key was a deterministic failure
   (`MaterializationHistory.ReadyRowsFlag`).
4. A remembered failure can be another address's, against the promise in the docstring: the failure write keeps the
   address of the row it lands on (`MaterializationLateFailures.RememberedForAnotherAddress`). A landing leads to no
   such failure if and only if it is not deterministic, has no source hash, finds no row, or the address on the row
   has had such a failure itself (`MaterializationRuns.OwnIfAndOnlyIfHarmless`).
5. The stamp that a cached verdict passed its audit survives a refresh at a new schema version, so serving only
   matched verdicts holds if and only if no row of another version carries a passed stamp
   (`EffectsTrust.ServedVerdictsWereMatched`).
6. The wait a new key is told when the rate limiter is full of keys is not a promise: the retry is accepted if and
   only if a sweep falls on it and some key has expired (`RateLimitRuns.CappedRetry`).
7. A chain id written as text does not always get the id's cache token: `01` reads as chain 1 and has a token of its
   own (`Chains.LeadingZeroIsApart`). A naming gets its chain's token if and only if, being a number, it is written
   in ASCII digits without a leading zero (`Chains.TokenIsTheChains`).
8. The alias `avalanche c-chain` can never match, and looking it up fails, because every input loses its dash first
   (`Chains.DashedAliasIsDead`); the texts that can match are exactly those that normalizing leaves alone
   (`ChainText.NormalForms`).

The module comment of the purge outbox says the origin refuses dirty prepared rows, while the read path serves them
labelled stale within the stale limit; the model follows the code.

## Model

| member | source | states |
|---|---|---|
| `EffectsProvenance.RecordedIsSourced` | db/effect_cache.py:395-476 | merging a write into a stored verdict row never keeps a witness key, residue key, destination or current check that was observed under other code, another verdict or another deployment |
| `EffectsProvenance.ServedWriteIsSourced` | workers/effects_worker.py:227-248 | a verdict served from the shared cache carries only this deployment's own observations |
| `EffectsProvenance.ResolvedWriteIsSourced` | workers/effects_worker.py:1193-1312 | whichever branch resolves an item, everything deployment-specific it writes was seen by that deployment's own probe |
| `EffectsProvenance.StoredObservationsAreOwn` | workers/effects_worker.py:1010-1042 | in every interleaving of jobs, stored deployment-plane keys, residue, destinations and checks come from probes of that same deployment under the row's current code, and the shared cache never holds a deployment-plane key |
| `EffectsTrust.StampIsEarned` | workers/effects_worker.py:1222-1312 | a cached verdict turns trusted only when a fresh probe matched it, and a stamp is never cleared |
| `EffectsTrust.FailedKeyIsNeverServed` | workers/effects_worker.py:1193-1312 | a key left failed by its audit stays failed and is never served again, across schema bumps and replays |
| `EffectsTrust.ServedVerdictsWereMatched` | workers/effects_worker.py:867-868 | serial jobs at one version without replay, after any log that explains the stamps of that version, serve only verdicts matched earlier by a fresh probe if and only if no row of another version carries a passed stamp |
| `EffectsTrust.RefreshKeepsStamp` | db/effect_cache.py:218-245 | a refresh at a new schema version leaves the old audit stamp in place |
| `EffectsTrust.SerialJobIsARun` | workers/effects_worker.py:511-609 | a serial job is one of the interleavings the provenance theorem covers |
| `EffectsResidue.RecordedAttempts` | db/effect_cache.py:408-430 | the attempt count survives every verdict or hash flip of the row it is stored in |
| `EffectsResidue.JobSpendsBudget` | workers/effects_worker.py:207-224 | a job spends exactly one residue attempt of a deployment if it flags it for a probe and none otherwise; only flagged jobs re-probe |
| `EffectsResidue.ReProbesAreBounded` | workers/effects_worker.py:888-915 | over any run of serial jobs, residue re-probes of a deployment are at most items-per-job times the remaining attempts |
| `EffectsResidue.AtMostTwoReProbes` | workers/effects_worker.py:888-915 | with one item per deployment and job, at most two residue re-probes ever happen |
| `EffectsRecording.MissedPlanIsRecorded` | workers/effects_worker.py:1202-1220 | over a whole job, an identity last planned as a miss whose probe returned ends with that probe's verdict, tier, transcript, witness, residue and destination under the planned hash |
| `EffectsRecording.MissCachesTransferable` | workers/effects_worker.py:102-123 | a miss caches what its probe saw, without deployment keys and at the job's version, if it is proven or one of the transferable reasons, not historical and not state dependent; else the cache is untouched |
| `EffectsRecording.FailedProbeWithholds` | workers/effects_worker.py:1205-1208 | a miss whose probe failed records unknown with no evidence and leaves the cache alone |
| `EffectsRecording.MatchServes` | workers/effects_worker.py:1272-1288 | a first re-encounter whose probe matches records the cached verdict, tier and transcript, stamps the row passed and counts a hit |
| `EffectsRecording.MatchEvidence` | workers/effects_worker.py:227-248 | its evidence is, key by key, the cached code-plane value or the probe's own deployment-plane value |
| `EffectsRecording.MatchDestination` | workers/effects_worker.py:1272-1288 | the destination its probe saw is stored |
| `EffectsRecording.CollisionWithholds` | workers/effects_worker.py:1329-1340 | a probe that contradicts the cached structure records unknown and stamps the row failed |
| `EffectsRecording.FloorRecordsProbe` | workers/effects_worker.py:1228-1271 | a disagreement without structure to compare records the probe's own effect and leaves the stamp open |
| `EffectsRecording.UntrustedHitWithholds` | workers/effects_worker.py:1290-1292 | a hit on a failed row, or one whose audit probe failed, records unknown |
| `EffectsRecording.PlainHitServes` | workers/effects_worker.py:1294-1312 | an audited hit records the cached verdict, tier and transcript and counts a hit |
| `EffectsRecording.PlainHitEvidence` | workers/effects_worker.py:1294-1312 | its evidence has every code-plane key of the cached row with the cached value |
| `EffectsRecording.UnknownHasAReason` | workers/effects_worker.py:1193-1312 | if neither probe nor cached row said unknown, a recorded unknown comes from a failed probe, a failed audit probe, a disagreement or a failed row |
| `EffectsRecording.MatchKeyByKey` | db/effect_cache.py:311-340 | a probe matches a row if and only if the verdicts agree and so does every structural key, or the reason where one side has no structure |
| `EffectsRecording.MergeKeyByKey` | db/effect_cache.py:395-476 | the merged row key by key: what the write carries wins, standing observations survive a write without them, and only bookkeeping survives a flip |
| `EffectsRecording.WhatIsProbed` | workers/effects_worker.py:740-886 | replays and misses are always probed, unaudited hits are audited, and audited hits are probed only for residue |
| `EffectsRecording.WhatIsFlagged` | workers/effects_worker.py:888-915 | a hit is flagged for a residue probe if and only if it is an audited proof of value leaving to an unknown place and its row lacks a destination with fewer than two attempts spent |
| `EffectsRecording.ReProbeFillsDestination` | workers/effects_worker.py:188-224 | over a whole job, a flagged hit whose probe finds the destination stores it beside the cached verdict |
| `EffectsRecording.CacheHoldsTransferableProbes` | workers/effects_worker.py:102-123 | over any run of serial jobs, from any cache so explained by its log, every cached row carries what some logged transferable probe of that key saw |
| `EffectsRecording.CountersCountKinds` | workers/effects_worker.py:322-338 | each counter is the number of logged items resolved by its branch |
| `EffectsWorker.ItemsAddUp` | workers/effects_worker.py:335-338 | every item is counted exactly once as hit, miss, failed probe or withheld |
| `EffectsWorker.Worker.FindCachedVerdict` | db/effect_cache.py:82-105 | a row of another schema version reads as a miss |
| `EffectsWorker.Worker.UpsertCachedVerdict` | db/effect_cache.py:178-245 | the stored row is refreshed column by column, audit stamp excepted |
| `EffectsWorker.Worker.MarkAudited` | db/effect_cache.py:247-252 | the stamp lands on the loaded object and on the stored row, nothing else moves |
| `EffectsWorker.Worker.BumpHit` | db/effect_cache.py:255-257 | the hit count lands on the loaded object and the stored row |
| `EffectsWorker.Worker.RecordEffectVerdict` | db/effect_cache.py:342-476 | the in-place upsert is the merge the provenance theorem is about |
| `EffectsWorker.Worker.PlanItems` | workers/effects_worker.py:740-886 | planning loads exactly the rows it hits and flags exactly the residue gaps of the specification |
| `EffectsWorker.Worker.ResolveItem` | workers/effects_worker.py:1193-1312 | the in-place resolver writes, stamps, caches and counts exactly what the recording laws say of its branch |
| `EffectsWorker.Worker.WriteVerdicts` | workers/effects_worker.py:1010-1042 | resolving and recording all items in order ends in the specified stores and counters |
| `EffectsWorker.Worker.Process` | workers/effects_worker.py:511-609 | a whole job ends in the serial specification's stores and its counters account for every item |
| `MaterializationRuns.EveryRunIsExplained` | db/contract_materializations.py:372-646 | in every interleaving a ready row is one whole bundle of one build or publish for its key or the same source, a failed row describes one failing build of its key, and a remembered failure really happened for the key with the caller's source hash and version |
| `MaterializationRuns.HarmlessRunsRememberOwn` | db/contract_materializations.py:433-444 | in runs where every landing is harmless, every remembered failure is one of a build of the caller's own address |
| `MaterializationRuns.OwnIfAndOnlyIfHarmless` | db/contract_materializations.py:518-549 | a landing failure is harmless (not deterministic, without source hash, or one the row's address has had itself) if and only if every failure remembered after it, while later landings are harmless, is one of the caller's own address |
| `MaterializationRuns.PublishExplains` | db/contract_materializations.py:674-810 | publishing keeps every row explained |
| `MaterializationOverlap.OverlapsNeedAReason` | db/contract_materializations.py:417-513 | two builds of a key overlap only if the later claim came a staleness period after the earlier, its caller had waited that long, or a failure landed in between; polls are due within deadline plus one interval |
| `MaterializationOverlap.PollAtDeadlineLeaves` | db/contract_materializations.py:446-461 | the first poll at or after the deadline ends the polling loop |
| `MaterializationHistory.CalmRuns` | db/contract_materializations.py:417-513 | while no failure lands on a key, its builds overlap only after the staleness period or for a caller that waited it out |
| `MaterializationHistory.LandingLetsBuildsOverlap` | db/contract_materializations.py:515-549 | while a young build of a key is in flight, a failure that lands on the key lets a newcomer start a second build at once |
| `MaterializationHistory.ReadyRowsFlag` | db/contract_materializations.py:614-634 | a ready row carries the deterministic-failure flag if and only if the last claim of or failure landed on its key was a deterministic failure |
| `MaterializationHistory.ReadBackIsReady` | db/contract_materializations.py:635-646 | a call reads back a row that is not ready if and only if a failure landed on its key since its write and no ready row was written after that |
| `MaterializationHistory.ReadinessTellsHistory` | db/contract_materializations.py:417-646 | at one version a row's readiness is exactly what the claims, landings and ready writes of its key say |
| `MaterializationLateFailures.LateFailureLetsBuildsOverlap` | db/contract_materializations.py:518-549 | a concrete run in which a late failure lets a third caller build beside the second at once |
| `MaterializationLateFailures.ReadyRowMayKeepFailureFlag` | db/contract_materializations.py:614-634 | a concrete run that leaves a ready row with the deterministic-failure flag set |
| `MaterializationLateFailures.FinishedCallMayReturnFailedRow` | db/contract_materializations.py:635-646 | a concrete run in which a call that wrote a ready row returns a failed one |
| `MaterializationLateFailures.RememberedForAnotherAddress` | db/contract_materializations.py:534-546 | a concrete run that raises a remembered failure for an address none of whose builds failed |
| `MaterializationCalls.ReadyRowIsReturned` | db/contract_materializations.py:428-430 | a woken caller whose key is ready at its version is returned exactly that row and nothing is written |
| `MaterializationCalls.FailureIsRemembered` | db/contract_materializations.py:433-444 | a failure is raised again, with its error and without a build, if and only if it is a deterministic one of the caller's address, source hash and version |
| `MaterializationCalls.YoungClaimIsAwaited` | db/contract_materializations.py:446-461 | a caller sleeps one more interval if and only if it meets a claim younger than the staleness period before its own deadline |
| `MaterializationCalls.ErrorNeedsATakenAddress` | db/contract_materializations.py:463-513 | a poll errs only if another key of the chain holds the caller's address |
| `MaterializationCalls.FreeKeyIsCopiedOrClaimed` | db/contract_materializations.py:463-513 | a caller with nothing to serve, remember or wait for copies a ready donor if there is one and claims its key otherwise |
| `MaterializationCalls.OwnBuildIsReturned` | db/contract_materializations.py:515-646 | a call that claims, builds and finishes while everything else happens away from its key returns its own bundle under its own address, source hash and version |
| `MaterializationCalls.DonorsBundleIsReturned` | db/contract_materializations.py:463-490 | a call that copies a donor returns the donor's bundle under its own address, source hash and version |
| `MaterializationCalls.FinishYields` | db/contract_materializations.py:577-646 | a build that finds its key ready returns that row and writes nothing, and errs only over an address held elsewhere |
| `MaterializationCalls.FailureIsRecorded` | db/contract_materializations.py:518-549 | a failed build leaves its error, flag, source hash and version on the row, which keeps its address and payload |
| `MaterializationCalls.NextCallIsTold` | db/contract_materializations.py:433-444 | after a deterministic failure the next call for the same address, source and version is told its error without a build |
| `MaterializationCalls.PublishOutcomes` | db/contract_materializations.py:674-810 | when an offer is incomplete, bound elsewhere, already current, refreshed or written, by what it holds and what the table holds |
| `MaterializationCalls.PublishWrites` | db/contract_materializations.py:674-810 | a written offer is the row from then on; any other outcome leaves the table as it is |
| `MaterializationStore.Store.FindReusable` | db/contract_materializations.py:282-300 | a donor is found if and only if some ready row of the current version has the caller's source hash |
| `MaterializationStore.Store.PollOnce` | db/contract_materializations.py:419-513 | the in-place locked pass is the poll whose every way out the call laws characterise |
| `MaterializationStore.Store.WriteFailure` | db/contract_materializations.py:518-549 | the failure write replaces only status, error, flag, claim time, source hash and version |
| `MaterializationStore.Store.FinishBuild` | db/contract_materializations.py:577-646 | a finished build yields to a current ready row, else replaces the whole bundle |
| `MaterializationStore.Store.PublishBundle` | db/contract_materializations.py:674-810 | publishing never changes a ready row's address and writes only when something differs |
| `CompanyPageRuns.SameReadsSameBuild` | services/company_pages.py:115-126 | a build whose reads are unchanged gives the same payload and dependencies |
| `CompanyPageRuns.CurrentTokensCurrentSection` | services/company_pages.py:198-237 | a section whose recorded tokens are all current is what a build from the current data gives for the protocol its name denoted; for a summary, if that is its page |
| `CompanyPageRuns.UnitsCoverRenames` | workers/company_pages.py:70-120 | the structural unit of a renamed row rebuilds every structural section the row has |
| `CompanyPageRuns.PreparedStructuralResponses` | services/company_pages.py:240-286 | in every interleaving of writes, renames, builds, publications and deploys, an overview or functions response labelled prepared equals a rebuild from current data with current code |
| `CompanyPageRuns.StaleResponsesAreBounded` | services/company_pages.py:163-186 | any other served response was built for this page, and a structural one under this name, within the stale limit under the reader's schema, epoch and chain set |
| `CompanyPageSummary.OwnSummaryIsCurrent` | services/company_pages.py:189-196 | a prepared summary whose build found its own page is a rebuild |
| `CompanyPageSummary.SafeIfAndOnlyIfOwn` | services/aggregations/company_overview/payload.py:305-312 | for all summary builders and every continuation of the run, a summary build is rightly shown as prepared if and only if its pass's name denoted its page in the snapshot it built from |
| `CompanyPageSummary.OtherBuildsAreMislabelled` | workers/company_pages.py:110-168 | from any state about to build a summary under a name that denotes another protocol, a run leads to a mislabelled response |
| `CompanyPageSummary.PreparedSummaryResponses` | workers/company_pages.py:122-145 | while no rename changes whom the name of a pass with a summary to build denotes, prepared summaries are rebuilds in every interleaving |
| `CompanyPageRenameRace.RenamesInsideAPassMislabel` | workers/company_pages.py:110-197 | a concrete run that serves another company's summary as prepared |
| `CompanyPageRenameRace.PreparedSummaryMayBeNobodys` | services/aggregations/company_overview/payload.py:219-230 | a concrete run that serves as prepared a summary that is no protocol's current one |
| `CompanyPageSchedule.UnitsAreWork` | workers/company_pages.py:67-121 | a due section is never fresh, every unit is non-empty and stale throughout, and the units cover all that is due |
| `CompanyPageSchedule.StructureIsRebuiltWhole` | workers/company_pages.py:116-121 | the summary is rebuilt alone; one due structural section has every structural section that is not fresh rebuilt with it |
| `CompanyPageSchedule.RebuildPacing` | workers/company_pages.py:73-86 | a readable section is due if and only if its interval is over and its code is another, or its data changed and has been quiet or the maximum wait is over |
| `CompanyPageSchedule.WritesSpoilSections` | services/company_pages.py:198-237 | a write to any scope that feeds a section, or that its build tracked, leaves it not fresh |
| `CompanyPageSchedule.ReadersSeeWhatIsScheduled` | services/company_pages.py:240-271 | a company gets a response if and only if the scheduler does not call the section missing, and it is labelled prepared if and only if the section is fresh |
| `CompanyPageSchedule.StaleSectionsAreServed` | services/company_pages.py:240-286 | a section stored under the reader's markers is served until the stale limit, labelled prepared if and only if its code and tokens are current |
| `CompanyPageSchedule.DirtySectionBecomesDue` | workers/company_pages.py:73-86 | under endless writes a dirty section is due once its build is as old as both the interval and the maximum wait |
| `CompanyPageSchedule.PassFreshens` | workers/company_pages.py:122-145 | a successful pass makes every section it scheduled fresh and spoils none |
| `CompanyPageSchedule.UndisturbedPassCommits` | workers/company_pages.py:93-168 | a pass that nothing disturbs commits every unit it scheduled |
| `CompanyPageSchedule.FailedPageWaits` | workers/company_pages.py:158-166 | a page whose pass failed is picked by no worker until its delay is over |
| `CompanyPageSchedule.PassesEnd` | workers/company_pages.py:67-121 | with no further writes a run of successful passes is no longer than the number of sections that are not fresh |
| `CompanyPageSchedule.AllFreshIsIdle` | workers/company_pages.py:93-112 | when every section is fresh nothing is scheduled |
| `CompanyPageSchedule.BackoffIsBounded` | workers/company_pages.py:158-166 | retry delays start at five seconds, double with each attempt and stay at five minutes |
| `CompanyPagePurge.NoPurgeIsLost` | services/company_page_purge.py:56-98 | in every interleaving of publications, purge passes, provider failures and crashes, a published name has its outbox row or was confirmed purged after its latest publication |
| `CompanyPagePurge.EveryPublicationIsPurged` | services/company_page_purge.py:56-98 | a name published at any place of any run has its outbox row at the end, or the provider confirmed its purge at a later place |
| `CompanyPagePurge.NewerPublicationSurvives` | services/company_page_purge.py:71-97 | a publication that lands while a purge is in flight survives that purge |
| `CompanyPagePurge.FailedPurgeRetries` | services/company_page_purge.py:83-93 | a failed purge keeps the row and its generation and retries within five seconds to five minutes |
| `CompanyPagePurge.OutboxDrains` | services/company_page_purge.py:56-98 | from any state without a running pass, some run without publications empties the outbox |
| `CompanyPageWorker.Worker.Build` | workers/company_pages.py:171-197 | the columns of a unit come from one snapshot, and one failing section fails the unit |
| `CompanyPageWorker.Worker.Enqueue` | services/company_page_purge.py:28-36 | enqueueing gives the name a generation no row has had |
| `CompanyPageWorker.Worker.RefreshPage` | workers/company_pages.py:53-168 | one pass commits the run model's row; exactly the page's name if anything was published, and the old name if the row was renamed, get outbox rows under new generations, as publications of the purge model; attempts reset on success and count up on failure |
| `CompanyPageWorker.Worker.EarliestDue` | services/company_page_purge.py:59-66 | the row taken is due, none is due earlier, and among equally due rows it comes first by name; none is taken only if none is due |
| `CompanyPageWorker.Worker.PurgeOne` | services/company_page_purge.py:56-98 | a purge pass settles its row only under the generation it read |
| `CompanyReadLimit.SlotsAreNeverLost` | utils/company_limit.py:41-137 | in every interleaving, free plus owned slots equal the limit, `admitted` counts the live requests within capacity, and each request takes at most one slot and returns it exactly once |
| `CompanyReadLimit.QueuedRequestRuns` | utils/company_limit.py:53-66 | a queued request that gets a slot starts its handler |
| `CompanyReadLimit.DisconnectReturnsTheSlot` | utils/company_limit.py:60-81 | a slot granted at the same time as a disconnect is returned and the request is no longer admitted |
| `CompanyReadLimit.IdleLimiterIsWhole` | utils/company_limit.py:83-89 | with no live request all slots are free and nothing is admitted |
| `CompanyReadLimit.HandlersSeeWhatWasSent` | utils/company_limit.py:46-51 | a handler receives what its client sent from the first message on and in order, however long it queued |
| `CompanyReadOutcomes.AdmittedRequestsAreAnswered` | utils/company_limit.py:98-137 | in every interleaving an admitted request ceases to be live only after its handler finished, its 503 was sent, its client sent a disconnect, or its caller was cancelled |
| `CompanyReadOutcomes.TimedOutIsRejected` | utils/company_limit.py:113-115 | a queued request that times out is rejected while still admitted and holds no slot, and is let go only then |
| `CompanyReadOutcomes.ArrivalOutcomes` | utils/company_limit.py:98-112 | a request runs at once if it sees a free slot, queues if it does not, and is refused at capacity |
| `CompanyReadOutcomes.LeavingClientIsDropped` | utils/company_limit.py:60-81 | a queued request whose client leaves is let go with whatever it holds returned |
| `CompanyReadOutcomes.CancelledWaiterIsDropped` | utils/company_limit.py:72-81 | a queued request whose caller is cancelled is let go with whatever it holds returned |
| `CompanyReadOutcomes.HandlersRunToTheEnd` | utils/company_limit.py:121-132 | in every run a handler keeps running, with its slot, until it finishes, whatever its caller does |
| `CompanyReadOutcomes.HandlerReceivesNext` | utils/company_limit.py:118-119 | a handler that receives is given the next message its client sent |
| `CompanyReadLimiter.Limiter.Arrive` | utils/company_limit.py:98-112 | entry is one step of the run model; busy exactly at capacity |
| `CompanyReadLimiter.Limiter.Leave` | utils/company_limit.py:56-71 | a disconnect beats an acquired slot, and neither is a timeout |
| `CompanyReadLimiter.Limiter.CleanedUp` | utils/company_limit.py:68-81 | the cleanup in place: the winner starts its handler, a timed-out request goes on to its rejection, everyone else is let go, and what is not owned is returned |
| `CompanyReadLimiter.Limiter.Cancel` | utils/company_limit.py:72-81 | cancelling a request that is not running returns its slot once, in whatever phase it is |
| `CompanyReadLimiter.Limiter.Finished` | utils/company_limit.py:83-89 | a finished handler frees one slot and one admission |
| `ComputePool.RepliesAnswerTheirRequest` | services/compute_isolation.py:458-584 | every reply a call returns answers the request that call sent, in every interleaving |
| `ComputePool.CallsComplete` | services/compute_isolation.py:480-584 | a child that answers completes the call with its own answer and, while there is room, becomes idle again |
| `ComputePool.AtMostTwoSends` | services/compute_isolation.py:458-477 | in every run a call hands its request over at most twice |
| `ComputePool.FailedSends` | services/compute_isolation.py:458-477 | a broken pipe costs the child and is tried once more; a second one, or any other failed send, is raised |
| `ComputePool.RetryTakesAnotherChild` | services/compute_isolation.py:458-477 | the second send goes to another child |
| `ComputePool.UnwantedChildrenGo` | services/compute_isolation.py:385-398 | a stopped call raises and its child is gone; a released child is kept idle if and only if it is not retired and there is room |
| `ComputePool.KilledChildrenStop` | services/compute_isolation.py:430-447 | killing what is live leaves no live child running |
| `ComputePool.ChildrenAreNotShared` | services/compute_isolation.py:347-398 | idle children are within the limit, distinct, have nothing outstanding and belong to no job, and no child has two jobs |
| `ComputePool.ForgottenIsForever` | services/compute_isolation.py:410-428 | a child stopped for an overrun, lost lease, failed send or unreadable reply is never idle or held again |
| `ComputeIsolation.Watch` | services/compute_isolation.py:515-541 | the call is decided by the first decisive turn, a reply in the pipe beats anything seen with it, and the peak is the largest sample taken |
| `ComputeIsolation.ChildPool.Acquire` | services/compute_isolation.py:347-383 | popping the stale children and taking the next, or starting one, is that run of pool events; the child is new or an idle one that was not stale |
| `ComputeIsolation.ChildPool.Release` | services/compute_isolation.py:385-398 | returning a child is the pool's release event |
| `ComputeIsolation.ChildPool.Shutdown` | services/compute_isolation.py:430-447 | shutting down forgets every idle child and kills every other live one, as a run of pool events |
| `RateLimit.SweepsAreInvisible` | utils/ratelimit.py:57-65 | a sweep changes what no key remembers of its accepted hits still in the window |
| `RateLimit.DecidesLikeNaive` | utils/ratelimit.py:67-90 | every decision but a cap rejection, its wait included, is the full-history limiter's |
| `RateLimitRuns.WindowsHoldAtMostLimit` | utils/ratelimit.py:67-90 | in every run with a non-decreasing clock any closed window holds at most `limit` accepted hits of a key |
| `RateLimitRuns.DecisionsAreNaive` | utils/ratelimit.py:67-90 | in every run a hit is decided like the naive limiter, or is rejected at the cap with no accepted hit of its key in the window |
| `RateLimitRuns.RunsAreNaive` | utils/ratelimit.py:57-90 | a run without a cap rejection is decided, hit by hit and wait by wait, as an independent full-history limiter decides it |
| `RateLimitRuns.FewKeysAreNeverCapped` | utils/ratelimit.py:76-83 | if no more keys ever call than the cap allows, no hit is rejected at the cap |
| `RateLimitRuns.WaitingIsEnough` | utils/ratelimit.py:85-90 | a limited caller that waits as told, with no hits in between, is accepted |
| `RateLimitRuns.CappedRetry` | utils/ratelimit.py:76-83 | a retry after a cap rejection is accepted if and only if a sweep falls on it and some key has expired |
| `RateLimitRuns.CappedRetryCanFail` | utils/ratelimit.py:78-81 | a concrete cap rejection whose told wait is not enough |
| `RateLimitRuns.SweepsAreRare` | utils/ratelimit.py:72-74 | at most one full sweep per `sweep_every` hits |
| `RateLimitRuns.SwitchedOffAcceptsAll` | utils/ratelimit.py:67-70 | with a limit of zero or less every call of every run is accepted and the limiter keeps nothing |
| `RateLimiter.SlidingWindowRateLimiter.Sweep` | utils/ratelimit.py:57-65 | the in-place sweep prunes every bucket and deletes exactly the emptied ones |
| `RateLimiter.SlidingWindowRateLimiter.Hit` | utils/ratelimit.py:67-90 | the in-place hit is the specified one, and every wait is at least a second |
| `ParallelMap.Run` | services/concurrency.py:57-137 | for every completion order and any number of timeouts: the serial map in input order with failures in place, each item submitted once and in order, at most and at some time exactly as many pending as workers; a lost lease, and nothing else, stops it |
| `ParallelMap.FanOut` | services/concurrency.py:102-137 | the wait loop collects everything or reports a lost lease |
| `ParallelMap.Finishes` | services/concurrency.py:110-111 | every group of completions strictly reduces the unfinished work |
| `ParallelMap.Collect` | services/concurrency.py:121-135 | collecting a group keeps the fan-out in order and its workers full; a lost lease is met before the next task is submitted |
| `ParallelMap.Serially` | services/concurrency.py:78-85 | the one-worker path is the same map |
| `WorkerGate.ClaimsCommitWhileLive` | services/worker_lifecycle.py:25-65 | every managed claim commits while its boot is registered and neither drained, finished nor replaced, and the row is open to exactly such boots |
| `WorkerGate.OnlyLiveBootsClaim` | services/worker_lifecycle.py:25-41 | a claim that gets the lock commits if and only if its boot is live |
| `WorkerGate.UnmanagedClaimsCommit` | services/worker_lifecycle.py:25-41 | a claim without a boot id commits whatever the gate says and whoever holds it |
| `WorkerGate.NoRowNoClaim` | services/worker_lifecycle.py:25-41 | without the row no managed claim commits |
| `WorkerGate.RolledBackChangesNothing` | services/worker_lifecycle.py:25-65 | a rolled back transaction changes neither row nor history and frees its lock |
| `WorkerGate.EndedBootsDoNotClaim` | services/worker_lifecycle.py:111-118 | after a drain, finish or newer registration a claim of the old boot needs a new registration of it |
| `WorkerLifecycle.Lifecycle.ClaimBatch` | workers/audit_row_worker.py:104-122 | a batch is taken exactly for a live boot or an unmanaged process, a missing gate fails closed, and only the taken rows change |
| `WorkerLifecycle.Lifecycle.DrainBoot` | workers/lifecycle_admin.py:45-46 | after a drain no boot is live and the gate is open to none |
| `WorkerLifecycle.Lifecycle.RegisterBoot` | services/worker_lifecycle.py:54-65 | after a registration that boot, and no other, is live and let through |
| `WorkerLifecycle.Lifecycle.FinishBoot` | services/worker_lifecycle.py:111-118 | after a finish the boot is not live and every other boot is as live as before |
| `WorkerLifecycle.Lifecycle.BootPhase` | services/worker_lifecycle.py:72-94 | the phase is reported if and only if the row names the boot, and the heartbeat is refreshed exactly then unless a claim holds the row |
| `FloorWitnesses.HistoryDecidesRow` | db/floor_witnesses.py:58-104 | the stored verdict told by its history: prior incarnation, undecided with the count of failures, or the last deciding proof, each if and only if |
| `FloorWitnesses.FailuresKeepDecisions` | db/floor_witnesses.py:85-92 | failures never replace a decided row |
| `FloorWitnesses.AttemptsCountFailures` | db/floor_witnesses.py:85-92 | while undecided, attempts grow by one per failure from whatever was stored |
| `FloorWitnesses.RetryFollowsLastFailure` | db/floor_witnesses.py:30-92 | an undecided row is next tried at its latest failure plus the base delay doubled for every failure before it, capped at a day |
| `FloorWitnesses.ProofsNameTheirSeed` | db/floor_witnesses.py:58-84 | a stored proof is the last one reported, with its block, and with the seed it named or else its block |
| `FloorWitnesses.OneSeedPriorStays` | db/floor_witnesses.py:93-101 | if all decided findings name one seed, a prior-incarnation verdict stays for good |
| `FloorWitnesses.OtherSeedReplacesPrior` | db/floor_witnesses.py:97-101 | a proof leaves a prior-incarnation verdict standing if and only if it is about the same seed |
| `FloorWitnesses.DelaysAgree` | db/floor_witnesses.py:30-43 | the delays of the worker and of the upsert agree for every count and the exponent cap never changes them |
| `FloorWitnesses.Witnesses.Record` | db/floor_witnesses.py:46-112 | one upsert changes only its address, as the history theorem's step, and reads back what is stored |
| `ChainText.AsciiIsLawful` | utils/chains.py:45-52 | the character laws the text theorems rest on can be met: plain ASCII meets them |
| `ChainText.NormalizeTwice` | utils/chains.py:45-52 | normalizing a label is idempotent |
| `ChainText.NormalizeLowered` | utils/chains.py:328-328 | lower-casing before normalizing changes nothing |
| `ChainText.NormalForms` | utils/chains.py:45-52 | some input normalizes to a text if and only if normalizing leaves that text alone |
| `ChainText.SeparatorsAreAlike` | utils/chains.py:45-52 | inside a label white space, an underscore and a dash all read as a space |
| `ChainSpellings.AcceptedSpellings` | utils/chains.py:453-466 | the table holds exactly what the keys of the chain registry and of the alias table spell by those two tables |
| `ChainSpellings.SpellingsAreExact` | utils/chains.py:324-337 | for every text, lookup succeeds if and only if its normalized form is an accepted spelling, with the same name |
| `ChainSpellings.LookupFollowsTables` | utils/chains.py:324-337 | a text is looked up as a chain if and only if its normalized form is a name or alias of that chain, or is no registered key and the alias table maps it to one |
| `ChainSpellings.RegisteredNameIsFound` | utils/chains.py:324-331 | every text that normalizes to a shipped name or alias finds its chain |
| `ChainSpellings.AliasIsFound` | utils/chains.py:14-42 | every text that normalizes to an alias-table key that is no registered key finds the chain the table maps it to |
| `ChainSpellings.AliasToken` | utils/chains.py:411-429 | an alias of plain words has the cache token of the chain it maps to |
| `ChainSpellings.MaticIsPolygon` | utils/chains.py:28-28 | the token of matic is 137 |
| `Chains.BuildIndexes` | utils/chains.py:300-311 | the indexes exist if and only if no id and no key repeats, and then hold exactly the registry |
| `Chains.ShippedRegistryIsIndexed` | utils/chains.py:122-297 | the shipped registry repeats no id and no key |
| `Chains.LoadIndexes` | utils/chains.py:314-314 | building the indexes of the shipped registry succeeds and holds exactly it |
| `Chains.RegistryKeepsTokensApart` | utils/chains.py:122-297 | the registered names, aliases and ids meet the conditions of the token laws |
| `Chains.DashedAliasIsDead` | utils/chains.py:14-42 | no text normalizes to the alias with a dash, and looking that alias up fails |
| `Chains.TokenTwice` | utils/chains.py:411-429 | taking the cache token of a cache token changes nothing |
| `Chains.TokensTellChainsApart` | utils/chains.py:411-429 | two namings with one token denote one chain, numbers included, and canonical namings of one chain share its token |
| `Chains.TokenIsTheChains` | utils/chains.py:411-429 | a naming gets its chain's token if and only if, being a number, it is in ASCII digits without a leading zero |
| `Chains.NumberToken` | utils/chains.py:424-425 | a number shares an id's token if and only if it reads as that id, in ASCII digits and without a leading zero |
| `Chains.LeadingZeroIsApart` | utils/chains.py:424-425 | the text 01 reads as chain 1 and does not share its token |
| `Chains.UnknownNamesStayApart` | utils/chains.py:411-429 | a name that is neither a number nor registered is its own lower-cased bucket and never gets a chain id's token |
| `Chains.ParseDecimalInt` | utils/chains.py:419-420 | the decimal text of an id reads back as that id |

## Left out

- Blob storage of materializations: payloads are inline; uploads overwrite keys outside the row lock.
- A failure write that lands between the read and the write of another caller's locked transaction: transactions are atomic here, and a landing is ordered before or after each of them.
- Job rollback, retries and leases of the effects stage, function-id linking, transcripts and timestamps: the model has the verdict and cache columns that the rules read.
- SQL NULL and JSON null are one absent value in the effect rows.
- Effect probes, candidate selection and score signals: a probe's outcome is any effect.
- Seeding and ordering of company pages, gzip, size limits and response headers other than source and age: any page with work may be picked next.
- Page builders are strategies that read scopes one by one within a finite budget; what they compute is arbitrary. That the structural builders track every scope they read, and that the summary builder reads only its protocol's summary scopes, is taken from their code.
- One clock for the wall and the monotonic clock, and real numbers for floating-point seconds.
- Fairness and order of the semaphore: slots are granted to waiters in any order.
- ComputePool.RepliesAnswerTheirRequest: process ids are never reused, and what a child computes is arbitrary.
- Memory and processor sampling: a sample is any value.
- ParallelMap.Run: the mapped function is pure and the wait times out finitely often; tasks cancelled by a lost lease are not followed further.
- WorkerGate.ClaimsCommitWhileLive: the controller's decision when to drain is not modelled; it drains at any time.
- Resetting audit rows that stayed in processing too long, and retrying a failed save with a growing delay: a row is claimed once and settles.
- ChainSpellings.SpellingsAreExact: lower-casing is by character, so the context-dependent final sigma is not modelled.
- The chain registry's endpoints, depths and supported-chain environment variable: constants and parsing.
- Routers, authentication, RPC clients, monitoring, LLM and discovery code: not part of this model.
