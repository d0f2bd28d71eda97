# Dispatch compute network: a verified model

Dispatch matches paid jobs with workers connected over WebSocket and pays the workers in
batched token transfers. This project models the parts of it where several pieces of
mutable state must stay in step and proves what they keep over every run:

- **Dispatch** (`Protocol`, `Selection`, `SelectionDuels`, `Dispatch`, `DispatchInvariant`,
  `DispatchEffects`, `DispatchRuns`, `DispatchHeartbeats`, `DispatchOutcomes`, `Coordinator`): the worker hub, the job and pairing
  routes and the retry timers, as one state machine over the worker map, the jobs table, the
  pairings table and the live timers. Each handler runs to its end without yielding, so each
  event is one step; messages may arrive from any socket in any order. The class
  `Coordinator` is the imperative code, and each of its handlers is proved to take the step
  of the machine.
- **Settlement** (`Settlement`, `SettlementInvariant`, `SettlementRuns`,
  `SettlementDrain`, `SettlementRetries`, `SettlementOrder`, `Binary64`, `Amounts`,
  `InOrderSums`, `Distributor`): the batching token distributors.
  A batch leaves the pending map before the first await, several batches of one worker can be
  in flight, and a failed batch is merged into whatever has accumulated since. One machine,
  with the threshold as a parameter, covers both distributors: 1 for BOLT and 5 for wrapped
  BOLT. Payouts are numbered as they are queued, so equality of multisets means exactly once.
  A batch total is kept as the tree of additions that produced it, read exactly or in
  binary64.
- **EndToEnd**: the hub and a distributor together.
- **TxQueue**: the promise chain that serialises transactions, following the promise
  semantics of section 27.2 of ECMA-262.
- **MonadSettlement**: the wrapped distributor with its transactions going through that queue.
- **BraceScan**: the scan for brace blocks in `extractJson`, with its regular expression
  given a meaning of its own.

JavaScript maps iterate in insertion order, which decides ties and look-ups here; they are
sequences in the model. `dafny verify dfyconfig.toml` checks the whole project.

## Where the code does less than its documentation says

- `apps/docs/content/docs/concepts/job-lifecycle.mdx:46` and `docs/openapi.yaml:120-122`
  promise retries every 2 seconds for up to 30 seconds. A rejected job goes back to pending
  without a timer, so nothing ever retries or fails it (`DispatchRuns.RejectedJobsAreStuck`,
  with `DispatchRuns.RejectingRun` as the shortest case);
  for all other pending jobs the promise holds (`DispatchRuns.PendingMeansTimerOrReleased`,
  `DispatchRuns.FifteenTicksDecide`).
- `apps/coordinator-core/src/bolt/WrappedBoltDistributor.ts:69` says its thresholds match those
  of BoltDistributor; they are 5 and 1. With threshold 1 a first payout still waits for a
  second one or for the timer (`SettlementRuns.QueueSettlesAtTheThreshold`).
- A heartbeat is credited to the first-registered worker with its key. A second connection
  with that key keeps its registration time as its last heartbeat while the first is in the
  map, and is pruned 30 seconds later however often it reports
  (`DispatchHeartbeats.ShadowedArePruned`); `DispatchHeartbeats.SecondConnectionIsPruned` is
  such a run, and `DispatchHeartbeats.HeartbeatSavesTheFirst` gives the exact condition.
- Re-queued jobs go in front, which suggests first come, first served; it holds exactly until
  a failed batch is queued again behind a younger attempt of its worker
  (`SettlementOrder.OrderIsKeptUnlessOvertaken`), and `SettlementOrder.OverlapLosesOrder` is
  a run in which it is lost.
- The distributors announce each retry as one out of three
  (`apps/coordinator-core/src/bolt/BoltDistributor.ts:197`). The count belongs to the batch, and a
  failed batch that finds a new one pending takes over its count of zero, so a payout can fail
  any number of times and stay pending (`SettlementRetries.FailingForever`); the true bound is
  three failures for each payout queued for its worker
  (`SettlementRetries.FailuresAreBounded`).
- Amounts are added in binary64. Up to 67000 rewards in one batch are paid to the unit however
  they were merged, and added one at a time up to 180956 are; 180957 are paid one unit too
  much (`InOrderSums.InOrderConverts`, `SettlementRetries.OverpayingRun`).
- The early exit of a retry tick, for a job that is no longer pending, is never taken
  (`DispatchRuns.TimersOnlyWatchPendingJobs`).

## Model

| member | source | states |
|---|---|---|
| `EndToEnd.PaidExactlyOnce` | apps/coordinator-core/src/ws/workerHub.ts:179-271 | in every run of hub and distributor, a real job has a payout pending, in flight, settled or abandoned if and only if its row is completed; then it has exactly one, of one reward, for the key stored in the row |
| `EndToEnd.PayoutMeansCompletion` | apps/coordinator-core/src/ws/workerHub.ts:218-266 | a payout for a real job is queued only by the step that moves its row from assigned to completed, and names the worker recorded in the row |
| `EndToEnd.CompletionMeansPayout` | apps/coordinator-core/src/ws/workerHub.ts:264-266 | a row becomes completed only in a step that queues a payout for that job |
| `EndToEnd.CompletedWorkIsPaid` | apps/coordinator-core/src/ws/workerHub.ts:217-269 | in every run, an assigned job that is completed with its own receipt or none has exactly one payout in every later state, for the worker it was assigned to |
| `EndToEnd.SettledJobsArePaidToTheUnit` | apps/coordinator-core/src/bolt/BoltDistributor.ts:148-167 | in every run, the raw units paid out are exactly a million for each settled job, as long as no attempt carries more than 67000 jobs |
| `EndToEnd.RunKeepsInv` | apps/coordinator-core/src/ws/workerHub.ts:179-271 | the combined invariant of hub and ledger holds in every reachable state |
| `DispatchRuns.HubAndTableAgree` | apps/coordinator-core/src/ws/workerHub.ts:179-317 | in every reachable state a worker is busy exactly when it has an active job, no job is held twice, and real held jobs are exactly the assigned rows, each naming its holder |
| `DispatchInvariant.StepKeepsInv` | apps/coordinator-core/src/ws/workerHub.ts:130-317 | every event keeps the agreement of hub, tables, timers and pairings, whatever message comes from whichever socket |
| `DispatchInvariant.RunKeepsInv` | apps/coordinator-core/src/ws/workerHub.ts:130-317 | the same for every reachable state |
| `DispatchEffects.JobEffect` | apps/coordinator-core/src/routes/jobs.ts:66-180 | everything one event can do to the row and the timer of one job: nothing, an answer to an assigned job, a tick of a pending one, or a commit |
| `DispatchEffects.PruneMovesRows` | apps/coordinator-core/src/ws/workerHub.ts:470-479 | pruning fails exactly the rows whose holder is stale and touches no other row, although it deletes from the map it iterates over |
| `DispatchRuns.StepMovesRows` | apps/coordinator-core/src/ws/workerHub.ts:218-313 | a row only moves from pending to assigned or failed and from assigned to completed, failed or pending |
| `DispatchRuns.OnlyCommitsInsert` | apps/coordinator-core/src/routes/jobs.ts:96-100 | only a valid commit creates a row |
| `DispatchRuns.TerminalRowsAreFinal` | apps/coordinator-core/src/ws/workerHub.ts:218-313 | completed and failed rows never change again in any run, although the updates do not look at the old status |
| `DispatchOutcomes.CompletionOutcome` | apps/coordinator-core/src/ws/workerHub.ts:217-269 | a completion of a held job goes through if and only if its receipt, if any, is for a job that exists: then the row is completed, the recorded worker is paid and the holder is idle, and otherwise nothing changes |
| `DispatchOutcomes.DemoOutcome` | apps/coordinator-core/src/ws/workerHub.ts:183-215 | completing a demo job frees and pays its worker whatever the receipt says, and rejecting one frees the worker; no table changes |
| `DispatchOutcomes.StrayAnswer` | apps/coordinator-core/src/ws/workerHub.ts:180-181 | an answer for a job that nobody holds changes nothing and pays nobody |
| `DispatchOutcomes.CompletionsLast` | apps/coordinator-core/src/ws/workerHub.ts:217-238 | a job completed while assigned, with its own receipt or none, keeps that output in every later state |
| `DispatchOutcomes.RejectOutcome` | apps/coordinator-core/src/ws/workerHub.ts:273-287 | rejecting a real job puts its row back to pending without a worker and frees the holder; nothing else changes |
| `DispatchOutcomes.DisconnectOutcome` | apps/coordinator-core/src/ws/workerHub.ts:299-317 | a disconnect removes its worker and nobody else and fails the real job it was holding; every other row, the timers and the pairings stay |
| `DispatchOutcomes.LateDisconnect` | apps/coordinator-core/src/ws/workerHub.ts:300-301 | the close of a socket whose worker is gone already changes nothing |
| `DispatchOutcomes.InjectionOutcome` | apps/coordinator-core/src/ws/workerHub.ts:406-415 | a demo job is given to its worker if that worker is idle, and otherwise nothing changes |
| `DispatchOutcomes.MapMembership` | apps/coordinator-core/src/ws/workerHub.ts:130-142 | a worker is in the map after an event exactly if the event registers it, or it was there and is neither disconnected nor pruned more than 30 seconds after it was heard from |
| `DispatchOutcomes.ProfilesFollowTheEvents` | apps/coordinator-core/src/ws/workerHub.ts:130-162 | in every run, the key, kind, capabilities, reputation and stake of a worker in the map are those of its registration and of the scores and tiers that arrived since |
| `DispatchRuns.RejectOrphans` | apps/coordinator-core/src/ws/workerHub.ts:273-287 | rejecting an assigned job leaves it pending, without a worker and without a timer |
| `DispatchRuns.RejectedJobsAreStuck` | apps/coordinator-core/src/ws/workerHub.ts:273-287 | a rejected job stays pending, without a timer, in every later state: the documented retry never reaches it |
| `DispatchRuns.RejectingRun` | apps/coordinator-core/src/ws/workerHub.ts:273-287 | a run of three events that ends in such a job: register, commit, reject |
| `DispatchRuns.OrphansWereReleased` | apps/coordinator-core/src/routes/jobs.ts:124-127 | a pending row without a timer was handed back by a reject at some earlier event |
| `DispatchRuns.PendingMeansTimerOrReleased` | apps/coordinator-core/src/routes/jobs.ts:103-180 | in every reachable state a row is pending exactly when it has a live timer or was released by a reject, never both; a live timer has made at most 14 attempts and nobody holds its job |
| `DispatchRuns.TimersCountTicks` | apps/coordinator-core/src/routes/jobs.ts:143-178 | a timer has counted every tick of its job; a job gets at most 15 ticks, and none if it is private |
| `DispatchRuns.FifteenTicksDecide` | apps/coordinator-core/src/routes/jobs.ts:143-178 | without a reject, a job that has had its 15 ticks is no longer pending |
| `DispatchRuns.UnluckyMeansEmptySearches` | apps/coordinator-core/src/routes/jobs.ts:102-179 | a public job is still waiting or given up if and only if every search for it so far found nobody idle and capable |
| `DispatchRuns.GivenUpOnlyWhenNobodyWasThere` | apps/coordinator-core/src/routes/jobs.ts:146-179 | a job has failed with no_eligible_worker if and only if it had 15 ticks and nobody idle and capable was in the map at its commit and at any of them |
| `DispatchRuns.GivingUpIsATick` | apps/coordinator-core/src/routes/jobs.ts:174-178 | a pending job is given up only by the fifteenth tick of its own timer |
| `DispatchRuns.TimersOnlyWatchPendingJobs` | apps/coordinator-core/src/routes/jobs.ts:149-154 | in every run, a timer that fires finds its job pending: the early exit of the tick is never taken |
| `DispatchRuns.RefusedCommit` | apps/coordinator-core/src/routes/jobs.ts:75-85 | a request that lacks a payload or a user, or names neither job type, changes nothing; any other has its row |
| `DispatchRuns.CommitOutcome` | apps/coordinator-core/src/routes/jobs.ts:93-129 | an accepted commit stores the row the text asks for and gives the job to the winner of a search for that job type and policy, among the trusted workers if the text says PRIVATE; without a winner a PRIVATE job fails and any other stays pending with a fresh timer; nothing else changes |
| `DispatchRuns.RowsComeFromRequests` | apps/coordinator-core/src/routes/jobs.ts:96-100 | every row of every reachable state goes back to a well-formed request and holds what its text said |
| `DispatchRuns.RequestsHaveRows` | apps/coordinator-core/src/routes/jobs.ts:96-100 | every well-formed request has its row in every later state |
| `DispatchRuns.TickOutcome` | apps/coordinator-core/src/routes/jobs.ts:146-179 | a tick searches among all workers for the job type and policy of the row: the winner gets the job, without one the fifteenth attempt gives it up and earlier ones count; nothing else changes |
| `DispatchRuns.PairingsLiveOneHour` | apps/coordinator-core/src/routes/trust.ts:10-58 | a claim makes the key trusted if and only if it comes no later than an hour after the pairing was created, or the key was trusted already |
| `DispatchRuns.PairingsAreClaimedOnce` | apps/coordinator-core/src/routes/trust.ts:36-55 | in every run a claimed pairing was claimed by exactly one event, in time, and has not changed since |
| `DispatchInvariant.PairingsTouchedBy` | apps/coordinator-core/src/routes/trust.ts:36-55 | no event removes a pairing, changes its user or expiry, or alters it once it is claimed |
| `DispatchInvariant.TrustOnlyGrows` | apps/coordinator-core/src/routes/trust.ts:53-55 | no event makes a trusted key untrusted |
| `DispatchRuns.PrivateJobsGoToPairedWorkers` | apps/coordinator-core/src/ws/workerHub.ts:331-347 | a private job with a recorded worker was preceded by a timely claim pairing its user with that key |
| `DispatchRuns.PrivateRequestsGoToPairedWorkers` | apps/coordinator-core/src/ws/workerHub.ts:331-347 | in every run, a request whose text says PRIVATE is only given to a key that claimed, in time, a pairing of the user who made the request |
| `DispatchRuns.PrivateRequestsAreNotRetried` | apps/coordinator-core/src/routes/jobs.ts:119-127 | such a request never has a retry timer |
| `DispatchRuns.TrustedKeys` | apps/coordinator-core/src/ws/workerHub.ts:332-336 | the keys a user trusts are exactly those recorded in a claimed pairing of that user |
| `DispatchHeartbeats.PruneKeepsTheFresh` | apps/coordinator-core/src/ws/workerHub.ts:470-479 | deleting during the iteration leaves exactly the workers heard from in the last 30 seconds, in their order |
| `DispatchHeartbeats.FreshMembers` | apps/coordinator-core/src/ws/workerHub.ts:470-479 | what pruning keeps: a worker stays if and only if it is not stale |
| `DispatchHeartbeats.PruningRemovesTheStale` | apps/coordinator-core/src/ws/workerHub.ts:470-479 | pruning removes a worker from the map if and only if it was last heard from more than 30 seconds ago |
| `DispatchHeartbeats.HeartbeatSavesTheFirst` | apps/coordinator-core/src/ws/workerHub.ts:170-177 | a heartbeat saves a stale worker from pruning if and only if no earlier-registered worker has the same key |
| `DispatchHeartbeats.ShadowedStaySilent` | apps/coordinator-core/src/ws/workerHub.ts:170-177 | in every run, as long as an earlier-registered worker with the same key is in the map, a worker's last heartbeat is the time of its registration |
| `DispatchHeartbeats.ShadowedArePruned` | apps/coordinator-core/src/ws/workerHub.ts:470-479 | such a worker is removed by a pruning if and only if the pruning comes more than 30 seconds after the registration, however often the worker reports |
| `DispatchHeartbeats.SecondConnectionIsPruned` | apps/coordinator-core/src/ws/workerHub.ts:456-461 | a run of four events in which two connections share a key, report, and the second is pruned while the first stays |
| `CoordinatorService.Coordinator.constructor` | apps/coordinator-core/src/ws/workerHub.ts:59-67 | the coordinator starts with no workers and empty tables |
| `CoordinatorService.Coordinator.FindByActiveJob` | apps/coordinator-core/src/ws/workerHub.ts:463-468 | the earliest-registered holder of a job, or null if there is none |
| `CoordinatorService.Coordinator.FindByPubkey` | apps/coordinator-core/src/ws/workerHub.ts:456-461 | the earliest-registered worker with a key, or null if there is none |
| `CoordinatorService.Coordinator.Locate` | apps/coordinator-core/src/ws/workerHub.ts:299-301 | the position of a worker id in the map, or its size if the id is gone |
| `CoordinatorService.Coordinator.Register` | apps/coordinator-core/src/ws/workerHub.ts:130-142 | appends one idle worker without reputation or stake and touches no other object |
| `CoordinatorService.Coordinator.Heartbeat` | apps/coordinator-core/src/ws/workerHub.ts:170-177 | takes the heartbeat step on the real worker objects |
| `CoordinatorService.Coordinator.ReputationArrived` | apps/coordinator-core/src/ws/workerHub.ts:144-152 | a score is stored only if the worker is still in the map |
| `CoordinatorService.Coordinator.StakeArrived` | apps/coordinator-core/src/ws/workerHub.ts:154-162 | a tier is stored only if the worker is still in the map |
| `CoordinatorService.Coordinator.StoreResult` | apps/coordinator-core/src/ws/workerHub.ts:217-238 | the result is stored exactly when there is no receipt or the receipt is for a job that exists; otherwise the table is left alone |
| `CoordinatorService.Coordinator.JobComplete` | apps/coordinator-core/src/ws/workerHub.ts:179-271 | takes the completion step and returns the payout that step queues: one exactly if somebody holds the job and it is a demo job, brings no receipt, or brings one for a job that exists |
| `CoordinatorService.Coordinator.JobReject` | apps/coordinator-core/src/ws/workerHub.ts:273-287 | takes the rejection step; a demo job has no row to change |
| `CoordinatorService.Coordinator.Remove` | apps/coordinator-core/src/ws/workerHub.ts:299-317 | forgets one worker, keeping the order of the others, and fails the real job it was holding |
| `CoordinatorService.Coordinator.Disconnect` | apps/coordinator-core/src/ws/workerHub.ts:299-317 | takes the disconnect step: the worker with the id leaves the map and the others keep their order; an unknown id changes nothing |
| `CoordinatorService.Coordinator.PruneStale` | apps/coordinator-core/src/ws/workerHub.ts:470-479 | the deleting loop computes the pruning step |
| `CoordinatorService.Coordinator.GatherCandidates` | apps/coordinator-core/src/ws/workerHub.ts:340-347 | the filter loop computes the eligible positions in registration order |
| `CoordinatorService.Coordinator.RankCandidates` | apps/coordinator-core/src/ws/workerHub.ts:351-356 | the ranking is a stable sort by score, and its head is the linear arg-max |
| `CoordinatorService.Coordinator.ClaimWorker` | apps/coordinator-core/src/ws/workerHub.ts:325-362 | returns null if and only if nobody is eligible, else marks the arg-max busy and changes nobody else |
| `CoordinatorService.Coordinator.AssignJob` | apps/coordinator-core/src/routes/jobs.ts:105-117 | the claimed worker holds the job and the row names its key |
| `CoordinatorService.Coordinator.TryMatch` | apps/coordinator-core/src/routes/jobs.ts:156-172 | claim and assignment together are one atomic assignment of the job to the arg-max |
| `CoordinatorService.Coordinator.CommitValid` | apps/coordinator-core/src/routes/jobs.ts:93-129 | takes the commit step and answers 422 exactly when the private job has failed |
| `CoordinatorService.Coordinator.Commit` | apps/coordinator-core/src/routes/jobs.ts:66-130 | answers 400 exactly if the job type is neither LLM_INFER nor TASK or the payload or user is missing, which changes nothing; otherwise takes the commit step, and answers 422 only to a PRIVATE request and exactly when its row has failed |
| `CoordinatorService.Coordinator.CountAttempt` | apps/coordinator-core/src/routes/jobs.ts:174-178 | a failed search gives the job up and stops the timer on the fifteenth attempt, and only counts before |
| `CoordinatorService.Coordinator.RetryTick` | apps/coordinator-core/src/routes/jobs.ts:146-179 | takes the tick step of the retry timer |
| `CoordinatorService.Coordinator.InjectDemoJob` | apps/coordinator-core/src/ws/workerHub.ts:406-415 | takes the injection step and answers true exactly when the worker was there and idle |
| `CoordinatorService.Coordinator.TrustCreate` | apps/coordinator-core/src/routes/trust.ts:10-26 | inserts a pairing that expires in an hour; a missing user or a repeated code stores nothing |
| `CoordinatorService.Coordinator.TrustClaim` | apps/coordinator-core/src/routes/trust.ts:28-58 | succeeds exactly on a present, unclaimed, unexpired code with a key, and says which of the four refusals it is otherwise; every refusal leaves the table unchanged |
| `Selection.BestIsTheWinner` | apps/coordinator-core/src/ws/workerHub.ts:325-362 | the chosen worker is the earliest-registered eligible worker of maximal score, and there is none if and only if nobody is eligible |
| `Selection.CandidatesAreEligible` | apps/coordinator-core/src/ws/workerHub.ts:340-347 | the filter keeps exactly the eligible workers, each once, in registration order |
| `Selection.SortByScore` | apps/coordinator-core/src/ws/workerHub.ts:351-356 | sorting returns a stable, descending permutation of the candidates |
| `Selection.SortedHeadIsBest` | apps/coordinator-core/src/ws/workerHub.ts:349-361 | the head of any stable sort of the candidates is the linear arg-max, and the sort is empty exactly when there is none |
| `Selection.ClaimsTakeThePrefixOfTheSort` | apps/coordinator-core/src/ws/workerHub.ts:319-362 | k claims of one kind at one instant return the first k of the stable sort, all different |
| `Selection.RaisedScoresHigher` | apps/coordinator-core/src/ws/workerHub.ts:364-387 | a later heartbeat, a higher or first reputation and a higher tier never lower the score |
| `Selection.SelectionIsMonotone` | apps/coordinator-core/src/ws/workerHub.ts:364-387 | the winner still wins after only its own heartbeat, reputation or tier is raised, for any population |
| `Selection.DominatedWorkersNeverWin` | apps/coordinator-core/src/ws/workerHub.ts:364-387 | a worker loses to any eligible worker at least as fresh, reputable, staked and suited to the policy that registered earlier, stakes more, or alone is of the preferred kind |
| `SelectionDuels.LeadDecides` | apps/coordinator-core/src/ws/workerHub.ts:364-387 | between two eligible workers the lead in milliseconds of heartbeat decides, the earlier one on a tie: 100 seconds for the preferred kind, 50 and 100 for the tiers, 1, 1.5 or 2 seconds for a reputation point; the loser is never claimed, and with nobody else eligible the winner is claimed exactly then |
| `SelectionDuels.SecondsAgainstReputation` | apps/coordinator-core/src/ws/workerHub.ts:372-384 | within one kind and stake, reputation points are traded for 1, 1.5 or 2 seconds of heartbeat depending on the tier |
| `SelectionDuels.LessRecentNeverWins` | apps/coordinator-core/src/ws/workerHub.ts:372 | of two workers alike otherwise, the one heard from less recently is never claimed while the other was heard from in the last 50 seconds |
| `SelectionDuels.LessReputableNeverWins` | apps/coordinator-core/src/ws/workerHub.ts:379-381 | of two workers alike otherwise, the less reputable one is never claimed |
| `SelectionDuels.StakeAgainstReputation` | packages/protocol/src/types.ts:138-142 | exactly how much reputation outweighs a tier: VERIFIED against OPEN, SENTINEL against OPEN and SENTINEL against VERIFIED |
| `SelectionDuels.KindAgainstReputation` | apps/coordinator-core/src/ws/workerHub.ts:366-370 | a desktop is worth 100 reputation points to a FAST claim, a seeker as much to a CHEAP task, and the kind counts for nothing otherwise |
| `SettlementInvariant.StepConserves` | apps/coordinator-core/src/bolt/BoltDistributor.ts:84-203 | every event keeps the multiset of queued payouts equal to pending, in flight, settled and abandoned together |
| `SettlementRuns.EveryPayoutHasOnePlace` | apps/coordinator-core/src/bolt/BoltDistributor.ts:84-203 | in every run, each queued payout is in exactly one place, once |
| `SettlementRuns.BatchTotalsAreExact` | apps/coordinator-core/src/bolt/BoltDistributor.ts:86-99 | every live batch adds up exactly its own jobs, all of its own worker |
| `SettlementInvariant.PotentialFalls` | apps/coordinator-core/src/bolt/WrappedBoltDistributor.ts:203-217 | for all workers together and for each alone, the sum of the retries left over the live batches falls at every finished attempt and rises by at most three per payout queued |
| `SettlementRuns.AttemptsAreBounded` | apps/coordinator-core/src/bolt/WrappedBoltDistributor.ts:109-126 | the attempts begun never exceed three times the payouts queued, merges included |
| `SettlementInvariant.StepKeepsWitnesses` | apps/coordinator-core/src/bolt/BoltDistributor.ts:187-201 | every live batch keeps a payout that took part in at least as many failed attempts as its retry count says |
| `SettlementRuns.GivenUpAfterThreeFailures` | apps/coordinator-core/src/bolt/BoltDistributor.ts:187-201 | a batch is abandoned only by a failed attempt, and it holds a payout that failed at least three times |
| `SettlementRetries.FailingForever` | apps/coordinator-core/src/bolt/BoltDistributor.ts:190-193 | for every threshold and every n, a run after which a payout has failed n times and is still pending: a failed batch takes over the count of the batch it is merged into |
| `SettlementRetries.FailuresAreBounded` | apps/coordinator-core/src/bolt/BoltDistributor.ts:187-196 | in every run, a payout takes part in at most three failed attempts for each payout queued for its worker |
| `SettlementRuns.QueueSettlesAtTheThreshold` | apps/coordinator-core/src/bolt/BoltDistributor.ts:84-101 | a first payout always waits; a later one settles the whole batch exactly when it reaches the threshold |
| `SettlementRuns.BalancesAreExact` | apps/coordinator-core/src/bolt/WrappedBoltDistributor.ts:181-183 | with any overlap of attempts, each balance adds up exactly the settled payouts of its worker, and all balances together what was settled |
| `SettlementRuns.BalancesConvertExactly` | apps/coordinator-core/src/bolt/WrappedBoltDistributor.ts:128-131 | without rounding a balance is the sum of its worker's settled payouts; the binary64 balance handed out converts to exactly a million raw units for each of up to 67000 single rewards, and up to 10^12 of them to within the rounding error of the sum |
| `SettlementInvariant.StepKeepsBalances` | apps/coordinator-core/src/bolt/WrappedBoltDistributor.ts:181-183 | no interleaving of attempts loses a balance update |
| `SettlementRuns.RawUnitsPaidAreExact` | apps/coordinator-core/src/bolt/BoltDistributor.ts:149 | in every run of single rewards with attempts of at most 67000 jobs, the raw units minted are a million per settled job |
| `SettlementRuns.AttemptsPayClosely` | apps/coordinator-core/src/bolt/BoltDistributor.ts:149 | in every run, a confirmed attempt of up to 10^12 single rewards pays a million raw units each to within the rounding error of its sum |
| `SettlementRuns.SweepsNeverOverlap` | apps/coordinator-core/src/bolt/WrappedBoltDistributor.ts:134-146 | at most one sweep is under way in every reachable state |
| `SettlementRuns.SweepRemembersItsStart` | apps/coordinator-core/src/bolt/WrappedBoltDistributor.ts:137-141 | a sweep keeps its record of what was pending at its start, and the workers it has still to visit are always the last ones of the list it read then |
| `SettlementRuns.SweepTriesEverything` | apps/coordinator-core/src/bolt/WrappedBoltDistributor.ts:134-154 | when a sweep ends, every payout that was pending at its start has been part of an attempt begun since |
| `SettlementRuns.SweepsWaitForTheirAttempts` | apps/coordinator-core/src/bolt/WrappedBoltDistributor.ts:140-142 | in every run, after a turn that begins an attempt a sweep takes no further turn and does not end until that attempt has finished |
| `SettlementDrain.ThreeSweepsDrain` | apps/coordinator-core/src/bolt/WrappedBoltDistributor.ts:134-146 | once no more payouts arrive, three sweeps, each between moments with nothing in flight, leave nothing pending: every payout is settled or abandoned, once |
| `SettlementDrain.RoundRaises` | apps/coordinator-core/src/bolt/WrappedBoltDistributor.ts:203-217 | without new payouts, every batch still pending after such a sweep has failed once more than before it |
| `SettlementDrain.TwoSweepsMayNotDrain` | apps/coordinator-core/src/bolt/WrappedBoltDistributor.ts:203-217 | a run in which a payout is still pending after two such sweeps |
| `SettlementOrder.OrderIsKeptUnlessOvertaken` | apps/coordinator-core/src/bolt/BoltDistributor.ts:187-196 | through any run, each worker's attempts and pending batch stay in queueing order if and only if no failed batch was queued again behind a younger attempt |
| `SettlementOrder.StepKeepsOrder` | apps/coordinator-core/src/bolt/BoltDistributor.ts:187-196 | the same for one event: the exact condition under which a failure breaks the order |
| `SettlementOrder.OverlapLosesOrder` | apps/coordinator-core/src/bolt/BoltDistributor.ts:190-196 | a run of six events after which a batch lists a newer payout before an older one |
| `Amounts.RawUnitsAreExact` | apps/coordinator-core/src/bolt/BoltDistributor.ts:149 | any tree of binary64 additions of up to 67000 rewards converts to exactly a million raw units each |
| `Amounts.RawUnitsAreClose` | apps/coordinator-core/src/bolt/BoltDistributor.ts:149 | for up to 10^12 rewards the raw units differ from a million each by at most (n * n + n) * 1001000 / 2^53 + 1/2 |
| `InOrderSums.InOrderConverts` | apps/coordinator-core/src/bolt/BoltDistributor.ts:88 | rewards added one after the other convert to exactly a million raw units each up to 180956 of them, and 180957 are the first to convert to one unit too many |
| `InOrderSums.OneAtATimeConverts` | apps/coordinator-core/src/bolt/BoltDistributor.ts:149 | the same for every tree in which each addition adds a single reward, on either side |
| `InOrderSums.Climb` | apps/coordinator-core/src/bolt/BoltDistributor.ts:88 | between two powers of two, every further reward adds the same number of last-place units to the sum |
| `SettlementRetries.OverpayingRun` | apps/coordinator-core/src/bolt/BoltDistributor.ts:149 | for every threshold, a run that settles 180957 single rewards and pays one raw unit too many |
| `Amounts.EvalIsNear` | apps/coordinator-core/src/bolt/BoltDistributor.ts:88 | the rounding error of any tree of up to 10^12 rewards grows at most with the square of their number |
| `Amounts.ExactIsTotal` | apps/coordinator-core/src/bolt/BoltDistributor.ts:190-193 | without rounding, a tree of additions is the sum of its payouts, however they were merged |
| `Binary64.RoundIsNearest` | apps/coordinator-core/src/bolt/BoltDistributor.ts:88 | the rounding used for sums and products of positive numbers returns a representable number that no other representable number beats, and of two equally near ones the one that ends in a zero bit (section 4.3.1 of IEEE 754-2019) |
| `Binary64.RoundIsOdd` | apps/coordinator-core/src/bolt/BoltDistributor.ts:88 | negative numbers round like positive ones |
| `Binary64.RoundIsClose` | apps/coordinator-core/src/bolt/BoltDistributor.ts:88 | the relative rounding error is at most one part in two to the 53rd |
| `Binary64.RoundTwice` | apps/coordinator-core/src/bolt/BoltDistributor.ts:88 | rounding a rounded number changes nothing |
| `DistributorService.PendingPayout.Push` | apps/coordinator-core/src/bolt/BoltDistributor.ts:87-88 | appends a job id and adds its amount in binary64 |
| `DistributorService.PendingPayout.Unshift` | apps/coordinator-core/src/bolt/BoltDistributor.ts:192-193 | puts the failed jobs in front and keeps the retry count of the batch that is pending |
| `DistributorService.Distributor.constructor` | apps/coordinator-core/src/bolt/BoltDistributor.ts:33-45 | a distributor starts with nothing pending, in flight or credited |
| `DistributorService.Distributor.Find` | apps/coordinator-core/src/bolt/BoltDistributor.ts:85 | the position of a worker's pending batch, or the size of the map |
| `DistributorService.Distributor.BeginSettle` | apps/coordinator-core/src/bolt/BoltDistributor.ts:119-124 | settling a worker takes its whole batch out of the map before the first await, and does nothing without one |
| `DistributorService.Distributor.QueuePayout` | apps/coordinator-core/src/bolt/BoltDistributor.ts:84-101 | takes the queueing step on the real batch objects |
| `DistributorService.Distributor.CreditBalance` | apps/coordinator-core/src/bolt/WrappedBoltDistributor.ts:181-183 | the stored balances stay the binary64 readings of the accounts |
| `DistributorService.Distributor.Settled` | apps/coordinator-core/src/bolt/WrappedBoltDistributor.ts:179-195 | the continuation of a confirmed attempt takes the success step |
| `DistributorService.Distributor.Failed` | apps/coordinator-core/src/bolt/WrappedBoltDistributor.ts:203-217 | the continuation of a failed attempt takes the failure step: merge, put back or abandon |
| `DistributorService.Distributor.GetWorkerBalance` | apps/coordinator-core/src/bolt/WrappedBoltDistributor.ts:128-131 | returns the binary64 reading of the worker's account, zero without one |
| `DistributorService.Distributor.SettleAll` | apps/coordinator-core/src/bolt/WrappedBoltDistributor.ts:134-138 | starts a sweep over the workers pending now unless one is under way |
| `DistributorService.Distributor.SweepTurn` | apps/coordinator-core/src/bolt/WrappedBoltDistributor.ts:140-145 | one turn of the sweep, or its end, takes the step of the ledger |
| `DistributorService.CreditMatches` | apps/coordinator-core/src/bolt/WrappedBoltDistributor.ts:182-183 | adding a batch total to the stored balance keeps it the reading of the account, for every worker |
| `TxQueue.ReactionOutcome` | apps/coordinator-monad/src/index.ts:40-41 | a fulfilled source calls the queued function and a rejected one does not; without a second handler the rejection is passed on, and the empty handlers end it |
| `TxQueue.MutualExclusion` | apps/coordinator-monad/src/index.ts:37-43 | at most one queued function is running in every reachable state |
| `TxQueue.StartsFollowCallOrder` | apps/coordinator-monad/src/index.ts:37-43 | functions start and end in call order, each once, and each result settles exactly when its own function has ended, the way it ended |
| `TxQueue.NothingIsLeftBehind` | apps/coordinator-monad/src/index.ts:37-43 | when nothing more can happen, every queued function has been called and every promise is settled, rejections notwithstanding |
| `TxQueue.WorkRunsOut` | apps/coordinator-monad/src/index.ts:37-43 | every reaction or end of a function uses up work, and a call adds four units of it |
| `TxQueue.MovesAreBounded` | apps/coordinator-monad/src/index.ts:37-43 | in every run the reactions and ends number at most four per call |
| `TxQueue.RunKeepsInv` | apps/coordinator-solana/src/index.ts:9-16 | the promises form one chain that settles from the front in every reachable state |
| `TxQueue.MonadTxQueue.Then` | apps/coordinator-monad/src/index.ts:40-41 | registers one pending promise behind its source and changes no other |
| `TxQueue.MonadTxQueue.QueueMonadTx` | apps/coordinator-monad/src/index.ts:39-43 | takes the enqueue step and returns the promise of the function, not the new tail |
| `MonadSettlement.OldestFinishesFirst` | apps/coordinator-monad/src/index.ts:138-145 | with settlements sent through the queue, the end of a transaction is the success or failure of the oldest attempt in flight, or of none if the transaction was somebody else's |
| `MonadSettlement.RunKeepsMatched` | apps/coordinator-core/src/bolt/WrappedBoltDistributor.ts:179 | in every run, the attempts in flight are the settlement calls that have not ended, in call order |
| `MonadSettlement.LinesKeptUnlessRetriedPast` | apps/coordinator-core/src/bolt/WrappedBoltDistributor.ts:203-217 | with the queue, workers' lines stay in queueing order if and only if no failed attempt is queued again while another attempt of its worker waits in the queue |
| `BraceScan.PatternMatchesBlocks` | apps/worker-desktop/src/executors/taskExecutor.ts:43 | the regular expression matches exactly the brace-balanced blocks of nesting depth at most two |
| `BraceScan.BlockEndIsUnique` | apps/worker-desktop/src/executors/taskExecutor.ts:43 | at most one block starts at a position, so greedy choice and backtracking cannot matter |
| `BraceScan.ScanIsUnique` | apps/worker-desktop/src/executors/taskExecutor.ts:44 | the leftmost, left-to-right, disjoint scan of a text is unique |
| `BraceScan.MatchAt` | apps/worker-desktop/src/executors/taskExecutor.ts:43 | finds the block that starts at a position if and only if there is one |
| `BraceScan.FindBlocks` | apps/worker-desktop/src/executors/taskExecutor.ts:44 | returns exactly the leftmost, left-to-right, disjoint blocks of the text |
| `BraceScan.ExtractJson` | apps/worker-desktop/src/executors/taskExecutor.ts:42-56 | the values come from a strictly increasing choice of the blocks of the scan, value by value, no block that parses is left out, and the count is their number |
| `BraceScan.PicksAreUnique` | apps/worker-desktop/src/executors/taskExecutor.ts:47-53 | a text has only one such list of values |

## Left out

- Amounts.RawUnitsAreExact: stated for up to 67000 jobs, whatever the grouping. For additions of one reward at a time the exact bound is 180956 (`InOrderSums.OneAtATimeConverts`); for other groupings between the two, `Amounts.RawUnitsAreClose` bounds the error.
- SettlementRuns.RawUnitsPaidAreExact: stated for attempts of up to 67000 jobs; beyond that `SettlementRuns.AttemptsPayClosely` bounds the error, and `SettlementRetries.OverpayingRun` shows that there is one.
- SettlementRuns.BalancesConvertExactly: exact up to 67000 settled rewards of a worker, and bounded up to 10^12.
- EndToEnd.SettledJobsArePaidToTheUnit: inherits the bound of 67000 jobs per attempt.
- Amounts.RawUnitsAreClose: stated for up to 10^12 rewards, which is the whole token supply.
- Amounts.EvalIsNear: stated for up to 10^12 rewards, which is the whole token supply.
- InOrderSums.InOrderConverts: nothing is said about more than 180957 rewards in a row.
- The exponent of binary64 is unbounded in the model, so overflow and subnormal numbers, which these amounts cannot reach, are not modelled.
- In MonadSettlement the end of a transaction and the continuation of its attempt are one step: both are reactions to the same promise, and the next queued function is called after them.
- The order in which ready promise reactions are taken is left open, which allows more runs than the job queue of ECMA-262 does.
- JSON.parse is a parameter of the scan, a function from text to an optional value.
- One distributor at a time is composed with the hub; both are always given the same payouts.
- WebSocket, Express, SQLite, Solana and viem calls appear only through their outcomes: row updates, success or failure. Outgoing messages and log lines are not modelled.
- A rejected transfer or mint is taken to mean that nothing was paid, and the onSettled and onFailed callbacks are taken not to throw. An exception before the first await of a settlement is a failure event right after its begin.
- The receipts table and Ed25519 verification (section 5.1.7 of RFC 8032) are left out, except that a receipt for a job that does not exist makes the completion transaction fail.
- A message that makes a handler throw before it changes anything, such as a completion without a job id, is not an event.
- Which socket a message came from is not modelled: any worker id may disconnect at any time, and any completion, rejection or heartbeat may arrive at any time, which includes everything the sockets can do.
- A privacy class other than PRIVATE is handled as public, which is how matching and failing treat it; the stored text itself is not kept.
- Fresh job and worker ids, the demo- prefix of demo ids and reputation scores between 0 and 100 are assumptions about the environment, in `Dispatch.Enabled`. The database starts empty; a process restart, which loses the timers, is not modelled.
- The clock is a parameter of each event, fixed during one claim, and scores are real numbers without rounding.
- The hub, the two routers and the database are one class, `Coordinator`, because their handlers share one thread and one set of tables.
- Payload, created_at and completed_at columns, the job poll and the trust list only store or read data.
- The three-attempt loop of postFeedback, summarize and classify, pricing, resolvePolicy, the CLI, the ERC-8004 wrappers, bolt-settlement, the mobile and landing apps and the receipt anchor would only add easy members or are network code.
