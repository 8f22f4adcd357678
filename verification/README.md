# Proofs about the payment assistant

A Dafny model of the parts of the payment assistant where state, money and time
interact, and proofs of what those parts keep over every input and every run. Money is
whole cents, a date is a day number, time is an integer that never goes back (the rate
limiter uses reals, like its clock), and a table is a map or a sequence of rows.

`dafny verify dfyconfig.toml` checks everything.

## What is modelled

**Notification outbox** (`OutboxTable`, `OutboxProtocol`, `OutboxSafety`,
`OutboxWaiting`, `OutboxProgress`, `OutboxRepository`, `OutboxWorker`, `OutboxJob`,
`SchedulerLock`, `RetryPolicies`). Any number of replicas run the worker job against one table and one
advisory lock while rows are created and operators retry or discard failed rows. A step
is one atomic repository call, one provider conversation, one lock operation, a crash,
an exception or the passing of time. No `mark_*` call looks at the status it overwrites,
so safety rests on one global invariant: who holds the lock, which rows the lock holder
read and has not reached yet, and an account of each row's attempts. The repository, the
worker, the lock service and the job are classes and methods whose loops are proved to
be runs of this protocol, step by step, with time, new rows and operators free to come
in between any two repository calls, and with the `WorkerResult` counters counting
exactly the results that run stores. The histories and tallies in the protocol state
(`History`, `Tally`) are bookkeeping that no step depends on; the theorems that mention
counts are stated over the run itself. Runs of either step system are `Traces.Runs`.

**Payments** (`RoundRobin`, `RoundRobinExact`, `PaymentAllocation`, `EqualSplit`, `Ledger`,
`ReferenceMatching`, `PaymentPipeline`, `Portfolio`, `PaymentInsights`). The greedy
round-robin with its exact laws; the allocation decision; the workflow's nodes over one
mutable state object, in order; the ledger of payments with its two status columns; the
receipts; and what the reports make of the same payments.

**Rate limiter** (`RateLimiter`). The deque against the history of all admissions.

**Pending actions** (`PendingActions`). Propose, confirm, cancel and expire over a clock.

**Daily reminders** (`DailyReminders`, `Notifications`, `ReminderJobs`). The direct-mode
job: selection from the contracts and the payments table, the notification node, logging
and run bookkeeping, serialised by the advisory lock, with midnight allowed to pass
between any two checks or reminders and with every query and write free to fail.

**Reminder arithmetic** (`ReminderEngine`). Which days a reminder covers and what it
asks for. `Arithmetic` holds the few facts about products and quotients used throughout.

## Where the code and its comments differ

The model follows the code.

- `app/services/payment_allocation_service.py:88-90` says that a pass without progress
  means the amount is not a whole number of daily units. It does not: 14 with daily
  amounts 10 and 7 is two sevens, and is refused. `RoundRobinExact.CompleteIffAllMultiples`
  gives the exact condition under which the comment is true for every payment.
- `app/services/payment_allocation_service.py:42-43` says that fully paid contracts are
  never allocated to. They are, exactly when they are the contract resolved beforehand
  (`PaymentAllocation.PaidUpContractIsReachedOnlyByReference`). That is so when there is
  no pool and the contract is passed explicitly, as `POST /agent/messages` does
  (`app/api/agent.py:32-43`), whatever the message says; when the message names that
  contract alone; and when it names none and no unknown code, and the contract is the only
  candidate (`PaymentPipeline.PaidUpContractIsReachedByName`).
  `PaymentPipeline.ExplicitPaidUpContractGetsForty` and
  `PaymentAllocation.PaidUpContractGetsForty` are instances.
- `app/services/payment_approval_service.py:112-113` calls a rejection terminal. Approval
  does not look at the verdict it overwrites; `Ledger.RejectionStandsIffNeverApproved`
  says when a rejection stands, and `Ledger.RejectedThenApproved` is an instance.
- `app/ai/actions/action_service.py:178` calls the execution of a confirmed action
  exactly-once. If the process dies, or storing EXECUTED fails, after the action took
  effect, it stays confirmable and can run again (`PendingActions.TwiceAtOnce`), exactly
  until it expires (`PendingActions.InterruptedCanRunAgainIff`);
  `PendingActions.ExactlyOnce` counts such runs exactly.
- `app/services/reminder_policy_service.py:48-50` rules out a second reminder by looking
  for today's log. A reminder that was delivered while its log could not be written goes
  out again in the next run; `DailyReminders.RemindersPerDay` counts the deliveries.
- A session that already holds the advisory lock takes it again and must then give it
  back twice, while `SchedulerLockService` gives it back once
  (`SchedulerLock.SchedulerLockService.Release`). The jobs open a session each, so they
  never do.
- `get_pending` orders by `available_at` alone and `get_latest_pending_for_user` by
  creation time; equal times may fall either way, and the proofs hold for every choice.

## Model

| member | source | states |
|---|---|---|
| RetryPolicies.RetryPolicy.Run | app/services/retry_policy.py:68-91 | one run calls the operation at least once and at most max(0, max_retries) + 1 times, every outcome but the last asked for a retry, the last one did not or the budget was spent, and k retries slept base * (2^k - 1) in all |
| RetryPolicies.CallsMadeStops | app/services/retry_policy.py:76-89 | all answers before the last one used are retryable, and the last is not unless the budget is spent |
| RetryPolicies.RunIffCallsMade | app/services/retry_policy.py:68-91 | given the provider's answers, there is exactly one possible length of a run |
| OutboxRepository.NotificationOutboxRepository.Create | app/repositories/notification_outbox_repository.py:13-18 | adds one PENDING row, due now, with no attempts |
| OutboxRepository.NotificationOutboxRepository.GetPending | app/repositories/notification_outbox_repository.py:34-50 | the oldest due PENDING rows in order of available_at, distinct, at most `limit`, and none left out that is older than one taken |
| OutboxRepository.NotificationOutboxRepository.MarkProcessing | app/repositories/notification_outbox_repository.py:52-53 | overwrites the status of one row whatever it was and changes nothing else |
| OutboxRepository.NotificationOutboxRepository.MarkSent | app/repositories/notification_outbox_repository.py:55-60 | SENT with the time of sending, whatever the status was |
| OutboxRepository.NotificationOutboxRepository.MarkFailed | app/repositories/notification_outbox_repository.py:62-67 | FAILED, with the attempt count left as it is |
| OutboxRepository.NotificationOutboxRepository.IncrementRetry | app/repositories/notification_outbox_repository.py:69-92 | PENDING again, one more attempt, available after the delay |
| OutboxRepository.NotificationOutboxRepository.RecoverStuckProcessing | app/repositories/notification_outbox_repository.py:94-119 | exactly the PROCESSING rows older than the timeout become PENDING with one more attempt; returns how many |
| OutboxRepository.NotificationOutboxRepository.RetryFailed | app/repositories/notification_outbox_repository.py:129-144 | a FAILED row restarts with no attempts; any other row is untouched |
| OutboxRepository.NotificationOutboxRepository.DiscardFailed | app/repositories/notification_outbox_repository.py:146-159 | a FAILED row becomes DISCARDED; any other row is untouched |
| OutboxRepository.PickOldest | app/repositories/notification_outbox_repository.py:38-50 | taking the oldest remaining due row extends the sorted batch |
| OutboxSafety.StepKeepsInv | app/workers/notification_worker.py:66-165 | every step of every replica, operator or crash keeps the global invariant |
| OutboxSafety.ReachableInv | app/scheduler.py:221-248 | the invariant holds in every reachable state |
| OutboxSafety.OnlyOneReplicaInPass | app/services/scheduler_lock_service.py:29-57 | at most one replica is inside process_batch |
| OutboxSafety.WritesFireFromIntendedStatus | app/workers/notification_worker.py:117-155 | mark_processing only hits PENDING rows, the result writes only hit PROCESSING rows, with the attempt count the worker read; recovery never runs while a worker holds rows |
| OutboxSafety.UnreachedRowsArePending | app/workers/notification_worker.py:85-106 | rows of the batch not reached yet are still PENDING with the attempt count that was read |
| OutboxSafety.TerminalRowsNeverChange | app/repositories/notification_outbox_repository.py:55-60 | SENT and DISCARDED rows never change again, in any run |
| OutboxSafety.LifeCounters | app/workers/notification_worker.py:121-138 | the lifetime counters of a row are counts over the run |
| OutboxSafety.SuccessfulSends | app/workers/notification_worker.py:121-138 | the successful sends of a row are exactly those whose result was lost to a crash or exception, plus one if it is SENT or about to be; sent_at is set exactly on SENT rows |
| OutboxSafety.EpochCounters | app/workers/notification_worker.py:140-155 | the counters since creation or operator retry are counts over that part of the run |
| OutboxSafety.AttemptBudget | app/workers/notification_worker.py:140-155 | between restarts a row is sent at most max(1, max_retries) times plus its abandoned attempts; with none abandoned the attempt count of PENDING stays below and that of FAILED is exactly max(1, max_retries) - 1, and the provider is called at most max(1, N) * (max(0, R) + 1) times |
| OutboxSafety.FailedSendIsRescheduled | app/workers/notification_worker.py:140-155 | failed attempt number k of an epoch fails the row exactly when k >= max_retries and otherwise delays it by base * 2^(k - 1), where k counts the run's failures and abandoned attempts |
| OutboxSafety.StoredCounters | app/workers/notification_worker.py:125-155 | the counters of stored results count, over any trace, the steps that leave a row SENT, FAILED or PENDING again |
| OutboxSafety.PendingRowStays | app/repositories/notification_outbox_repository.py:52-159 | a PENDING row stays as it is until a worker takes it up |
| OutboxSafety.RetryWaitsOutBackoff | app/workers/notification_worker.py:154-155 | after failed attempt number k of an epoch the next attempt, by any replica, comes at least base * 2^(k - 1) later |
| OutboxWaiting.StepKeepsPlace | app/repositories/notification_outbox_repository.py:34-50 | no step puts another row ahead of a waiting due row |
| OutboxWaiting.NoOvertaking | app/repositories/notification_outbox_repository.py:34-50 | a due row keeps its place: every row ahead of it was ahead from the start, so retried, recovered, requeued and new rows never overtake it |
| OutboxWaiting.TracePays | app/workers/notification_worker.py:85-106 | each complete pass that does not reach the row uses up batch_size of the rows ahead of it |
| OutboxWaiting.BoundedWaiting | app/workers/notification_worker.py:85-106 | a due row is attempted within floor(ahead / batch_size) + 1 complete passes |
| OutboxProgress.OrphanIsRecovered | app/repositories/notification_outbox_repository.py:94-119 | a row that lost its worker stays exactly as it is until the first recovery later than the timeout, which makes it PENDING and due with the lost attempt counted |
| OutboxProgress.TurnAdvances | app/workers/notification_worker.py:85-155 | floor(ahead / batch_size) + 1 complete passes from when a row is due settle it, leave it in a worker's hands or use up one more attempt |
| OutboxProgress.SettledWithinBudget | app/workers/notification_worker.py:85-155 | max(1, max_retries) such turns, plus one per abandoned attempt, settle the row: SENT, FAILED or discarded |
| OutboxWorker.RowMakes | app/workers/notification_worker.py:117-155 | handling one row, however it ends and whatever others do meanwhile, is a run of the protocol with a known table at the end that stores exactly what the row is counted as |
| OutboxWorker.RunIsTrace | app/workers/notification_worker.py:66-115 | what the worker does is a trace of the protocol, so every theorem about traces applies to it |
| OutboxWorker.MakesCounts | app/workers/notification_worker.py:121-155 | what a run is said to store are steps of it that leave a row SENT, FAILED or PENDING again, counted one by one |
| OutboxWorker.OthersMove | app/repositories/notification_outbox_repository.py:13-159 | what time, creations and operators do between two calls of a worker is a run of the protocol that no worker takes part in |
| OutboxWorker.QuietRow | app/workers/notification_worker.py:117-165 | a row nobody interferes with changes itself alone, as it is counted |
| OutboxWorker.RowTallies | app/workers/notification_worker.py:117-165 | the counters go on matching the table when one more row turns |
| OutboxWorker.BatchMakes | app/workers/notification_worker.py:98-106 | the whole batch, row by row, is one run with one tally |
| OutboxWorker.PassMakes | app/workers/notification_worker.py:66-115 | a pass, wherever an exception cuts it short, is a run of the protocol |
| OutboxWorker.NotificationWorker.ProcessOne | app/workers/notification_worker.py:117-165 | claims, sends and stores one row, counting it as sent, failed or retried by the result stored, or as raised |
| OutboxWorker.NotificationWorker.Drain | app/workers/notification_worker.py:98-106 | every row of the batch is processed once, in order, and a row that raises does not stop the others |
| OutboxWorker.NotificationWorker.FetchAndDrain | app/workers/notification_worker.py:85-106 | fetches a pending batch and processes every row of it, which is added to the counters |
| OutboxWorker.NotificationWorker.Pass | app/workers/notification_worker.py:66-115 | recovery, fetch and drain in order, with the counters they leave, or the part before the exception |
| OutboxWorker.NotificationWorker.ProcessBatch | app/workers/notification_worker.py:66-115 | a pass is the protocol run recover, fetch, rows, finish, with others acting in between and exceptions anywhere; its counters are the rows recovered, the rows fetched and the results that run stores as SENT, FAILED and PENDING again, the rest of the batch having raised; if nobody interfered they are the numbers of rows that differ so from the table as fetched |
| SchedulerLock.SchedulerLockService.Acquire | app/services/scheduler_lock_service.py:29-38 | takes the lock exactly if it is free or already its session's, and knows whether it did |
| SchedulerLock.SchedulerLockService.Release | app/services/scheduler_lock_service.py:45-57 | gives the lock back once, which frees it exactly if it was taken once, and leaves any other holder alone |
| OutboxJob.ProcessNotificationOutbox | app/scheduler.py:221-248 | the whole job is a run of the protocol: nothing if the lock is taken, else one pass as far as it gets (or none if the worker cannot be built), and the lock ends as it began |
| RoundRobin.LaterTurnHasLess | app/services/payment_allocation_service.py:75-85 | the money left never grows from one turn to a later one |
| RoundRobin.ServedInPrefix | app/services/payment_allocation_service.py:75-85 | each contract is served in a prefix of the passes |
| RoundRobin.Fairness | app/services/payment_allocation_service.py:70-85 | whoever asks no more per day than another is at most one unit behind it, and not behind if it comes first |
| RoundRobin.Conservation | app/services/payment_allocation_service.py:70-85 | after any number of passes what was handed out and what is left make up the payment |
| RoundRobin.RestServesNobody | app/services/payment_allocation_service.py:79-80 | breaking out when nothing is left is the same as finishing the pass |
| RoundRobin.PassesEnd | app/services/payment_allocation_service.py:75-92 | the loop ends, with nothing left or with a positive rest below every daily amount |
| RoundRobin.FailsIffStuck | app/services/payment_allocation_service.py:88-92 | the loop gives up exactly on payments that come down to a positive rest below every daily amount |
| RoundRobinExact.EqualDailies | app/services/payment_allocation_service.py:70-102 | equal daily amounts c over n contracts: failure exactly when c does not divide the amount, else contract i gets q div n units plus one if i < q mod n |
| RoundRobinExact.CompleteWhenAllMultiples | app/services/payment_allocation_service.py:88-92 | if one daily amount divides all others the loop succeeds exactly on the payments that are whole daily units |
| RoundRobinExact.MissedPayment | app/services/payment_allocation_service.py:88-92 | if the smallest daily amount does not divide some other, a payment is constructed that is whole daily units and yet refused |
| RoundRobinExact.CompleteIffAllMultiples | app/services/payment_allocation_service.py:88-92 | the loop splits every payment that can be split exactly when the smallest daily amount divides every other |
| RoundRobinExact.FourteenIsMissed | app/services/payment_allocation_service.py:70-102 | 14 with daily amounts 10 and 7 is refused although it is two sevens |
| EqualSplit.EqualDailiesSplit | app/services/payment_allocation_service.py:70-102 | equal daily amounts c over n contracts, as a list: the first min(q, n) contracts, in order, get c times their share of the q = amount / c units, and nobody else is listed; None exactly when c does not divide the amount |
| EqualSplit.EqualDailiesDecided | app/services/payment_allocation_service.py:32-53 | so the decision over several owing contracts asks a human exactly when c does not divide the amount, and otherwise returns that list |
| PaymentAllocation.EligibleSubset | app/services/payment_allocation_service.py:55-68 | exactly the contracts that still owe, keeping ids distinct |
| PaymentAllocation.SharesTotal | app/services/payment_allocation_service.py:94-102 | the listed allocations add up to what the passes handed out |
| PaymentAllocation.SharesTargets | app/services/payment_allocation_service.py:94-102 | the listed allocations are positive and on distinct contracts of the pool |
| PaymentAllocation.SharesAreSplit | app/services/payment_allocation_service.py:70-102 | a distribution that succeeds is a full split of the payment |
| PaymentAllocation.DecidedIsSplit | app/services/payment_allocation_service.py:19-53 | a human is needed exactly if nothing is allocated; without a reference the allocation is a full split over contracts that still owe; a referenced contract takes everything |
| PaymentAllocation.PaidUpContractIsReachedOnlyByReference | app/services/payment_allocation_service.py:28-53 | money lands on a contract that owes nothing exactly if that contract was resolved beforehand, whether the pool holds it or not |
| PaymentAllocation.PaidUpContractGetsForty | app/services/payment_allocation_service.py:28-30 | 40 on a contract of 100 already paid in full, because it was resolved; a human is asked otherwise |
| PaymentAllocation.PaymentAllocationService.EligibleContracts | app/services/payment_allocation_service.py:55-68 | the appending loop builds the eligible list in pool order |
| PaymentAllocation.PaymentAllocationService.Pass | app/services/payment_allocation_service.py:78-86 | the inner loop, with its break, leaves the money and the totals of one full pass |
| PaymentAllocation.PaymentAllocationService.RoundRobin | app/services/payment_allocation_service.py:70-102 | the nested loops over the remaining money and the totals dict compute the shares whose laws are proved above, or None exactly when the passes get stuck |
| PaymentAllocation.PaymentAllocationService.Allocate | app/services/payment_allocation_service.py:19-53 | takes exactly the decision whose worth DecidedIsSplit states; without an amount it names the resolved contract alone, or asks for a human |
| ReferenceMatching.MentionsUnknownReference | app/agents/contract_resolver_node.py:75-92 | true exactly if the letters of some known code occur in the message with a digit behind them |
| Ledger.OpsKeepInv | app/services/payment_approval_service.py:62-136 | over any history of creations, approvals and rejections the two status columns agree and what is PENDING waits for a human |
| Ledger.ReceivedIsPaidOnContracts | app/services/payment_service.py:73-106 | the user's total received (by approval_status) is the sum of total paid (by status) over the user's contracts |
| Ledger.MoneySplits | app/services/payment_service.py:31-75 | all of a user's payment money is received, pending review or rejected, nothing twice |
| Ledger.RejectionStandsIffNeverApproved | app/services/payment_approval_service.py:62-115 | a rejected payment stays rejected through a history exactly if its owner never approves it later |
| Ledger.RejectedThenApproved | app/services/payment_approval_service.py:62-115 | a payment rejected and then approved by its owner is received after all |
| Ledger.PaymentLedger.CreatePayment | app/services/payment_service.py:14-17 | stores any payment; the ledger stays coherent exactly if the payment is |
| Ledger.PaymentLedger.ApprovePayment | app/services/payment_approval_service.py:62-98 | sets both columns to APPROVED on a payment of the user, whatever they were, and nothing otherwise |
| Ledger.PaymentLedger.RejectPayment | app/services/payment_approval_service.py:100-136 | sets both columns to REJECTED on a payment of the user, whatever they were, and nothing otherwise |
| PaymentPipeline.PaymentWorkflow.CheckConfidence | app/agents/confidence_checker.py:9-23 | the flag is set exactly if there is no detection or its confidence is below 0.80 |
| PaymentPipeline.PaymentWorkflow.ResolveContract | app/agents/contract_resolver_node.py:15-65 | which contract the message settles on; unclear references raise the flag and nothing lowers it |
| PaymentPipeline.PaymentWorkflow.AllocatePayment | app/agents/payment_allocation_node.py:14-39 | allocates only when an amount was detected and no approval is required, and can only raise the flag |
| PaymentPipeline.PaymentWorkflow.CreateApproval | app/agents/approval_creation_node.py:19-57 | one PENDING payment of the full amount exactly when a human is needed, a contract is known and an amount was detected |
| PaymentPipeline.PaymentWorkflow.CreatePayments | app/agents/payment_creation_node.py:19-63 | one APPROVED payment per allocation, in order, each linked back to its allocation |
| PaymentPipeline.PaymentWorkflow.IssueReceipts | app/services/payment_receipt_service.py:25-72 | one receipt per allocation computed from the payments as they are after the run |
| PaymentPipeline.PaidUpContractIsReachedByName | app/agents/contract_resolver_node.py:30-65 | by what the run is given: a contract that owes nothing gets money exactly if it was passed without a pool, or the message names it alone, or names none and no unknown code and it is the only candidate |
| PaymentPipeline.ExplicitPaidUpContractGetsForty | app/agents/contract_resolver_node.py:20-26 | 40 on a settled contract passed without a pool is confirmed for every message |
| PaymentPipeline.PaidByAllocations | app/services/payment_receipt_service.py:38-72 | because allocations name distinct contracts, a run brings each contract exactly its own allocation |
| PaymentPipeline.ReceiptReconstructsBalance | app/services/payment_receipt_service.py:38-72 | new balance max(total - paid before - amount, 0), previous balance max(total - paid before, amount), which is the true one exactly if the payment does not overpay |
| PaymentPipeline.RunReceiptsAreRight | app/services/payment_receipt_service.py:25-72 | every receipt of a run names its payment and states its contract's balances |
| PaymentPipeline.DecisionIsTouchable | app/agents/payment_allocation_node.py:19-40 | what is allocated is a full split over contracts the run may touch |
| PaymentPipeline.AllocationsFit | app/agents/payment_workflow.py:59-81 | after the deciding nodes the flag is set exactly for the listed reasons and every allocation can be written |
| PaymentPipeline.SplitIsConfirmed | app/agents/payment_creation_node.py:36-61 | confirmed payments on distinct contracts that sum exactly to the amount |
| PaymentPipeline.RunEnds | app/agents/payment_workflow.py:59-106 | from what each node did to the outcome of the run |
| PaymentPipeline.PaymentWorkflow.DecideOnPayment | app/agents/payment_workflow.py:59-78 | the confidence, resolver and allocation nodes in order |
| PaymentPipeline.PaymentWorkflow.RecordPayment | app/agents/payment_workflow.py:80-99 | the approval, creation and receipt nodes in order |
| PaymentPipeline.PaymentWorkflow.Process | app/agents/payment_workflow.py:47-106 | for every detection and pool: a human is needed exactly for the listed reasons; then at most one PENDING payment of the full amount, and otherwise APPROVED payments on distinct contracts of the pool summing exactly to the amount, with right receipts |
| Portfolio.ExpectedNextMonthIncome | app/services/insights/financial_insight_service.py:86-98 | the accumulating loop sums, per active contract, the lesser of a month's amount and what is owed |
| Portfolio.CollectedBounds | app/services/insights/financial_insight_service.py:66-71 | collected lies between 0 and the contract value, never exceeds what was paid, and equals it exactly when no contract is overpaid |
| Portfolio.CollectedVersusReceived | app/services/contract_reporting_service.py:41-59 | across services: collected is at most the user's total received, with equality exactly when no contract is overpaid |
| Portfolio.NextMonthWithinOutstanding | app/services/insights/financial_insight_service.py:86-98 | next month's expected income is at most the total outstanding |
| PaymentInsights.SortedDaysSorted | app/services/insights/payment_insight_service.py:135-135 | strictly increasing, with exactly the payment days |
| PaymentInsights.LongestOverRuns | app/services/insights/payment_insight_service.py:139-146 | the longest run of the scan is the longest block of consecutive payment days |
| PaymentInsights.RunEndingAtLast | app/services/insights/payment_insight_service.py:148-149 | the run at the end of the scan is the longest block ending on the newest day |
| PaymentInsights.PaymentStreak | app/services/insights/payment_insight_service.py:134-149 | longest streak is the longest block of consecutive payment days; current streak is the longest block ending on the newest day if that is today or yesterday, else 0; current <= longest <= payment days |
| PaymentInsights.PaymentDaysWithinSpan | app/services/insights/payment_insight_service.py:44-51 | payment days never exceed span days |
| PaymentInsights.ByMonth | app/services/insights/payment_insight_service.py:104-110 | the dict-of-buckets loop groups by month |
| PaymentInsights.SumOfUpdate | app/services/insights/payment_insight_service.py:104-110 | adding one payment to its bucket adds it once to the sum of all buckets |
| PaymentInsights.GroupsAddUp | app/services/insights/payment_insight_service.py:53-63 | however payments are grouped, the groups add up to the summary's count and total |
| PaymentInsights.GroupHoldsItsOwn | app/services/insights/payment_insight_service.py:104-110 | a bucket exists exactly for keys that occur and totals exactly the payments with its key |
| PaymentInsights.SelectionKeepsBalances | app/services/insights/payment_insight_service.py:36-42 | selecting the user's approved payments changes no balance of the user's contracts |
| PaymentInsights.PayerTotalIsTotalPaid | app/services/insights/payment_insight_service.py:166-179 | a payer's total is the total paid that balances compute from the whole ledger, whatever else it holds |
| PaymentInsights.SummaryIsReceived | app/services/insights/payment_insight_service.py:53-63 | the summary's total is the user's total received |
| PaymentInsights.GroupsAddUpToReceived | app/services/insights/payment_insight_service.py:104-110 | so the groups, by month or by payer, add up to the total received |
| PaymentInsights.OwnIsGroup | app/services/insights/payment_insight_service.py:166-172 | the list kept per contract has the count and total of that contract's group |
| PaymentInsights.ByContract | app/services/insights/payment_insight_service.py:166-168 | the dict-of-lists loop keeps each contract's payments in order |
| PaymentInsights.PayerStats | app/services/insights/payment_insight_service.py:160-188 | one entry per contract with payments, holding its group's count and total, its newest date and the days since its oldest |
| RateLimiter.InMemoryRateLimitBackend.Allow | app/core/rate_limit.py:33-45 | pops what left the window, then admits and appends exactly if fewer than `limit` remain; other keys are untouched |
| RateLimiter.KeysStayInSync | app/core/rate_limit.py:33-45 | over any calls in time order each key's deque agrees with its full history |
| RateLimiter.DequeIsWindowOfHistory | app/core/rate_limit.py:33-45 | after a call the deque is exactly the in-window part of all admissions ever made |
| RateLimiter.DecisionsMatchHistory | app/core/rate_limit.py:33-45 | a call is admitted exactly if the full history has fewer than `limit` admissions in (now - w, now] |
| RateLimiter.EveryWindowWithinLimit | app/core/rate_limit.py:33-45 | admissions spaced by the limit put at most `limit` into any half-open window |
| RateLimiter.NoWindowOverLimit | app/core/rate_limit.py:33-45 | no half-open window, at any position, ever holds more than `limit` admissions of a key |
| RateLimiter.RejectionMeansFull | app/core/rate_limit.py:41-43 | a rejected call found its window full to the last place |
| PendingActions.FinalStatusesStay | app/repositories/pending_action_repository.py:28-64 | EXECUTED, CANCELLED and EXPIRED actions never change again |
| PendingActions.ExactlyOnce | app/ai/actions/action_service.py:161-183 | an action is executed once if it is EXECUTED, plus once for each confirmation that acted without EXECUTED being stored, always by its owner and selected before it expired |
| PendingActions.AtMostOnceIff | app/ai/actions/action_service.py:161-183 | at most once exactly if no confirmation was interrupted after acting, or one was and nothing else executed the action |
| PendingActions.InterruptedActionRunsAgain | app/ai/actions/action_service.py:168-179 | after an interruption the owner can confirm, and so execute, the same action again |
| PendingActions.CanRunAgainIff | app/ai/actions/action_service.py:161-193 | from any state some continuation executes an action, once more or for the first time, exactly if it awaits confirmation and has not expired, whatever newer actions there are |
| PendingActions.InterruptedCanRunAgainIff | app/ai/actions/action_service.py:168-179 | a confirmation interrupted after acting can be followed by a second execution exactly until the action expires |
| PendingActions.TwiceAtOnce | app/ai/actions/action_service.py:168-179 | an instance: the only action there is, executed twice |
| PendingActions.RunIgnoresExpiry | app/repositories/pending_action_repository.py:28-52 | histories that differ only in stale actions being marked allow the same calls |
| PendingActions.CleanupIsInvisible | app/ai/actions/action_service.py:195-204 | running expire_stale at any point changes no later selection and no execution |
| PendingActions.ActionService.Create | app/ai/actions/action_service.py:206-219 | adds one action awaiting confirmation that expires after the timeout |
| PendingActions.ActionService.GetLatestPending | app/repositories/pending_action_repository.py:28-40 | the newest action of the user that still awaits confirmation and has not expired, or None if there is none |
| PendingActions.ActionService.ConfirmAndExecute | app/ai/actions/action_service.py:161-183 | executes the selected action and marks it EXECUTED only on success; a refusal, an exception or a lost write leaves it confirmable, whether or not it acted |
| PendingActions.ActionService.CancelLatest | app/ai/actions/action_service.py:185-193 | cancels exactly the selected action |
| PendingActions.ActionService.ExpireStale | app/ai/actions/action_service.py:195-204 | marks exactly the stale actions and returns how many |
| DailyReminders.DueIff | app/services/reminder_policy_service.py:21-53 | due are exactly the active, started contracts paid less than their total, with no payment of any status dated that day and no reminder logged |
| DailyReminders.StepKeepsInv | app/scheduler.py:54-76 | every step of every replica keeps the lock, the log and the open picks consistent |
| DailyReminders.CheckKeepsInv | app/services/reminder_policy_service.py:21-53 | a contract is picked only if it has no log for that day |
| DailyReminders.ExecuteKeepsInv | app/agents/notification_node.py:110-126 | logging a pick never repeats a contract and day, even after midnight |
| DailyReminders.OneReminderLogPerDay | app/repositories/reminder_log_repository.py:11-34 | over any history of runs, replicas and crashes a contract has at most one reminder log per day |
| DailyReminders.RemindersPerDay | app/agents/notification_node.py:110-126 | over any history a contract is reminded on a day once per delivery whose log was lost, plus once if a log of that day exists: at most one more than logs were lost |
| ReminderJobs.ReminderJob.GetPendingReminders | app/services/reminder_service.py:17-23 | selects exactly the contracts the policy wants reminded, by the contract, the payments table and the log at the moment each is checked, as a run of the protocol; any query may raise |
| ReminderJobs.ReminderJob.CheckOne | app/services/reminder_policy_service.py:21-53 | one more contract is picked exactly if the policy's conditions hold at that moment |
| Notifications.NotificationNode.Execute | app/agents/notification_node.py:33-108 | a message is skipped, queued or sent, and the status says which; what is sent for a scheduled reminder, and nothing else, is logged |
| Notifications.NotificationNode.MaybeLogReminder | app/agents/notification_node.py:110-126 | only successful scheduled reminders are logged |
| ReminderJobs.ReminderJob.Execute | app/services/reminder_execution_service.py:25-61 | one reminder through the nodes: logged exactly if a message was generated and delivered and the log could be written, completed exactly if nothing raised |
| ReminderJobs.ReminderJob.RemindOne | app/scheduler.py:123-154 | one contract adds one event and one to exactly one of the two counts |
| ReminderJobs.ReminderJob.RunReminders | app/scheduler.py:117-195 | a run is COMPLETED exactly if every event and its last status could be stored, and then has one event per selected contract, in order, with total = successful + failed; otherwise it keeps the events stored before |
| ReminderJobs.ReminderJob.CompleteRun | app/scheduler.py:156-195 | the counts and COMPLETED are stored together, or the except branch stores FAILED, or nothing is stored and the run stays RUNNING |
| ReminderJobs.ReminderJob.ExecuteDailyReminders | app/scheduler.py:79-204 | the run from its creation to its last status, or to the first exception outside the loop |
| ReminderJobs.SendDailyReminders | app/scheduler.py:54-76 | the whole job is a run of the protocol, skipped if the lock is taken, and the lock ends as it began |
| ReminderEngine.PendingDates | app/agents/reminder_engine.py:17-38 | exactly the consecutive days after the last covered one, min(remaining div daily, days up to today) of them; an error exactly if the daily amount is not positive |
| ReminderEngine.BuildReminderContext | app/agents/reminder_engine.py:40-65 | the amount asked for is the daily amount times the days, never more than remains, and falls short of the days up to today only when the money does |

## Left out

- HTTP routers, middleware, prompts, model calls and intent detection: a detection is any value its schema allows, a provider answer any outcome.
- Text columns of the outbox (recipient, message, last error), metrics, logging and the failure alert of a pass.
- Repository calls are atomic. Two operator calls racing on one FAILED row, two confirmations of one pending action at once, and two payment messages handled at once are not modelled; the code has no mutual exclusion there.
- A lock connection that drops while its worker lives on, and an unlock statement that fails: the lock is freed only by release or by the death of its process.
- Exceptions inside one repository call are all or nothing: the call happened or it did not. A pass whose failure alert raises is not distinguished from one that returns.
- Within one policy check the day does not change; the code asks for today's date up to three times.
- A database error between two payments of one split, which would leave a part of the split stored.
- PaymentAllocation.PaymentAllocationService.Pass: the inner loop is a method of its own, and the progress flag and totals travel through its results instead of local variables.
- PaymentPipeline.PaymentWorkflow.CreatePayments: the payment ids are written to the allocations when the loop ends rather than one by one in place.
- The remaining balance of a contract does not bound its allocation, because the round-robin never reads it; what an overpayment does to receipts and totals is stated where they are.
- Once-a-day reminders in outbox mode, where no reminder log is written, and the unlocked path that sends reminders from a conversation: no such law holds there.
- A stored SENT event says only that executing the reminder did not raise; delivery is a separate outcome.
- Time zones: one day function serves both the reminder log and the calendar check.
- Letter case, letters and digits in ReferenceMatching are ASCII.
- RateLimiter.KeysStayInSync: clock readings are exact reals in nondecreasing order and windows are positive; key construction from the request is not modelled.
- Decimal and float rounding: averages, rates, the average gap between payments and the consistency score; backoff delays are whole seconds.
- PendingActions.CleanupIsInvisible: the cleanup commits row by row in the code and is one step here; a call between two of its rows is not modelled.
- PendingActions.ActionService.ConfirmAndExecute: the executed tool's own effect is outside the model, which records that it acted, for whom and when. Selection, execution and the status write are one step, so two confirmations cannot overlap.
- Contract creation, editing and deletion: the contracts are fixed during a run or history, with distinct ids and, as their schema demands, positive daily amounts.
- The balance, reminder-decision, response and notification nodes of the payment workflow, which write no payment and no receipt.
- Proactive analysis, the other scheduled jobs, assistant memory, authentication, migrations.
