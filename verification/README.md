# Verified model of the AIMG credit and job core

AIMG sells image jobs for credits. A request charges a user's free and paid credits, a worker runs the job over a
chain of providers, and a job that fails gives its charge back. Requests, worker tasks, the janitor, top-ups and
admins all write the same PostgreSQL rows, Redis queue and Redis keys. These modules model that code in Dafny and
prove what it promises about whole runs. `dafny verify dfyconfig.toml` checks everything.

## How the model is laid out

| modules | what they hold |
|---|---|
| `Ledger`, `Billing`, `Database` | Rows of users, jobs and credit_transactions; what each transaction does as a value; the repositories and services as methods of a class over mutable tables, proved to leave exactly that value, rollbacks included. |
| `Interleaving`, `Safety`, `Effects`, `Guarantees`, `Exactness`, `Waiting` | The statement grain: every SQL statement or Redis command of create_job, _fail_job, topup and the admin adjustment is one step, in any interleaving, with locks on users and jobs rows, uncommitted index entries, rollbacks, crashes at any step and vanishing Redis keys. One invariant, what each step does to the tables, and the guarantees that follow; which steps break exact rows and settled jobs; who waits for whom. |
| `Alone`, `Requests`, `Serialization`, `Races` | The bridge between the two grains: a transaction alone, and a whole request alone, is one step, and exactly which interleaved runs are serial in effect; and runs that show which claims need serial or orderly runs. |
| `Serial`, `Reconcile` | The serial grain: exact `balance_after` rows, the ledger chain, and the reconciliation script. |
| `Settlement`, `Lifecycle`, `Disorder` | Settlement of jobs, the clocked machine of worker calls, queue and janitor, and what its disorderly runs end in. |
| `Worker`, `QueueOrder`, `Recovery` | process_job, orphan recovery, the BRPOP loop and the janitor as methods; order independence of the queue; recovery from a crash. |
| `Routes` | The two idempotent endpoints around the transactions, one request at a time. |
| `RateLimit` | The sliding window limiter against a plain count over the history, serial and concurrent. |
| `Webhooks` | Delivery attempts, backoff, and the batch loop that drains a backlog. |
| `Queries`, `Cursors`, `Pagination`, `Walk` | The query builders, the cursor text, one history page, and the walk along `next_cursor`. |
| `Fallback` | The provider chain and the handler's loop. |

Two history variables exist that the program does not store, and no operation reads them: `User.grant`, the free
credits a user row was inserted with, and `failures`, which counts the committed `_fail_job` transactions of a job.

## What holds, and what does not

In every interleaving: balances are the grant plus the ledger rows, bucket by bucket, and never negative; a job's rows
net to its charge times one less than its failures; one job per Idempotency-Key and one top-up per external id,
whatever Redis forgets; and transactions never wait for each other in a circle.

The transactions run under READ COMMITTED, which does not make them serial. An interleaved run leaves exactly the users,
jobs and ledger that its transactions leave one after the other, in the order of their commits, if and only if no charge
commits after its balance has moved: in a bucket the charge takes from, or in the free one when it takes paid credits
(`SerializableIff`). Refunds, top-ups, adjustments and status writes never stand in the way.

Four claims are false of the code without a hypothesis. Each is proved with its exact condition, and with runs that
break it.

- *A job is failed exactly when its charge went back, once.* `update_status` does not look at the status it replaces,
  nor `refund_credits` at an earlier refund. Settled accounts stay settled through a transaction if and only if it does
  not write the status of a failed job (`CommitStaysSettledIff`), and so for whole runs of worker, queue and janitor,
  orderly or not (`SettledThroughoutIff`); in interleaved statements a settled job stays settled through a step if and
  only if the step does not write the status of a charged job that is failed (`JobsStaySettledIff`), and all accounts stay
  settled through a whole interleaved run if and only if no step of it writes the status of a failed job
  (`RunsStaySettledIff`). Two runs the worker can make break it: two calls that both read the job as pending refund it
  twice (`TwoCallsRefundTwice`), and a handler that ends after the janitor failed its job marks it succeeded with its
  whole charge back (`LateSuccessIsFree`). In orderly runs, where each job is in the hands of one call at a time and
  calls end or die before the janitor's deadline, every job is settled exactly once (`SettledExactlyOnce`).
- *A ledger row shows the balance it left.* `reserve_credits` computes `balance_after` from a read before its UPDATE.
  All rows of an interleaved run are exact if and only if it never commits a charge whose bucket changed since that
  read (`RunIsExactIff`), and each row then continues the one before it (`RowsChain`); the rows of refunds, top-ups and
  adjustments are exact in any case.
- *Free credits go first* (specs/06-business-logic.md). `reserve_credits` splits a charge over the balance it read. A
  commit takes paid credits and leaves free ones unused if and only if it takes paid ones at all and the free balance
  changed since that read (`PaidBeforeFreeIff`), as in `PaidSpentBeforeFree`.
- *Reconciliation leaves good balances alone.* A run changes nothing if and only if every latest row shows the stored
  balance, whichever of several rows with one stamp it is given (`UnchangedIff`). A stale charge row breaks that
  (`ReconcileBreaksABalance`). So do rows that are all exact: `created_at` is the start of a transaction and need not
  follow the order of commits, so the latest-stamped row may not be the last one (`ReconcileBreaksExactRows`). With exact
  rows a run changes nothing if and only if whatever was committed to a line since its latest-stamped row cancels out
  (`ExactRunsNeedNoRepairIff`), as it does when the stamps of each line follow the order of commits
  (`OrderedExactRunsNeedNoRepair`) and after all serial transactions (`SerialRunsNeedNoRepair`).

Where code and documentation differ, the model follows the code. specs/06-business-logic.md computes a balance as the
sum of the ledger amounts and lets reconciliation compare with that sum; the code never enters the grant in the ledger,
so a free balance is the grant plus the sum, and `run_reconcile` compares with the latest `balance_after` and always
fixes. The development plan speaks of three webhook attempts and webhooks.py has `MAX_ATTEMPTS = 3`; the constant is
not used, and the length of the backoff table allows four.

## Model

| member | source | states |
|---|---|---|
| Billing.CalculateCreditSplit | aimg/services/billing.py:11-20 | It fails exactly when both buckets together are short; otherwise the parts add up to the cost, neither bucket is overdrawn, and paid credits are touched only when the free ones are used up. |
| Billing.SplitIsCheapest | aimg/services/billing.py:18-20 | Among all affordable splits of a cost it is the only one that spends the fewest paid credits. |
| Billing.ChargesAreSelected | aimg/db/repos/credit_transactions.py:44-54 | get_charges_for_job selects each charge row of the job as often as the ledger holds it, and no refund or other job's row. |
| Billing.SelectedChargesSumUp | aimg/services/billing.py:82-88 | Summing the selected rows gives the same per-bucket charge as summing over the whole ledger. |
| Billing.ReserveAnswers | aimg/services/billing.py:33-45 | reserve_credits charges exactly when the user exists and free and paid credits together cover the cost; each error has its own condition. |
| Billing.ReserveMeans | aimg/services/billing.py:37-66 | A charge takes what it can from the free credits and the rest from the paid ones, and adds one job_charge row with the amount and the balance left for each bucket it used. |
| Billing.CreateJobMeans | aimg/api/routes/jobs.py:148-162 | create_job fails for a taken key exactly when a job of the same integration has it; otherwise it answers as its charge does, and stores the job with it. |
| Billing.FailJobMeans | aimg/worker/main.py:262-274 | _fail_job adds to each bucket what the job was charged in it, with a refund row showing the balance, and sets the status to failed. |
| Billing.TopUpMeans | aimg/api/routes/billing.py:83-101 | A top-up goes through exactly when the balance stays non-negative and the user has no row with its id; it then adds its amount to the paid credits with one row. |
| Billing.AdjustMeans | aimg/admin/routes/users.py:98-130 | An adjustment goes through exactly when the user exists and both buckets stay non-negative; it then moves its bucket with one row. |
| Database.Tables.UpdateCredits | aimg/db/repos/users.py:49-70 | Moves both buckets if neither goes below zero, reports whether it did, and otherwise leaves every row alone. |
| Database.Tables.ForceSetCredits | aimg/db/repos/users.py:72-89 | Overwrites one existing balance and nothing else. |
| Database.Tables.GetOrCreate | aimg/db/repos/users.py:20-47 | Returns the user of the pair; inserts one with the grant exactly when there was none, and never touches an existing balance. |
| Database.Tables.InsertTxn | aimg/db/repos/credit_transactions.py:12-42 | Appends one ledger row. |
| Database.Tables.UpdateStatus | aimg/db/repos/jobs.py:49-103 | Writes the status whatever it was before, and started_at only for running. |
| Database.Tables.ReserveCredits | aimg/services/billing.py:23-66 | Run alone, leaves the reduced balance and one charge row for each bucket used, each showing the balance left; every error leaves the tables as they were. |
| Database.Tables.SumCharges | aimg/services/billing.py:82-88 | The refund loop adds up exactly what each bucket was charged. |
| Database.Tables.RefundCredits | aimg/services/billing.py:69-115 | Gives each bucket its charge back with one row for each bucket that moved, and does nothing for a job without charges. |
| Database.Tables.FailJob | aimg/worker/main.py:262-274 | Refund and failed status reach the tables together. |
| Database.Tables.CreateJob | aimg/api/routes/jobs.py:144-159 | Job row and charge are stored together or not at all: a taken key or a failed charge restores the tables. |
| Database.Tables.TopUp | aimg/api/routes/billing.py:83-101 | Credits the paid bucket with its row, or undoes its own balance update when the external id is taken. |
| Database.Tables.AdjustCredits | aimg/admin/routes/users.py:92-130 | Moves one bucket with one row, or changes nothing when that would make it negative. |
| Ledger.SumAppend | aimg/services/billing.py:84-88 | Sums over ledger rows are additive, so appended rows move every total by their own share only. |
| Ledger.ChargeKeepsBooks | aimg/services/billing.py:37-66 | A committed charge keeps every balance equal to grant plus rows and books the job as charged in full. |
| Ledger.RefundKeepsBooks | aimg/services/billing.py:78-115 | A committed refund keeps the books with one more failure of the job, bucket by bucket. |
| Ledger.CreditKeepsBooks | aimg/api/routes/billing.py:83-101 | Top-ups and adjustments keep the books of every user and touch no job. |
| Ledger.RegisterKeepsBooks | aimg/db/repos/users.py:36-46 | A new user starts balanced on the grant alone. |
| Safety.NextKeepsInv | aimg/services/billing.py:23-115 | No single statement, commit, rollback, crash or lost cache key, whoever runs it, breaks the invariant of tables, locks, caches and open transactions. |
| Safety.RunKeepsInv | aimg/services/billing.py:23-115 | The invariant holds after every interleaved run from the empty system. |
| Guarantees.BalancesConserved | aimg/db/repos/users.py:49-70 | In every interleaved run free is the grant plus the free rows, paid is the paid rows, and neither is negative. |
| Guarantees.JobsNetByFailures | aimg/worker/main.py:262-274 | In every interleaved run a job was charged in full and each bucket of its rows nets to that bucket's charge times (failures - 1). |
| Guarantees.FailureRefundsOnceIff | aimg/services/billing.py:78-93 | In every interleaved run a commit of _fail_job returns the whole charge once more and leaves the job failed; of a settled job it leaves a settled one if and only if the job was not failed already or cost nothing. |
| Guarantees.RefundAlwaysLands | aimg/services/billing.py:90-93 | When the refund's UPDATE is about to run its user row exists and its guard holds, so ignoring its result is safe. |
| Guarantees.OneJobPerKey | alembic/versions/001_initial_schema.py:174-178 | In every interleaved run with keys vanishing at any time, two jobs with the same integration and Idempotency-Key are the same job. |
| Guarantees.CacheNamesTheJob | aimg/api/routes/jobs.py:92-109 | Every cached entry names the committed job of its own pair, every answer names the job of the request's key, and the stale-key branch is never taken. |
| Guarantees.RefusedLeavesNothing | aimg/api/routes/jobs.py:146-159 | A refused create_job, the loser of two inserts for one key included, leaves no job and no ledger row. |
| Guarantees.TopUpOnce | aimg/api/routes/billing.py:83-118 | A top-up that reported success has exactly one ledger row with its user and external id, and it is a paid credit of exactly its amount. |
| Guarantees.ExternalIdsAreUnique | alembic/versions/002_webhook_deliveries.py:43-47 | In every interleaved run no two committed rows of a user share an external transaction id. |
| Guarantees.PaidBeforeFreeIff | aimg/services/billing.py:33-45 | In every interleaved run the commit of a charge leaves its split deducted from the balance it finds; it spends paid credits and leaves free ones if and only if it spends paid ones and the free balance is not the one that was read. |
| Guarantees.ChargeRowIsExactIff | aimg/services/billing.py:33-66 | A charge row shows the balance its commit leaves if and only if that bucket still has the value read before the UPDATE. |
| Guarantees.RefundRowIsExact | aimg/services/billing.py:95-115 | Refund rows, read back after the UPDATE, show the balance their commit leaves in every interleaving. |
| Exactness.RowsStayExactIff | aimg/services/billing.py:33-66 | In every interleaved run whose rows all show the balance they left, any next step keeps that true if and only if it does not commit a charge whose bucket changed since its balance was read. |
| Exactness.RunIsExactIff | aimg/services/billing.py:33-66 | All rows of an interleaved run show the balance they left if and only if no step of the run committed a charge whose bucket had changed since its balance was read. |
| Exactness.RowsChain | aimg/services/billing.py:47-115 | In such a run a row's balance_after is the previous one of its user and type plus its amount, in the order of commits. |
| Exactness.TopUpStaysExact | aimg/api/routes/billing.py:90-101 | The row of a top-up shows the balance its commit leaves in every interleaving. |
| Exactness.AdjustmentStaysExact | aimg/admin/routes/users.py:116-130 | The row of an admin adjustment shows the balance its commit leaves in every interleaving. |
| Exactness.JobsStaySettledIff | aimg/db/repos/jobs.py:60-94 | In every interleaved run a job that is failed exactly when each bucket got its charge back stays so through any next step if and only if the step does not write the status of a charged job that is failed. |
| Effects.StepOnJob | aimg/db/repos/jobs.py:60-94 | A step of an interleaved run changes a job's status and its count of failures exactly as the write it makes says, and otherwise leaves both alone. |
| Waiting.MovesUnlessWaiting | aimg/db/repos/users.py:57-70 | In every interleaved run the next statement of an unfinished transaction moves it on if and only if it waits for no other transaction's users row, jobs row or key. |
| Waiting.WaitingEnds | aimg/worker/main.py:265-274 | A waiting transaction leads in one hop or two to another one whose next statement runs: transactions, those that update a users row and then a jobs row included, never wait in a circle. |
| Alone.CreateAlone | aimg/api/routes/jobs.py:144-159 | The statements of create_job's transaction, run without interruption, lead to its end with exactly the tables the transaction leaves as one step, in success and in each error, and with nothing held. |
| Alone.FailAlone | aimg/worker/main.py:265-274 | The statements of _fail_job, run without interruption, lead to its end with exactly the one-step refund and status. |
| Alone.TopUpAlone | aimg/api/routes/billing.py:83-101 | The statements of topup's transaction, run without interruption, lead to its end with exactly the one-step top-up, its rollback for a taken external id included. |
| Alone.AdjustAlone | aimg/admin/routes/users.py:98-130 | The statements of the admin adjustment, run without interruption, lead to its end with exactly the one-step adjustment or nothing. |
| Requests.CreateRequestAlone | aimg/api/routes/jobs.py:91-170 | The commands and statements of POST /v1/jobs, from its look into the cache, run without interruption, lead to the tables, cache, queue and answer of the route as one step. |
| Requests.TopUpRequestAlone | aimg/api/routes/billing.py:48-118 | The same for a top-up of a known user: a cached reply or known transaction id is answered and moves nothing, a new one is credited and its reply cached. |
| Serialization.StepIsSerialIff | aimg/services/billing.py:33-66 | From any state that meets the invariant a step leaves the tables that the transaction it commits leaves by itself, unless it commits an outdated charge; then the ledgers differ for good. |
| Serialization.SerializableIff | aimg/services/billing.py:33-66 | An interleaved run leaves the users, jobs, failures and ledger of its transactions made one after the other, in the order of their commits, if and only if none of its charges was outdated when it committed. |
| Serialization.OutdatedIff | aimg/services/billing.py:37-66 | A charge is outdated exactly when one of its rows does not show the balance it leaves or it spends paid credits while free ones are left. |
| Serialization.RunsStaySettledIff | aimg/db/repos/jobs.py:60-94 | In every interleaved run, serial in effect or not, all accounts are settled at every point if and only if no step writes the status of a failed job. |
| Races.StaleCharge | aimg/services/billing.py:33-55 | There is a reachable state after two overlapping charges in which both rows show the same balance_after although both charges were made. |
| Races.ReconcileBreaksABalance | aimg/scripts/reconcile.py:26-44 | For every cost there is a reachable state with a correct balance of nothing that every reconciliation changes to the cost of one job. |
| Races.ReconcileBreaksExactRows | aimg/scripts/reconcile.py:20-44 | For every amount there is a reachable state in which two top-ups of a user left exact rows and the right balance, stamped out of order, and every reconciliation takes one of them away. |
| Races.PaidSpentBeforeFree | aimg/services/billing.py:33-45 | For every cost and gift there is a reachable state in which a charge took all paid credits and left the free ones that an adjustment gave after the balance was read. |
| Races.FailedTwicePaysTwice | aimg/services/billing.py:69-93 | Two transactions of _fail_job for one job, started as such, commit one after the other and leave its user twice the grant with no top-up. |
| Serial.CommitKeepsBooks | aimg/services/billing.py:23-115 | Every transaction run alone, committed or refused, keeps the books. |
| Serial.AfterKeepsAudited | aimg/db/repos/credit_transactions.py:12-42 | After serial transactions every row shows grant plus all rows of its line up to and including itself, and rows are in order of created_at. |
| Serial.LedgerChain | aimg/services/billing.py:47-115 | After serial transactions a row's balance_after is the previous one of its user and type plus its amount. |
| Serial.LedgerChainStarts | aimg/db/repos/users.py:36-46 | The first row of a line starts from the grant for free credits and from zero for paid ones. |
| Serial.LatestRowShowsBalance | aimg/db/repos/credit_transactions.py:101-111 | The row with the greatest created_at of a line shows the stored balance. |
| Reconcile.BuildLookup | aimg/scripts/reconcile.py:20-24 | The lookup holds exactly the latest rows. |
| Reconcile.RepairUsers | aimg/scripts/reconcile.py:26-45 | Every user ends with the latest balances where there are any, others keep theirs, and the mismatches counted are the users whose row changed. |
| Reconcile.RunReconcile | aimg/scripts/reconcile.py:9-52 | From any balances, a run gives every user and type with rows a latest balance_after, leaves the other types and the ledger alone, and reports the number of users it changed. |
| Reconcile.SecondRunIsIdle | aimg/scripts/reconcile.py:26-50 | With distinct created_at, a second run changes nothing, whatever the first one found. |
| Reconcile.UnchangedIff | aimg/scripts/reconcile.py:26-45 | For any rows and balances, no run can change a balance if and only if every latest row, each of several with one created_at included, shows the balance stored for its user and type. |
| Reconcile.ExactRunsNeedNoRepairIff | aimg/db/repos/credit_transactions.py:101-111 | After an interleaved run whose rows all show the balance they left, a reconciliation changes nothing if and only if the rows committed to each line since its latest-stamped one cancel out. |
| Reconcile.OrderedExactRunsNeedNoRepair | aimg/db/repos/credit_transactions.py:101-111 | After an interleaved run with exact rows whose stamps follow the order of commits in each line, a reconciliation changes nothing. |
| Reconcile.SerialRunsNeedNoRepair | aimg/scripts/reconcile.py:26-50 | After any serial transactions at ascending times a run changes nothing. |
| Settlement.OutstandingAfter | aimg/db/repos/jobs.py:83-94 | The sum of the charges of jobs not failed moves by the one job a write touches. |
| Settlement.CommitKeepsSettled | aimg/worker/main.py:262-274 | Transactions that do not write the status of a failed job keep every job failed exactly when its charge went back once, and every balance equal to what came in less the charges of jobs not failed. |
| Settlement.CommitStaysSettledIff | aimg/db/repos/jobs.py:60-94 | From settled accounts any transaction leaves settled accounts if and only if it does not write the status of a failed job. |
| Settlement.FailedIffRefunded | aimg/services/billing.py:69-115 | In settled accounts a failed job's rows net to zero in each bucket and any other job's rows to its whole charge. |
| Lifecycle.NextKeepsInv | aimg/worker/main.py:58-274 | Every orderly step of submissions, worker calls, crashes, janitor and clock keeps all accounts settled and every call's view of its job true. |
| Lifecycle.SettledThroughoutIff | aimg/db/repos/jobs.py:60-94 | Any run of worker, queue, janitor and requests, orderly or not, has settled accounts at every point if and only if no step of it writes the status of a failed job. |
| Lifecycle.SettledExactlyOnce | aimg/worker/main.py:262-274 | In every orderly run a job is failed if and only if its whole charge went back to the buckets it came from, and it failed at most once. |
| Lifecycle.CreditsAccountedFor | aimg/services/billing.py:23-115 | In every orderly run free plus paid is the grant plus top-ups and adjustments minus the charges of the jobs not failed. |
| Lifecycle.StatusesOnlyFall | aimg/db/repos/jobs.py:60-94 | In every orderly run each status change lowers the rank pending, running, terminal, and terminal jobs never change again. |
| Lifecycle.JanitorSparesLiveJobs | aimg/worker/main.py:306-317 | In every run where each job is in the hands of one call at a time and calls end within their job's timeout plus sixty seconds, neither the janitor's SELECT nor the batch it is working off contains a job that a call is still working on. |
| Lifecycle.FirstPushedIsTaken | aimg/worker/main.py:403-413 | LPUSH and BRPOP make a queue: a push in between does not change which id is taken. |
| Disorder.TwoCallsRefundTwice | aimg/worker/main.py:72-84 | For every cost there is a run in which an id queued twice is read as pending by two calls that both fail it, and the user ends with twice the grant. |
| Disorder.LateSuccessIsFree | aimg/worker/main.py:248-253 | For every cost and timeout there is a run in which the janitor fails a job, its handler then marks it succeeded, and the user has the whole charge back. |
| Worker.WorkerProcess.ProcessJob | aimg/worker/main.py:58-259 | Ignores anything but a pending job; otherwise applies exactly the start, refund and final status its outcome calls for. |
| Worker.WorkerProcess.RecoverOrphanedJobs | aimg/worker/main.py:277-288 | Pushes the listed ids one by one in front of the queue. |
| Worker.WorkerProcess.DrainQueue | aimg/worker/main.py:403-413 | Empties the queue from its right end, each id processed once per occurrence. |
| Worker.WorkerProcess.JanitorPass | aimg/worker/main.py:314-317 | Fails and refunds every listed job in turn. |
| Worker.PushedHolds | aimg/worker/main.py:285-287 | After orphan recovery the queue holds exactly what was queued and what was listed. |
| Worker.PushedBehind | aimg/worker/main.py:285-287 | Recovered ids are taken after those that were queued, in the order the SELECT listed them. |
| Worker.DrainInOrder | aimg/worker/main.py:403-413 | An id pushed to the queue is processed after everything queued before it. |
| QueueOrder.StepsCommute | aimg/worker/main.py:77-79 | Processing two ids gives the same balances and statuses in either order. |
| QueueOrder.DrainView | aimg/worker/main.py:403-413 | The balances and statuses after a drain follow from those before it and from each job's fixed charge and outcome alone. |
| QueueOrder.OrderDoesNotMatter | aimg/worker/main.py:403-413 | Two queues with the same set of ids, in any order and with any repetition, drain to the same balances and statuses. |
| QueueOrder.RequeueingTheQueuedIsHarmless | aimg/worker/main.py:277-290 | Orphan recovery pushing ids that are still queued changes nothing about the result. |
| Recovery.RestartSettles | aimg/worker/main.py:277-290 | Restart and drain from settled accounts keep them settled, and a job is pending afterwards if and only if it was pending, at most sixty seconds old, and not queued. |
| Recovery.RecoveredQueue | aimg/worker/main.py:277-288 | After orphan recovery an id is queued if and only if it was, or its job is pending and more than sixty seconds old. |
| Recovery.JanitorPassFails | aimg/worker/main.py:306-317 | A pass at any time fails exactly the running jobs with started_at + timeout + 60 before now, gives each its whole charge back, and leaves every other job as it is. |
| Recovery.JanitorPassPays | aimg/worker/main.py:306-317 | Each bucket of a user rises by what those jobs were charged in it; a user without such a job keeps his balance. |
| Recovery.JanitorFinishes | aimg/worker/main.py:306-317 | A janitor pass once every running job's started_at + timeout + 60 is past makes every started job terminal and keeps the accounts settled. |
| Recovery.CrashRecovery | aimg/worker/main.py:277-327 | From a crash after any orderly run, restart, drain and janitor pass leave every job that was started, queued or a minute old terminal, with its charge settled once. |
| Routes.Api.CreateJob | aimg/api/routes/jobs.py:69-174 | A job is created if and only if its type is offered, no cached live job answers, the request is admitted, the balance seen and the balance stored cover the cost, no job of the integration has its key and the user exists; a cached key is answered with its job and changes nothing; a refusal leaves tables and queue as they were; a success takes the cost with charge rows of that job alone, caches it and queues it once. |
| Routes.ChecksAnswer | aimg/api/routes/jobs.py:86-144 | The checks before the transaction in their order: not offered, replayed from the cache, not admitted and short of credits each have their condition, and what they leave in the cache. |
| Routes.TransactionAnswers | aimg/api/routes/jobs.py:146-167 | Past the checks, each error of the transaction and the success has its condition on the stored jobs, users and balances. |
| Routes.Api.TopUp | aimg/api/routes/billing.py:32-120 | An amount of zero or less is refused; a cached reply is repeated unchanged; otherwise the user is found or created, a known transaction id is answered with its row and moves nothing, a new one is credited with its row, and only a fresh credit is cached. |
| Routes.KnownIsAnswered | aimg/api/routes/billing.py:63-80 | When the pair's user has a row with the transaction id, the answer is a success with such a row and the stored paid balance, and nothing changes. |
| Routes.NewIsCredited | aimg/api/routes/billing.py:56-113 | When the user has no such row and no negative balance, the answer is a success with the new row; exactly the amount is added to the paid credits of that user, or of a new one with its grant. |
| Routes.RetryCreatesNothing | aimg/api/routes/jobs.py:92-109 | After a success, a request with the same key and any cache entries lost creates, charges and queues nothing, and any job it is answered with is the first one's. |
| Routes.RetryCreditsNothing | aimg/api/routes/billing.py:62-81 | After a top-up that succeeded, any second one of the same user and transaction id whose cached reply was lost is answered with the very reply of the first and leaves the tables as they are. |
| RateLimit.Redis.CheckRateLimit | aimg/services/rate_limit.py:9-40 | One call prunes, decides, and adds itself with a fresh expiry if allowed; remaining is never negative. |
| RateLimit.Tracking | aimg/services/rate_limit.py:23-37 | After any serial calls the key holds every accepted call that can still count, and only accepted calls. |
| RateLimit.DecidesByHistory | aimg/services/rate_limit.py:23-31 | Serial calls at increasing times are decided exactly by the count of accepted calls in (now - window, now]: pruning and key expiry never change a decision. |
| RateLimit.EveryWindowIsCapped | aimg/services/rate_limit.py:29-31 | No window of that length, wherever it ends, holds more than limit accepted calls. |
| RateLimit.RemainingIsRoom | aimg/services/rate_limit.py:39 | The reported remaining is the limit less the accepted calls now in the window. |
| RateLimit.RemainingIsExact | aimg/services/rate_limit.py:39 | Until an entry ages out, exactly the first `remaining` later calls get in. |
| RateLimit.ConcurrentWindowIsCapped | aimg/services/rate_limit.py:23-37 | With at most k calls between their two pipelines, every window lets through at most limit + k - 1 calls, however the pipelines interleave. |
| RateLimit.ConcurrentCapIsReached | aimg/services/rate_limit.py:23-37 | The bound is the best one: for every positive limit, k and window a run reaches it. |
| Webhooks.Deliveries.Create | aimg/db/repos/webhook_deliveries.py:13-34 | Adds one pending row without attempts, due at once. |
| Webhooks.Deliveries.UpdateDelivery | aimg/db/repos/webhook_deliveries.py:50-74 | Overwrites status, attempts, status code, error and next retry of one row, if it is there. |
| Webhooks.Deliveries.AttemptDelivery | aimg/services/webhooks.py:74-113 | Without URL or secret the row fails and no attempt is counted; otherwise one attempt is counted and the row is delivered, due again, or failed. |
| Webhooks.AttemptMeans | aimg/services/webhooks.py:67-113 | A status code from 200 to 299 delivers; any other answer, or none, is tried again after 10, 60 and 300 seconds and fails with the fourth attempt; without URL or secret the row fails uncounted. |
| Webhooks.Deliveries.FireWebhookIfConfigured | aimg/worker/main.py:40-55 | Does nothing for an unknown integration or one without a URL; otherwise creates and attempts one delivery. |
| Webhooks.Deliveries.RetryPass | aimg/worker/main.py:345-350 | The loop over rows read at its start has the effect of attempting them one after the other on the live table. |
| Webhooks.BatchTakes | aimg/db/repos/webhook_deliveries.py:36-48 | A pass takes at most fifty due rows, and all of them when they are fewer. |
| Webhooks.RetriedRow | aimg/worker/main.py:345-350 | In a pass each listed row is attempted once, from the state it was read in, and no other row changes. |
| Webhooks.RowsAreFaithful | aimg/services/webhooks.py:67-105 | In every run a row was posted to `attempts` times, at most four, refused each time but a last, and keeps the status code of its last post; pending after attempt n means due 10, 60 or 300 seconds after it. |
| Webhooks.DeliveredIff | aimg/services/webhooks.py:83-105 | A finished delivery that never lacked a URL or secret is delivered if and only if one of four attempts is accepted, and it then took as many as that needed. |
| Webhooks.RunsAreReady | aimg/services/webhooks.py:67-71 | After any run everything pending has attempts left and is due at the latest 300 seconds after the last attempt. |
| Webhooks.BatchExists | aimg/db/repos/webhook_deliveries.py:36-48 | For every table there is an answer to the due-rows query: the earliest due rows, in order, up to the limit. |
| Webhooks.FullBatch | aimg/worker/main.py:346-350 | The attempts left over all pending rows fall by at least the size of the batch. |
| Webhooks.Round | aimg/worker/main.py:338-350 | From any pass on, by the first pass that starts after everything pending was due, fifty attempts were used or every pending row had one. |
| Webhooks.BacklogDrains | aimg/worker/main.py:333-350 | Any finite backlog, however receivers answer and however often the loop passes, is gone after backlog/50 + 4 such rounds. |
| Queries.UserFiltersMean | aimg/db/repos/jobs.py:117-135 | The filters of list_for_user are the conjunction of user, integration, cursor if both parts are given, status and slug if not empty. |
| Queries.AdminFiltersMean | aimg/db/repos/jobs.py:183-211 | The filters of list_all and count are the conjunction of those given, an empty status counting as none. |
| Queries.BuiltMeans | aimg/db/repos/jobs.py:121-137 | For every list of filters, the numbered conditions evaluated with the pushed arguments, whatever follows them, hold of a row exactly when it meets every filter. |
| Queries.AllCovered | aimg/db/repos/jobs.py:121-137 | The conditions use the placeholders 1 to the number of arguments, all of them and no others. |
| Queries.ListForUser | aimg/db/repos/jobs.py:105-148 | For every combination of filters the built query means their conjunction, never errs, uses all its arguments, binds LIMIT to the limit, and joins job_types exactly when the slug is used. |
| Queries.ListAll | aimg/db/repos/jobs.py:166-222 | The same for the admin listing, with LIMIT and OFFSET bound to the last two arguments. |
| Queries.Count | aimg/db/repos/jobs.py:224-275 | The count query means the same filters as the listing. |
| Queries.AdminConditions | aimg/db/repos/jobs.py:179-213 | Both admin builders push one condition, one argument and one number for each filter given, in step. |
| Cursors.UuidRoundTrip | aimg/common/pagination.py:14 | A UUID's text is read back as the same UUID, and holds no colon. |
| Cursors.UuidTextIs | aimg/common/pagination.py:7 | A UUID is written in 36 characters: its 32 hexadecimal digits, highest first and in lower case, in groups of 8-4-4-4-12. |
| Cursors.SplitFindsLastColon | aimg/common/pagination.py:13 | The split finds the boundary before a part without a colon, however many colons stand before it. |
| Cursors.CursorRoundTrip | aimg/common/pagination.py:6-14 | Decoding an encoded cursor gives back its time and id. |
| Pagination.OrderedIsRight | aimg/db/repos/jobs.py:138-143 | In the ordered selection an earlier row is newer, or as new with a greater id, and it holds exactly the selected rows. |
| Pagination.SameDescending | aimg/db/repos/jobs.py:138-143 | That order leaves only one possible answer for a set of rows. |
| Pagination.AnswerIsListed | aimg/db/repos/jobs.py:138-148 | The database's answer to the built query is the first rows of those the filters ask for. |
| Pagination.FetchJobs | aimg/db/repos/jobs.py:105-148 | Building and answering the query gives matching rows, newest first and among equals the greatest id first, as many as there are up to the limit. |
| Pagination.Describe | aimg/api/routes/users.py:64-81 | Caching job types does not change any item's slug. |
| Pagination.GetHistory | aimg/api/routes/users.py:34-98 | A page holds the newest matching jobs under its cursor, says has_more exactly when more match, and its cursor names its last job; a malformed cursor is an error. |
| Pagination.HistoryReads | aimg/common/pagination.py:11-14 | No cursor or an empty one starts at the newest job, an encoded one at its position, and one that does not decode is an error. |
| Pagination.PageHolds | aimg/api/routes/users.py:43-63 | A page shows as many jobs as match, up to the limit asked for, kept within 1 to 100, 20 by default; has_more says whether more match. |
| Pagination.PageMeans | aimg/db/repos/jobs.py:105-148 | The jobs shown match and stand under the cursor, newest first and among equals the greatest id first, and every matching job left out is older than all of them. |
| Pagination.PageSays | aimg/api/routes/users.py:68-87 | Each item has its job type's slug, and there is a cursor, naming the last job shown, exactly when there is more. |
| Walk.CursorListsTail | aimg/db/repos/jobs.py:121-124 | A cursor at a matching row lists exactly the matching rows after it, even if rows above it came, went or changed since. |
| Walk.PagesAreSlices | aimg/api/routes/users.py:43-87 | Page k of a walk is exactly the k-th slice of the jobs matching when it began, and has_more says whether any are left. |
| Walk.WalkEnds | aimg/api/routes/users.py:59-87 | A walk has no more pages than the matching jobs fill. |
| Walk.WalkTiles | aimg/api/routes/users.py:59-87 | A walk followed to its end shows every matching job exactly once, newest first and among equals the greatest id first. |
| Fallback.BuildAdapters | aimg/worker/main.py:102-124 | A link has an adapter if and only if its provider is known and active, its class is known, and a key that is needed decrypts; adapters stand in link order, the override wins over the provider's config and the decrypted key is its api_key. |
| Fallback.ChainKeepsPriority | aimg/worker/main.py:102-124 | The adapter of such a link stands right behind those of the links before it. |
| Fallback.JobContext.RecordAttempt | aimg/jobs/context.py:32-39 | Appends one attempt record. |
| Fallback.Handle | aimg/jobs/handlers/remove_bg.py:31-50 | Returns or raises what the first provider that does not raise ProviderError gives, having recorded exactly the providers before it in order; all providers fail exactly when each raises it. |
| Fallback.RunChain | aimg/worker/main.py:102-245 | Each of the six ways process_job can end has its cause in an if-and-only-if, misconfigured being that no link leads to a usable provider, and after all providers failed the attempts are numbered from 1, one for each adapter. |
| Fallback.OutcomeDecidesRefund | aimg/worker/main.py:262-274 | The owner's balance rises by the whole charge, bucket by bucket, exactly when the job is failed, which it is unless it succeeded or was left running, and no other balance moves. |

## Left out

- HTTP, authentication, S3, provider and webhook transports, templates, exports and logging: a provider is a function from its id to an answer, a webhook receiver a function from delivery and attempt number to a status code or an exception.
- The 32-bit range of PostgreSQL INT columns: amounts and balances are unbounded integers.
- Negative credit costs and negative grants: costs and grants are naturals.
- GET balance and POST billing/check: sums and a comparison of two columns.
- Job.createdAt: the machines let a request bring any time of creation, which covers the `now()` of its transaction.
- Foreign-key locks: an INSERT's FOR KEY SHARE lock on the rows it refers to is not modelled, because it does not conflict with UPDATEs of other columns.
- `force_set_credits` in interleaved runs: it appears only in the reconciliation script, which is proved from arbitrary balances.
- Register: concurrent get_or_create for one pair is one step that does nothing when the pair exists.
- Routes.Api.CreateJob: the checks before the transaction are parameters (rate limit, files, active job type), and entries expiring by themselves are left to the interleaved model.
- Billing.ChargesAreSelected: says which rows are selected and how often, not in which order, because the refund only adds them up; `SelectedChargesSumUp` says that the sums are right.
- Database.Tables.UpdateStatus: the provider, attempts, output, error and completed_at columns are not modelled, because no accounting or status decision reads them.
- Worker.WorkerProcess.DrainQueue: its calls are serial, where the worker starts tasks under a semaphore; calls that overlap are those of `Lifecycle`.
- Lifecycle.SettledExactlyOnce: stated for orderly runs, because it is false without them; `SettledThroughoutIff` and `RunsStaySettledIff` are the statements for all runs.
- QueueOrder.OrderDoesNotMatter: compares balances and job statuses; ledger rows come in processing order.
- Recovery.CrashRecovery: restart, drain and janitor pass run one after the other, not against new traffic.
- RateLimit.DecidesByHistory: a serial call reads one clock, and Redis's clock is the caller's; calls at equal times, which would share one set member, are excluded by strictly increasing times.
- RateLimit.ConcurrentWindowIsCapped: count steps come in the order of their clock readings.
- Webhooks.Deliveries.RetryPass: attempts on one delivery are serial, an exception that cuts a pass short is not modelled, and a delivery's integration exists, as its foreign key demands.
- Webhooks.Deliveries.UpdateDelivery: the text of last_error is reduced to its cause, because nothing reads it.
- Webhooks.BacklogDrains: no new deliveries arrive while the backlog drains.
- Base64 and isoformat: assumed to be undone by their decoders (section 5 of RFC 4648 for base64); the UUID text and the split are modelled character by character.
- Queries.ListAll: ORDER BY created_at with ties, and what LIMIT and OFFSET then cut, are not modelled; the filters and the placeholders are. list_all and count repeat the same six tests in the source, and share `AdminConditions` here.
- Walk.WalkTiles: no row under the cursor comes, goes or changes during the walk; rows above it may.
- Fallback.RunChain: the success row for the first adapter is modelled as it is written, with no claim that this provider produced the output.
- Job attempts, provider costs, the audit log and page-number pagination of the admin pages.
