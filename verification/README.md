# Barghsa: verified models

Dafny models of the parts of Barghsa whose correctness depends on order, interleaving, crashes or exact
integer money, with proofs that hold for every input, every run or every reachable state. `dafny verify
dfyconfig.toml` checks the whole project.

Each protocol has the same shape. A datatype holds the state; `Step` (or `Act`, `Persisted`, `Notified`) is
one atomic step of the code, `Run` a sequence of them; an invariant is kept by every step; and the theorems
speak about whole runs. Where the source updates an object, a class keeps the same fields and its methods,
with the source's branches and loops, are proved to do exactly that step. Lemmas beside it say what each step
does in the source's own terms, without naming the step's functions (`QueryGuard.BudgetTheorem`,
`ConsultationLedger.StatusFollowsOrder`, `HealthProbe.HealthyIff`). The libraries underneath are small
environments: pg is a FIFO with one active statement; a migrator transaction applies every listed entry newer
than the newest recorded one; an HTTP server reports that it is closed when its connections are gone.

| file | subject |
|---|---|
| `QueryGuard.dfy` | one client's queue: timeout statements, timers, cancellations, failing statements |
| `HealthProbe.dfy` | the single-flight health probe and its deadline |
| `Migrations.dfy` | journal and history checks, the apply in two stages, runners that crash and compete |
| `ReleaseQueue.dfy` | the staging queue: clients, detached workers, two locks, kills |
| `ReleaseNotice.dfy` | write-ahead receipts around one message and one album |
| `BoardCycles.dfy` | the board's depth-first cycle search and its release order |
| `CanonicalJson.dfy`, `ReviewSnapshot.dfy` | the canonical form of JSON, and the hash that binds a financial review |
| `RefundPlan.dfy`, `ConsultationLedger.dfy` | greedy refund plans, and the money of consultation requests |
| `Rounding.dfy`, `PriceAdjustment.dfy`, `InvoiceLines.dfy` | half-up rounding, repricing of future delivery, invoice totals |
| `DrainServer.dfy` | request counts per socket and graceful shutdown |
| `CommentPaging.dfy`, `StageLog.dfy`, `RefundNotice.dfy` | comment threads, fulfilment stages, refund notices |
| `Wrappers.dfy`, `Text.dfy` | optional and fallible values, white space |

Assumptions that are not part of the code are hypotheses of the lemmas that need them: a digest that gives
64 hexadecimal digits (`GivesHashes`) and, for what a hash binds, that the two review bodies compared do not
collide under it (`Collides`). No digest is taken to be without collisions; what is accepted by mistake is shown
to be such a collision (`ReviewSnapshot.AcceptedIsSame`).

Where the code and its description differ, the code is followed. `roundHalfUpDiv` is documented as needed
because the other rounding would be wrong for odd denominators; `Rounding.SameRounding` shows that the two
agree for every denominator.

Some promises hold only under a condition that the code does not check. Each is proved with that condition, the
condition is shown to be needed, and there is a run or an input that fails without it:

- A comment on the release worker says that blocking prevents lost wakeups. It does if a process is never
  killed between queueing a job and having gone through the queue (`ReleaseQueue.NoLostWakeups`): a client that
  still has to start the worker, or a worker that waits, scans or has jobs before it. Each of these four kills
  loses a wakeup by itself (`ReleaseQueue.EveryOtherKillLoses`).
- A commit is stranded, and can never be queued again (`ReleaseQueue.StrandedIsFinal`), exactly when its client is
  killed between making the job's directory and filing the job (`ReleaseQueue.StrandedIff`).
- Fee and invoices of a consultation request stay equal exactly under `ConsultationLedger.Guard`: a new offer on
  an open request needs the fee so far to be all on the invoice it replaces, and nothing paid on that invoice; an
  adjustment must not be made on a closed request that does not carry its fee any more; a payment on an open
  request needs a current invoice that is unpaid, free, or paid in full with nothing returned of it, in which
  case booking it again is harmless. Resolutions need nothing. The failing inputs are
  `ConsultationLedger.PaidOfferLosesMoney`, `AdjustingClosedBreaks` and `PayingRefundedBreaks`.
- A fulfilment log leads to the stages of its order exactly under `StageLog.Guard`; two approvals under different
  keys and the rejection of a finished order break it.
- A price increase is a charge exactly when the rounded changes of the paid invoices outweigh those of the earlier
  credits (`PriceAdjustment.QuoteTheorem`). That is so whenever the percentage of the exact net basis exceeds half
  an IRR per component (`PriceAdjustment.KindFollowsBasis`); below that rounding can turn an increase into a credit
  (`PriceAdjustment.IncreaseCanBeCredit`).

## Model

| member | source | states |
|---|---|---|
| QueryGuard.GuardTheorem | packages/db/src/index.ts:188-303 | after any interleaving of submissions, answers, failures, timers and cancellations: a caller's query ran directly behind its own timeout statement and found its own budget or an aborted transaction; every query is on the client or settled, once; what was removed never ran; order is submission order; cancel requests are sent only under a fixed policy for the active query |
| QueryGuard.RunKeeps | packages/db/src/index.ts:188-303 | the invariant behind the guard theorem holds after every run, from any state that has it |
| QueryGuard.BudgetTheorem | packages/db/src/index.ts:193-198 | over every run each call is guarded with the budget of its own kind: every timeout statement queued, active or started carries the read budget for a call classified as a read and the write budget otherwise; under a fixed policy every call has the fixed one |
| QueryGuard.SubmittedIsOneAppend | packages/db/src/index.ts:246-267 | queueing the timeout statement and the query one after the other is one append of the pair, and the handle captured afterwards is the caller's own query |
| QueryGuard.DroppedNeverRuns | packages/db/src/index.ts:222-228 | a query reported as dropped never reaches the server, whatever follows, and the report stays |
| QueryGuard.TimedOutNeverRuns | packages/db/src/index.ts:219-228 | a timer that finds its query waiting takes it off the client for good |
| QueryGuard.RefusedNeverRuns | packages/db/src/index.ts:253-265 | a timeout statement refused in a healthy transaction takes its waiting query along |
| QueryGuard.RollbackStillRuns | packages/db/src/index.ts:256-258 | in an aborted transaction the refused timeout statement leaves the query next in line, so a ROLLBACK still runs |
| QueryGuard.CancelIffUnanswered | packages/db/src/index.ts:146-153 | a cancellation socket sends its request exactly when the query has not been answered |
| QueryGuard.OverdueIsCancelled | packages/db/src/index.ts:219-235 | a timer that finds its query active under a fixed policy starts a cancellation; no other timer does |
| QueryGuard.SubmitArms | packages/db/src/index.ts:216-219 | a call is recorded under its own kind, and its timer runs exactly if its budget is positive |
| QueryGuard.AnswerIsReported | packages/db/src/index.ts:253-303 | an answered query is reported with its answer, once |
| QueryGuard.AnswersFollow | packages/db/src/index.ts:246-267 | what an answer does to the client and the session: readiness, the installed budget, the aborted state |
| QueryGuard.TakesOldest | packages/db/src/index.ts:209-215 | the statement sent next is the oldest waiting one, only a ready client sends, and the budget in force is noted with it |
| QueryGuard.ClosesUp | packages/db/src/index.ts:238-244 | readiness, a connected cancellation socket and the cleanup after a call touch nothing else; a cleaned-up call has neither timer nor cancellation |
| QueryGuard.FirstCallStarts | packages/db/src/index.ts:246-267 | the first call of a fresh client goes to the server at once, in a healthy session |
| QueryGuard.IndexOf | packages/db/src/index.ts:222-222 | the first position of a statement in the queue, or -1 exactly when it is not there |
| QueryGuard.GuardedClient.Submit | packages/db/src/index.ts:209-303 | a guarded call queues the pair, captures its own handle and arms its timer: the submission step, whose budget is pinned by BudgetTheorem |
| QueryGuard.GuardedClient.OnError | packages/db/src/index.ts:255-266 | a refused statement does the failure step, including the removal of its partner |
| QueryGuard.GuardedClient.OnTimer | packages/db/src/index.ts:219-235 | an expiring timer does the expiry step |
| QueryGuard.GuardedClient.OnCancelConnect | packages/db/src/index.ts:146-153 | a connected cancellation socket does the cancellation step |
| QueryGuard.GuardedClient.Serve | packages/db/src/index.ts:188-303 | the client, driven through any sequence of calls, answers, failures, timers and cancellations, does the run of the machine and keeps its invariant |
| QueryGuard.Wrap | packages/db/src/index.ts:173-184 | read and write budgets outside 1..2147483647 are refused, all others give a fresh guarded client |
| HealthProbe.ProbeTheorem | packages/db/src/index.ts:553-634 | after every run: the registry names exactly the outstanding probes; each client is acquired at most once and released exactly when the work is over; a client that arrives after the deadline runs no query; only a query reports health |
| HealthProbe.AtMostOneOutstanding | packages/db/src/index.ts:557-558 | two outstanding probes of one flag are the same probe |
| HealthProbe.CallJoinsOutstanding | packages/db/src/index.ts:556-576 | a call joins the outstanding probe of its flag, and starts work exactly when there is none and the pool has room |
| HealthProbe.OutcomeIsFinal | packages/db/src/index.ts:615-625 | a probe's answer never changes once given |
| HealthProbe.AnswerIsFirstVerdict | packages/db/src/index.ts:586-625 | over all runs a probe answers what its first verdict says: its query's outcome, or bad after its deadline, a failed acquisition or a missing packaged schema; and nothing before |
| HealthProbe.EventsAnswer | packages/db/src/index.ts:586-625 | until the deadline a query's outcome is the answer, whichever it is; a deadline, a failed acquisition and a missing packaged schema answer false |
| HealthProbe.HealthyIff | packages/db/src/index.ts:615-620 | a probe reports health exactly if its query did so before its deadline fired |
| HealthProbe.AcquisitionActs | packages/db/src/index.ts:586-614 | a client that arrives late is given back unqueried; one whose schema cannot be compared is given back with a bad answer; any other starts one query |
| HealthProbe.HealthMonitor.OnAcquired | packages/db/src/index.ts:586-614 | a client that arrives does the acquisition step: released at once after the deadline, one query otherwise |
| HealthProbe.HealthMonitor.Serve | packages/db/src/index.ts:553-634 | the monitor, driven through any sequence of calls, clients, answers and deadlines, does the run of the machine, and so answers as AnswerIsFirstVerdict says, and keeps its invariant |
| Migrations.ReadJournal | packages/db/src/migrate.ts:59-83 | a journal is accepted exactly when its entries have unique well-formed tags and strictly increasing positive timestamps |
| Migrations.TagIs | packages/db/src/migrate.ts:59-83 | a tag is one or more letters, digits, underscores and hyphens |
| Migrations.VerifyHistory | packages/db/src/migrate.ts:91-118 | the two passes over rows and journal compute the history check, which PassesIff and RefusalNamesReason state in terms of rows and entries |
| Migrations.PassesIff | packages/db/src/migrate.ts:91-118 | a history passes exactly if no row is newer than the journal, no entry is recorded twice, every recorded digest is that of the entry's file, or the legacy one of the renumbered contract migration, and no entry is missing that may not be |
| Migrations.RefusalNamesReason | packages/db/src/migrate.ts:91-118 | a refusal names the first fault: a newer row, or the first entry recorded twice, under a foreign digest, or missing |
| Migrations.AcceptedIff | packages/db/src/migrate.ts:91-118 | the opening check accepts exactly the histories that record a first part of the journal, each entry once with an accepted digest and none after it; rows whose timestamps are in no journal entry are accepted beside them if they are older than the first pending entry and no newer than the last one |
| Migrations.CompleteIff | packages/db/src/migrate.ts:91-118 | the final check accepts exactly the histories that record every entry once and nothing newer |
| Migrations.StagedEqualsDirect | packages/db/src/migrate.ts:153-175 | applying in two stages writes the same rows with the same serials as applying in one |
| Migrations.RunGrows | packages/db/src/migrate.ts:142-204 | a run of the cluster is its runners' actions one after the other, each enabled where it happens |
| Migrations.MigrationTheorem | packages/db/src/migrate.ts:142-204 | over every interleaving of runners that wait, proceed, fail and die between or just after commits: the history stays a prefix of the journal, every entry since is committed exactly once, in order, never together across the enum boundary; success means nothing is pending; only one run has anything to report |
| Migrations.FailuresEnd | packages/db/src/migrate.ts:161-204 | a runner that fails or dies is done and lets go of the lock; its transaction is on record only if it died after the commit |
| Migrations.RefusedHistoryIsUntouched | packages/db/src/migrate.ts:149-152 | a history the opening check refuses is never changed and no run over it succeeds |
| Migrations.UndisturbedRunSucceeds | packages/db/src/migrate.ts:148-187 | a runner that takes the free lock and meets no failure succeeds and reports exactly the pending tags |
| Migrations.BoundaryCommitsFirst | packages/db/src/migrate.ts:161-174 | the enum boundary was committed by an earlier transaction than any later entry |
| Migrations.Database.Migrate | packages/db/src/migrate.ts:170-175 | one migrator transaction records every listed entry newer than the newest row, in order, or nothing |
| Migrations.Database.RunMigrations | packages/db/src/migrate.ts:142-204 | a whole run: a bad journal or history, an edited migration included, changes nothing; a failing stage leaves rows and commits as they were; a failing rest leaves exactly what the stage committed, or nothing new without a stage; success leaves what a direct run would and reports what was pending |
| ReleaseQueue.OrderTheorem | deploy/staging/release-queue.py:40-217 | with every process killable between any two steps, also between making a directory and filing its job: jobs in creation order are completed, then at most one deploying or failed, then queued; commits and versions are unique; one process at a time holds the queue; no commit is deployed more often than one plus its accepted retries |
| ReleaseQueue.CompletedIsFinal | deploy/staging/release-queue.py:143-148 | a completed release stays completed and no job's identity changes |
| ReleaseQueue.RetryRequeues | deploy/staging/release-queue.py:203-216 | a retry of a failed release puts exactly that job back into the queue and goes on to start a worker; any other retry changes nothing |
| ReleaseQueue.EnqueueOutcomes | deploy/staging/release-queue.py:62-76 | a commit on file is never queued again; a new one is refused for a taken version or a leftover directory, and otherwise gets its directory |
| ReleaseQueue.SavingQueues | deploy/staging/release-queue.py:74-78 | a saved job is queued last, as it was asked for |
| ReleaseQueue.LaunchStarts | deploy/staging/release-queue.py:214-216 | a client whose job is queued or being deployed starts one worker and is done |
| ReleaseQueue.WorkerEnters | deploy/staging/release-queue.py:139-143 | a worker takes the free lock and then a snapshot of the whole queue |
| ReleaseQueue.WorkerLoops | deploy/staging/release-queue.py:143-153 | a worker passes completed jobs, stops at a failed one, fails an interrupted one and stops, and starts on a queued one |
| ReleaseQueue.DeploymentEnds | deploy/staging/release-queue.py:154-165 | a deployment that succeeds completes its job and goes on; one that does not fails it and ends the worker |
| ReleaseQueue.NoLostWakeups | deploy/staging/release-queue.py:139-166 | if no client is killed before it has started the worker for a job it queued, and no worker while it waits, scans or has jobs before it, then whenever nobody is at work a queued job stands behind one that failed or was interrupted; every other kill is allowed |
| ReleaseQueue.EveryOtherKillLoses | deploy/staging/release-queue.py:90-166 | the condition is exact stage by stage: for a client that launches, and a worker that waits, scans or loops, a run in which that one kill leaves the job queued behind nothing |
| ReleaseQueue.StrandedIff | deploy/staging/release-queue.py:62-76 | after any run a commit is stranded exactly when it was before, or some event killed its client between making the directory and filing the job; nothing else strands one |
| ReleaseQueue.StepStrandsIff | deploy/staging/release-queue.py:62-76 | the same for one step, whatever it is |
| ReleaseQueue.StrandedIsFinal | deploy/staging/release-queue.py:62-76 | a commit whose directory was made and whose job file never came is never queued, whatever follows |
| ReleaseQueue.KilledSaverStrands | deploy/staging/release-queue.py:71-76 | a run that strands its commit: the client is killed between making the directory and filing the job |
| ReleaseQueue.Store.Enqueue | deploy/staging/release-queue.py:62-78 | the locked part of enqueueing: the job on file, a refusal for other screenshots, a taken version or a leftover directory, or one new queued job |
| ReleaseQueue.Store.Retry | deploy/staging/release-queue.py:204-212 | exactly a failed release is accepted, and then exactly that job goes back to the queue; a refusal changes nothing |
| ReleaseQueue.Store.Work | deploy/staging/release-queue.py:139-166 | a worker left alone exits 0 exactly when every job is completed or deployable, and then completes all; otherwise it stops at the first other one, leaves it failed and the rest untouched; what it does is a run of the machine |
| ReleaseNotice.RunGrows | deploy/staging/notify-release.py:100-212 | a run of the world is the processes' steps one after the other, each where it may happen |
| ReleaseNotice.NoticeTheorem | deploy/staging/notify-release.py:100-212 | over all runs, kills, lost replies and torn writes: a post is asked for at most once plus once per run told to retry; a "sent" receipt was confirmed; the album is asked for only after the message is confirmed |
| ReleaseNotice.SuccessMeansPosted | deploy/staging/notify-release.py:189-212 | over all runs, a run that ended with success has its message on file as sent, and its album, or older receipts that confirm every image |
| ReleaseNotice.DecidesIff | deploy/staging/notify-release.py:109-121 | a post is asked for exactly if nothing is on record, or its outcome is unknown and the run was told to retry; it counts as posted exactly by a receipt of the same post, or by older receipts of every image |
| ReleaseNotice.IdentityBinds | deploy/staging/notify-release.py:109-121 | a receipt is of the same post exactly if release, channel and commit agree, and the text or the images |
| ReleaseNotice.SectionSteps | deploy/staging/notify-release.py:100-127 | each step of the locked section, and what it leaves on file, asked for and confirmed |
| ReleaseNotice.RunsJoinAndDie | deploy/staging/notify-release.py:189-212 | a run starts with its message, or fails at once for more than ten images; a killed one ends without success and frees the lock |
| ReleaseNotice.SentIsFinal | deploy/staging/notify-release.py:116-118 | no run asks again for a post whose receipt says "sent", and that receipt never changes |
| ReleaseNotice.TornIsRefused | deploy/staging/notify-release.py:112-121 | nothing is ever posted on top of a receipt left torn |
| ReleaseNotice.Receipts.Announce | deploy/staging/notify-release.py:109-127 | one locked section: asks exactly when the receipt allows it, and leaves "sent" exactly when the reply confirms it |
| ReleaseNotice.Receipts.AnnounceRelease | deploy/staging/notify-release.py:189-212 | a whole run: success means both posts are on file as sent; at most one request each; without retry no existing receipt changes |
| BoardCycles.Search.Visit | kanban/scripts/board.py:105-115 | visiting a task ends with a task found on a cycle, or with it and all it depends on listed dependencies first and the grey set restored |
| BoardCycles.FindCycle | kanban/scripts/board.py:105-117 | visiting every task finds nothing exactly when the graph is acyclic, and what it finds is on a cycle |
| BoardCycles.FirstOutOfOrder | kanban/scripts/board.py:39-49 | the pass over the releases stops at the first one that depends on anything but earlier ones |
| BoardCycles.InOrderIff | kanban/scripts/board.py:39-49 | a release is in order exactly if all it depends on are versions listed before it |
| BoardCycles.Validate | kanban/scripts/board.py:32-117 | the dependency part of the board check accepts exactly boards with unique keys and versions, ordered releases, known dependencies, no self dependency and no cycle |
| BoardCycles.OrderedReleasesAreAcyclic | kanban/scripts/board.py:39-49 | releases that pass the order check have no dependency cycle |
| BoardCycles.OrderedIsAcyclic | kanban/scripts/board.py:105-117 | a list of all tasks with dependencies first rules out every cycle |
| CanonicalJson.CanonicalIffSame | apps/api/src/finance/review-snapshot.service.ts:7-28 | two values have one canonical form exactly when they differ at most in the order of keys |
| CanonicalJson.CanonicalSurvivesStorage | apps/web/e2e/consultation-fee-offer-form-fixture.ts:43-72 | reordering keys at every level does not change the canonical form, array-index keys included |
| CanonicalJson.CanonicalIsIdempotent | apps/web/e2e/consultation-fee-offer-form-fixture.ts:43-52 | the canonical form of a canonical form is itself |
| CanonicalJson.JsonbOrderIsInvolution | apps/web/e2e/consultation-fee-offer-form-fixture.ts:63-72 | storing twice gives the value back, key order and all |
| CanonicalJson.CanonicalSorts | apps/web/e2e/consultation-fee-offer-form-fixture.ts:46-50 | sorting and rebuilding an object puts its keys into one strict order, whatever order they came in |
| CanonicalJson.IndexIff | apps/web/e2e/consultation-fee-offer-form-fixture.ts:46-50 | the keys an object lists first, in numeric order, are exactly the decimal numerals below 4294967295 |
| ReviewSnapshot.StoredIffSame | apps/api/src/finance/review-snapshot.service.ts:50-80 | a stored value whose body does not collide with the review's is accepted with its hash exactly when it still is that review, key order aside, and is asked for under its own scope |
| ReviewSnapshot.AcceptedIsSame | apps/api/src/finance/review-snapshot.service.ts:50-80 | for every digest: whatever is accepted with a review's hash is that review under its own scope, or its canonical body is another one with the same digest |
| ReviewSnapshot.CopyDoesNotCollide | apps/api/src/finance/review-snapshot.service.ts:37-80 | a copy that keeps the values never collides with its review, whatever the digest |
| ReviewSnapshot.CreatedIsAccepted | apps/api/src/finance/review-snapshot.service.ts:37-80 | a created review comes back accepted from any storage that keeps its values, whatever it does to key order |
| ReviewSnapshot.CreatedSurvivesJsonb | apps/api/src/finance/review-snapshot.service.ts:37-80 | in particular from one that reverses the keys at every level |
| ReviewSnapshot.BodyCanonical | apps/api/src/finance/review-snapshot.service.ts:40-47 | reviews have one canonical body exactly when their scopes and their data do |
| ReviewSnapshot.TextsAre | apps/api/src/finance/review-snapshot.service.ts:38-55 | a hash is exactly 64 lower-case hexadecimal digits, and a blank text nothing but white space |
| ReviewSnapshot.CreateIff | apps/api/src/finance/review-snapshot.service.ts:7-48 | a review is refused exactly for a blank action or an empty profile or resource, or else for a number anywhere in its data that JSON would change |
| RefundPlan.PlanRefunds | apps/web/e2e/consultation-paid-resolution-form-fixture.ts:150-170 | the loop over the invoices, newest first, computes the plan, and leaves over exactly what the balances do not cover |
| RefundPlan.PlanSums | apps/web/e2e/consultation-fee-offer-form-fixture.ts:159-178 | a plan adds up to the sum asked for, or to all there is |
| RefundPlan.PlanShares | apps/web/e2e/consultation-fee-offer-form-fixture.ts:161-177 | every invoice gives exactly its share: all of the newer ones, part of one, nothing of the older |
| RefundPlan.GivesIff | apps/web/e2e/consultation-paid-resolution-form-fixture.ts:153-171 | an invoice gives something exactly if it is the request's, paid or partially refunded, with something left, and the newer ones do not cover the amount |
| RefundPlan.DrawnTotals | apps/web/e2e/consultation-fee-offer-form-fixture.ts:269-272 | drawing a sum lowers what a request's invoices are worth, and what can be refunded, by exactly that sum |
| ConsultationLedger.ConservationTheorem | apps/web/e2e/consultation-fee-offer-form-fixture.ts:201-306 | over every run of offers, adjustments, payments, resolutions, refund progress and replays whose steps have their guards: an open request's fee plus uncovered credit equals what its invoices are worth; each payment equals what is left of it plus its refunds; a closed request has nothing left |
| ConsultationLedger.KeepsIffGuard | apps/web/e2e/consultation-fee-offer-form-fixture.ts:201-306 | the guards are exact: a step keeps that law if and only if its guard holds; resolutions of open and closed requests, refund progress, replays and refusals need none |
| ConsultationLedger.OpenRequestGuards | apps/web/e2e/consultation-fee-offer-form-fixture.ts:201-306 | on an open request adjustments need no guard; offers keep the law exactly with a fee that is all on an invoice without payments; payments exactly with a current invoice that is unpaid, free, or paid in full with nothing returned |
| ConsultationLedger.OfferConservesIff | apps/web/e2e/consultation-fee-offer-form-fixture.ts:217-239 | on an open request an offer keeps that law exactly when the fee so far is all on the invoice it replaces and nothing was paid on that invoice |
| ConsultationLedger.PaidOfferLosesMoney | apps/web/e2e/consultation-fee-offer-form-fixture.ts:217-226 | an offer over a fully paid invoice of 500000: its money is neither refunded nor available to any later plan |
| ConsultationLedger.AdjustmentKeepsIff | apps/web/e2e/consultation-fee-offer-form-fixture.ts:240-276 | an adjustment that the balances cover keeps the law exactly when fee and uncovered credit are what the invoices are worth |
| ConsultationLedger.AdjustingClosedBreaks | apps/web/e2e/consultation-fee-offer-form-fixture.ts:240-276 | adjusting a cancelled and refunded request opens it again with a fee that its invoices do not carry |
| ConsultationLedger.PayingKeepsIff | apps/web/e2e/consultation-fee-offer-form-fixture.ts:289-306 | booking a payment keeps the law exactly under its guard: on an open request the invoice is unpaid, free, or paid in full with nothing returned; on a closed one nothing was ever paid on it and the fee is what this invoice and the other unpaid ones come to |
| ConsultationLedger.PayingAgainChangesNothing | apps/web/e2e/consultation-fee-offer-form-fixture.ts:289-306 | booking the payment of an accepted invoice that is paid in full with nothing returned meets the guard and changes nothing |
| ConsultationLedger.PayingRefundedBreaks | apps/web/e2e/consultation-fee-offer-form-fixture.ts:289-306 | booking a payment of a refunded invoice makes money available that was already returned |
| ConsultationLedger.Ledger.ReviewFor | apps/web/e2e/consultation-fee-offer-form-fixture.ts:137-200 | the review computed by the loop over the invoices is the specified one, refused exactly when the available balances are smaller than the sum to return |
| ConsultationLedger.ReviewTells | apps/web/e2e/consultation-paid-resolution-form-fixture.ts:172-197 | the review shows the request's status, the invoice to be cancelled, the uncovered credit of a recovery and none otherwise; an adjustment both fees; an offer its terms |
| ConsultationLedger.DrawsExactly | apps/web/e2e/consultation-paid-resolution-form-fixture.ts:215-268 | a command that is carried out draws exactly the decrease, the uncovered credit or everything left, takes no more from an invoice than it has, and carries the confirmed hash |
| ConsultationLedger.StatusFollowsOrder | apps/web/e2e/consultation-paid-resolution-form-fixture.ts:172-180 | row, receipt and review agree on the outcome: offers and increases wait, decreases are accepted, a cancellation is cancelled, a rejection rejected, a recovery as before |
| ConsultationLedger.AmountsFollowOrder | apps/web/e2e/consultation-fee-offer-form-fixture.ts:217-276 | the fee is the one a fee command names; only a resolution settles the uncovered credit; only an offer changes the terms |
| ConsultationLedger.InvoicesFollowOrder | apps/web/e2e/consultation-fee-offer-form-fixture.ts:217-276 | an offer replaces the current invoice, an increase adds one of the difference, and nothing else adds one; closing cancels the current one exactly if nothing was paid on it and it is no credit |
| ConsultationLedger.ReceiptIsKept | apps/web/e2e/consultation-fee-offer-form-fixture.ts:276-288 | the receipt names the current and the cancelled invoice and the number of refunds, and is kept with the raw body under the key |
| ConsultationLedger.RefusedIff | apps/web/e2e/consultation-fee-offer-form-fixture.ts:178-214 | a new command is refused exactly if the balances do not cover it or another review was confirmed, and a refusal changes nothing |
| ConsultationLedger.CarriedOutAsShown | apps/web/e2e/consultation-fee-offer-form-fixture.ts:137-287 | what the confirmed review shows is what the command does: fees, status, cancelled and new invoices, refunds |
| ConsultationLedger.ClosingKeeps | apps/web/e2e/consultation-paid-resolution-form-fixture.ts:187-257 | closing a request, for the first time or again, keeps the law and leaves nothing to give back |
| ConsultationLedger.ClosingCancels | apps/web/e2e/consultation-paid-resolution-form-fixture.ts:187-257 | the invoice that closing cancels is the current one, nothing was paid on it, and only its state changes |
| ConsultationLedger.ClosingClearsIff | apps/web/e2e/consultation-paid-resolution-form-fixture.ts:187-257 | closing leaves nothing to pay exactly when no invoice of the request is unpaid but the current one, which must not be a credit |
| ConsultationLedger.ClosingLeavesCharge | apps/web/e2e/consultation-paid-resolution-form-fixture.ts:187-257 | after an increase to 900000 closing the first request of the fixture leaves its older charge of 150000 unpaid |
| ConsultationLedger.RecoveryKeeps | apps/web/e2e/consultation-paid-resolution-form-fixture.ts:151-170 | recovery returns the uncovered credit and keeps the law, on open and closed requests |
| ConsultationLedger.ReplayIsHarmless | apps/web/e2e/consultation-paid-resolution-form-fixture.ts:216-222 | repeating a key after anything else gives the first receipt and changes nothing; another body is refused and changes nothing |
| ConsultationLedger.FixtureHolds | apps/web/e2e/consultation-paid-resolution-form-fixture.ts:53-114 | the requests and invoices that are set up satisfy the invariant |
| ConsultationLedger.Ledger.Persist | apps/web/e2e/consultation-fee-offer-form-fixture.ts:201-288 | the command store does exactly the command step, whose outcome StatusFollowsOrder, AmountsFollowOrder, InvoicesFollowOrder, ReceiptIsKept and RefusedIff state |
| ConsultationLedger.Ledger.Draw | apps/web/e2e/consultation-paid-resolution-form-fixture.ts:251-254 | taking a plan off the invoices one allocation at a time draws its sum |
| ConsultationLedger.Ledger.ProgressRefunds | apps/web/e2e/consultation-paid-resolution-form-fixture.ts:269-275 | the loop over the invoices moves every paid one of the request on, and the row with its current one |
| ConsultationLedger.ProgressIs | apps/web/e2e/consultation-paid-resolution-form-fixture.ts:269-275 | a paid invoice of the request ends refunded exactly if nothing is left of it, and partially refunded otherwise; no other invoice moves |
| ConsultationLedger.PaymentSettles | apps/web/e2e/consultation-fee-offer-form-fixture.ts:289-306 | a payment settles the current invoice in full and accepts the offer |
| ConsultationLedger.Ledger.Serve | apps/web/e2e/consultation-fee-offer-form-fixture.ts:201-306 | the store, driven through any guarded sequence of commands, payments and refund progress, does the run and keeps the law |
| Rounding.HalfUpIff | apps/api/src/invoice/manual-invoice.calculation.ts:66-77 | the quotient is rounded to the nearest integer, up when two are equally near, and nothing else is |
| Rounding.SameRounding | apps/api/src/electricity/electricity-price-adjustment.calculation.ts:13-17 | the two rounding formulas agree for every denominator, even or odd |
| Rounding.SignedWithinHalf | apps/api/src/electricity/electricity-price-adjustment.calculation.ts:13-17 | a rounded value is at most half a unit from the exact one, whatever the sign |
| Rounding.SignedIsOdd | apps/api/src/electricity/electricity-price-adjustment.calculation.ts:13-17 | rounding is symmetric about zero |
| Rounding.SignedIsMonotone | apps/web/e2e/electricity-price-adjustment-form-fixture.ts:30-34 | rounding is monotone across signs |
| Rounding.HalfUpCancels | apps/api/src/invoice/manual-invoice.calculation.ts:66-77 | a common factor of numerator and denominator does not matter |
| Rounding.SolarVatIsHalfUp | apps/web/e2e/solar-contract-issue-form-fixture.ts:51-59 | the VAT of a solar contract line is the nearest IRR, half up |
| Rounding.SolarTotalWithinHalfEach | apps/web/e2e/solar-contract-issue-form-fixture.ts:51-68 | the total of a solar review, lines and VAT added up, is off by at most half an IRR for each taxable line |
| Rounding.IncreaseShareIsHalfUp | apps/web/e2e/electricity-quantity-increase-form-fixture.ts:105-110 | the prorated charge of an increase is the nearest IRR, half up |
| Rounding.IncreaseShareIsMonotone | apps/web/e2e/electricity-quantity-increase-form-fixture.ts:105-110 | a longer rest of the period never costs less, and the whole period costs a fifth |
| PriceAdjustment.Calculate | apps/api/src/electricity/electricity-price-adjustment.calculation.ts:20-81 | the loop gives the first refusal that applies, or the quote of all components |
| PriceAdjustment.EarlyRefusals | apps/api/src/electricity/electricity-price-adjustment.calculation.ts:25-43 | a percentage of 0, of -100% or less or beyond the limit, no components, and a component of nothing or without a term are refused, in this order, and nothing else is before the sums |
| PriceAdjustment.ComponentWithinOne | apps/api/src/electricity/electricity-price-adjustment.calculation.ts:44-52 | the repriced value of a component is within one IRR of the exact one |
| PriceAdjustment.ComponentStaysPayable | apps/api/src/electricity/electricity-price-adjustment.calculation.ts:44-52 | for changes down to -100% a paid component is never repriced below zero, and the change has the sign of the percentage |
| PriceAdjustment.QuoteWithinOneEach | apps/api/src/electricity/electricity-price-adjustment.calculation.ts:31-66 | the new price of all that is left is within one IRR per component of the exact one |
| PriceAdjustment.QuoteTheorem | apps/api/src/electricity/electricity-price-adjustment.calculation.ts:67-80 | every well-formed request, earlier credits included: a quote leaves something to pay; an increase is a charge and a decrease a credit exactly when the paid invoices change by more than the credits do; it is refused for want of a price exactly when the repriced credits use up the repriced invoices, and as not payable exactly when the changes cancel or exceed the limit |
| PriceAdjustment.KindFollowsBasis | apps/api/src/electricity/electricity-price-adjustment.calculation.ts:31-75 | if the percentage of the exact remaining net basis exceeds half an IRR per component, the change is not zero and a quote's kind follows its sign; on a positive basis an increase is a charge and a decrease a credit |
| PriceAdjustment.PaidQuoteTheorem | apps/api/src/electricity/electricity-price-adjustment.calculation.ts:67-80 | without earlier credits an increase is always a charge, a decrease a credit, and it is refused for want of a price exactly when none would be left |
| PriceAdjustment.IncreaseCanBeCredit | apps/api/src/electricity/electricity-price-adjustment.calculation.ts:44-80 | an increase by half on an invoice of 10 and six credits of 1 ends in a credit of 1, because each credit is rounded by itself |
| PriceAdjustment.ElapsedIsRefused | apps/api/src/electricity/electricity-price-adjustment.calculation.ts:67-68 | a date after every term is refused |
| InvoiceLines.CalculateAuto | apps/api/src/invoice/auto-invoice.calculation.ts:187-233 | exactly valid lines with a discount they can absorb and a price above zero give an invoice; it absorbs the whole discount; the refusals for discount and zero total are exact |
| InvoiceLines.CalculateManual | apps/api/src/invoice/manual-invoice.calculation.ts:126-139 | exactly described valid lines with a price above zero give an invoice, of their price plus VAT |
| InvoiceLines.ChargeLines | apps/api/src/invoice/auto-invoice.calculation.ts:205-217 | the loop lets lines absorb the discount in order, each with half-up VAT on what is left, and leaves over what exceeds the price |
| InvoiceLines.FaultNamesReason | apps/api/src/invoice/auto-invoice.calculation.ts:113-123 | a line is refused exactly for a quantity that is not positive or not safe, a negative price, or a rate beyond 100%, in this order |
| InvoiceLines.BlankIff | apps/api/src/invoice/manual-invoice.calculation.ts:91-91 | a description is blank exactly if it is nothing but white space |
| InvoiceLines.AbsorbedAddsUp | apps/api/src/invoice/auto-invoice.calculation.ts:205-220 | the lines absorb the discount, or their whole price |
| InvoiceLines.AmountAddsUp | apps/api/src/invoice/auto-invoice.calculation.ts:219-219 | an invoice is the price of its lines, less the discount, plus the VAT of what is left |
| InvoiceLines.VatsWithinHalfEach | apps/api/src/invoice/auto-invoice.calculation.ts:156-158 | rounding VAT at every line costs at most half an IRR for each |
| InvoiceLines.FreeIffCovered | apps/api/src/invoice/auto-invoice.calculation.ts:222-230 | an invoice costs nothing exactly when the discount covers all of it |
| DrainServer.DrainTheorem | apps/web/server.js:110-310 | over every interleaving, pipelined requests included: the map is an exact count of unfinished responses, absent when zero; until the deadline nothing with an unfinished response is destroyed; once shutting down every live socket has a response under way or was told to end |
| DrainServer.EndsWithTheLast | apps/web/server.js:122-129 | a socket is told to end only with the last of its responses |
| DrainServer.CleanExit | apps/web/server.js:288-304 | exit code 0 means that nothing was cut and no connection is left |
| DrainServer.ExitIff | apps/web/server.js:258-304 | a run ends with 0 exactly if it drained and with 1 exactly if the deadline ended it; it is shutting down exactly once told to |
| DrainServer.SocketsFollow | apps/web/server.js:228-304 | when a socket is active, gone and destroyed by the server, for every event |
| DrainServer.ResponsesFollow | apps/web/server.js:110-129 | requests start responses, hearing of their ends settles them, and a socket is told to end exactly with the last of them during shutdown |
| DrainServer.NothingElseToWaitFor | apps/web/server.js:122-129 | once all responses are finished and the sockets told to end are gone, the server can exit |
| DrainServer.StaticServer.Finish | apps/web/server.js:122-129 | the callback of "finish" and "close" counts a response down once |
| DrainServer.StaticServer.CloseIdleConnections | apps/web/server.js:239-243 | the loop destroys exactly the sockets without a pending response |
| DrainServer.StaticServer.StartShutdown | apps/web/server.js:258-304 | shutting down happens once, stops accepting and closes idle sockets |
| DrainServer.StaticServer.Serve | apps/web/server.js:110-310 | the server, driven through any sequence of connections, requests, ends and shutdown events, does the run of the machine and keeps its invariant |
| CommentPaging.PagesRebuildThread | apps/web/e2e/order-comment-form-fixture.ts:255-264 | following the cursors to the end rebuilds exactly the thread visible at the first read, once each and in order, whatever is added between reads, in a fixed number of reads |
| CommentPaging.ReadingWhilePosting | apps/web/e2e/order-comment-form-fixture.ts:184-264 | whatever is posted between the reads, to this order or others, following the cursors gives exactly what was visible at the first read |
| CommentPaging.PageShowsVisible | apps/web/e2e/order-comment-form-fixture.ts:255-264 | no page shows a customer an internal note, anyone a foreign comment, or more than fifty |
| CommentPaging.PostingTheorem | apps/web/e2e/order-comment-form-fixture.ts:184-203 | over any posts threads only grow, keys keep their first comment and identities stay distinct |
| CommentPaging.RepeatsPostNothing | apps/web/e2e/order-comment-form-fixture.ts:185-187 | a repeated key posts nothing, whatever was posted in between |
| CommentPaging.PostAdds | apps/web/e2e/order-comment-form-fixture.ts:184-203 | a new key adds one comment at the end of its order's thread, internal only if staff asked for that on an electricity order |
| CommentPaging.UnknownCursor | apps/web/e2e/order-comment-form-fixture.ts:255-260 | a page is not found exactly if its cursor is no comment the reader can see |
| CommentPaging.Comments.Persist | apps/web/e2e/order-comment-form-fixture.ts:184-203 | posting does the posting step and returns the comment kept for the key |
| CommentPaging.Comments.ReadPage | apps/web/e2e/order-comment-form-fixture.ts:255-264 | a page read is the specified one: up to fifty visible comments before the cursor, the next cursor, or not found |
| CommentPaging.Comments.Browse | apps/web/e2e/order-comment-form-fixture.ts:184-264 | the board, driven through page reads and posts in any order, gives the reader what following the cursors gives on the threads seen, and keeps its identities apart |
| CommentPaging.Comments.Serve | apps/web/e2e/order-comment-form-fixture.ts:184-203 | posts one after the other do the run and keep identities apart |
| StageLog.StageTheorem | apps/web/e2e/saving-staff-operation-form-fixture.ts:226-339 | over every run of guarded commands replaying an order's log from the start gives its stages, every event finding its stage as it says; stages are finished, then at most one in progress, then pending; the log entered and finished the stages one by one in the business order; the order is finished exactly when no stage remains |
| StageLog.KeepsIffGuard | apps/web/e2e/saving-staff-operation-form-fixture.ts:247-339 | the guards are exact: an approval keeps that invariant if and only if no stage was begun, a rejection if and only if the order was not finished, a transition if and only if its stage was in progress; repeated keys always do |
| StageLog.NoneSkipped | apps/web/e2e/saving-staff-operation-form-fixture.ts:226-339 | whatever event finishes a stage, an older one finished the stage before it, unless that was done from the start |
| StageLog.SecondApprovalBreaksLog | apps/web/e2e/saving-staff-operation-form-fixture.ts:247-281 | two approvals under different keys set the stages back, and the log no longer leads to them |
| StageLog.RejectingFinishedBreaksLog | apps/web/e2e/saving-staff-operation-form-fixture.ts:282-292 | rejecting a finished order leaves an order with all stages done that is not finished |
| StageLog.SetupHolds | apps/web/e2e/saving-staff-operation-form-fixture.ts:148-197 | orders as they are set up satisfy that invariant |
| StageLog.RepeatAddsNothing | apps/web/e2e/saving-staff-operation-form-fixture.ts:247-298 | a repeated key adds nothing to any order or log |
| StageLog.Operations.PersistDecision | apps/web/e2e/saving-staff-operation-form-fixture.ts:247-295 | a decision does the decision step, events newest first; status, money to give back, invoice and receipt are those of an approval or a rejection |
| StageLog.Operations.PersistStage | apps/web/e2e/saving-staff-operation-form-fixture.ts:296-339 | a transition does the transition step, events newest first; the order is finished exactly by the last stage, its money stays, and the receipt names the next stage |
| StageLog.Operations.Serve | apps/web/e2e/saving-staff-operation-form-fixture.ts:247-339 | the desk, driven through any guarded sequence of commands, does the run and keeps every log |
| RefundNotice.NoticeTheorem | packages/db/src/refund-notifications.ts:5-157 | over any calls, thrown ones included: one inbox row at most for each outcome, one completion outbox at most for each refund, and each such outbox has exactly one finished in-app job, one queued email job and one delivery, of its own inbox row |
| RefundNotice.RepeatChangesNothing | packages/db/src/refund-notifications.ts:89-156 | an outcome that was notified is never notified again |
| RefundNotice.DeliveryIffNew | packages/db/src/refund-notifications.ts:106-156 | an outbox row is added exactly with a new completion; rows, jobs and deliveries that were there stay as they are |
| RefundNotice.ThrowsIff | packages/db/src/refund-notifications.ts:5-157 | a call throws exactly if there is no owner, a statement it comes to fails, or the retained row belongs to another profile |
| RefundNotice.NewRowsAre | packages/db/src/refund-notifications.ts:56-110 | a new inbox row is the owner's and leads to the electricity or savings order of a completed refund, or to the invoice |
| RefundNotice.ContentFor | packages/db/src/refund-notifications.ts:56-87 | the notice is that of a failed, a rejected, a wallet or a bank refund exactly as the refund is, and names its amount and the order's reason |
| RefundNotice.Database.NotifyRefundOutcome | packages/db/src/refund-notifications.ts:5-157 | the statements in order, any of which may fail, are committed together or taken back |
| RefundNotice.Database.Serve | packages/db/src/refund-notifications.ts:5-157 | notices one after the other, thrown ones included, do the run and keep the invariant |

## Left out

- QueryGuard.GuardTheorem: does not cover the transaction-local form of the timeout statement or poolers, closed clients, wrapping a wrapped client again, or when a cancel request arrives at the server; whether a text is a read is an input.
- HealthProbe.ProbeTheorem: latency, the remaining budget of the query and pool statistics; a schema that does not match is a query that reports ill health.
- Migrations.MigrationTheorem: reading the journal file and SQL files that are missing, schema names, and `verifyMigrationVersion`, which does not know the legacy digest; all runners see one journal.
- ReleaseQueue.OrderTheorem: reading the queue directory is one atomic step, saving a job file is atomic (a temporary file that is renamed), and creation stamps increase strictly; the screenshots' bytes, the checkout, the deployment itself and its log are not modelled.
- ReleaseNotice.NoticeTheorem: the checks of notes, tokens, images and channel are one step that may fail; messages and images stand for their hashes, taken as distinct.
- BoardCycles.Validate: goals, gates, statuses, evidence, specification digests and section inventories of the board.
- BoardCycles.Search.Visit: the recursion limit of the interpreter; on a chain of dependencies deeper than that the original raises RecursionError instead of answering.
- ReviewSnapshot.StoredIffSame: values that are not JSON (dates, functions, cyclic objects), which the service refuses; the text form and the digest of a canonical value are one function.
- CanonicalJson.CanonicalSurvivesStorage: storage that changes values, duplicates keys or drops them.
- ConsultationLedger.ConservationTheorem: invoices are named by their place in insertion order instead of generated identifiers; history entries and dates.
- PriceAdjustment.Calculate: dates that are not numbers.
- Rounding.SolarTotalWithinHalfEach: negative quantities, prices or rates, which the solar fixture does not check.
- InvoiceLines.CalculateAuto: titles and product data of lines, and whether quantities are numbers at all.
- DrainServer.DrainTheorem: serving files, headers, the length of the grace period, and how a socket comes to be gone.
- CommentPaging.PagesRebuildThread: access checks, timestamps and author names.
- StageLog.StageTheorem: review hashes, handover descriptions, addresses and hardware changes, dates.
- RefundNotice.NoticeTheorem: notice texts beyond their kind and amount, number formats, and what the worker later does with the email job.
- Electricity price reviews ordered by locale, authoring and signature fixtures: the same canonical form or the same command store again.
- Contract activation and completion, saving inventory, transaction pools and pollers: their transitions live in SQL or in code of the same kind that is not part of this model.
- Routing, rendering, translations, styling, test configuration, metrics and container scripts.
