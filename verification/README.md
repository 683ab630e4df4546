# Verified model of the jobplane execution queue

jobplane runs background jobs from a Postgres-backed queue: controllers put executions in a queue table,
workers claim them under a lease, extend the lease with heartbeats and report a result, and work that keeps
failing ends in a dead-letter table from which it can be run again. This project models that queue, the
worker agent and the log and webhook paths around them in Dafny 4.11, and proves what the design promises.
`dafny verify dfyconfig.toml` checks everything.

## How the model is laid out

| file | what it holds |
|---|---|
| `Tables.dfy` | the three tables as one value; every SQL statement and every whole handler as a function on it; the consistency of the tables |
| `Consistency.dfy` | what each statement and handler keeps, and what a report leaves on record |
| `Selection.dfy` | the dequeue query: its declarative answer, that the answer is unique, and the loop that computes it |
| `Store.dfy` | class `Store`: the Postgres store and the handlers, updating the tables in place |
| `Statements.dfy` | many controllers at once: dequeues and dead-letter retries as transactions with row locks, `Complete` and `Fail` as separately committed statements, any interleaving, any call dying at any point |
| `Visibility.dfy` | why a row is invisible, and how soon it comes back; scheduled work does not start early |
| `Lease.dfy` | workers that claim, extend, report and die on top of `Statements`; exclusive holding and bounded work, one execution at a time |
| `HeartbeatLease.dfy` | the worker's heartbeat loop keeps its lease exclusive |
| `SerialDequeue.dfy` | concurrent dequeue transactions are equivalent to serial ones, rollbacks included |
| `Overtaking.dfy` | how long better-ranked work can delay an execution |
| `Lineage.dfy` | whole handlers: where every execution is, the counts, and chains of dead-letter retries |
| `OverlappingRetries.dfy` | one dead letter retried twice: how it happens and exactly when |
| `Resend.dfy` | repeated reports, and reports repeated after an interruption |
| `LateReports.dfy` | reports for executions that have left the queue |
| `Scenarios.dfy` | building blocks for concrete runs from empty tables |
| `Agent.dfy` | the poll loop and its goroutines as steps; backoff; drain |
| `Retry.dfy` | the retrying HTTP helper and the heartbeat loop |
| `LogShipping.dfy`, `LogPaging.dfy` | the log batcher and its POSTs, the page query, the CLI cursor loop and what it prints |
| `Webhook.dfy` | webhook delivery: retries, bounded concurrency, racing deliveries and the status column |

Times are nanoseconds on one clock. A run is a sequence of states with the label of each step between them;
a property "of every run" quantifies over all such sequences. The clock, the random jitter, the HTTP answers,
fresh ids, and the choice among ready channel operations are parameters of the labels.

## Where the code does not do what one would hope

* **A dead letter without its deletion.** `Fail` on an exhausted execution writes the dead letter and deletes
  the queue row in two separately committed statements. If the call dies in between, the same report sent
  again is refused by the UNIQUE column, and so is every later failure report: the execution is handed out
  again and again. `Resend.ResumingIsExact` shows that this is the only point at which an interrupted report
  cannot be repaired by sending it again; `Resend.RefusedExactlyWhenHalfDead` and `Resend.HalfDeadIsForever`
  describe the state it leaves, and `Resend.HalfDeadIsReachable` gives a run that gets there.
* **One dead letter, two retries.** A retry does not check that its DELETE found the letter it has read. Two
  overlapping retries of one letter can both succeed (`OverlappingRetries.BothRead`,
  `OverlappingRetries.BothSucceed`): as long as letters are read off the queue, successors stay unique exactly
  when every committed retry still found its letter (`OverlappingRetries.UniqueExactlyWhenLettersFound`). And
  in the half-dead state above no overlap is needed: retried, failed and retried again, one call after the
  other, an execution gets two successors (`OverlappingRetries.HalfDeadIsRetriedTwice`). Both happen from empty
  tables (`OverlappingRetries.OverlapIsReachable`, `OverlappingRetries.SerialRetriesReachIt`). `Lineage`
  therefore takes a retry as one serial step and reports as whole handlers.
* **A late report overwrites a finished execution.** The result handler accepts reports for any execution, so
  SUCCEEDED and FAILED are not final. They stay exactly as long as no report of the other kind runs its last
  statement (`LateReports.FinalExactlyWhenUncontradicted`), and what a finished execution says is what the last
  report wrote (`LateReports.OnlyReportsWrite`, `LateReports.LastReportWins`). A success that comes late for a
  dead execution leaves its letter, which can be retried although the work has succeeded
  (`LateReports.LateSuccess`, `LateReports.SucceededAndRetried`); a failure that comes late leaves an execution
  that has failed without a letter (`LateReports.FailedWithoutLetter`).
* **Log batches are posted once.** `flush` empties the buffer whether or not the POST went through, so a failed
  POST loses up to 100 lines, and the last flush after cancellation uses the cancelled context, so lines still
  waiting then are always lost. `LogShipping.StreamLogs` states exactly when nothing is lost.
* **Log paging by id, ordered by time.** The cursor of the CLI is an id, the order of the page is `created_at`.
  The loop shows the whole log exactly when ids increase from page to page
  (`LogPaging.CompleteExactlyWhenPagesIncrease`); otherwise it does not (`LogPaging.SwappedIsMissed`),
  though it never repeats an entry.
* **An empty line at the end of a chunk is not printed.** The CLI ends a chunk with a newline only if it is
  neither empty nor already ends in one, and chunks come without their last newline
  (`LogPaging.PipelineRoundTrip`).
* **A failed delivery overwrites a successful one.** Every report sets off a delivery, and the status column
  says what the delivery that wrote last has met with (`Webhook.ColumnIsLastWrite`), so a callback that was
  delivered can end up as FAILED (`Webhook.FailureOverwritesDelivery`).
* **Shutdown can leave a delivery behind.** The goroutine that sees the WaitGroup at zero and the select that
  returns are two, and the handlers start deliveries from goroutines that nobody waits for. A clean return
  means that the deliveries under way at the call have ended; what is left is exactly what was set off since
  the counter was seen at zero and has not ended (`Webhook.CleanReturn`, `Webhook.LateDeliveryIsLeft`).
* **A retried execution has no callback.** `RetryFromDLQ` does not copy the callback columns
  (`Stores.Store.RetryFromDLQ`).
* **A lapsed lease is shared.** A held row can be selected only after its lease has run out
  (`Leases.SelectedHasLapsed`), and then the next dequeue hands out a second ticket for it
  (`Leases.LapsedLeaseIsShared`): holders must extend in time, and `HeartbeatLeases` shows that the default
  heartbeat does.
* A comment at `internal/worker/agent.go:278-281` says jobs outlive the poll context; the code derives the job
  context from it. The model makes no claim that in-flight jobs finish, only that the agent waits for their goroutines.

## Model

| member | source | states |
|---|---|---|
| Selection.BatchUnique | internal/store/postgres/queue.go:74-81 | the dequeue query (rank order, limit, nothing better left behind) has exactly one answer |
| Selection.BatchExists | internal/store/postgres/queue.go:74-81 | it always has one |
| Selection.BatchAnswers | internal/store/postgres/queue.go:74-81 | that answer, read off the columns: visible, unlocked rows of the tenants asked for, priority never rising, created_at never falling among equals, none left behind that outranks one of them, none left behind at all below the limit |
| Selection.SelectBatch | internal/store/postgres/queue.go:65-83 | the loop returns that answer, columns included |
| Selection.FindBest | internal/store/postgres/queue.go:78 | the row it picks ranks before every other row of the pool: no higher priority, and no earlier created_at among equals |
| Stores.Store.DequeueBatch | internal/store/postgres/queue.go:53-140 | claims exactly the query's answer in one step: a further attempt and 300 s of lease for those rows, RUNNING, the same attempt and the first start of their executions, every other row unchanged |
| Stores.ClaimByIds | internal/store/postgres/queue.go:112-130 | the two bulk updates addressed by queue id change exactly the rows the query returned, and give history and queue the same attempt |
| Stores.Store.Enqueue | internal/store/postgres/queue.go:24-49 | the row takes tenant and priority of its execution; unknown executions and second rows are refused without effect |
| Stores.Store.RunJob | internal/controller/handlers/jobs.go:106-236 | jobs of other tenants, past schedules, full tenants and id clashes change nothing; full means that many different RUNNING executions of the tenant itself; otherwise history and queue row appear together, PENDING or SCHEDULED, with the job's tenant and priority |
| Stores.OthersDoNotCount | internal/store/postgres/execution.go:54-60 | executions of other tenants do not count towards the limit, and without a running one of its own a tenant is never at it |
| Stores.ClaimUsesPlace | internal/store/postgres/queue.go:121-130 | the first claim of an execution uses up one place of its tenant, a later one none |
| Stores.ReportFreesPlace | internal/store/postgres/queue.go:143-217 | a report that takes a running execution off the queue frees one place of its tenant, any other report none |
| Webhook.PendingExactlyWhenDelivered | internal/controller/handlers/jobs.go:140-151 | a submission writes PENDING exactly for executions whose reports will set off deliveries |
| Stores.Store.Complete | internal/store/postgres/queue.go:143-160 | the execution leaves the queue and is marked succeeded; the tables stay consistent |
| Stores.Store.Fail | internal/store/postgres/queue.go:163-217 | retry delay, dead letter, or refusal, decided by the attempt count, a missing row and an existing letter; the tables stay consistent |
| Stores.Store.SetVisibleAfter | internal/store/postgres/queue.go:220-228 | only the visibility of that row moves |
| Stores.Store.RetryFromDLQ | internal/store/postgres/execution.go:100-157 | succeeds exactly when the letter exists and the id is fresh, and then moves the work back to the queue, without schedule and callback; otherwise nothing changes |
| Stores.Store.UpdateResult | internal/controller/handlers/executions.go:215-258 | a report is a success only with exit code 0 and no error text, and has the effect of Complete or Fail; it is refused, without effect and webhook, exactly when an exhausted execution already has its letter |
| Stores.Store.Heartbeat | internal/controller/handlers/executions.go:192-208 | the lease is counted anew from now |
| Stores.Store.Dequeue | internal/controller/handlers/executions.go:151-188 | never more than 100 items, and never more than a positive request asked for; each item carries the payload of its row |
| Stores.HandlerLimit | internal/controller/handlers/executions.go:160-166 | the limit passed on is the positive request, or 100 if that is less; one for anything else |
| Stores.StoreLimit | internal/store/postgres/queue.go:54-56 | the limit is the least positive one that is no smaller than the one asked for: one for a limit below one, any other is kept |
| Consistency.RunJobKeeps | internal/controller/handlers/jobs.go:204-224 | create and enqueue succeed exactly for a fresh id, and agree |
| Consistency.CompleteKeeps | internal/store/postgres/queue.go:143-160 | completing keeps queue, history and dead letters in agreement |
| Consistency.FailKeeps | internal/store/postgres/queue.go:163-217 | failing keeps queue, history and dead letters in agreement, on every branch |
| Consistency.RetryKeeps | internal/store/postgres/execution.go:100-157 | a dead-letter retry succeeds exactly for an existing letter and a fresh id, and keeps the tables in agreement |
| Consistency.ClaimKeeps | internal/store/postgres/queue.go:112-130 | a claim keeps attempt counts of both tables equal and statuses matching them |
| Consistency.ReportsOnRecord | internal/store/postgres/queue.go:143-217 | what each kind of report leaves on record for its execution, and that no other execution is touched |
| LateReports.OnlyReportsWrite | internal/store/postgres/queue.go:143-217 | on every run, the history row of an execution off the queue is what the last statements of reports on it made of it, and nothing else has touched it |
| LateReports.LastReportWins | internal/store/postgres/queue.go:153-157 | status, exit code and finish time are those of the last report, whatever the row said before; without one it is unchanged |
| LateReports.FinalExactlyWhenUncontradicted | internal/store/postgres/queue.go:211-215 | SUCCEEDED or FAILED stays throughout exactly when no report of the other kind runs its last statement |
| LateReports.LateSuccess | internal/controller/handlers/executions.go:231-243 | a success for a dead execution makes it succeeded, with the old error message and a letter that can still be retried |
| LateReports.SucceededAndRetried | internal/controller/handlers/executions.go:231-243 | a serial run from empty tables in which work that has succeeded is queued again |
| LateReports.FailedWithoutLetter | internal/controller/handlers/executions.go:231-243 | a serial run from empty tables that ends with a failed execution without letter and queue row |
| Statements.StepKeeps | internal/store/postgres/queue.go:143-217 | every single committed statement of every interleaving keeps the system invariant and only moves the tables forward |
| Statements.ReportsGoOn | internal/store/postgres/queue.go:143-217 | reports can be made for any execution and go on statement by statement; only a row lock makes a statement that writes the queue, or a heartbeat, wait |
| Statements.TransactionsGoOn | internal/store/postgres/queue.go:59-139 | dequeues always find an answer and can commit or roll back; letters can be read and retried while they are there |
| Statements.NoFinishedExecutionReturns | internal/store/postgres/queue.go:121-217 | on every run a finished execution has no queue row, stays finished and is never queued again; deleted rows never reappear; no status falls back |
| Statements.TablesAlwaysAgree | internal/store/postgres/queue.go:29-130 | at every committed state each queue row agrees with its execution on tenant, priority and attempt; attempt 0 exactly when waiting, positive exactly when running |
| Statements.DeadLettersSound | internal/store/postgres/queue.go:166-209 | every dead letter records more than the allowed retries and at most its execution's attempts, stale reads included |
| Statements.IdentityPreserved | internal/store/postgres/queue.go:112-130 | job, tenant, priority, lineage and first start never change; a queued row keeps payload and place in line through all retries |
| Visibility.RowStep | internal/store/postgres/queue.go:112-228 | a step adds a row unclaimed, removes it only through a report, moves its visibility only for a named reason and counts claims exactly |
| Visibility.QueuedWorkComesBack | internal/store/postgres/queue.go:67-228 | the time a queued row becomes claimable was set by its schedule, last claim, a heartbeat or a failure, and has not moved since |
| Visibility.ComesBackInTime | internal/store/postgres/queue.go:67-228 | whatever crashed, a queued row is eligible once it is due and 320 s (or the longest extension) have passed since the last step |
| Visibility.OnlyReportsRemoveWork | internal/store/postgres/queue.go:143-209 | a row leaves the queue only through the deleting statement of a report for it |
| Visibility.NeverStartsEarly | internal/controller/handlers/jobs.go:156-219 | if only claimed executions are reported or extended, the first start is never before the scheduled time |
| Visibility.StartedAtFirstClaim | internal/store/postgres/queue.go:121-130 | started_at is the NOW() of the transaction that first claimed the execution, and missing exactly until then |
| Leases.AtMostOneHolder | internal/store/postgres/queue.go:112-228 | if the holders of an execution extend in time or die, and only they report it, it is never held twice, nor can a dequeue select it meanwhile, whatever happens to other executions and their workers |
| Leases.BoundedWork | internal/store/postgres/queue.go:179-209 | such an execution is claimed at most 6 times plus once for each holder that died with it; its dead letter records 6 attempts, more only after such deaths; its retry delays add up to at most 620 s |
| Leases.CountsOfRun | internal/store/postgres/queue.go:112-206 | those counts are the claims committed, the holders lost and the delays imposed by the steps of the run |
| Leases.LeaseCountsFromLastRenewal | internal/controller/handlers/executions.go:203-205 | a held lease counts from the NOW() of its claim or from its holder's last heartbeat |
| Leases.DelaySumClosed | internal/store/postgres/queue.go:185 | the delays of attempts 1..n add up to 20 * (2^n - 1) seconds |
| Leases.ActKeeps | internal/controller/handlers/executions.go:192-243 | every action of workers and controllers keeps leases, tickets and work counts of an execution in step |
| Leases.SelectedHasLapsed | internal/store/postgres/queue.go:67 | a held row can be selected only after its holder missed the deadline |
| Leases.LapsedLeaseIsShared | internal/store/postgres/queue.go:59-139 | once the lease of a held, best-ranked row has run out, a dequeue can begin, select it, commit, and leave two tickets for one execution |
| HeartbeatLeases.HeartbeatsKeepOthersOut | internal/controller/handlers/executions.go:192-208 | an execution whose holders run the default heartbeat loop is never held twice and cannot be dequeued while held |
| SerialDequeue.ConcurrentDequeuesAreSerial | internal/store/postgres/queue.go:59-139 | for any interleaving of dequeue transactions with commits and rollbacks, the final tables and the results of the committed ones are those of a serial run in lock order, each kept from the rows that a transaction since rolled back had locked, and from none if there were no rollbacks |
| SerialDequeue.PromptDequeuesAreSerial | internal/store/postgres/queue.go:59-139 | the same, with pairwise disjoint batches, for every interleaving shorter than the visibility timeout |
| SerialDequeue.BatchesDisjoint | internal/store/postgres/queue.go:112-116 | dequeues within one visibility timeout never hand out an execution twice |
| Overtaking.BoundedOvertaking | internal/store/postgres/queue.go:74-81 | over any serial run within one visibility timeout, an execution with k better-ranked visible ones is claimed before more than k/n dequeues of n or more that could take it have passed it over |
| Overtaking.BoundedOvertakingUnderConcurrency | internal/store/postgres/queue.go:59-139 | the same for interleaved dequeue transactions in lock order, and it ends up leased |
| Overtaking.PassedOver | internal/store/postgres/queue.go:74-81 | a dequeue that passes an eligible execution over takes a full batch from those ranked before it |
| Overtaking.ClaimKeepsLine | internal/store/postgres/queue.go:112-116 | the rows a dequeue claims leave the line for a visibility timeout, and nobody joins it |
| Lineage.Conservation | internal/store/postgres/queue.go:143-217 | every execution is in exactly one of queued, succeeded, dead letter, retried; the four sizes add up to the executions ever created |
| Lineage.SuccessorsUnique | internal/store/postgres/execution.go:122-150 | a retried execution has exactly one successor, every other none |
| Lineage.DeadLettersExact | internal/store/postgres/queue.go:194-217 | with whole handlers a dead letter records exactly its execution's attempts, and its execution has failed and left the queue |
| Lineage.RetryChains | internal/store/postgres/execution.go:107-150 | chains of retries are acyclic, finite, and keep job, tenant, priority and payload of their root, in the queue and in the dead letters |
| OverlappingRetries.BothRead | internal/store/postgres/execution.go:107-120 | two retries can read the same dead letter |
| OverlappingRetries.BothSucceed | internal/store/postgres/execution.go:132-156 | both can then commit, leaving two successors |
| OverlappingRetries.UniqueExactlyWhenLettersFound | internal/store/postgres/execution.go:132-150 | on every run that reads letters off the queue, no execution has two successors exactly when every committed retry still found its letter at its DELETE |
| OverlappingRetries.QueuedLetterIsHalfDead | internal/store/postgres/queue.go:194-209 | a letter read while its execution is queued is a half-dead one |
| OverlappingRetries.HalfDeadIsRetriedTwice | internal/store/postgres/execution.go:100-157 | from there two serial retries with a failure between them leave two successors |
| OverlappingRetries.OverlapIsReachable | internal/store/postgres/execution.go:107-156 | a run from empty tables in which two overlapping retries leave two successors |
| OverlappingRetries.SerialRetriesReachIt | internal/store/postgres/execution.go:107-156 | a run from empty tables, one report or retry at a time, that leaves two successors |
| Resend.RepeatingChangesNothing | internal/controller/handlers/executions.go:231-243 | repeating a report any number of times, with heartbeats in between, changes nothing but time stamps |
| Resend.UninterruptedIsReport | internal/store/postgres/queue.go:143-217 | the statements of one report, run to the end, are the whole handler |
| Resend.ResumingIsExact | internal/store/postgres/queue.go:143-217 | a report cut off anywhere and sent again does what one report does, except exactly a failure of an exhausted execution without a letter that died after its second statement |
| Resend.RefusedExactlyWhenHalfDead | internal/store/postgres/queue.go:194-209 | on an exhausted row Fail changes nothing exactly when its dead letter already exists |
| Resend.HalfDeadIsForever | internal/store/postgres/queue.go:194-209 | no claims, heartbeats or failure reports get an execution out of that state |
| Resend.HalfDeadIsReachable | internal/store/postgres/queue.go:194-209 | a run from the empty tables, without any overlap, gets any execution there |
| Agent.ConcurrencyBounded | internal/worker/agent.go:99-172 | running jobs are exactly the occupied slots, at most the configured number; dispatch and release never block |
| Agent.NoLostWakeUp | internal/worker/agent.go:103-177 | a slot freed since the loop last counted always has a wake-up waiting or still to come |
| Agent.WakeUpsWait | internal/worker/agent.go:128-131 | the wake-up of the timer, of a finished trigger or of the start waits until it is taken |
| Agent.WakeUpHasCause | internal/worker/agent.go:132-137 | a wake-up that waits was left since the last was taken; the loop does not poll without cause |
| Agent.TimerLeadsToPoll | internal/worker/agent.go:128-142 | whenever the loop selects, timer, wake-up and count lead to a fetch for exactly the free slots, which can bring as many jobs, up to 100 |
| Agent.WholeBatchStarted | internal/worker/agent.go:155-177 | exactly as many jobs are started as a fetch returned, and if that was less than the free slots counted, the next poll is called for |
| Agent.ExactBackoff | internal/worker/agent.go:106-153 | after k empty polls the wait is min(PollInterval * 2^k, MaxBackoff) |
| Agent.DoneMeansDrained | internal/worker/agent.go:122-126 | once the loop has seen the end of the context nothing is fetched or started; when done is closed no job goroutine is left |
| Agent.OnlyRequestedWorkStarts | internal/worker/agent.go:121-169 | from the end of the context on, only what is left of a batch requested before it can still start, at most as many jobs as there were free slots |
| Agent.WithDefaults | internal/worker/agent.go:61-75 | every positive setting is kept, the others become 1 slot, 1 s, 30 s and 120 s |
| Retry.DoWithRetry | internal/worker/agent.go:562-630 | after lost connections, 429s and server errors only, the first other answer decides: a status below 400 is accepted, another below 500 refused; six such answers exhaust the call; the time slept and spent is exact |
| Retry.Pause | internal/worker/agent.go:570-588 | the waits are 1, 2, 4, 8 and 16 s plus jitter |
| Retry.LongestCallIsReached | internal/worker/agent.go:562-630 | a call that goes through can take 67.2 s, the bound used below |
| Retry.RunHeartbeat | internal/worker/agent.go:438-458 | an extension for each tick of 120 s whose call meets a status below 400 after nothing but transient answers, counted from a moment in its call and done within 67.2 s of its tick, before the next one |
| Retry.GapBetweenExtensions | internal/worker/agent.go:438-458 | an extension is done at most 187.2 s after the one before counts from, plus 120 s for every failed heartbeat between them |
| Retry.LeaseNeverLapses | internal/store/postgres/queue.go:20 | with default settings and heartbeats that go through, the 300 s lease never runs out |
| LogShipping.StreamLogs | internal/worker/agent.go:460-554 | every line received is posted once, NUL-free, in order, in batches of 1 to 100; a tick posts all lines so far, a batch is short only for a tick or the end; posts made before the context ended are stored as answered; what is stored splits back into the lines of the stored batches, which is all lines exactly when every POST went through and none was left for after the end of the context |
| LogShipping.Shipper.Stream | internal/worker/agent.go:511-529 | nothing stays in the reused buffer; ticks empty it; posts made before the context ended are stored as answered, later ones never |
| LogShipping.Shipper.Flush | internal/worker/agent.go:499-508 | a flush posts exactly the buffered lines and empties the buffer, whether or not they are stored |
| LogShipping.Shipper.Take | internal/worker/agent.go:519-522 | a line is added to those taken, and a full buffer is flushed |
| LogShipping.SplitJoin | internal/worker/agent.go:503 | joining lines and splitting at line ends is lossless |
| LogShipping.KeptExactly | internal/worker/agent.go:504-507 | every batch that is not stored costs lines |
| LogShipping.StripNul | internal/worker/agent.go:486-489 | no NUL is left, and every other character as often as before; a clean line is kept |
| LogShipping.StripNulParts | internal/worker/agent.go:486-489 | what stays keeps its order |
| LogPaging.GetExecutionLogs | internal/store/postgres/log.go:16-41 | the first limit entries after the cursor, in query order |
| LogPaging.PrintLogs | cmd/cli/cmd/logs.go:40-79 | the loop terminates and prints the pages from cursor to cursor, a newline after each chunk that is not empty and lacks one |
| LogPaging.CompleteExactlyWhenPagesIncrease | cmd/cli/cmd/logs.go:40-79 | at any page size every entry is shown once and in order exactly when ids are positive and increase from page to page |
| LogPaging.SwappedIsMissed | internal/controller/handlers/logs.go:58-63 | at the page size of 1000 that the CLI gets, two entries with swapped ids at a page boundary are enough for a log in order of time not to be shown in full |
| LogPaging.NothingShownTwice | cmd/cli/cmd/logs.go:54-64 | whatever the order, nothing foreign and nothing twice is shown |
| LogPaging.PipelineRoundTrip | cmd/cli/cmd/logs.go:53-64 | the text printed is the lines received, each on its own line, exactly when every batch was stored and none ended in an empty line |
| Webhook.DeliverWithRetry | internal/controller/webhook/webhook.go:171-245 | goes on after requests that could not be built, lost connections, 429s and server errors only, true exactly when the last POST met a 2xx; at most 4 POSTs, with exactly 1, 5 and 25 s between them |
| Webhook.BoundedDeliveries | internal/controller/webhook/webhook.go:80-108 | at most 10 deliveries hold a slot, a waiting one can start exactly while there are fewer, and each that has posted can give its slot back |
| Webhook.CleanReturn | internal/controller/webhook/webhook.go:114-127 | when Shutdown returns without an error, the deliveries under way at its call have ended, and those left are exactly the ones set off since the counter was seen at zero that have not ended |
| Webhook.LateDeliveryIsLeft | internal/controller/webhook/webhook.go:114-127 | a run in which a delivery is left behind |
| Webhook.ColumnIsLastWrite | internal/controller/webhook/webhook.go:92-108 | callback_status is what submission wrote, or the outcome of the posts of the delivery whose UPDATE committed last |
| Webhook.FailureOverwritesDelivery | internal/store/postgres/execution.go:31-40 | a run in which a delivery that failed overwrites DELIVERED |

## Left out

- HTTP routing, JSON, authentication, rate limiting, metrics, tracing, configuration loading, migrations, CLI printing beyond the log text: plumbing without hard properties.
- The container and process runtimes: foreign code. That a job's runtime starts within 112.8 s of the claim is a hypothesis of the heartbeat theorems, because heartbeats begin only after the start. A log stream that cannot be opened has no lines.
- Postgres beyond committed table states, UNIQUE columns, row locks with SKIP LOCKED, transaction-start NOW() and atomic commit: deadlocks, statement snapshots within a transaction, connection loss with unknown commit outcome. Rows with equal priority and created_at come back in queue-id order.
- 32-bit overflow of `attempt` and 64-bit overflow of durations: all integers are unbounded.
- The advisory lock of the admission check, and MaxConcurrentExecutions as a limit on running work: the code checks it only when a job is submitted, so it is no invariant of runs.
- The content of webhook payloads, and lines longer than the scanner accepts.
- The follow mode of the CLI log loop and its error branch: an endless poll and an early exit.
- Leases.AtMostOneHolder: assumes of the execution's own holders that they extend in time until they report or die, and that a statement touching its queue row is issued only while its ticket is held; without the first, `LapsedLeaseIsShared` shows it fails.
- Leases.BoundedWork: assumes the same; lapsed leases of live holders can push the attempt count further, since the dequeue has no attempt cap.
- HeartbeatLeases.HeartbeatsKeepOthersOut: takes as given that an extension, once it has arrived, is not undone by an older one that arrives later.
- SerialDequeue.ConcurrentDequeuesAreSerial: a transaction that skips rows of one that later rolls back sees fewer rows than a serial run would; the theorem names them as hidden.
- Lineage.RetryChains: takes a dead-letter retry as one serial step and reports as whole handlers for queued executions; `OverlappingRetries` and `LateReports` show why.
- Lineage.Conservation: takes handlers as whole steps and reports only for queued executions; `LateReports` shows what a report for a finished execution does.
- Agent.NoLostWakeUp: concerns the wake-up token only; scheduling fairness of the Go runtime is not modelled.
