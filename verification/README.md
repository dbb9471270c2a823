# glsync: a verified model of the job queue, webhook ingestion and key handling

glsync turns GitLab webhooks into Jira transitions through a job queue in PostgreSQL. This project models its
logic in Dafny and proves what it promises.

**The job queue** (`Queue.dfy`) is a transition system: one clock, the jobs table, any number of processors
with their poll tickers, claim transactions, row locks and slots, and the handles workers hold on claimed
jobs, each with a copy of its row as selected. A run is a list of steps; interleaving, failures and Jira's
answers are parameters of the steps: a process may crash, a commit may be applied but reported as an error, a
mark may not be applied, a time stamp may be older than the statement that carries it. A ticker keeps its beat
and holds one tick; Dequeue is called once per tick taken. No SQL statement guards a mark, so what keeps two
workers apart is timing. `QueueTiming` states that as a hypothesis on the run (`Timely`: one `process` call
ends within T of getting its slot, one claim within L of its BEGIN, a free slot is taken at once and, if
`Bounds` says the loop is prompt, a tick too) and proves that StuckJobTimeout >= T + Delay keeps every reset
away from live jobs, where Delay is L for prompt loops with PollInterval >= T and max(T, L) for all others.
`QueueWitness` proves that this bound is exact for any number of slots, any PollInterval, T and L: below it,
and only below it, some timely run resets a live job, and (`QueueAbsorption`) some timely run changes a
completed row. Ownership, absorption of terminal rows, attempt and work bounds, and the bound on Jira
transitions hold in every run without such a reset (`Gentle`); `QueueGuarantees` puts them under the timing
hypothesis. Lock disjointness, recoverability, slot bounds, drain, requeues between claims and "completed
means moved" need no hypothesis. Events are counted by looking at the steps of the run (`Count`), not by
counters in the state.

**Ingestion** (`Ingest.dfy`) interleaves any number of deliveries, each a check, an insert with silent
conflict, and one enqueue per issue key under a foreign key. `Server.dfy` is the handler as sequential code,
proved equal to an undisturbed run of that model. A stored event does not always get its jobs, because
handlers never look back; `Coverage.dfy` names the three kinds of step that lose one and proves that every key
of every stored event has its job if and only if no such step was taken.

**End to end** (`EndToEnd.dfy`): handlers and workers over one table. Every joint run is a run of each half,
which bounds what Jira sees per idempotency key and issue key, whatever was redelivered, raced, retried or
lost.

**Text** (`IssueKeys.dfy`, `IssueMentions.dfy`, `IdempotencyKey.dfy`, `Events.dfy`): the issue-key scan
against a declarative notion of mention in character codes, joining and re-extraction; idempotency keys as a
printer with its decoder; the documentation's event table, read off the payload alone, against the parser, the
filter and the rules.

**Code that updates in place** is imperative here too: `Worker.JobRepo`, `Worker.Processor`,
`Worker.Reconciler`, `Executor.JiraExecutor`, `Server.WebhookServer`. Their contracts name the functions
(`ClaimRows`, `ApplyMark`, `ResetRows`, `Decide`, `OutcomeOf`, `InsertRow`) that the steps of the transition
systems are made of, and state beside them what those mean in terms of configuration, payload, Jira's answer
and columns (`Outcomes`, `QueueOutcomes`); `WorkerSteps` and `Server` prove that an undisturbed call is a run
of those steps. `Answers` says what an answer to a delivery can be relied on for, in every run.

Storage semantics assumed: statements are atomic, row locks are taken with SKIP LOCKED and held to the end of
the transaction, a write waits for the lock, `now()` inside a transaction is its start, UNIQUE and foreign
keys are enforced. `now()` and `time.Now()` read one clock. Generated UUIDs are fresh.

Where the code and its documentation differ the code is followed: a merge to master moves nothing
(`internal/workflow/rules.go:53`, against `README.md:61`); plugin errors do not stop enqueuing
(`internal/server/webhook_handler.go:144`, against `plugin/plugin.go:19`); the non-retryable statuses are 400,
404, 405, 409 and 422 (`internal/integration/jira/types.go:24`); an award on an unmerged request also counts
(`internal/server/webhook_handler.go:179`); `NextWeekday` can return yesterday
(`internal/workflow/duedate.go:18`).

## Model

| member | source | states |
|---|---|---|
| QueueTiming.TimedExclusion | internal/worker/processor.go:57-86 | From an empty system, with T, L and prompt slots, StuckJobTimeout >= T + Delay means no reset ever reaches a job a worker holds, and every job is let go within that span of its running_since; Delay is L if ticks are taken at once and PollInterval >= T, else max(T, L) |
| QueueTiming.OlderJobInFlight | internal/worker/processor.go:76-82 | Pigeonhole: while part of a batch waits on full slots, some job in flight started before the batch was claimed |
| QueueTiming.HeldJobIsRecent | internal/store/job_repo.go:86-88 | A job still held was claimed at most T + max(T, L) ago, however late the polls |
| QueueTiming.HeldJobOnPace | internal/worker/processor.go:61-82 | With prompt polls at least T > L apart it was claimed at most T + L ago: two batches never queue for the slots |
| QueueTiming.TimelyResetIsGentle | internal/store/job_repo.go:163-172 | With that timeout every ResetStuck a timely system can issue spares all live jobs |
| QueueWitness.BoundIsExact | internal/worker/processor.go:57-86 | For any number of slots, any PollInterval, T and L, prompt polls or not: no timely run from an empty system resets a live job if and only if StuckJobTimeout >= T + Delay |
| QueueWitness.BoundIsReached | internal/worker/processor.go:61-82 | For every Concurrency, PollInterval, T and L there is a timely run from the empty system, polling once per tick, after which a worker holds a job claimed T + Delay ago |
| QueueAbsorption.AbsorptionIsExact | internal/store/job_repo.go:100-129 | Completed and dead rows keep every column through every timely continuation of every timely run if and only if StuckJobTimeout >= T + Delay, given T >= 1 or a transition configured for Done |
| QueueAbsorption.TerminalChangesExactlyWhen | internal/store/job_repo.go:100-129 | In any reachable state a step changes a terminal row, in any column, exactly by an applied mark other than completing it again at the same instant; it stops being terminal exactly by a retry mark |
| QueueAbsorption.CompletedRowRequeued | internal/worker/processor.go:88-137 | Below the bound, with a transition for Done: a timely run from the empty system to a completed row and a timely continuation in which a second worker's mark makes it failed (dead if MaxAttempts is below 2) |
| QueueAbsorption.CompletedRowRewritten | internal/store/job_repo.go:100-107 | Below the bound, with T >= 1 and any configuration: such a run in which a second worker completes the row again and moves completed_at |
| QueueOwnership.ExclusiveOwnership | internal/worker/processor.go:88-137 | With no live job reset: a live handle's row is running since its claim, with the snapshot's attempts and limit, and no row has two live handles |
| QueueOwnership.OwnedStep | internal/store/job_repo.go:100-129 | Every step except a reset of a live job keeps each handle's row equal to its snapshot marked running, although marks check nothing |
| QueueOwnership.TerminalAbsorbing | internal/store/job_repo.go:100-129 | With no live job reset, completed and dead rows never change again in any column |
| QueueGuarantees.TimelyQueue | internal/worker/processor.go:57-137 | Under the timing hypothesis alone: one worker per row, claims accounted for, attempts and work bounded, Jira moves at most one more than lost successes |
| QueueGuarantees.TimelyTerminal | internal/store/job_repo.go:100-129 | Under the timing hypothesis alone, completed and dead rows are never left in any timely continuation |
| QueueSafety.SoundRun | internal/store/job_repo.go:52-172 | Row shapes, lock sets, handle bookkeeping and slot counts hold in every reachable state, whatever crashes or is lost |
| QueueSafety.RowChange | internal/store/job_repo.go:86-172 | The only changes any step makes to an existing row: a claim of a due row, a mark, a reset of a stuck row |
| QueueSafety.LockedRowsUntouched | internal/store/job_repo.go:49-98 | A row held by a claim transaction stays claimable and unchanged under every step of everybody else |
| QueueAccounting.ClaimsAreDisjoint | internal/store/job_repo.go:59-88 | Open claims hold pairwise disjoint rows, all still due and as selected |
| QueueAccounting.RequeuedBetweenClaims | internal/store/job_repo.go:63-88 | In any run, between two committed claims of a row there is a MarkFailed or a ResetStuck on it |
| QueueAccounting.ClaimsAccountedFor | internal/worker/processor.go:112-135 | claims = attempts + resets + 1 if running or completed; non-terminal rows have attempts < max(1, MaxAttempts); claims <= max(1, MaxAttempts) + resets |
| QueueAccounting.NeverStranded | internal/store/job_repo.go:163-172 | In every reachable state running means running_since is set, completed means completed_at is set, each non-terminal row is claimable once due or made claimable by a late enough reset, and any lock on it can be rolled back |
| QueueTermination.TotalRankStep | internal/store/job_repo.go:52-172 | The table's measure falls by one per claimed row, falls with every applied mark, rises by exactly one per reset row, and otherwise only new jobs add to it |
| QueueTermination.WorkIsBounded | internal/worker/processor.go:88-137 | Claims and marks over all rows are at most 2*max(1, MaxAttempts) per row plus the resets, however long the run |
| QueueTermination.WorkOfOneJob | internal/worker/processor.go:88-137 | The same bound for one job |
| QueueFairness.BoundedOvertaking | internal/store/job_repo.go:59-66 | A due row is claimed within floor(ahead / B) + 1 committed dequeues of batch size B, overlapping or not, if none of them skips it because it is locked |
| QueueFairness.ServedStep | internal/store/job_repo.go:59-66 | No step puts a row ahead of a waiting one, and each commit that passes it over removes a full batch from ahead of it |
| QueueFairness.OvertakesExactly | internal/worker/processor.go:123-135 | A row newly gets ahead of an overdue one if and only if it is enqueued, or put back by an applied retry mark, with a stamp no later than that row's; a reset never does it; a new job's stamp is then older than its insert and nobody else is disturbed |
| QueueOvertaking.StaleRetryOvertakes | internal/worker/processor.go:131-135 | A run from the empty system to a state where a slow worker's retry mark does so |
| QueueJira.TransitionsSeen | internal/worker/processor.go:91-104 | With no live job reset, successful transitions seen for a configured job equal the successes lost plus one if recorded or still known, so at most 1 + lost |
| QueueJira.CompletedWasMoved | internal/worker/executor.go:36-57 | In every run a completed row had an execution in which a transition was configured for its target state, sent, and confirmed, or none is configured |
| QueueJira.MovedIsOutcome | internal/worker/executor.go:36-57 | Such an execution is exactly one with outcome moved |
| QueueJira.IdentityStep | internal/store/job_repo.go:86-172 | No step changes a job's event, issue key, target state or attempt limit |
| QueueRetries.DeathTakesAllDelays | internal/worker/processor.go:123-135 | With no live job reset, a job dead after m attempts is at least the first m-1 delays past its first failure, in closed form, whatever happened in between |
| QueueRetries.ExhaustedMeansAllAttempts | internal/worker/processor.go:123-135 | A retryable error kills a job exactly at its max(1, MaxAttempts)-th attempt |
| QueueSlots.SlotBounds | internal/worker/processor.go:57-86 | At most C jobs in flight, at most 2C held, and Dequeue or drain only once the previous batch is fully launched |
| QueueSlots.DrainLosesNothing | internal/worker/processor.go:55-86 | When Run returns, every job any successful Dequeue gave it had process called exactly once and finished, wherever cancellation came |
| Backoff.BackoffFormula | internal/worker/processor.go:163-174 | For every attempts >= 0 the clamped code equals min(2^attempts * 30s, 30min) and its product fits int64 |
| Backoff.DelaysClosedForm | internal/worker/processor.go:160-174 | The first m-1 delays add up to 30*(2^(m-1)-1) s for m <= 7 and 1890 + 1800*(m-7) s for m >= 7 |
| Worker.JobRepo.Enqueue | internal/store/job_repo.go:32-47 | Adds the row exactly when its id is new and its event is stored, and otherwise changes nothing |
| Worker.JobRepo.SelectForUpdate | internal/store/job_repo.go:59-66 | Takes min(limit, available) of the pending or failed, due, unlocked rows, distinct, in order of next_run_at, none passed over for a later one |
| JobTable.SelectionIsFull | internal/store/job_repo.go:59-66 | The same of every selection the queue model allows |
| Worker.JobRepo.Dequeue | internal/store/job_repo.go:52-98 | Claims exactly a legal selection: status running and running_since now on those rows, nothing else; returns them as they were before |
| Worker.JobRepo.MarkCompleted | internal/store/job_repo.go:100-107 | The whole new table, with no look at the status |
| Worker.JobRepo.MarkFailed | internal/store/job_repo.go:109-119 | The whole new table: retry time set, one more attempt, running_since cleared |
| Worker.JobRepo.MarkDead | internal/store/job_repo.go:121-129 | The whole new table: dead, one more attempt, running_since cleared |
| Worker.JobRepo.ResetStuck | internal/store/job_repo.go:163-172 | Resets exactly the running rows older than the cutoff and returns how many |
| Worker.Processor.Process | internal/worker/processor.go:88-137 | By configuration and Jira's answer alone: completed on success or when nothing is configured; dead at once on 400, 404, 405, 409 or 422; otherwise failed and due min(2^attempts * 30s, 30min) later, or dead on the last attempt; all other columns and rows kept; the matching audit trail; one transition sent exactly when one is configured and datable |
| Outcomes.MarkExactly | internal/worker/processor.go:91-135 | The mark decided from a snapshot and an outcome does that to the row |
| QueueOutcomes.MarkFollowsAnswers | internal/worker/processor.go:88-137 | In the queue, whatever steps lie between a worker's call to Jira and its mark, the mark does to the row what the answers to that call require |
| QueueOutcomes.ColumnsWritten | internal/store/job_repo.go:32-172 | Which columns a claim, a reset and an insert write, on which rows; only an applied mark changes anything else |
| QueueOutcomes.LimitsAreConfigured | internal/worker/processor.go:182-196 | Every row of every run carries the configured MaxAttempts |
| WorkerSteps.DequeueIsThreeSteps | internal/store/job_repo.go:52-98 | An undisturbed Dequeue, called on a tick, is begin, select, commit of the queue model, with the table `Dequeue` promises |
| WorkerSteps.ProcessIsTwoSteps | internal/worker/processor.go:88-137 | An undisturbed `process` is execute and mark of the queue model, with the table `Process` promises, read off the answers |
| Worker.Reconciler.ResetStuckJobs | internal/worker/reconciler.go:56-66 | Resets what is stuck and audits exactly when something was |
| Executor.JiraExecutor.Execute | internal/worker/executor.go:27-57 | For a state other than In Progress, exactly the one call with the id its own entry holds, the job's key and no fields is sent if that entry is there and not empty, otherwise nothing; moved, permanent and skipped exactly as Jira's answer, five statuses and the configuration say |
| Executor.OutcomeExactly | internal/integration/jira/types.go:22-29 | The outcome in terms of configuration and answer alone |
| Executor.JiraExecutor.ExecuteInProgress | internal/worker/executor.go:59-89 | Story points are asked for under that strategy only and fall back to 1; without a due date nothing more is sent; with one, the configured id with start date, due date and points each under its field |
| Ingest.NoDuplicates | internal/server/webhook_handler.go:72-158 | For any interleaving, failures and crashes: one event per idempotency key, one job per (idempotency key, issue key), no job without its event |
| Ingest.LoserAddsNothing | internal/store/event_repo.go:27-43 | The delivery that loses the silent conflict has an id no event has, and its enqueues are all rejected |
| Ingest.SoundStep | migrations/002_create_jobs.up.sql:1-15 | Every step keeps keys unique, ids private to one handler, and jobs only for keys behind a handler's loop index |
| Coverage.JobsRefineEvents | internal/server/webhook_handler.go:86-158 | When every delivery was answered or crashed: jobs are for stored (event, issue key) pairs, one each, with the target computed from the stored row; and every pair has its job if and only if no step of the run crashed a handler with keys to do, failed an enqueue for a stored event, or reported an error for an insert it had applied |
| Coverage.LossIsForever | internal/server/webhook_handler.go:116-158 | Each such step, from any reachable state, leaves a stored event's key without a job in every continuation |
| Coverage.ConcreteLoss | internal/server/webhook_handler.go:116-158 | A run from the empty system, one push and one crash, that loses its job |
| Coverage.CrashLosesJobs | internal/server/webhook_handler.go:72-84 | After a crash behind the insert the event's jobs stay as they are in every continuation and a redelivery is told already_processed |
| EndToEnd.MovedOncePerKeyAndIssue | internal/server/webhook_handler.go:133-158 | With no live job reset, per idempotency key and issue key and over all jobs that could be meant, Jira confirms at most one transition more than confirmations were lost |
| EndToEnd.TimelyMovedOnce | internal/worker/processor.go:57-137 | The same under the timing bound alone |
| EndToEnd.EveryKeyIsCarried | migrations/002_create_jobs.up.sql:1-15 | When deliveries have ended and nothing was lost, each key of each stored event has exactly one row in the workers' table, with the planned target, and it is completed only if Jira confirmed its transition or none is configured |
| Ingest.UnacceptedChangesNothing | internal/server/webhook_handler.go:66-131 | A delivery answered ignored or already_processed left both tables unchanged in each of its steps |
| Answers.AnswersAreTrue | internal/server/webhook_handler.go:53-131 | In any run: accepted means the delivery acts and an event with its key is stored, already_processed that one is stored, ignored that it asks for no state or mentions no issue, internal error that one of its own statements failed |
| Server.WebhookServer.HandleGitLab | internal/server/webhook_handler.go:53-175 | One undisturbed delivery, read off payload and tables: the answer; if accepted, the row stored and one pending job per issue key with the state asked for and the configured limit, nothing else; untouched tables if not |
| Server.WebhookServer.Insert | internal/store/event_repo.go:27-43 | Adds the row unless its idempotency key is present, silently |
| Server.WebhookServer.ExistsByIdempotencyKey | internal/store/event_repo.go:45-54 | True exactly when some event has the key |
| Server.WebhookServer.Enqueue | migrations/002_create_jobs.up.sql:1-4 | Accepted exactly when the event is stored and the id is new |
| Server.SoloIsRun | internal/server/webhook_handler.go:177-225 | The sequential handler, emoji path included, is a run of the interleaved model with the same tables and answer |
| Events.PlanProperties | internal/server/webhook_handler.go:83-131 | What is enqueued can be recomputed from the stored row; keys are distinct and not empty; In Progress comes only from new branches, Done only from master pushes or the done emoji |
| Events.PlanExactly | internal/workflow/rules.go:16-60 | A new delivery is acted on exactly when it mentions a key and the event table asks for a state; the row stored and its keys are read off the payload: a push's branch, else its messages; a request's source branch, else its title; an award's request's, else its title |
| Events.ParsedAsAsked | internal/gitlab/parser.go:41-170 | Which deliveries are recognized, and their idempotency keys as text |
| Events.KeysOfMessages | internal/gitlab/issuekey.go:61-63 | A push without a key in its branch has the deduplicated keys of its messages |
| Events.NewBranchExactly | internal/gitlab/parser.go:71-74 | New branches are those with no before, or forty zeros |
| Events.SameKeyExactly | internal/gitlab/parser.go:41-170 | Two recognized deliveries share a key exactly when kind and (project, branch, before), (project, iid, action) or (project, name, id) agree |
| Events.CommitMessages | internal/gitlab/parser.go:63-69 | The messages, in order, in a slice of the same length |
| IdempotencyKey.DecodesExactly | internal/gitlab/parser.go:48 | A key decodes to its parts if and only if a push's before has no colon |
| IdempotencyKey.KeysInjective | internal/gitlab/parser.go:86 | Keys of the three kinds never collide, for colon-free before |
| IdempotencyKey.ColonCollides | internal/gitlab/parser.go:154 | With a colon in before, unlike the emoji name, another push always has the same key |
| IdempotencyKey.ReadPrintInt | internal/gitlab/parser.go:48 | Decimal printing of any integer reads back and contains no colon |
| IssueMentions.KeysAreMentions | internal/gitlab/issuekey.go:16-38 | In character codes: a key is extracted exactly when it is mentioned, in any case, outside a longer word; never twice; always in capitals |
| IssueMentions.CaseBlind | internal/gitlab/issuekey.go:16 | Texts and project keys that differ only in the case of letters give the same list |
| IssueKeys.KeysExactly | internal/gitlab/issuekey.go:16-38 | The same in the scan's terms: extracted exactly when some boundary-delimited occurrence upper-cases to it, never twice |
| IssueMentions.KeysInOrderOfMention | internal/gitlab/issuekey.go:22-38 | Keys come in the order of first mention |
| IssueKeys.MatchIsOccurrence | internal/gitlab/issuekey.go:16 | Greedy digits find the only occurrence at each start |
| IssueKeys.OccurrencesDisjoint | internal/gitlab/issuekey.go:16 | Occurrences never overlap |
| IssueKeys.ScanIsAll | internal/gitlab/issuekey.go:26 | The non-overlapping left-to-right scan misses no occurrence |
| IssueKeys.Extract | internal/gitlab/issuekey.go:24-38 | The loop with its seen set computes the order-preserving deduplication |
| IssueKeys.KeysOfJoin | internal/gitlab/issuekey.go:61-63 | Extraction from messages joined by spaces is the deduplicated concatenation of their extractions |
| IssueKeys.ReExtraction | internal/gitlab/issuekey.go:21-38 | Re-extracting from the result joined by spaces gives the same list |
| IssueKeys.FromEventProperties | internal/gitlab/issuekey.go:54-65 | No repetitions; empty exactly when no source mentions a key; from commits, what per-message extraction gives |
| DueDate.SprintEndByName | internal/workflow/duedate.go:50-57 | For each weekday name, in any case and with surrounding spaces: the due date falls on that weekday, one day back to six ahead, and is the first such day from today on unless UTC midnight is still yesterday and yesterday was that weekday |
| DueDate.ParseWeekdayExactly | internal/workflow/duedate.go:27-46 | Each weekday is known by its name in any case, trimmed, and by nothing else |
| DueDate.SprintEndDate | internal/workflow/duedate.go:17-24 | The same for a weekday number, with the exact condition for the documented promise |
| DueDate.SprintEndDateUtc | internal/workflow/duedate.go:15-24 | At offset zero the documented promise holds outright |
| DueDate.SprintEndDateCanBeYesterday | internal/workflow/duedate.go:18 | A concrete instant and offset where the result is yesterday |
| DueDate.StoryPointsExactly | internal/workflow/duedate.go:59-64 | Whole days ahead, truncated, exactly one below two points |
| DueDate.DueDateErrors | internal/workflow/duedate.go:50-69 | No due date exactly for an unknown strategy or a weekday without a name |
| DueDate.DueDateRange | internal/workflow/duedate.go:50-69 | Never more than a day back |

## Left out

- HTTP routing, body size limit, JSON decoding, token check, middleware, health and admin handlers: the model starts from decoded payloads.
- The Jira HTTP client: an oracle that answers each call with success, a status, or another error.
- PostgreSQL internals, the admin queries, and the columns nothing decides on: last_error, payload, created_at, author, raw payload.
- `Run` as a Dafny method: its goroutines, semaphore and wait group are the phases and slot counter of a processor in `Queue`; scheduling is the order of steps.
- A commit and its acknowledgement are one step, delivered or lost; locks of a crashed process are released at the crash.
- The retry clock is read after Execute and before the mark; the time of a mark is any instant after it.
- Unknown job types: `NewJob` sets the only type and the table's CHECK allows no other.
- Plugin bodies: they change neither table; their time counts towards T. Audit entries are modelled as actions, without JSON detail or failure of the write.
- Non-ASCII case folding of the pattern (the Kelvin sign and the long s) and project keys that are not a letter followed by letters, digits or underscores.
- Daylight-saving changes, non-ASCII white space in weekday names, and the conversion of extreme story-point values.
- Compiled-pattern cache, logging, configuration loading and process wiring.
- BoundedOvertaking: assumes no live job is reset, that no dequeue finds the row locked by another claim, and stamps later than the waiting row's; `OvertakesExactly` says exactly which steps break the last.
- AbsorptionIsExact: does not cover T = 0 without a transition for Done, where a second mark on such a job completes the row again at the same instant.
- The Go scheduler: a ticker fires on its beat; how late a loop takes a tick is free unless the loop is prompt.
