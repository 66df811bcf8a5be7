# Verification of the claude_ai core

A Dafny 4.11 model of the stateful core of the client library (`claude_ai/`) and its gateway
(`gateway/`): the event bus, the account-pool scheduler, keyset pagination, the rate limiter and the
stream parsers. `dafny verify dfyconfig.toml` checks everything.

## What is modelled

**Event bus.** `EventMachine` is a step relation for any number of producers and consumers around one
bounded queue; a step is the code between two awaits, including exceptions and cancellation. Each step
is one method of the class `EventWorker.EventWorker`, whose new state is the step function's value.
`EventStore` is the in-memory store, `Dispatcher` one dispatch with its handler retries. `EventProofs`
follows every envelope through its life; `EventTheorems` states what holds over whole runs,
`EventOutcomes` which dispatch result leads to which outcome, retry and dead letter, `EventOrder` the
order of the queue, and `EventProgress` when the consumers can move and when the bus comes to a standstill.

**Account pool.** `TaskLoop` is the failover loop of one task; `ExecutorMachine` is every schedule of
producer, workers and per-account semaphores of one `map` call, with the class `BulkExecutor` tied to
it method by method. `ExecutorProgress` says when `map` can go on, `ExecutorTermination` that every
schedule ends and where, and `ExecutorHang` when exceptions can leave `map` waiting for ever.
`Scheduling` (parking and quarantine), `Affinity` (pins) and `Routing` (`pick`)
are classes over the namespaced map of `KeyValue`. `BatchStore`, `Batch`, `BatchTheorems` and
`BatchRunner` treat a batch run as a series of store writes of which a crash keeps any prefix, over
any number of runs; items are found under their decimal index (`Decimal`). `BatchExecution` puts the
executor machine underneath: a run's calls and results are those of a run of the machine, so what the
batch theorems need of the executor is proved and not assumed.

**Pagination.** `Keyset` has the order on (created_at, id), the in-memory pager, the database pager as
a relation on what the query may return, cursor walks and scans over a changing store; `Cursor` the
cursor text; `AccountStore` the store object and its scan generator; `MessagePaging` the pager by
message index.

**Rate limiter.** `TokenBucket` is one bucket in real arithmetic, `RateLimiter` one bucket per key.

**Streams.** `Sse` has both event-stream parsers (section 9.2 of the WHATWG HTML standard describes
the format and 9.2.6 its interpretation; both parsers strip every leading space of a value where the
standard strips one, and emit nothing for data without an event name), `SseAgreement` says exactly when they agree, `SsePrint`
is the round trip, `StreamFold` the two folds of the events, and `ToolCalls` the `<tool_call>` scanner.

**Proxies.** `ProxyRotation` is the rotating proxy list, on the cycle arithmetic of `Cyclic`.

`Text` and `Wrappers` hold string splitting and result types.

## What is assumed

- Envelope ids are fresh and an envelope enters with attempt 1, as `uuid4` and its defaults give.
- A clock is read once per call and never goes back; the reading is a parameter.
- Reads and writes of the in-memory storage do not interleave inside one call, so `pick` and the tracker
  operations are atomic; one run per batch job at a time; one `map` call per executor at a time.
- A batch run's `on_result`, a write to the in-memory storage, does not raise.
- JSON, base64, ISO timestamps and the code-fence pattern are parameters, with the laws stated where used.
- Real numbers stand for floats.

## Where code and comments differ

- A later park overwrites a quarantine, although `claude_ai/orchestrator/scheduling.py` says only an
  explicit release ends one: exactly when in `Scheduling.QuarantineRule`, an instance in
  `Scheduling.ParkEndsQuarantine`.
- A batch job whose first run dies inside the save loop never gets its unsaved items
  (`BatchTheorems.ItemsLostExactlyInSaveLoop`), and is still reported completed once the others are
  done: `BatchTheorems.LostItemsCompleted`, with an instance on real executor runs in
  `BatchExecution.TwoItemsOneLostOnExecutor`.
- Message paging skips messages when a page ends between equal indices or an index is negative:
  `MessagePaging.PagesCompleteIffGoodIndices`, with instances in `MessagePaging.EqualIndexSkips` and
  `MessagePaging.NegativeIndexSkips`.
- The value of an event-stream field loses all its leading spaces, not one:
  `SsePrint.RoundTripIffUnpadded`, with an instance in `SsePrint.LeadingSpaceIsLost`.
- `map` waits for ever once exceptions, in `on_result` for one, have ended all its workers with work
  left. Some schedule does so exactly when there are more items than workers
  (`ExecutorHang.MapHangsExactly`, with an instance in `ExecutorHang.MapHangs`); without an exception
  it never does (`ExecutorProgress.NeverStuckWithoutException`). With no permit per account it waits
  for ever without one (`ExecutorProgress.NoPermitsHangs`).
- The event bus comes to a standstill when every consumer waits to put a retry into a full queue that
  only consumers empty: `flush` then never returns, and a graceful `stop` waits to put its first
  sentinel and never reaches its drain timeout (`EventProgress.JamLasts`). Some schedule leads there
  exactly when the queue is bounded and more than one attempt is configured
  (`EventProgress.BusJamsExactly`, with an instance in `EventProgress.BusJams`).

## Model

| member | source | states |
|---|---|---|
| EventTheorems.RunInv | claude_ai/bus/worker.py:74-182 | Every envelope's card (place, history, store record) follows its life cycle, and queue, counters and held envelopes agree, in every state any interleaving reaches |
| EventTheorems.AtMostOneLiveCopy | claude_ai/bus/worker.py:85-94 | An envelope id is in at most one queue slot or with one consumer, never both, at every await boundary |
| EventTheorems.Conservation | claude_ai/bus/worker.py:122-182 | enqueued = processed + failed + live without an outcome + lost to an exception; no id both succeeds and fails |
| EventTheorems.FlushIsSound | claude_ai/bus/worker.py:96-97 | The join count is zero exactly when nothing is queued or held, and then every envelope put that no exception or cancellation dropped is processed or dead in the store |
| EventTheorems.TaskDoneIsCovered | claude_ai/bus/worker.py:122-139 | Along every run each `task_done`, for a sentinel, a finished envelope, a retry's predecessor or a crash, finds the count at one or more |
| EventTheorems.WritesAreOpen | claude_ai/bus/worker.py:141-182 | A step that writes a record never writes a processed or dead one |
| EventTheorems.TerminalIsForever | claude_ai/bus/worker.py:154-182 | Once processed or dead, a stored record never changes for the rest of the run |
| EventTheorems.StoreStaysConsistent | claude_ai/bus/store/memory.py:19-49 | The order list has each stored id once; the dead list has exactly the dead ids, each once |
| EventTheorems.DelaySum | claude_ai/bus/worker.py:159-162 | The sleeps after n failed attempts add up to backoff * (2^n - 1) |
| EventTheorems.SettledEnvelope | claude_ai/bus/worker.py:159-182 | An envelope with an outcome was dispatched 1..max(1, max_attempts) times, numbered 1, 2, 3..., slept backoff * (2^(k-1) - 1) in all, and has one outcome |
| EventTheorems.OutcomeIsFinal | claude_ai/bus/worker.py:141-182 | After its outcome an envelope is never dispatched, delayed or settled again |
| EventOutcomes.DispatchDecides | claude_ai/bus/worker.py:141-182 | A dispatch result makes its envelope succeed exactly when nothing raised, and fail exactly when the middleware raised or handlers failed on the last attempt; otherwise it stays undecided; the counters follow |
| EventOutcomes.NextEntryIsRetry | claude_ai/bus/worker.py:158-173 | After a failed attempt that is not the last, the next queue entry of the id has the attempt one higher, the joined errors, and all else as it was |
| EventOutcomes.FailedAttemptIsRecorded | claude_ai/bus/worker.py:163-172 | Once back from its backoff a failed attempt is on record as failed, with its number and its joined errors |
| EventOutcomes.JoinsMessages | claude_ai/bus/worker.py:164-171 | Error messages are joined by "; " |
| EventOutcomes.DeadLetterTellsWhy | claude_ai/bus/worker.py:144-182 | Every dead letter goes back to a dispatch that failed for good, with the middleware's error and no handler, or the joined errors and the last handler |
| EventOutcomes.FailureIsRecorded | claude_ai/bus/worker.py:144-182 | A dispatch that failed for good has its own dead letter once the envelope is done with and was not dropped |
| EventOutcomes.SuccessIsRecorded | claude_ai/bus/worker.py:154-157 | A clean result is stored as processed once the envelope is done with and was not dropped |
| EventOutcomes.DeadLettersAreCounted | claude_ai/bus/worker.py:144-182 | The dead-letter counter is the number of failed envelopes done with and not dropped, and equals the failures after a flush without drops |
| EventOrder.TakenInOrder | claude_ai/bus/worker.py:122-129 | Along every run the entries put are, in order, those taken and then those still queued |
| EventOrder.QueueIsBounded | claude_ai/bus/worker.py:57-60 | A bounded queue never holds more than its size |
| EventOrder.StaysTheEvent | claude_ai/bus/envelope.py:44-55 | From acceptance on an envelope is the same event with the same metadata, in the queue, with a consumer and in the store |
| EventProgress.BusMovesExactly | claude_ai/bus/worker.py:122-182 | In every reachable state with unfinished entries a consumer can move unless each has ended or waits to put a retry into a full queue |
| EventProgress.JamLasts | claude_ai/bus/worker.py:96-120 | Such a standstill lasts until a consumer is cancelled: queue, consumers and count stay, no sentinel is put and `stop` does not finish |
| EventProgress.BusJamsExactly | claude_ai/bus/worker.py:158-173 | Some schedule leads to one exactly when there is a consumer, the queue is bounded and more than one attempt is configured |
| EventProgress.BusJams | claude_ai/bus/worker.py:158-173 | One consumer, one queue slot, three attempts: a reachable standstill |
| EventProgress.UnboundedNeverJams | claude_ai/bus/worker.py:57-60 | Without a queue limit a live consumer can always move while entries are unfinished |
| EventWorker.EventWorker.Enqueue | claude_ai/bus/worker.py:85-94 | Refused exactly when not running or stopping, with no effect; otherwise the envelope is accepted with the configured attempts and a save is pending |
| EventWorker.EventWorker.PutArriving | claude_ai/bus/worker.py:93-94 | The put and the enqueued count are one step |
| EventWorker.EventWorker.GetNext | claude_ai/bus/worker.py:122-129 | A consumer takes the oldest entry and dispatches it, or ends on a sentinel |
| EventWorker.EventWorker.Dispatched | claude_ai/bus/worker.py:141-182 | Where each dispatch result leads: processed, backed off with the joined errors, or failed with the middleware's error or the joined errors and the last handler |
| EventWorker.EventWorker.Requeue | claude_ai/bus/worker.py:163-173 | The next attempt goes to the back of the queue before its predecessor is done |
| EventWorker.EventWorker.RecordDead | claude_ai/bus/worker.py:175-182 | The final failure is dead-lettered with its last handler |
| EventWorker.EventWorker.Abandon | claude_ai/bus/worker.py:128-139 | An exception or cancellation releases the envelope without an outcome |
| EventWorker.EventWorker.AbandonArrival | claude_ai/bus/worker.py:85-94 | An `enqueue` that is cancelled or whose save raises leaves nothing on the queue |
| EventWorker.EventWorker.BeginStop | claude_ai/bus/worker.py:99-102 | `stop` on a running worker refuses new envelopes from then on, and does nothing on one not running |
| EventWorker.EventWorker.AddSentinel | claude_ai/bus/worker.py:103-105 | A sentinel goes to the back of the queue and counts as unfinished |
| EventWorker.EventWorker.EndStop | claude_ai/bus/worker.py:115-120 | Once every consumer has ended the worker is not running and has none |
| EventStore.Envelope.WithAttempt | claude_ai/bus/envelope.py:44-55 | A retry keeps id, event, limit, trace and metadata and changes only attempt and error |
| EventStore.ReplayIsExact | claude_ai/bus/store/memory.py:51-72 | Replay finds every stored event that matches the query |
| EventStore.MemoryEventStore.Replay | claude_ai/bus/store/memory.py:51-72 | The loop yields the matching events in order, up to the limit |
| EventStore.MemoryEventStore.Bury | claude_ai/bus/store/memory.py:42-49 | A dead letter replaces the record and joins the dead list |
| Dispatcher.ReportsNothingIffSomeRunSucceeds | claude_ai/bus/dispatcher.py:100-139 | A handler reports no error exactly when one of its allowed runs succeeds |
| Dispatcher.Invoke | claude_ai/bus/dispatcher.py:100-139 | At most max(retry_attempts, 0) + 1 runs, stopping at the first success; an error only when all failed; the sleeps add up |
| Dispatcher.Dispatch | claude_ai/bus/dispatcher.py:56-98 | For each pass of the chain through the handlers, one report per failing handler in registration order; a chain that raises is the middleware error |
| Dispatcher.CleanIffEveryHandlerRecovers | claude_ai/bus/dispatcher.py:56-98 | A dispatch is clean exactly when the chain did not raise and every handler has a successful run in each pass that reached it |
| TaskLoop.RunOne | claude_ai/orchestrator/executor.py:150-206 | The answers of the pool and the task function are asked for in order; `pick` excludes exactly the accounts that rate-limited, logged out or refused the task; a failure is the last attempt, an unknown error, no clients, or the waits used up, with that message; at most max_attempts + max_park_waits + 1 rounds |
| ExecutorTheorems.Bulkhead | claude_ai/orchestrator/executor.py:78-83 | At most concurrency_per_account calls in flight on an account in every reachable state; with no holder all permits are back |
| ExecutorProofs.StepKeepsPermits | claude_ai/orchestrator/executor.py:175-198 | Free permits plus holders stay the configured number on every path, errors and worker death included |
| ExecutorTheorems.TaskHistory | claude_ai/orchestrator/executor.py:131-206 | The same for every item in every reachable state of every schedule, notified at most once |
| ExecutorTheorems.FailsOnlyWhen | claude_ai/orchestrator/executor.py:150-206 | A stored failure has one of four causes, attempts used, an unknown error, no clients, or waits used, and its error is the message of that cause; so a task fails over while it can |
| ExecutorTheorems.HistoryIsTrue | claude_ai/orchestrator/executor.py:150-201 | The asks and calls recorded for an item are those of the schedule's actions |
| ExecutorTheorems.QueueIsBounded | claude_ai/orchestrator/executor.py:106-114 | The producer never has more than the queue's capacity in it |
| ExecutorTheorems.MapReturnsEverything | claude_ai/orchestrator/executor.py:91-148 | When map returns and no worker died: one result per item in input order with index = position, each notified once, dead letters exactly the failed results |
| ExecutorTheorems.MapReturnsWhatWasStored | claude_ai/orchestrator/executor.py:91-148 | With dying workers, only a crashed item can be missing, and dead letters still match the failures returned |
| ExecutorProgress.MapGoesOnExactly | claude_ai/orchestrator/executor.py:106-148 | In every reachable state in which map cannot return, it can go on exactly as long as a worker is alive or an item can be put |
| ExecutorProgress.GoesOnExactly | claude_ai/orchestrator/executor.py:131-201 | No schedule of live workers is stuck, on the queue or on the semaphores |
| ExecutorProgress.DeadPoolIsStuck | claude_ai/orchestrator/executor.py:138-148 | With every worker dead and nothing to put, no step is possible |
| ExecutorProgress.NeverStuckWithoutException | claude_ai/orchestrator/executor.py:106-148 | With a permit per account, a worker and a queue slot, in every run without an exception that ends a worker, map can return or go on in every state |
| ExecutorProgress.NoPermitsHangs | claude_ai/orchestrator/executor.py:78-83 | With no permit per account a call waits for ever though no worker has died |
| ExecutorTermination.ScheduleBound | claude_ai/orchestrator/executor.py:131-206 | No schedule, with exceptions or without, has more than 4 * (max_attempts + max_park_waits + 1) + 4 steps per item |
| ExecutorTermination.MapReturns | claude_ai/orchestrator/executor.py:91-148 | Without an exception every schedule that cannot go on is one where map can return, with a result for every item |
| ExecutorHang.MapHangsExactly | claude_ai/orchestrator/executor.py:104-148 | If exceptions may end workers, some schedule leaves map waiting with no step possible exactly when there are more items than workers |
| ExecutorHang.MapHangs | claude_ai/orchestrator/executor.py:131-148 | Two items and one worker: a reachable state with work left and no step possible |
| BulkExecutor.BulkExecutor.Answer | claude_ai/orchestrator/executor.py:155-174 | What a worker does with a picked account, with none available and with no clients |
| BulkExecutor.BulkExecutor.EndCall | claude_ai/orchestrator/executor.py:176-201 | Each outcome of a call: result, reaction, exclusion or retry, and the permit given back |
| BulkExecutor.BulkExecutor.TaskDone | claude_ai/orchestrator/executor.py:138-148 | The item is counted done whether its worker goes on or dies |
| KeyValue.MemoryStorage.Set | claude_ai/storage/kv/memory.py:20-24 | One key of one namespace changes |
| KeyValue.MemoryStorage.Delete | claude_ai/storage/kv/memory.py:26-28 | One key of one namespace goes |
| Scheduling.RunMirrors | claude_ai/orchestrator/scheduling.py:60-107 | After any run of events the memory equals the disk but for parks that ran out |
| Scheduling.RestartEquivalence | claude_ai/orchestrator/scheduling.py:60-107 | A tracker that loads at t answers as the old one, for every account, at t and later |
| Scheduling.NothingBeforeSoonest | claude_ai/orchestrator/scheduling.py:112-118 | Before the soonest release no unavailable account becomes available by time alone |
| Scheduling.SomeoneAtSoonest | claude_ai/orchestrator/scheduling.py:112-118 | At that instant some account does |
| Scheduling.QuarantineRule | claude_ai/orchestrator/scheduling.py:60-107 | For a tracker that loaded any store: an account is out exactly while the record of its last change, or unchanged the one loaded, says so; out for good exactly when that is a quarantine |
| Scheduling.LastChangeDecides | claude_ai/orchestrator/scheduling.py:88-107 | Over any run: a park with a time ahead holds until that time, one without for the cooldown, a quarantine for ever, and a release frees the account |
| Scheduling.UnchangedStaysOut | claude_ai/orchestrator/scheduling.py:60-74 | An account no event changes is out as the loaded store says: until its time, or for ever |
| Scheduling.AvailabilityTracker.ParkAccount | claude_ai/orchestrator/scheduling.py:88-94 | The account is out exactly until the time given if it is ahead, else for the cooldown |
| Scheduling.ParkEndsQuarantine | claude_ai/orchestrator/scheduling.py:3-6 | A concrete run in which a park turns a quarantine into a timed one |
| Scheduling.AvailabilityTracker.Load | claude_ai/orchestrator/scheduling.py:60-74 | The live records are kept, the others deleted from the store, other namespaces untouched |
| Scheduling.AvailabilityTracker.IsAvailable | claude_ai/orchestrator/scheduling.py:76-86 | The answer, and the park that ran out forgotten in memory only |
| Scheduling.AvailabilityTracker.SoonestRelease | claude_ai/orchestrator/scheduling.py:112-118 | The earliest release among timed parks, none if nothing is timed |
| Scheduling.AvailabilityTracker.OnLimit | claude_ai/orchestrator/scheduling.py:120-128 | An exceeded limit holds the event's account, or "default", until the window's reset time in seconds or milliseconds, or for the cooldown without a time ahead; the five-hour window is tested before the weekly one |
| Affinity.AffinityTracker.PinKey | claude_ai/orchestrator/affinity.py:29-34 | The pin is set, and the pin map still equals its persisted copy |
| Affinity.AffinityTracker.Unpin | claude_ai/orchestrator/affinity.py:36-39 | The pin goes, in memory and in the store |
| Affinity.AffinityTracker.DropAccount | claude_ai/orchestrator/affinity.py:41-46 | Exactly the pins to the account go, in memory and in the store |
| Routing.LeastScore | claude_ai/orchestrator/selector.py:29-34 | The first candidate with the least score |
| Routing.EachChosenOnce | claude_ai/orchestrator/selector.py:42-51 | As many successive choices as there are candidates choose each of them exactly once, whatever the counter was |
| Routing.ClaudeOrchestrator.Pick | claude_ai/orchestrator/orchestrator.py:210-251 | The account handed out is in the pool, not excluded, not held by a park or quarantine, and of the tier asked for or above; NoAvailableAccounts exactly when every account fails one of these, the soonest release with it; the pinned account if it is fit, otherwise the selector's choice among the fit ones, which is pinned; pins equal their persisted copy |
| Routing.CandidatesInOrder | claude_ai/orchestrator/orchestrator.py:239-246 | The selector is offered the fit accounts in registration order |
| Routing.ClaudeOrchestrator.Remove | claude_ai/orchestrator/orchestrator.py:200-208 | The account leaves with every pin to it and its park |
| Routing.ClaudeOrchestrator.ReportExpired | claude_ai/orchestrator/orchestrator.py:259-263 | The report is published and nothing else changes |
| Routing.ClaudeOrchestrator.DeliverExpired | claude_ai/orchestrator/orchestrator.py:176-178 | When the bus delivers a report its account is quarantined and qualifies for no request at any time; pins stay |
| Scheduling.AvailabilityTracker.OnExpired | claude_ai/orchestrator/scheduling.py:130-133 | The account named, or "default", is out for good, in memory and in the store |
| Routing.StaysPinned | claude_ai/orchestrator/orchestrator.py:228-251 | Over any run of picks, additions, removals, parks, pins and unpins a key stays on its account while the account qualifies at each request and nobody re-pins or unpins the key |
| Routing.ForgettingIsInvisible | claude_ai/orchestrator/scheduling.py:76-86 | Forgetting parks that ran out changes no answer then or later |
| BatchStore.NamespacesDiffer | claude_ai/orchestrator/batch.py:35-39 | No job's item namespace is the job list or another job's |
| BatchStore.EncodesSaved | claude_ai/orchestrator/batch.py:140-147 | Saving under the decimal index replaces that item or adds the next one, and nothing else |
| BatchStore.StorageBatchStore.ListItems | claude_ai/orchestrator/batch.py:143-147 | The stored items in index order |
| BatchStore.StorageBatchStore.SaveOne | claude_ai/orchestrator/batch.py:140-141 | The store then stands for the job with that item saved |
| Batch.RunTouchesOnlyItsJob | claude_ai/orchestrator/batch.py:169-231 | A run, cut off anywhere, leaves other jobs as they were |
| BatchTheorems.DoneStaysDuringRun | claude_ai/orchestrator/batch.py:178-224 | Between any two points of a run items keep index (equal to position) and payload and a done item is never rewritten; items are added only while a new job is opened |
| BatchExecution.TraceIsValid | claude_ai/orchestrator/executor.py:131-206 | Under every schedule of the executor an item settles at most once, with the result stored for it, and is not called after that |
| BatchExecution.ResumesForever | claude_ai/orchestrator/batch.py:169-231 | Over any number of executor-driven runs and crashes item count, indices and payloads are fixed and done items stay exactly as they are |
| BatchExecution.CallsOnlyOpen | claude_ai/orchestrator/batch.py:184-231 | In any history of executor-driven runs the task function is only called on items not stored as done, with the item's own payload |
| BatchExecution.ResultUnderOwnIndex | claude_ai/orchestrator/batch.py:217-224 | Each result of the executor is stored under its item's original index: done iff it is ok and failed iff not, with its value, error, attempts and account, and the item's payload |
| BatchExecution.CompletedIffAllOk | claude_ai/orchestrator/batch.py:188-198 | A finished run is COMPLETED exactly when the executor has an ok result for every record of it, else PARTIAL |
| BatchExecution.FailedIsRetried | claude_ai/orchestrator/batch.py:113-118 | A record without an ok result is among the records of its job's next run, wherever the first was cut off after the opening |
| BatchTheorems.RunningMeanwhile | claude_ai/orchestrator/batch.py:178-188 | From the first write of a run until its last the job is stored as running |
| BatchExecution.NothingLeftPending | claude_ai/orchestrator/batch.py:188-231 | A finished run in which no worker died leaves no item of its job pending |
| BatchTheorems.FinishedStatus | claude_ai/orchestrator/batch.py:191-198 | A finished run is COMPLETED exactly when all stored items are done, else PARTIAL |
| BatchTheorems.ItemsLostExactlyInSaveLoop | claude_ai/orchestrator/batch.py:178-186 | A job ever after has all its items exactly when its first run outlived the save loop |
| BatchTheorems.LostItemsCompleted | claude_ai/orchestrator/batch.py:188-198 | A job that lost items is reported COMPLETED all the same once those it has succeed |
| BatchExecution.TwoItemsOneLostOnExecutor | claude_ai/orchestrator/batch.py:178-198 | A history of two executor-driven runs in which a job of two items ends COMPLETED with one |
| BatchRunner.BatchRunner.RunJob | claude_ai/orchestrator/batch.py:169-198 | The store ends up with exactly the writes made before the crash, and a job is returned exactly when the run finished |
| BatchRunner.BatchRunner.Execute | claude_ai/orchestrator/batch.py:200-231 | Every settled task saves its record, done or failed with its result, until the process dies |
| Decimal.ParsePrint | claude_ai/orchestrator/batch.py:140-147 | The decimal text of an index is read back as that index |
| Keyset.LessOrders | gateway/features/auth/store/memory.py:21-26 | Keys are strictly and totally ordered |
| Keyset.SortIs | gateway/features/auth/store/memory.py:22 | Sorting keeps exactly the rows, newest first |
| Keyset.NewestFirst | gateway/features/auth/store/memory.py:21-26 | A listing has the newest first, and rows of the same time by descending id |
| Keyset.ByCodePoint | gateway/features/auth/store/memory.py:22 | Ids are compared by code point at the first difference, a prefix first |
| Keyset.SqlPageAgrees | gateway/shared/db/repo.py:43-70 | Any result the query with limit + 1 may return gives the page of the in-memory pager |
| Keyset.NextWindow | gateway/features/auth/store/memory.py:23-31 | A page's cursor leads to exactly the rows after it |
| Keyset.WalkCovers | gateway/features/auth/store/memory.py:21-32 | Following cursors ends; the pages together are the rows after the start, each page but the last full |
| Keyset.PagesAreTheListing | gateway/shared/schemas/pagination.py:33-41 | For every requested limit the pages concatenate to the whole sorted list |
| Keyset.ScanDescends | gateway/features/auth/store/memory.py:95-103 | However the store changes between fetches, a scan's keys strictly descend |
| Keyset.ScanDelivers | gateway/features/auth/store/memory.py:95-103 | A key listed at every fetch of a finished scan comes exactly once |
| Cursor.DecodeEncode | gateway/shared/schemas/pagination.py:16-30 | A cursor decodes to what was encoded, even with the separator in the id |
| Cursor.AnchorRoundTrip | gateway/features/auth/store/memory.py:23-31 | Asking with a page's cursor seeks past exactly its last row |
| Cursor.EncodeInjective | gateway/shared/schemas/pagination.py:16-19 | Different rows have different cursors |
| Cursor.InvalidExactly | gateway/shared/schemas/pagination.py:22-30 | "invalid cursor" exactly for text that is not base64 or has no separator |
| AccountStore.MemoryAccountStore.Page | gateway/features/auth/store/memory.py:85-93 | The page after the cursor in the one newest-first listing, or the cursor's error; no revoked account unless asked for |
| AccountStore.WalkListsExactly | gateway/features/auth/store/memory.py:85-103 | The pages of a walk together have every stored account, revoked ones exactly if asked for |
| AccountStore.MemoryAccountStore.Revoke | gateway/features/auth/store/memory.py:105-108 | One account is marked, and creation times stay |
| AccountStore.OneListing | gateway/features/auth/store/memory.py:88-93 | The listing does not depend on dictionary order |
| AccountStore.AccountScan.Fetch | gateway/features/auth/store/memory.py:95-103 | Each fetch extends the scan by the page of that moment's listing |
| AccountStore.ScanNeverRepeats | gateway/features/auth/store/memory.py:79-108 | With creation times kept, a scan under writes yields descending keys and no account twice |
| AccountStore.ScanFindsAll | gateway/features/auth/store/memory.py:79-108 | An account shown at every fetch of a finished scan is yielded exactly once |
| MessagePaging.WalkExactly | gateway/features/chats/services/chat_service.py:57-80 | Following cursors delivers the whole window exactly when no page ends between equal indices; otherwise messages are missing |
| MessagePaging.PagesCompleteIffGoodIndices | gateway/features/chats/services/chat_service.py:57-80 | Every page size delivers all messages in order exactly when indices are distinct and not negative |
| MessagePaging.DeliversMessages | gateway/features/chats/services/chat_service.py:71-80 | With good indices each message comes in index order with its own id, text and index, and role "user" for "human" |
| MessagePaging.EqualIndexSkips | gateway/features/chats/services/chat_service.py:63-69 | Two messages of one index, one a page: the second is never delivered |
| MessagePaging.NegativeIndexSkips | gateway/features/chats/services/chat_service.py:62-64 | A message of index -1 is never delivered |
| TokenBucket.LevelIsLeastAllowance | gateway/shared/rate_limit.py:32-39 | From any starting tokens the level at a call is the minimum over all earlier calls j of capacity + rate * (t - t_j) - granted since j, and of the starting tokens + refill - granted |
| TokenBucket.FullLevelIsLeast | gateway/shared/rate_limit.py:28-39 | For a bucket that starts full it is the minimum over the calls alone |
| TokenBucket.RefusesExactly | gateway/shared/rate_limit.py:32-39 | A call is refused exactly when granting it would exceed the bound of some window, or what the start and the refill gave |
| TokenBucket.FullRefusesExactly | gateway/shared/rate_limit.py:28-39 | A bucket that starts full refuses exactly when granting would exceed the bound of some window |
| TokenBucket.WindowBound | gateway/shared/rate_limit.py:21-39 | Over any window no more is granted than capacity plus the refill |
| TokenBucket.MinuteBound | gateway/shared/rate_limit.py:42-56 | At most 2 * per_min grants in any 60 seconds |
| TokenBucket.MinuteBoundIsTight | gateway/shared/rate_limit.py:42-56 | A run in which exactly 2 * per_min are granted within 60 seconds |
| TokenBucket.TokenBucket.Allow | gateway/shared/rate_limit.py:32-39 | The decision and the new level |
| RateLimiter.KeysAreIndependent | gateway/shared/rate_limit.py:42-56 | A request is decided by the requests of its own key alone |
| RateLimiter.KeyMinuteBound | gateway/shared/rate_limit.py:42-56 | However keys interleave, each gets at most 2 * per_min in any 60 seconds |
| RateLimiter.NoLimit | gateway/shared/rate_limit.py:49-51 | A limit of zero or less lets every request through |
| RateLimiter.KeyedRateLimiter.Allow | gateway/shared/rate_limit.py:49-56 | A new key starts full, and only its own bucket changes |
| Sse.ParseChunk | claude_ai/streaming/parser.py:33-66 | All messages of a text, or the first data that is not JSON |
| Sse.IterateStream | claude_ai/session/http.py:246-345 | The messages yielded before the stream ends or data is not JSON |
| Sse.DecodesExactly | claude_ai/streaming/parser.py:26-31 | Frames become messages of their names in order, up to the first whose text is not JSON |
| Sse.JoinsLines | claude_ai/streaming/parser.py:39-61 | The data lines of a frame are joined by line feeds |
| Sse.SkipsAreIgnored | claude_ai/session/http.py:260-264 | Comments and unknown fields make no difference to either parser |
| SsePrint.LineIs | claude_ai/streaming/parser.py:13-24 | A line is an event, a data line, or skipped, by its field name |
| SsePrint.CommentIs | claude_ai/session/http.py:260-277 | A line with a leading colon is skipped, and an empty line ends a frame |
| SseAgreement.AgreeExactly | claude_ai/session/http.py:246-345 | Both parsers emit the same frames exactly when every blank-terminated block is clean and the tail silent |
| SseAgreement.TextAgreesExactly | claude_ai/streaming/parser.py:33-66 | The same for the (event, data) texts of any text |
| SseAgreement.UsualInputAgrees | claude_ai/session/http.py:340-344 | On blank-terminated input with the event line before the data the two agree, message for message |
| SseAgreement.ChunkKeepsLines | claude_ai/streaming/parser.py:39-61 | Within a block the whole-text parser neither loses nor reorders a data line |
| SseAgreement.ParseConcat | claude_ai/streaming/parser.py:33-66 | Parsing distributes over concatenation at a blank line |
| SsePrint.ParsePrint | claude_ai/streaming/parser.py:13-24 | Printed frames that have a name are read back one for one by both parsers, with leading spaces removed |
| SsePrint.RoundTripIffUnpadded | claude_ai/streaming/parser.py:13-66 | Parsing undoes printing exactly when no name or data line starts with a space |
| SsePrint.LeadingSpaceIsLost | claude_ai/streaming/parser.py:23-24 | The data " x" is read back as "x" |
| StreamFold.Session | claude_ai/session/http.py:249-334 | At every message stop the totals of the events so far are published |
| StreamFold.Collect | claude_ai/streaming/collector.py:36-69 | The result is read off all events: joined deltas, last start, last message delta |
| StreamFold.OneEvent | claude_ai/streaming/collector.py:51-61 | Which text and thinking one event carries |
| StreamFold.TextInOrder | claude_ai/streaming/collector.py:66-67 | Texts and thoughts are joined in the order of their events |
| StreamFold.MessageIsReported | claude_ai/session/http.py:270-334 | A message with any deltas is published at its stop, and collected, with its joined texts, its reason and tokens, and the names of its start |
| StreamFold.PublishedIsCollected | claude_ai/session/http.py:280-334 | What is published at a stop equals the collector's fold of the same prefix; the message name agrees exactly when it has a uuid or no id |
| ToolCalls.ScansBlocks | gateway/features/completion/services/tool_protocol.py:113-172 | From prose interleaved with blocks exactly the bodies are taken, in order |
| ToolCalls.Decompose | gateway/features/completion/services/tool_protocol.py:113 | Every text is prose interleaved with blocks and a tail without one |
| ToolCalls.RecoversCalls | gateway/features/completion/services/tool_protocol.py:134-152 | The calls written into a reply are exactly the ones parsed, in order |
| ToolCalls.CandidateExactly | gateway/features/completion/services/tool_protocol.py:117-131 | A text stands for a call exactly when it decodes to an object with a name, and the arguments are the object given, the one in the text given, or none |
| ToolCalls.CallsInOrder | gateway/features/completion/services/tool_protocol.py:143-152 | Several candidates give the calls of each, in order |
| ToolCalls.FallsBack | gateway/features/completion/services/tool_protocol.py:154-172 | Without a tagged call the fenced ones are taken, and without those a text that is one object in braces |
| ToolCalls.TagsDecideExactly | gateway/features/completion/services/tool_protocol.py:143-172 | The tagged calls are the whole answer, whatever the fences hold, exactly when the reply is empty, some tagged block decodes to a call, or no text at all does |
| ToolCalls.TaggedCallCounts | gateway/features/completion/services/tool_protocol.py:143-152 | A tagged call that decodes is among the calls taken out, whatever else the reply holds |
| ToolCalls.ParseToolCalls | gateway/features/completion/services/tool_protocol.py:134-172 | Tagged calls first, then fences, then a single bare object |
| ProxyRotation.Rotation | claude_ai/transport/proxy/list.py:29-36 | With unchanged counts the k-th call hands out the healthy entry k turns on, cyclically |
| ProxyRotation.EachOnce | claude_ai/transport/proxy/list.py:29-36 | Any h consecutive calls hand out each of the h healthy entries exactly once |
| ProxyRotation.ListProxy.Get | claude_ai/transport/proxy/list.py:29-36 | The next healthy entry; with none, the next entry and all counts forgotten |
| ProxyRotation.SearchFinds | claude_ai/transport/proxy/list.py:31-34 | The search fails exactly when no entry is healthy |
| ProxyRotation.HealthyExactly | claude_ai/transport/proxy/list.py:38-44 | An entry is skipped exactly when it failed at least the configured number of times since its last success |

## Left out

- What `stop` drains: the code promises nothing (a retry can land behind the sentinels), so nothing is stated beyond the run properties, which hold across its steps. The drain timeout is a cancellation at any moment.
- Timestamps of envelopes, jobs and accounts other than `created_at`, and logging.
- The object shared between the dead list and the event map: records are values, so a later change of the one through the other is not captured.
- A handler that raises other than `Exception` is only logged by the dispatcher and is not modelled.
- Two `map` calls of one executor at a time, and so the bulkhead over both.
- Trackers without a store, and the relogin task that releases a quarantined account on its own.
- Interleaving of tracker calls inside one `pick` with a slow storage backend.
- The API key store, which pages like the account store.
- Redis, Mongo, SQLite and file backends; the database beyond what its query may return.
- `isdigit` on digits other than ASCII in a message cursor, on which `int` may also fail.
- Negative page limits, which the request schema clamps away.
- `split_tools`, prompt rendering, the middleware chain, handler matching, metrics: single-step functions.
- Transports, web adapters, models and the rest of the session: I/O plumbing.
- Conversation cache coherence: sends do not invalidate it, so there is nothing to prove.
