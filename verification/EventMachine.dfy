/**
 * Every interleaving of producers and consumers of the event bus
 * (claude_ai/bus/worker.py). A step is the code between two awaits. The history,
 * the places and the outcome sets exist only to state properties.
 */
module EventMachine {
  import opened Wrappers
  import opened EventStore

  datatype Config = Config(concurrency: nat, queueSize: int, maxAttempts: int, backoff: real)

  datatype Stats = Stats(enqueued: nat, processed: nat, failed: nat, retried: nat, deadLettered: nat)

  datatype HandlerError = HandlerError(handler: string, message: string)

  datatype DispatchResult = DispatchResult(handlerErrors: seq<HandlerError>, middlewareError: Option<string>)

  function JoinErrors(errors: seq<HandlerError>): string {
    if |errors| == 0 then ""
    else if |errors| == 1 then errors[0].message
    else JoinErrors(errors[..|errors| - 1]) + "; " + errors[|errors| - 1].message
  }

  /** Where a consumer task is suspended. */
  datatype Phase =
    | Waiting                                                                  // in queue.get
    | Dispatching(env: Envelope)
    | MarkingProcessed(env: Envelope)                                          // before store.mark_processed
    | Completed(env: Envelope)                                                 // after it
    | BackingOff(env: Envelope, error: string)                                 // asleep, or before store.mark_failed
    | Requeueing(env: Envelope, error: string)                                 // in queue.put of the retry
    | MarkingFailed(env: Envelope, error: string, handler: Option<string>)     // before store.mark_failed
    | DeadLettering(env: Envelope, error: string, handler: Option<string>)     // before store.dead_letter
    | DeadLettered(env: Envelope)                                              // after it
    | Exited
  {
    predicate Holds() { !Waiting? && !Exited? }
  }

  /** A producer inside `enqueue`: before `store.save`, or in `queue.put`. */
  datatype Arrival = Saving(env: Envelope) | Putting(env: Envelope)

  datatype Place = Arriving | Queued(env: Envelope) | Held(task: nat) | Gone

  datatype Outcome = Success | Failure

  datatype History = History(dispatched: seq<int>, delays: seq<real>, outcomes: seq<Outcome>)

  datatype State = State(
    cfg: Config,
    queue: seq<Option<Envelope>>,     // None is the stop sentinel
    unfinished: int,                  // the queue's count of items put but not task_done
    tasks: map<nat, Phase>,
    arriving: map<Id, Arrival>,
    running: bool,
    stopping: bool,
    stats: Stats,
    store: StoreState,
    // properties only
    places: map<Id, Place>,
    hist: map<Id, History>,
    entered: set<Id>,                 // put on the queue by a producer
    succeeded: set<Id>,
    failures: set<Id>,
    dropped: set<Id>)                 // abandoned by an exception or a cancellation

  datatype Action =
    | Start
    | Accept(env: Envelope)
    | SaveArrival(id: Id)
    | PutArrival(id: Id)
    | AbortArrival(id: Id)
    | Get(c: nat)
    | DispatchDone(c: nat, result: DispatchResult)
    | StoreProcessed(c: nat)
    | FinishProcessed(c: nat)
    | BackoffDone(c: nat)
    | PutRetry(c: nat)
    | StoreFailed(c: nat)
    | StoreDead(c: nat)
    | FinishDead(c: nat)
    | Drop(c: nat, cancelled: bool)
    | Stop
    | PutSentinel
    | StopDone

  predicate HasRoom(s: State) {
    s.cfg.queueSize <= 0 || |s.queue| < s.cfg.queueSize
  }

  function Pow2(n: nat): nat {
    if n == 0 then 1 else 2 * Pow2(n - 1)
  }

  /** The sleep after attempt `n` fails. */
  function Delay(cfg: Config, n: int): real {
    if n < 1 then cfg.backoff else cfg.backoff * (Pow2(n - 1) as real)
  }

  function Consumers(n: nat): (tasks: map<nat, Phase>)
    ensures forall c: nat :: c in tasks <==> c < n
    ensures forall c :: c in tasks ==> tasks[c] == Waiting
  {
    if n == 0 then map[] else Consumers(n - 1)[n - 1 := Waiting]
  }

  predicate At(s: State, c: nat) { c in s.tasks }

  predicate Enabled(s: State, a: Action) {
    match a
    case Start => !s.running
    case Accept(env) => s.running && !s.stopping && env.id !in s.places && env.attempt == 1
    case SaveArrival(id) => id in s.arriving && s.arriving[id].Saving?
    case PutArrival(id) => id in s.arriving && s.arriving[id].Putting? && HasRoom(s)
    case AbortArrival(id) => id in s.arriving
    case Get(c) => At(s, c) && s.tasks[c].Waiting? && |s.queue| > 0
    case DispatchDone(c, _) => At(s, c) && s.tasks[c].Dispatching?
    case StoreProcessed(c) => At(s, c) && s.tasks[c].MarkingProcessed?
    case FinishProcessed(c) => At(s, c) && s.tasks[c].Completed?
    case BackoffDone(c) => At(s, c) && s.tasks[c].BackingOff?
    case PutRetry(c) => At(s, c) && s.tasks[c].Requeueing? && HasRoom(s)
    case StoreFailed(c) => At(s, c) && s.tasks[c].MarkingFailed?
    case StoreDead(c) => At(s, c) && s.tasks[c].DeadLettering?
    case FinishDead(c) => At(s, c) && s.tasks[c].DeadLettered?
    case Drop(c, cancelled) => At(s, c) && (s.tasks[c].Holds() || (cancelled && s.tasks[c].Waiting?))
    case Stop => s.running && !s.stopping
    case PutSentinel => s.running && s.stopping && HasRoom(s)
    case StopDone => s.running && s.stopping && forall c :: c in s.tasks ==> s.tasks[c].Exited?
  }

  function HistoryOf(hist: map<Id, History>, id: Id): History {
    if id in hist then hist[id] else History([], [], [])
  }

  function Succeeding(s: State, c: nat, env: Envelope): State {
    var h := HistoryOf(s.hist, env.id);
    s.(stats := s.stats.(processed := s.stats.processed + 1),
       tasks := s.tasks[c := MarkingProcessed(env)],
       hist := s.hist[env.id := h.(outcomes := h.outcomes + [Success])],
       succeeded := s.succeeded + {env.id})
  }

  function Retrying(s: State, c: nat, env: Envelope, error: string): State {
    var h := HistoryOf(s.hist, env.id);
    s.(stats := s.stats.(retried := s.stats.retried + 1),
       tasks := s.tasks[c := BackingOff(env, error)],
       hist := s.hist[env.id := h.(delays := h.delays + [Delay(s.cfg, env.attempt)])])
  }

  function GivingUp(s: State, c: nat, env: Envelope, error: string, handler: Option<string>): State {
    var h := HistoryOf(s.hist, env.id);
    s.(stats := s.stats.(failed := s.stats.failed + 1),
       tasks := s.tasks[c := MarkingFailed(env, error, handler)],
       hist := s.hist[env.id := h.(outcomes := h.outcomes + [Failure])],
       failures := s.failures + {env.id})
  }

  /** `_handle`, from the return of `dispatch` to the next await. */
  function AfterDispatch(s: State, c: nat, env: Envelope, result: DispatchResult): State {
    if result.middlewareError.Some? then GivingUp(s, c, env, result.middlewareError.value, None)
    else if |result.handlerErrors| == 0 then Succeeding(s, c, env)
    else if env.attempt < env.maxAttempts then Retrying(s, c, env, JoinErrors(result.handlerErrors))
    else GivingUp(s, c, env, JoinErrors(result.handlerErrors), Some(result.handlerErrors[|result.handlerErrors| - 1].handler))
  }

  // ---- What each step does ----

  function Started(s: State): State {
    s.(running := true, stopping := false, tasks := Consumers(s.cfg.concurrency))
  }

  function Accepted(s: State, env: Envelope): State {
    s.(arriving := s.arriving[env.id := Saving(env.(maxAttempts := s.cfg.maxAttempts))],
       places := s.places[env.id := Arriving],
       hist := s.hist[env.id := History([], [], [])])
  }

  function Saved(s: State, id: Id): State
    requires id in s.arriving
  {
    s.(arriving := s.arriving[id := Putting(s.arriving[id].env)], store := Save(s.store, s.arriving[id].env))
  }

  function Arrived(s: State, id: Id): State
    requires id in s.arriving
  {
    s.(queue := s.queue + [Some(s.arriving[id].env)],
       unfinished := s.unfinished + 1,
       arriving := s.arriving - {id},
       stats := s.stats.(enqueued := s.stats.enqueued + 1),
       places := s.places[id := Queued(s.arriving[id].env)],
       entered := s.entered + {id})
  }

  function Aborted(s: State, id: Id): State {
    s.(arriving := s.arriving - {id}, places := s.places[id := Gone])
  }

  function Got(s: State, c: nat): State
    requires |s.queue| > 0
  {
    if s.queue[0].None? then
      s.(queue := s.queue[1..], unfinished := s.unfinished - 1, tasks := s.tasks[c := Exited])
    else
      var env := s.queue[0].value;
      var h := HistoryOf(s.hist, env.id);
      s.(queue := s.queue[1..],
         tasks := s.tasks[c := Dispatching(env)],
         places := s.places[env.id := Held(c)],
         hist := s.hist[env.id := h.(dispatched := h.dispatched + [env.attempt])])
  }

  function ProcessedStored(s: State, c: nat): State
    requires At(s, c) && s.tasks[c].Holds()
  {
    var env := s.tasks[c].env;
    s.(store := MarkProcessed(s.store, env.id), tasks := s.tasks[c := Completed(env)])
  }

  /** `mark_failed` of the attempt that will be retried; the put of the retry comes next. */
  function RetryStored(s: State, c: nat): State
    requires At(s, c) && s.tasks[c].BackingOff?
  {
    var env, error := s.tasks[c].env, s.tasks[c].error;
    s.(store := MarkFailed(s.store, env.id, error, env.attempt), tasks := s.tasks[c := Requeueing(env, error)])
  }

  /** Put of the retry, return from `_handle`, and `task_done` of its predecessor. */
  function Retried(s: State, c: nat): State
    requires At(s, c) && s.tasks[c].Requeueing?
  {
    var env := s.tasks[c].env;
    var retry := env.WithAttempt(env.attempt + 1, Some(s.tasks[c].error));
    s.(queue := s.queue + [Some(retry)],
       unfinished := s.unfinished + 1 - 1,
       places := s.places[env.id := Queued(retry)],
       tasks := s.tasks[c := Waiting])
  }

  function FailureStored(s: State, c: nat): State
    requires At(s, c) && s.tasks[c].MarkingFailed?
  {
    var p := s.tasks[c];
    s.(store := MarkFailed(s.store, p.env.id, p.error, p.env.attempt),
       tasks := s.tasks[c := DeadLettering(p.env, p.error, p.handler)])
  }

  function DeathStored(s: State, c: nat): State
    requires At(s, c) && s.tasks[c].DeadLettering?
  {
    var p := s.tasks[c];
    s.(store := AddDeadLetter(s.store, p.env, p.error, p.handler), tasks := s.tasks[c := DeadLettered(p.env)])
  }

  /** `task_done` for the held envelope; the consumer goes on to `next`. */
  function Released(s: State, c: nat, next: Phase): State
    requires At(s, c) && s.tasks[c].Holds()
  {
    s.(unfinished := s.unfinished - 1,
       places := s.places[s.tasks[c].env.id := Gone],
       tasks := s.tasks[c := next])
  }

  function CountDeadLetter(s: State): State {
    s.(stats := s.stats.(deadLettered := s.stats.deadLettered + 1))
  }

  /** An exception or a cancellation: `_consume` still calls `task_done`. */
  function Lost(s: State, c: nat, next: Phase): State
    requires At(s, c) && s.tasks[c].Holds()
  {
    var id := s.tasks[c].env.id;
    Released(s, c, next).(dropped := s.dropped + {id})
  }

  function Apply(s: State, a: Action): State
    requires Enabled(s, a)
  {
    match a
    case Start => Started(s)
    case Accept(env) => Accepted(s, env)
    case SaveArrival(id) => Saved(s, id)
    case PutArrival(id) => Arrived(s, id)
    case AbortArrival(id) => Aborted(s, id)
    case Get(c) => Got(s, c)
    case DispatchDone(c, result) => AfterDispatch(s, c, s.tasks[c].env, result)
    case StoreProcessed(c) => ProcessedStored(s, c)
    case FinishProcessed(c) => Released(s, c, Waiting)
    case BackoffDone(c) => RetryStored(s, c)
    case PutRetry(c) => Retried(s, c)
    case StoreFailed(c) => FailureStored(s, c)
    case StoreDead(c) => DeathStored(s, c)
    case FinishDead(c) => Released(CountDeadLetter(s), c, Waiting)
    case Drop(c, cancelled) =>
      var next := if cancelled then Exited else Waiting;
      if s.tasks[c].Waiting? then s.(tasks := s.tasks[c := next]) else Lost(s, c, next)
    case Stop => s.(stopping := true)
    case PutSentinel => s.(queue := s.queue + [None], unfinished := s.unfinished + 1)
    case StopDone => s.(running := false, tasks := map[])
  }

  predicate Initial(s: State) {
    s == State(s.cfg, [], 0, map[], map[], false, false, Stats(0, 0, 0, 0, 0), EMPTY_STORE,
               map[], map[], {}, {}, {}, {})
  }

  /** A run: every state follows from the previous one by an enabled action. */
  ghost predicate IsRun(run: seq<State>, acts: seq<Action>) {
    && |run| == |acts| + 1
    && Initial(run[0])
    && forall i :: 0 <= i < |acts| ==> Enabled(run[i], acts[i]) && run[i + 1] == Apply(run[i], acts[i])
  }
}
