/**
 * Every schedule of one `BulkExecutor.map` call (claude_ai/orchestrator/executor.py):
 * a producer, a bounded queue, workers that run the task loop, and one semaphore per
 * account. A step is the code between two awaits.
 */
module ExecutorMachine {
  import opened Wrappers
  import opened TaskLoop

  datatype Phase =
    | Idle                                                          // in queue.get
    | Picking(task: Task, l: Local)                                 // in orchestrator.pick
    | Sleeping(task: Task, l: Local)                                // waiting for an account to be released
    | Acquiring(task: Task, l: Local, account: Account)             // waiting for the account's semaphore
    | Calling(task: Task, l: Local, account: Account)               // the task function is in flight
    | Reacting(task: Task, l: Local, account: Account, outcome: Outcome)  // parking or reporting the account
    | Reporting(task: Task, result: BulkResult)                     // in on_result
    | Dead                                                          // ended by an exception
  {
    predicate Holds() { !Idle? && !Dead? }
    predicate HasPermit(a: Account) { (Calling? || Reacting?) && account == a }
  }

  datatype Place = Unsent | Queued | With(worker: nat) | Finished | Crashed

  datatype State = State(
    cfg: Config,
    items: seq<Item>,
    capacity: nat,
    next: nat,                               // first item not yet put
    queue: seq<nat>,
    unfinished: int,
    workers: map<nat, Phase>,
    sems: map<Account, int>,                 // free permits of the accounts met so far
    results: seq<Option<BulkResult>>,
    dead: seq<BulkResult>,                   // dead_letters
    // properties only
    before: seq<BulkResult>,                 // dead_letters when map was called
    places: seq<Place>,
    calls: seq<seq<Call>>,
    asks: seq<seq<Ask>>,
    fired: seq<nat>)                         // on_result calls by item

  datatype Action =
    | Produce
    | Take(w: nat)
    | Reply(w: nat, reply: PickReply)
    | Wake(w: nat)
    | Acquire(w: nat)
    | End(w: nat, outcome: Outcome)
    | Reacted(w: nat)
    | Reported(w: nat)
    | Raise(w: nat)                          // any exception the worker does not catch

  predicate WellShaped(s: State) {
    && |s.results| == |s.places| == |s.calls| == |s.asks| == |s.fired| == |s.items|
    && s.next <= |s.items|
    && (forall i :: 0 <= i < |s.queue| ==> s.queue[i] < |s.items|)
    && (forall w :: w in s.workers && s.workers[w].Holds() ==> s.workers[w].task.index < |s.items|)
  }

  function Free(s: State, a: Account): int {
    if a in s.sems then s.sems[a] else s.cfg.perAccount
  }

  predicate Is(s: State, w: nat) { w in s.workers }

  predicate Enabled(s: State, act: Action) {
    WellShaped(s) &&
    match act
    case Produce => s.next < |s.items| && |s.queue| < s.capacity
    case Take(w) => Is(s, w) && s.workers[w].Idle? && |s.queue| > 0
    case Reply(w, reply) =>
      Is(s, w) && s.workers[w].Picking? && (reply.Picked? ==> reply.account !in s.workers[w].l.tried)
    case Wake(w) => Is(s, w) && s.workers[w].Sleeping?
    case Acquire(w) => Is(s, w) && s.workers[w].Acquiring? && Free(s, s.workers[w].account) > 0
    case End(w, _) => Is(s, w) && s.workers[w].Calling?
    case Reacted(w) => Is(s, w) && s.workers[w].Reacting? && !s.workers[w].outcome.Ends()
    case Reported(w) => Is(s, w) && s.workers[w].Reporting?
    case Raise(w) => Is(s, w) && s.workers[w].Holds()
  }

  /** `_run_one` returned: store the result, dead-letter a failure, enter on_result. */
  function Settled(s: State, w: nat, task: Task, r: BulkResult): State
    requires WellShaped(s) && task.index < |s.items|
  {
    var i := task.index;
    s.(results := s.results[i := Some(r)],
       dead := if r.ok then s.dead else s.dead + [r],
       fired := s.fired[i := s.fired[i] + (if s.cfg.notifies then 1 else 0)],
       workers := s.workers[w := Reporting(task, r)])
  }

  /** The top of the task loop. */
  function Loop(s: State, w: nat, task: Task, l: Local): State
    requires WellShaped(s) && task.index < |s.items|
  {
    if l.attempts < s.cfg.maxAttempts then s.(workers := s.workers[w := Picking(task, l)])
    else Settled(s, w, task, Fail(task, l))
  }

  function Release(s: State, a: Account): State {
    s.(sems := s.sems[a := Free(s, a) + 1])
  }

  function Produced(s: State): State
    requires Enabled(s, Produce)
  {
    s.(queue := s.queue + [s.next], unfinished := s.unfinished + 1, next := s.next + 1, places := s.places[s.next := Queued])
  }

  function Taken(s: State, w: nat): State
    requires Enabled(s, Take(w))
  {
    var i := s.queue[0];
    Loop(s.(queue := s.queue[1..], places := s.places[i := With(w)]), w, Task(i, s.items[i]), START)
  }

  function Asked(s: State, i: nat, ask: Ask): State
    requires WellShaped(s) && i < |s.items|
  {
    s.(asks := s.asks[i := s.asks[i] + [ask]])
  }

  function TakeTurn(s: State, w: nat, task: Task, turn: Turn): State
    requires WellShaped(s) && task.index < |s.items|
  {
    match turn
    case MakeCall(l, a) => s.(workers := s.workers[w := Acquiring(task, l, a)])
    case SleepOn(l) => s.(workers := s.workers[w := Sleeping(task, l)])
    case GiveUp(r) => Settled(s, w, task, r)
  }

  function Replied(s: State, w: nat, reply: PickReply): State
    requires Enabled(s, Reply(w, reply))
  {
    var p := s.workers[w];
    TakeTurn(Asked(s, p.task.index, Ask(p.l.tried, reply)), w, p.task, AfterPick(s.cfg, p.task, p.l, reply))
  }

  function Acquired(s: State, w: nat): State
    requires Enabled(s, Acquire(w))
  {
    var p := s.workers[w];
    s.(sems := s.sems[p.account := Free(s, p.account) - 1], workers := s.workers[w := Calling(p.task, p.l, p.account)])
  }

  function Logged(s: State, task: Task, call: Call): State
    requires WellShaped(s) && task.index < |s.items|
  {
    s.(calls := s.calls[task.index := s.calls[task.index] + [call]])
  }

  /** The task function returned or raised inside `async with`. */
  function Ended(s: State, w: nat, outcome: Outcome): State
    requires Enabled(s, End(w, outcome))
  {
    var p := s.workers[w];
    var t := Logged(s, p.task, Call(p.account, outcome));
    if outcome.Ends() then Settled(Release(t, p.account), w, p.task, EndResult(p.task, p.l, p.account, outcome))
    else if outcome.RateLimited? || outcome.AuthFailed? then
      t.(workers := t.workers[w := Reacting(p.task, p.l, p.account, outcome)])
    else Loop(Release(t, p.account), w, p.task, AfterError(p.l, p.account, outcome))
  }

  function AfterReaction(s: State, w: nat): State
    requires Enabled(s, Reacted(w))
  {
    var p := s.workers[w];
    Loop(Release(s, p.account), w, p.task, AfterError(p.l, p.account, p.outcome))
  }

  /** `finally: queue.task_done()`. */
  function Done(s: State, w: nat, place: Place, next: Phase): State
    requires WellShaped(s) && Is(s, w) && s.workers[w].Holds()
  {
    s.(unfinished := s.unfinished - 1,
       places := s.places[s.workers[w].task.index := place],
       workers := s.workers[w := next])
  }

  function Raised(s: State, w: nat): State
    requires Enabled(s, Raise(w))
  {
    var p := s.workers[w];
    Done(if p.Calling? || p.Reacting? then Release(s, p.account) else s, w, Crashed, Dead)
  }

  function Apply(s: State, act: Action): State
    requires Enabled(s, act)
  {
    match act
    case Produce => Produced(s)
    case Take(w) => Taken(s, w)
    case Reply(w, reply) => Replied(s, w, reply)
    case Wake(w) => Loop(s, w, s.workers[w].task, s.workers[w].l)
    case Acquire(w) => Acquired(s, w)
    case End(w, outcome) => Ended(s, w, outcome)
    case Reacted(w) => AfterReaction(s, w)
    case Reported(w) => Done(s, w, Finished, Idle)
    case Raise(w) => Raised(s, w)
  }

  /** The state in which the producer loop of `map` starts. */
  ghost predicate Initial(s: State) {
    var n := |s.items|;
    && s.next == 0 && s.queue == [] && s.unfinished == 0
    && (forall w :: w in s.workers ==> s.workers[w] == Idle)
    && (forall a :: a in s.sems ==> s.sems[a] == s.cfg.perAccount)
    && s.dead == s.before
    && s.results == seq(n, _ => None)
    && s.places == seq(n, _ => Unsent)
    && s.calls == seq(n, _ => [])
    && s.asks == seq(n, _ => [])
    && s.fired == seq(n, _ => 0)
  }

  ghost predicate IsRun(run: seq<State>, acts: seq<Action>) {
    && |run| == |acts| + 1
    && Initial(run[0])
    && forall i :: 0 <= i < |acts| ==> Enabled(run[i], acts[i]) && run[i + 1] == Apply(run[i], acts[i])
  }

  /** Everything was put and `queue.join` can return. */
  predicate CanReturn(s: State) {
    s.next == |s.items| && s.unfinished == 0
  }

  /** `[r for r in results if r is not None]`, what `map` returns. */
  function Compact(results: seq<Option<BulkResult>>): seq<BulkResult> {
    if results == [] then []
    else
      var rest := Compact(results[..|results| - 1]);
      var last := results[|results| - 1];
      if last.Some? then rest + [last.value] else rest
  }
}
