/**
 * The executor object (claude_ai/orchestrator/executor.py): one method for each stretch
 * of code between two awaits, each proved to take exactly one step of ExecutorMachine.
 */
module BulkExecutor {
  import opened Wrappers
  import opened TaskLoop
  import opened ExecutorMachine

  class BulkExecutor {
    const cfg: Config
    const items: seq<Item>
    const capacity: nat
    ghost const before: seq<BulkResult>
    var next: nat
    var queue: seq<nat>
    var unfinished: int
    var workers: map<nat, Phase>
    var sems: map<Account, int>
    var results: seq<Option<BulkResult>>
    var deadLetters: seq<BulkResult>
    ghost var places: seq<Place>
    ghost var calls: seq<seq<Call>>
    ghost var asks: seq<seq<Ask>>
    ghost var fired: seq<nat>

    ghost function View(): State
      reads this
    {
      State(cfg, items, capacity, next, queue, unfinished, workers, sems, results, deadLetters,
            before, places, calls, asks, fired)
    }

    /** `map` with its queue of twice the number of slots and one idle worker per slot. */
    constructor (cfg: Config, items: seq<Item>, clients: nat)
      ensures Initial(View()) && View().cfg == cfg && View().items == items
      ensures |View().workers| == Max(1, clients * cfg.perAccount)
      ensures View().capacity == 2 * Max(1, clients * cfg.perAccount)
    {
      this.cfg, this.items, this.before := cfg, items, [];
      var slots := Max(1, clients * cfg.perAccount);
      capacity := slots * 2;
      next, queue, unfinished := 0, [], 0;
      workers := IdleWorkers(slots);
      sems := map[];
      results := seq(|items|, _ => None);
      deadLetters := [];
      places, calls := seq(|items|, _ => Unsent), seq(|items|, _ => []);
      asks, fired := seq(|items|, _ => []), seq(|items|, _ => 0);
    }

    /** `queue.put` of the next task; the caller waits until there is room. */
    method Put()
      requires WellShaped(View()) && next < |items| && |queue| < capacity
      modifies this
      ensures View() == Produced(old(View()))
    {
      queue, unfinished := queue + [next], unfinished + 1;
      places := places[next := Queued];
      next := next + 1;
    }

    /** The code after `_run_one` returns, up to `on_result`. */
    method Store(w: nat, task: Task, r: BulkResult)
      requires WellShaped(View()) && task.index < |items|
      modifies this
      ensures View() == Settled(old(View()), w, task, r)
    {
      results := results[task.index := Some(r)];
      if !r.ok {
        deadLetters := deadLetters + [r];
      }
      fired := fired[task.index := fired[task.index] + (if cfg.notifies then 1 else 0)];
      workers := workers[w := Reporting(task, r)];
    }

    /** `while attempts < max_attempts`: pick again, or leave with the failure. */
    method EnterLoop(w: nat, task: Task, l: Local)
      requires WellShaped(View()) && task.index < |items|
      modifies this
      ensures View() == Loop(old(View()), w, task, l)
    {
      if l.attempts < cfg.maxAttempts {
        workers := workers[w := Picking(task, l)];
      } else {
        Store(w, task, Fail(task, l));
      }
    }

    method Get(w: nat)
      requires WellShaped(View()) && w in workers && workers[w].Idle? && |queue| > 0
      modifies this
      ensures View() == Taken(old(View()), w)
    {
      var i := queue[0];
      queue := queue[1..];
      places := places[i := With(w)];
      EnterLoop(w, Task(i, items[i]), START);
    }

    /** `pick` answered: count the attempt, sleep, or give up. */
    method Answer(w: nat, reply: PickReply)
      requires WellShaped(View()) && w in workers && workers[w].Picking?
      requires reply.Picked? ==> reply.account !in workers[w].l.tried
      modifies this
      ensures View() == Replied(old(View()), w, reply)
    {
      var task, l := workers[w].task, workers[w].l;
      asks := asks[task.index := asks[task.index] + [Ask(l.tried, reply)]];
      match reply
      case Picked(a) =>
        workers := workers[w := Acquiring(task, l.(attempts := l.attempts + 1), a)];
      case NoneAvailable =>
        if l.waits + 1 > cfg.maxParkWaits {
          Store(w, task, Fail(task, Local(l.tried, l.attempts, l.waits + 1, "all accounts parked/quarantined")));
        } else {
          workers := workers[w := Sleeping(task, l.(waits := l.waits + 1))];
        }
      case NoClients(message) =>
        Store(w, task, Fail(task, l.(lastErr := message)));
    }

    /** `_sem` and `async with`: the account's semaphore is made on first use. */
    method AcquirePermit(w: nat)
      requires WellShaped(View()) && w in workers && workers[w].Acquiring? && Free(View(), workers[w].account) > 0
      modifies this
      ensures View() == Acquired(old(View()), w)
    {
      var p := workers[w];
      var free := if p.account in sems then sems[p.account] else cfg.perAccount;
      sems := sems[p.account := free - 1];
      workers := workers[w := Calling(p.task, p.l, p.account)];
    }

    method ReleasePermit(a: Account)
      modifies this`sems
      ensures View() == Release(old(View()), a)
    {
      var free := if a in sems then sems[a] else cfg.perAccount;
      sems := sems[a := free + 1];
    }

    /** The task function ends: by return, by a caught error, or by an unknown one. */
    method EndCall(w: nat, outcome: Outcome)
      requires WellShaped(View()) && w in workers && workers[w].Calling?
      modifies this
      ensures View() == Ended(old(View()), w, outcome)
      ensures var p := old(workers)[w];
        && w in workers
        && (outcome.RateLimited? || outcome.AuthFailed? ==> workers[w] == Reacting(p.task, p.l, p.account, outcome))
        && (outcome.Refused? && p.l.attempts < cfg.maxAttempts ==>
              workers[w] == Picking(p.task, Local(p.l.tried + {p.account}, p.l.attempts, p.l.waits, outcome.message)))
        && (outcome.Transient? && p.l.attempts < cfg.maxAttempts ==>
              workers[w] == Picking(p.task, Local(p.l.tried, p.l.attempts, p.l.waits, outcome.message)))
    {
      var p := workers[w];
      calls := calls[p.task.index := calls[p.task.index] + [Call(p.account, outcome)]];
      match outcome
      case Returned(value) =>
        ReleasePermit(p.account);
        Store(w, p.task, Succeed(p.task, p.l, p.account, value));
      case Unknown(message) =>
        ReleasePermit(p.account);
        Store(w, p.task, Fail(p.task, p.l.(lastErr := message)));
      case RateLimited(_) => workers := workers[w := Reacting(p.task, p.l, p.account, outcome)];
      case AuthFailed(_) => workers := workers[w := Reacting(p.task, p.l, p.account, outcome)];
      case Refused(message) =>
        ReleasePermit(p.account);
        EnterLoop(w, p.task, p.l.(tried := p.l.tried + {p.account}, lastErr := message));
      case Transient(message) =>
        ReleasePermit(p.account);
        EnterLoop(w, p.task, p.l.(lastErr := message));
    }

    /** `park` or `report_expired` is done: set the account aside and leave the semaphore. */
    method FinishReaction(w: nat)
      requires WellShaped(View()) && w in workers && workers[w].Reacting? && workers[w].outcome.Excludes()
      modifies this
      ensures View() == AfterReaction(old(View()), w)
      ensures var p := old(workers)[w];
        && w in workers
        && (p.l.attempts < cfg.maxAttempts ==>
              workers[w] == Picking(p.task, Local(p.l.tried + {p.account}, p.l.attempts, p.l.waits, p.outcome.message)))
    {
      var p := workers[w];
      ReleasePermit(p.account);
      EnterLoop(w, p.task, p.l.(tried := p.l.tried + {p.account}, lastErr := p.outcome.message));
    }

    /** `finally: queue.task_done()`, after `on_result` or after an exception. */
    method TaskDone(w: nat, died: bool)
      requires WellShaped(View()) && w in workers && workers[w].Holds() && (!died ==> workers[w].Reporting?)
      modifies this
      ensures View() == if died then Raised(old(View()), w) else Done(old(View()), w, Finished, Idle)
    {
      var p := workers[w];
      if p.Calling? || p.Reacting? {
        ReleasePermit(p.account);
      }
      unfinished := unfinished - 1;
      places := places[p.task.index := if died then Crashed else Finished];
      workers := workers[w := if died then Dead else Idle];
    }
  }

  function IdleWorkers(n: nat): (workers: map<nat, Phase>)
    ensures forall w: nat :: w in workers <==> w < n
    ensures forall w :: w in workers ==> workers[w] == Idle
    ensures |workers| == n
  {
    if n == 0 then map[] else IdleWorkers(n - 1)[n - 1 := Idle]
  }
}
