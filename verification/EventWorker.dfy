/**
 * The worker object itself (claude_ai/bus/worker.py): one method for each stretch of
 * code between two awaits, each proved to take exactly one step of EventMachine.
 */
module EventWorker {
  import opened Wrappers
  import opened EventStore
  import opened EventMachine

  datatype EnqueueError = WorkerStopped(eventType: string)

  class EventWorker {
    const cfg: Config
    const store: MemoryEventStore
    var queue: seq<Option<Envelope>>
    var unfinished: int
    var tasks: map<nat, Phase>
    var arriving: map<Id, Arrival>
    var running: bool
    var stopping: bool
    var stats: Stats
    ghost var places: map<Id, Place>
    ghost var hist: map<Id, History>
    ghost var entered: set<Id>
    ghost var succeeded: set<Id>
    ghost var failures: set<Id>
    ghost var dropped: set<Id>

    ghost function View(): State
      reads this, store
    {
      State(cfg, queue, unfinished, tasks, arriving, running, stopping, stats, store.View(),
            places, hist, entered, succeeded, failures, dropped)
    }

    constructor (cfg: Config, store: MemoryEventStore)
      requires store.View() == EMPTY_STORE
      ensures this.cfg == cfg && this.store == store
      ensures Initial(View())
    {
      this.cfg, this.store := cfg, store;
      queue, unfinished, tasks, arriving := [], 0, map[], map[];
      running, stopping, stats := false, false, Stats(0, 0, 0, 0, 0);
      places, hist := map[], map[];
      entered, succeeded, failures, dropped := {}, {}, {}, {};
    }

    /** `start`: a no-op when running, otherwise a fresh set of consumers. */
    method Start()
      modifies this
      ensures View() == if old(running) then old(View()) else Started(old(View()))
    {
      if !running {
        running, stopping := true, false;
        tasks := Consumers(cfg.concurrency);
      }
    }

    /** `enqueue` up to `store.save`: refused when the worker is not taking work. */
    method Enqueue(env: Envelope) returns (r: Result<(), EnqueueError>)
      requires env.id !in places && env.attempt == 1
      modifies this
      ensures r.Err? <==> !old(running) || old(stopping)
      ensures r.Err? ==> View() == old(View()) && r.error == WorkerStopped(env.event)
      ensures r.Ok? ==> View() == Accepted(old(View()), env)
    {
      if !running || stopping {
        return Err(WorkerStopped(env.event));
      }
      arriving := arriving[env.id := Saving(env.(maxAttempts := cfg.maxAttempts))];
      places, hist := places[env.id := Arriving], hist[env.id := History([], [], [])];
      return Ok(());
    }

    method SaveArriving(id: Id)
      requires id in arriving && arriving[id].Saving?
      modifies this, store
      ensures View() == Saved(old(View()), id)
    {
      var env := arriving[id].env;
      store.SaveEnvelope(env);
      arriving := arriving[id := Putting(env)];
    }

    /** `queue.put` finds room; the counter moves in the same stretch. */
    method PutArriving(id: Id)
      requires id in arriving && arriving[id].Putting? && HasRoom(View())
      modifies this
      ensures View() == Arrived(old(View()), id)
    {
      var env := arriving[id].env;
      queue, unfinished := queue + [Some(env)], unfinished + 1;
      arriving := arriving - {id};
      stats := stats.(enqueued := stats.enqueued + 1);
      places, entered := places[id := Queued(env)], entered + {id};
    }

    /** `_consume`: the next item, or the sentinel that ends this consumer. */
    method GetNext(c: nat)
      requires c in tasks && tasks[c].Waiting? && |queue| > 0
      modifies this
      ensures View() == Got(old(View()), c)
    {
      var item := queue[0];
      queue := queue[1..];
      if item.None? {
        unfinished, tasks := unfinished - 1, tasks[c := Exited];
      } else {
        tasks := tasks[c := Dispatching(item.value)];
        ghost var h := HistoryOf(hist, item.value.id);
        hist := hist[item.value.id := h.(dispatched := h.dispatched + [item.value.attempt])];
        places := places[item.value.id := Held(c)];
      }
    }

    /** `_handle`, once `dispatch` has returned. */
    method Dispatched(c: nat, result: DispatchResult)
      requires c in tasks && tasks[c].Dispatching?
      modifies this
      ensures View() == AfterDispatch(old(View()), c, old(tasks)[c].env, result)
      ensures c in tasks
      ensures var env, errors := old(tasks)[c].env, result.handlerErrors;
        && (result.middlewareError.Some? ==> tasks[c] == MarkingFailed(env, result.middlewareError.value, None))
        && (result.middlewareError.None? && errors == [] ==> tasks[c] == MarkingProcessed(env))
        && (result.middlewareError.None? && errors != [] && env.attempt < env.maxAttempts ==>
              tasks[c] == BackingOff(env, JoinErrors(errors)))
        && (result.middlewareError.None? && errors != [] && env.attempt >= env.maxAttempts ==>
              tasks[c] == MarkingFailed(env, JoinErrors(errors), Some(errors[|errors| - 1].handler)))
    {
      var env := tasks[c].env;
      ghost var h := HistoryOf(hist, env.id);
      if result.middlewareError.Some? {
        stats := stats.(failed := stats.failed + 1);
        tasks := tasks[c := MarkingFailed(env, result.middlewareError.value, None)];
        hist, failures := hist[env.id := h.(outcomes := h.outcomes + [Failure])], failures + {env.id};
        return;
      }
      if |result.handlerErrors| == 0 {
        stats := stats.(processed := stats.processed + 1);
        tasks := tasks[c := MarkingProcessed(env)];
        hist, succeeded := hist[env.id := h.(outcomes := h.outcomes + [Success])], succeeded + {env.id};
        return;
      }
      var joined := JoinErrors(result.handlerErrors);
      if env.attempt < env.maxAttempts {
        stats := stats.(retried := stats.retried + 1);
        tasks := tasks[c := BackingOff(env, joined)];
        hist := hist[env.id := h.(delays := h.delays + [Delay(cfg, env.attempt)])];
        return;
      }
      stats := stats.(failed := stats.failed + 1);
      var lastHandler := result.handlerErrors[|result.handlerErrors| - 1].handler;
      tasks := tasks[c := MarkingFailed(env, joined, Some(lastHandler))];
      hist, failures := hist[env.id := h.(outcomes := h.outcomes + [Failure])], failures + {env.id};
    }

    method RecordProcessed(c: nat)
      requires c in tasks && tasks[c].MarkingProcessed?
      modifies this, store
      ensures View() == ProcessedStored(old(View()), c)
    {
      var env := tasks[c].env;
      store.SetProcessed(env.id);
      tasks := tasks[c := Completed(env)];
    }

    /** The sleep is over: `mark_failed` goes first, then the put of the next attempt. */
    method RecordRetry(c: nat)
      requires c in tasks && tasks[c].BackingOff?
      modifies this, store
      ensures View() == RetryStored(old(View()), c)
    {
      var env, error := tasks[c].env, tasks[c].error;
      store.SetFailed(env.id, error, env.attempt);
      tasks := tasks[c := Requeueing(env, error)];
    }

    method Requeue(c: nat)
      requires c in tasks && tasks[c].Requeueing? && HasRoom(View())
      modifies this
      ensures View() == Retried(old(View()), c)
    {
      var env := tasks[c].env;
      var retry := env.WithAttempt(env.attempt + 1, Some(tasks[c].error));
      queue, unfinished := queue + [Some(retry)], unfinished + 1;
      places := places[env.id := Queued(retry)];
      unfinished := unfinished - 1;
      tasks := tasks[c := Waiting];
    }

    method RecordFailed(c: nat)
      requires c in tasks && tasks[c].MarkingFailed?
      modifies this, store
      ensures View() == FailureStored(old(View()), c)
    {
      var p := tasks[c];
      store.SetFailed(p.env.id, p.error, p.env.attempt);
      tasks := tasks[c := DeadLettering(p.env, p.error, p.handler)];
    }

    method RecordDead(c: nat)
      requires c in tasks && tasks[c].DeadLettering?
      modifies this, store
      ensures View() == DeathStored(old(View()), c)
    {
      var p := tasks[c];
      store.Bury(p.env, p.error, p.handler);
      tasks := tasks[c := DeadLettered(p.env)];
    }

    /** The end of a handled envelope: back to the top of the consumer loop. */
    method Finish(c: nat)
      requires c in tasks && (tasks[c].Completed? || tasks[c].DeadLettered?)
      modifies this
      ensures old(tasks)[c].Completed? ==> View() == Released(old(View()), c, Waiting)
      ensures old(tasks)[c].DeadLettered? ==> View() == Released(CountDeadLetter(old(View())), c, Waiting)
    {
      if tasks[c].DeadLettered? {
        stats := stats.(deadLettered := stats.deadLettered + 1);
      }
      unfinished := unfinished - 1;
      places := places[tasks[c].env.id := Gone];
      tasks := tasks[c := Waiting];
    }

    /** An exception inside `_handle` is logged; a cancellation ends the task. Either way the item is done. */
    method Abandon(c: nat, cancelled: bool)
      requires c in tasks && tasks[c].Holds()
      modifies this
      ensures View() == Lost(old(View()), c, if cancelled then Exited else Waiting)
    {
      var id := tasks[c].env.id;
      unfinished := unfinished - 1;
      places, dropped := places[id := Gone], dropped + {id};
      tasks := tasks[c := if cancelled then Exited else Waiting];
    }

    /** An `enqueue` that is cancelled, or whose save raises, before its put. */
    method AbandonArrival(id: Id)
      requires id in arriving
      modifies this
      ensures View() == Aborted(old(View()), id)
    {
      arriving, places := arriving - {id}, places[id := Gone];
    }

    /** A consumer cancelled while it waits for the queue. */
    method CancelIdle(c: nat)
      requires c in tasks && tasks[c].Waiting?
      modifies this
      ensures View() == Apply(old(View()), Drop(c, true))
    {
      tasks := tasks[c := Exited];
    }

    /** `stop` closes the intake; it does nothing when the worker is not running, and nothing new when it is stopping. */
    method BeginStop()
      modifies this
      ensures View() == if old(running) then old(View()).(stopping := true) else old(View())
      ensures Enabled(old(View()), Stop) ==> View() == Apply(old(View()), Stop)
    {
      if running {
        stopping := true;
      }
    }

    /** A graceful `stop` queues one sentinel. */
    method AddSentinel()
      requires running && stopping && HasRoom(View())
      modifies this
      ensures View() == Apply(old(View()), PutSentinel)
    {
      queue, unfinished := queue + [None], unfinished + 1;
    }

    /** The end of `stop`, when every consumer has ended. */
    method EndStop()
      requires running && stopping && forall c :: c in tasks ==> tasks[c].Exited?
      modifies this
      ensures View() == Apply(old(View()), StopDone)
    {
      running, tasks := false, map[];
    }
  }
}
