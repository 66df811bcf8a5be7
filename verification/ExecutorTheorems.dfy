/** What holds over whole runs of the bulk executor, for every schedule of its workers. */
module ExecutorTheorems {
  import opened Wrappers
  import opened TaskLoop
  import opened ExecutorMachine
  import opened ExecutorProofs

  lemma {:induction false} UntouchedFailures(n: nat)
    ensures Failures(seq(n, _ => None)) == multiset{}
  {
    if n > 0 {
      UntouchedFailures(n - 1);
      var all: seq<Option<BulkResult>> := seq(n, _ => None);
      assert all[..n - 1] == seq(n - 1, _ => None);
    }
  }

  lemma InitialInv(s: State)
    requires Initial(s)
    ensures Inv(s) && PermitsAgree(s)
  {
    assert Holders(s.workers) == {};
    UntouchedFailures(|s.items|);
    forall a ensures PermitHolders(s.workers, a) == {} {
    }
  }

  lemma {:induction false} RunInv(run: seq<State>, acts: seq<Action>, n: nat)
    requires IsRun(run, acts) && n < |run|
    ensures Inv(run[n]) && PermitsAgree(run[n])
    ensures run[n].cfg == run[0].cfg && run[n].items == run[0].items && run[n].before == run[0].before
    ensures run[n].capacity == run[0].capacity && run[n].workers.Keys == run[0].workers.Keys
  {
    if n == 0 {
      InitialInv(run[0]);
    } else {
      RunInv(run, acts, n - 1);
      StepKeepsInv(run[n - 1], acts[n - 1]);
      StepKeepsPermits(run[n - 1], acts[n - 1]);
      StepKeepsInputs(run[n - 1], acts[n - 1]);
    }
  }

  lemma StepKeepsInputs(s: State, act: Action)
    requires Enabled(s, act)
    ensures var t := Apply(s, act);
      && t.cfg == s.cfg && t.items == s.items && t.before == s.before
      && t.capacity == s.capacity && t.workers.Keys == s.workers.Keys
  {
  }

  /** One more step makes a longer run. */
  lemma RunGrows(run: seq<State>, acts: seq<Action>, act: Action)
    requires IsRun(run, acts) && Enabled(run[|acts|], act)
    ensures IsRun(run + [Apply(run[|acts|], act)], acts + [act])
  {
    var longer, more := run + [Apply(run[|acts|], act)], acts + [act];
    forall i | 0 <= i < |more| ensures Enabled(longer[i], more[i]) && longer[i + 1] == Apply(longer[i], more[i]) {
      assert longer[i] == run[i];
      assert i < |acts| ==> longer[i + 1] == run[i + 1] && more[i] == acts[i];
    }
  }

  // ---- Backpressure ----

  lemma StepKeepsQueueBound(s: State, act: Action)
    requires Enabled(s, act) && |s.queue| <= s.capacity
    ensures |Apply(s, act).queue| <= s.capacity == Apply(s, act).capacity
  {
  }

  /** The producer never puts more than the queue holds. */
  lemma {:induction false} QueueIsBounded(run: seq<State>, acts: seq<Action>, n: nat)
    requires IsRun(run, acts) && n < |run|
    ensures |run[n].queue| <= run[0].capacity == run[n].capacity
  {
    if n > 0 {
      QueueIsBounded(run, acts, n - 1);
      StepKeepsQueueBound(run[n - 1], acts[n - 1]);
    }
  }

  // ---- Bulkhead ----

  ghost function InFlight(s: State, a: Account): set<nat> {
    set w | w in s.workers && s.workers[w].Calling? && s.workers[w].account == a
  }

  /** At most `concurrency_per_account` task calls are in flight on any account, in every reachable state. */
  lemma Bulkhead(run: seq<State>, acts: seq<Action>, n: nat, a: Account)
    requires IsRun(run, acts) && n < |run|
    ensures |InFlight(run[n], a)| <= run[0].cfg.perAccount
    ensures PermitHolders(run[n].workers, a) == {} ==> Free(run[n], a) == run[0].cfg.perAccount
  {
    RunInv(run, acts, n);
    Subset(InFlight(run[n], a), PermitHolders(run[n].workers, a));
  }

  lemma Subset(small: set<nat>, big: set<nat>)
    requires small <= big
    ensures |small| <= |big|
  {
    if small != {} {
      var x :| x in small;
      Subset(small - {x}, big - {x});
    }
  }

  // ---- One task under any schedule ----

  /**
   * In every reachable state a task has called its function at most `max_attempts` times, never
   * after a success or an unknown error, and never again on an account that rate-limited it,
   * refused it or was logged out; a finished task's result sums its calls up.
   */
  lemma TaskHistory(run: seq<State>, acts: seq<Action>, n: nat, i: nat)
    requires IsRun(run, acts) && n < |run| && i < |run[0].items|
    ensures var s, cfg := run[n], run[0].cfg;
      && |s.calls| == |s.results| == |s.asks| == |s.fired| == |run[0].items|
      && CallsOk(s.calls[i]) && |s.calls[i]| <= Max(0, cfg.maxAttempts)
      && AsksOk(s.asks[i], s.calls[i]) && |s.asks[i]| <= RoundBound(cfg)
      && s.fired[i] == (if s.results[i].Some? && cfg.notifies then 1 else 0)
      && (s.results[i].Some? ==> ResultOk(cfg, Task(i, run[0].items[i]), s.results[i].value, s.asks[i], s.calls[i]))
  {
    RunInv(run, acts, n);
    var task := Task(i, run[n].items[i]);
    assert CardOk(run[n].cfg, task, CardOf(run[n], i));
    CardIsBounded(run[n].cfg, task, CardOf(run[n], i));
  }

  /**
   * A task fails only when it cannot go on: every attempt was used, the last call ended in an unknown
   * error, there were no clients, or the waits were used up. So while attempts, waits and eligible
   * accounts last, it fails over, and its error is the message of what stopped it.
   */
  lemma FailsOnlyWhen(run: seq<State>, acts: seq<Action>, n: nat, i: nat)
    requires IsRun(run, acts) && n < |run| && i < |run[0].items|
    requires |run[n].results| == |run[n].asks| == |run[n].calls| == |run[0].items|
    requires run[n].results[i].Some? && !run[n].results[i].value.ok
    ensures var cfg, r, asks, calls := run[0].cfg, run[n].results[i].value, run[n].asks[i], run[n].calls[i];
      || (r.attempts == Max(0, cfg.maxAttempts) && r.error == Some(if calls == [] then "no attempt made" else LastError(calls)))
      || (calls != [] && calls[|calls| - 1].outcome.Unknown? && r.error == Some(calls[|calls| - 1].outcome.message))
      || (asks != [] && asks[|asks| - 1].reply.NoClients? && r.error == Some(asks[|asks| - 1].reply.message))
      || (Waits(asks) == Max(0, cfg.maxParkWaits) + 1 && r.error == Some("all accounts parked/quarantined"))
  {
    TaskHistory(run, acts, n, i);
  }

  /** The calls of item `i` that the first `n` actions end, with the account its worker was calling. */
  function CallsIn(run: seq<State>, acts: seq<Action>, n: nat, i: nat): seq<Call>
    requires IsRun(run, acts) && n <= |acts|
  {
    if n == 0 then []
    else
      var rest, s, act := CallsIn(run, acts, n - 1, i), run[n - 1], acts[n - 1];
      if act.End? && s.workers[act.w].task.index == i then rest + [Call(s.workers[act.w].account, act.outcome)] else rest
  }

  /** The answers of `pick` to the worker of item `i` among the first `n` actions, with what it excluded. */
  function AsksIn(run: seq<State>, acts: seq<Action>, n: nat, i: nat): seq<Ask>
    requires IsRun(run, acts) && n <= |acts|
  {
    if n == 0 then []
    else
      var rest, s, act := AsksIn(run, acts, n - 1, i), run[n - 1], acts[n - 1];
      if act.Reply? && s.workers[act.w].task.index == i then rest + [Ask(s.workers[act.w].l.tried, act.reply)] else rest
  }

  /** What a step adds to the history of an item. */
  lemma StepLogs(s: State, act: Action, i: nat)
    requires Enabled(s, act) && i < |s.items|
    ensures var t := Apply(s, act);
      && |t.calls| == |t.asks| == |s.items|
      && t.calls[i] == s.calls[i] + (if act.End? && s.workers[act.w].task.index == i
                                     then [Call(s.workers[act.w].account, act.outcome)] else [])
      && t.asks[i] == s.asks[i] + (if act.Reply? && s.workers[act.w].task.index == i
                                   then [Ask(s.workers[act.w].l.tried, act.reply)] else [])
  {
  }

  /** The recorded asks and calls of an item are those of the schedule's actions. */
  lemma {:induction false} HistoryIsTrue(run: seq<State>, acts: seq<Action>, n: nat, i: nat)
    requires IsRun(run, acts) && n < |run| && i < |run[0].items|
    ensures |run[n].calls| == |run[n].asks| == |run[0].items|
    ensures run[n].calls[i] == CallsIn(run, acts, n, i)
    ensures run[n].asks[i] == AsksIn(run, acts, n, i)
  {
    RunInv(run, acts, n);
    if n > 0 {
      RunInv(run, acts, n - 1);
      HistoryIsTrue(run, acts, n - 1, i);
      StepLogs(run[n - 1], acts[n - 1], i);
    }
  }

  // ---- What map returns ----

  function FailedOnly(results: seq<BulkResult>): seq<BulkResult> {
    if results == [] then []
    else
      var rest := FailedOnly(results[..|results| - 1]);
      var last := results[|results| - 1];
      if last.ok then rest else rest + [last]
  }

  lemma {:induction false} FailuresAreReturned(results: seq<Option<BulkResult>>)
    ensures Failures(results) == multiset(FailedOnly(Compact(results)))
  {
    if results != [] {
      var n := |results| - 1;
      FailuresAreReturned(results[..n]);
      if results[n].Some? {
        assert Compact(results)[..|Compact(results)| - 1] == Compact(results[..n]);
      }
    }
  }

  lemma {:induction false} CompactFull(results: seq<Option<BulkResult>>)
    requires forall i :: 0 <= i < |results| ==> results[i].Some?
    ensures |Compact(results)| == |results|
    ensures forall i :: 0 <= i < |results| ==> Compact(results)[i] == results[i].value
  {
    if results != [] {
      CompactFull(results[..|results| - 1]);
    }
  }

  /** When the join can return, no item is queued or held any more. */
  lemma NothingInTransit(s: State, i: nat)
    requires Inv(s) && CanReturn(s) && i < |s.items|
    ensures s.places[i] == Finished || s.places[i] == Crashed
  {
    assert CardOk(s.cfg, Task(i, s.items[i]), CardOf(s, i));
    assert forall w :: w in s.workers && s.workers[w].Holds() ==> w in Holders(s.workers);
    assert s.queue == [];
  }

  /** One result per item, in input order, each notified once, and dead letters for the failures. */
  ghost predicate Complete(s: State, returned: seq<BulkResult>) {
    && |returned| == |s.items| == |s.fired|
    && (forall i :: 0 <= i < |returned| ==> returned[i].index == i && returned[i].item == s.items[i])
    && (forall i :: 0 <= i < |returned| ==> s.fired[i] == (if s.cfg.notifies then 1 else 0))
    && multiset(s.dead) == multiset(s.before) + multiset(FailedOnly(returned))
  }

  lemma FinishedIsComplete(s: State)
    requires Inv(s) && forall i :: 0 <= i < |s.items| ==> s.places[i] == Finished
    ensures Complete(s, Compact(s.results))
  {
    forall i: nat | i < |s.items| ensures Settles(s.cfg, Task(i, s.items[i]), CardOf(s, i)) {
      assert CardOk(s.cfg, Task(i, s.items[i]), CardOf(s, i));
    }
    forall i: nat | i < |s.items|
      ensures s.results[i].Some? && s.results[i].value.index == i && s.results[i].value.item == s.items[i]
      ensures s.fired[i] == (if s.cfg.notifies then 1 else 0)
    {
      assert Settles(s.cfg, Task(i, s.items[i]), CardOf(s, i));
    }
    CompactFull(s.results);
    FailuresAreReturned(s.results);
  }

  /**
   * When `map` returns and no worker died: one result per item, in input order with index equal to
   * position, each notified exactly once, and the new dead letters are exactly the failed results.
   */
  lemma MapReturnsEverything(run: seq<State>, acts: seq<Action>, n: nat)
    requires IsRun(run, acts) && n < |run| && CanReturn(run[n])
    requires forall i :: 0 <= i < |acts| ==> !acts[i].Raise?
    ensures run[n].items == run[0].items && run[n].cfg == run[0].cfg && run[n].before == run[0].before
    ensures Complete(run[n], Compact(run[n].results))
  {
    RunInv(run, acts, n);
    forall i: nat | i < |run[n].items| ensures run[n].places[i] == Finished {
      NothingInTransit(run[n], i);
      NeverCrashed(run, acts, n, i);
    }
    FinishedIsComplete(run[n]);
  }

  lemma {:induction false} NeverCrashed(run: seq<State>, acts: seq<Action>, n: nat, i: nat)
    requires IsRun(run, acts) && n < |run| && i < |run[0].items|
    requires forall k :: 0 <= k < |acts| ==> !acts[k].Raise?
    ensures WellShaped(run[n]) && i < |run[n].items| && run[n].places[i] != Crashed
  {
    RunInv(run, acts, n);
    if n > 0 {
      NeverCrashed(run, acts, n - 1, i);
      RunInv(run, acts, n - 1);
      OnlyRaiseCrashes(run[n - 1], acts[n - 1], i);
    }
  }

  lemma OnlyRaiseCrashes(s: State, act: Action, i: nat)
    requires Enabled(s, act) && !act.Raise? && i < |s.items| && s.places[i] != Crashed
    ensures Apply(s, act).places[i] != Crashed
  {
  }

  /**
   * With dying workers too: what `map` returns is the stored results, and an item is missing only
   * if its worker died before storing one. The dead letters still match the failures returned.
   */
  lemma MapReturnsWhatWasStored(run: seq<State>, acts: seq<Action>, n: nat)
    requires IsRun(run, acts) && n < |run| && CanReturn(run[n])
    ensures var s := run[n];
      && |s.results| == |s.places| == |run[0].items|
      && (forall i :: 0 <= i < |s.results| && s.results[i] == None ==> s.places[i] == Crashed)
      && multiset(s.dead) == multiset(run[0].before) + multiset(FailedOnly(Compact(s.results)))
  {
    RunInv(run, acts, n);
    var s := run[n];
    FailuresAreReturned(s.results);
    forall i: nat | i < |s.items| && s.results[i] == None ensures s.places[i] == Crashed {
      NothingInTransit(s, i);
      assert CardOk(s.cfg, Task(i, s.items[i]), CardOf(s, i));
    }
  }
}
