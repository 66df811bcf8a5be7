/** When `map` of the bulk executor can go on, and when it waits for ever. */
module ExecutorProgress {
  import opened Wrappers
  import opened TaskLoop
  import opened ExecutorMachine
  import opened ExecutorProofs
  import opened ExecutorTheorems

  ghost predicate SomeoneAlive(s: State) {
    exists w :: w in s.workers && !s.workers[w].Dead?
  }

  predicate CanPut(s: State) {
    s.next < |s.items| && |s.queue| < s.capacity
  }

  /** Some step other than a worker dying is possible. */
  ghost predicate GoesOn(s: State) {
    exists act: Action :: !act.Raise? && Enabled(s, act)
  }

  /** A worker that holds an item can move, or waits for a permit that another worker will give back. */
  lemma HolderMoves(s: State, w: nat) returns (act: Action)
    requires Inv(s) && PermitsAgree(s) && s.cfg.perAccount > 0
    requires w in s.workers && s.workers[w].Holds()
    ensures !act.Raise? && Enabled(s, act)
  {
    var p := s.workers[w];
    match p {
      case Picking(_, _) => act := Reply(w, NoneAvailable);
      case Sleeping(_, _) => act := Wake(w);
      case Acquiring(_, _, a) =>
        if Free(s, a) > 0 {
          act := Acquire(w);
        } else {
          assert PermitHolders(s.workers, a) != {};
          var v :| v in PermitHolders(s.workers, a);
          act := PermitMoves(s, v);
        }
      case Calling(_, _, _) => act := PermitMoves(s, w);
      case Reacting(_, _, _, _) => act := PermitMoves(s, w);
      case Reporting(_, _) => act := Reported(w);
    }
  }

  lemma PermitMoves(s: State, w: nat) returns (act: Action)
    requires Inv(s) && w in s.workers && (s.workers[w].Calling? || s.workers[w].Reacting?)
    ensures !act.Raise? && Enabled(s, act)
  {
    HeldItem(s, w);
    act := if s.workers[w].Calling? then End(w, Unknown("")) else Reacted(w);
  }

  /**
   * While `map` cannot return, it can go on exactly as long as some worker is alive or there is an
   * item to put and room for it: no schedule of live workers is stuck, on the queue or on the
   * semaphores, and once every worker has died with work left and nothing to put, it waits for ever.
   */
  lemma GoesOnExactly(s: State)
    requires Inv(s) && PermitsAgree(s) && s.cfg.perAccount > 0 && s.capacity > 0 && !CanReturn(s)
    ensures GoesOn(s) <==> SomeoneAlive(s) || CanPut(s)
  {
    if CanPut(s) {
      assert Enabled(s, Produce);
    } else if SomeoneAlive(s) {
      if w :| w in s.workers && s.workers[w].Holds() {
        var act := HolderMoves(s, w);
      } else {
        assert Holders(s.workers) == {};
        var w :| w in s.workers && !s.workers[w].Dead?;
        assert Enabled(s, Take(w));
      }
    }
  }

  /** With every worker dead and nothing to put, no step is possible at all. */
  lemma DeadPoolIsStuck(s: State, act: Action)
    requires !SomeoneAlive(s) && !CanPut(s)
    ensures !Enabled(s, act)
  {
  }

  /** The same along a run, for the executors `map` builds: at least one permit and one queue slot. */
  lemma MapGoesOnExactly(run: seq<State>, acts: seq<Action>, n: nat)
    requires IsRun(run, acts) && n < |run| && !CanReturn(run[n])
    requires run[0].cfg.perAccount > 0 && run[0].capacity > 0
    ensures GoesOn(run[n]) <==> SomeoneAlive(run[n]) || CanPut(run[n])
  {
    RunInv(run, acts, n);
    GoesOnExactly(run[n]);
  }

  // ---- What a caller can rely on ----

  lemma OnlyRaiseKills(s: State, act: Action, w: nat)
    requires Enabled(s, act) && !act.Raise? && w in s.workers && !s.workers[w].Dead?
    ensures var t := Apply(s, act); w in t.workers && !t.workers[w].Dead?
  {
  }

  lemma {:induction false} NobodyDies(run: seq<State>, acts: seq<Action>, n: nat, w: nat)
    requires IsRun(run, acts) && n < |run| && w in run[0].workers
    requires forall k :: 0 <= k < |acts| ==> !acts[k].Raise?
    ensures w in run[n].workers && !run[n].workers[w].Dead?
  {
    if n > 0 {
      NobodyDies(run, acts, n - 1, w);
      OnlyRaiseKills(run[n - 1], acts[n - 1], w);
    }
  }

  /** An executor that allows a call per account, with the workers and the queue `map` gives it. */
  predicate Usable(s: State) {
    s.cfg.perAccount > 0 && s.capacity > 0 && |s.workers| > 0
  }

  /** As long as no exception ends a worker, `map` either can return or can go on, under every schedule. */
  lemma NeverStuckWithoutException(run: seq<State>, acts: seq<Action>, n: nat)
    requires IsRun(run, acts) && n < |run| && Usable(run[0])
    requires forall k :: 0 <= k < |acts| ==> !acts[k].Raise?
    ensures CanReturn(run[n]) || GoesOn(run[n])
  {
    if !CanReturn(run[n]) {
      assert run[0].workers.Keys != {};
      var w :| w in run[0].workers;
      NobodyDies(run, acts, n, w);
      MapGoesOnExactly(run, acts, n);
    }
  }

  // ---- Without a permit ----

  function Fresh(cfg: Config, items: seq<Item>, capacity: nat): (s: State)
    ensures Initial(s) && s.cfg == cfg && s.items == items && s.capacity == capacity && s.workers == map[0 := Idle]
  {
    var n := |items|;
    State(cfg, items, capacity, 0, [], 0, map[0 := Idle], map[], seq(n, _ => None), [], [],
          seq(n, _ => Unsent), seq(n, _ => []), seq(n, _ => []), seq(n, _ => 0))
  }

  /** With no permit per account the first call waits for ever, though no worker has died. */
  lemma NoPermitsHangs() returns (run: seq<State>, acts: seq<Action>)
    ensures IsRun(run, acts) && run[0].cfg.perAccount == 0 && run[0].capacity > 0 && |run[0].workers| > 0
    ensures forall k :: 0 <= k < |acts| ==> !acts[k].Raise?
    ensures !CanReturn(run[|acts|]) && !GoesOn(run[|acts|])
  {
    var s0 := Fresh(Config(0, 1, 0, true), ["a"], 2);
    var s1 := Apply(s0, Produce);
    var s2 := Apply(s1, Take(0));
    assert s2.workers[0].Picking?;
    var s3 := Apply(s2, Reply(0, Picked("acc")));
    assert s3.workers[0].Acquiring? && Free(s3, "acc") == 0;
    run, acts := [s0, s1, s2, s3], [Produce, Take(0), Reply(0, Picked("acc"))];
  }
}
