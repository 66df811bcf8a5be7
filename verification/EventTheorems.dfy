/** What holds over whole runs of the event bus, under every interleaving. */
module EventTheorems {
  import opened Wrappers
  import opened EventStore
  import opened EventMachine
  import opened EventProofs

  lemma InitialInv(s: State)
    requires Initial(s)
    ensures Inv(s)
  {
    assert Holders(s.tasks) == {};
  }

  lemma {:induction false} RunInv(run: seq<State>, acts: seq<Action>, n: nat)
    requires IsRun(run, acts) && n < |run|
    ensures Inv(run[n]) && run[n].cfg == run[0].cfg
  {
    if n == 0 {
      InitialInv(run[0]);
    } else {
      RunInv(run, acts, n - 1);
      StepKeepsInv(run[n - 1], acts[n - 1]);
      StepKeepsConfig(run[n - 1], acts[n - 1]);
    }
  }

  lemma StepKeepsConfig(s: State, a: Action)
    requires Enabled(s, a)
    ensures Apply(s, a).cfg == s.cfg
  {
  }

  // ---- At most one live copy ----

  ghost predicate QueuedAt(s: State, i: int, id: Id) {
    0 <= i < |s.queue| && s.queue[i].Some? && s.queue[i].value.id == id
  }

  ghost predicate HeldBy(s: State, c: nat, id: Id) {
    c in s.tasks && s.tasks[c].Holds() && s.tasks[c].env.id == id
  }

  /** At every await boundary an id has at most one copy: one queue slot or one consumer. */
  lemma AtMostOneLiveCopy(run: seq<State>, acts: seq<Action>, n: nat, id: Id)
    requires IsRun(run, acts) && n < |run|
    ensures forall i, j :: QueuedAt(run[n], i, id) && QueuedAt(run[n], j, id) ==> i == j
    ensures forall c, d :: HeldBy(run[n], c, id) && HeldBy(run[n], d, id) ==> c == d
    ensures forall i, c :: !(QueuedAt(run[n], i, id) && HeldBy(run[n], c, id))
    ensures id in run[n].arriving ==> forall i, c :: !QueuedAt(run[n], i, id) && !HeldBy(run[n], c, id)
  {
    RunInv(run, acts, n);
    assert CardOk(run[n].cfg, id, CardOf(run[n], id));
  }

  // ---- Conservation ----

  ghost function LiveOpen(s: State): set<Id> {
    set id | id in s.entered && id in s.places && s.places[id] != Gone && HistoryOf(s.hist, id).outcomes == []
  }

  ghost function LostOpen(s: State): set<Id> {
    set id | id in s.dropped && HistoryOf(s.hist, id).outcomes == []
  }

  /** An entered id is in exactly one of the four accounts. */
  lemma Accounted(s: State, id: Id)
    requires CardsAgree(s)
    ensures id in s.entered <==> id in s.succeeded || id in s.failures || id in LiveOpen(s) || id in LostOpen(s)
    ensures !(id in s.succeeded && id in s.failures)
    ensures !(id in s.succeeded || id in s.failures) || !(id in LiveOpen(s) || id in LostOpen(s))
    ensures !(id in LiveOpen(s) && id in LostOpen(s))
  {
    assert CardOk(s.cfg, id, CardOf(s, id));
  }

  lemma FourWays(all: set<Id>, a: set<Id>, b: set<Id>, c: set<Id>, d: set<Id>)
    requires forall id :: id in all <==> id in a || id in b || id in c || id in d
    requires a !! b && (a + b) !! (c + d) && c !! d
    ensures |all| == |a| + |b| + |c| + |d|
  {
    assert all == (a + b) + (c + d);
  }

  /** enqueued = processed + failed + live without an outcome + dropped without an outcome. */
  lemma Conservation(run: seq<State>, acts: seq<Action>, n: nat)
    requires IsRun(run, acts) && n < |run|
    ensures var s := run[n];
      s.stats.enqueued == s.stats.processed + s.stats.failed + |LiveOpen(s)| + |LostOpen(s)|
    ensures run[n].succeeded !! run[n].failures
  {
    RunInv(run, acts, n);
    Balanced(run[n]);
  }

  lemma Balanced(s: State)
    requires CardsAgree(s) && CountsAgree(s)
    ensures s.stats.enqueued == s.stats.processed + s.stats.failed + |LiveOpen(s)| + |LostOpen(s)|
    ensures s.succeeded !! s.failures
  {
    forall id
      ensures id in s.entered <==> id in s.succeeded || id in s.failures || id in LiveOpen(s) || id in LostOpen(s)
      ensures !(id in s.succeeded && id in s.failures)
      ensures !(id in s.succeeded || id in s.failures) || !(id in LiveOpen(s) || id in LostOpen(s))
      ensures !(id in LiveOpen(s) && id in LostOpen(s))
    {
      Accounted(s, id);
    }
    FourWays(s.entered, s.succeeded, s.failures, LiveOpen(s), LostOpen(s));
  }

  // ---- Flush ----

  /** `join` returns when the count is zero: then every envelope put so far has its outcome in the store. */
  lemma FlushIsSound(run: seq<State>, acts: seq<Action>, n: nat)
    requires IsRun(run, acts) && n < |run|
    ensures var s := run[n];
      && s.unfinished >= 0
      && (s.unfinished == 0 <==> s.queue == [] && forall c :: c in s.tasks ==> !s.tasks[c].Holds())
    ensures var s := run[n];
      s.unfinished == 0 ==> forall id :: id in s.entered && id !in s.dropped ==>
        && id in s.store.events
        && ((id in s.succeeded && s.store.events[id].status == Processed)
         || (id in s.failures && s.store.events[id].status == Dead))
    ensures var s := run[n];
      s.unfinished == 0 && s.dropped == {} ==> s.stats.enqueued == s.stats.processed + s.stats.failed
  {
    RunInv(run, acts, n);
    var s := run[n];
    if s.unfinished == 0 {
      assert forall c :: c in s.tasks && s.tasks[c].Holds() ==> c in Holders(s.tasks);
      forall id | id in s.entered ensures id in s.places && s.places[id] == Gone {
        assert CardOk(s.cfg, id, CardOf(s, id));
      }
      forall id | id in s.entered && id !in s.dropped
        ensures id in s.store.events
        ensures (id in s.succeeded && s.store.events[id].status == Processed)
             || (id in s.failures && s.store.events[id].status == Dead)
      {
        assert CardOk(s.cfg, id, CardOf(s, id));
      }
      Conservation(run, acts, n);
      assert s.dropped == {} ==> LostOpen(s) == {};
      assert LiveOpen(s) == {};
    } else if s.queue == [] {
      assert Holders(s.tasks) != {};
      var c :| c in Holders(s.tasks);
      assert s.tasks[c].Holds();
    }
  }

  /** The steps in which a consumer calls `task_done`: for a sentinel, for a retry's predecessor, and for an envelope done with. */
  predicate CallsTaskDone(s: State, a: Action)
    requires Enabled(s, a)
  {
    || (a.Get? && s.queue[0].None?)
    || a.PutRetry? || a.FinishProcessed? || a.FinishDead?
    || (a.Drop? && s.tasks[a.c].Holds())
  }

  /** `task_done` never drives the count below zero, which asyncio would refuse: it always finds something unfinished. */
  lemma TaskDoneIsCovered(run: seq<State>, acts: seq<Action>, n: nat)
    requires IsRun(run, acts) && n < |acts| && CallsTaskDone(run[n], acts[n])
    ensures run[n].unfinished >= 1
    ensures run[n + 1].unfinished == run[n].unfinished - if acts[n].PutRetry? then 0 else 1
  {
    RunInv(run, acts, n);
    var s, a := run[n], acts[n];
    if !a.Get? {
      assert a.c in Holders(s.tasks);
    }
  }

  // ---- Terminal records never change ----

  ghost predicate Terminal(s: State, id: Id) {
    id in s.store.events && (s.store.events[id].status == Processed || s.store.events[id].status == Dead)
  }

  /** The steps that write the store, and the id each one writes. */
  function Writes(s: State, a: Action): Option<Id>
    requires Enabled(s, a)
  {
    match a
    case SaveArrival(id) => Some(s.arriving[id].env.id)
    case StoreProcessed(c) => Some(s.tasks[c].env.id)
    case BackoffDone(c) => Some(s.tasks[c].env.id)
    case StoreFailed(c) => Some(s.tasks[c].env.id)
    case StoreDead(c) => Some(s.tasks[c].env.id)
    case _ => None
  }

  lemma StoreUntouched(s: State, a: Action)
    requires Enabled(s, a) && Writes(s, a).None?
    ensures Apply(s, a).store == s.store
  {
  }

  lemma WritesOnly(s: State, a: Action, id: Id)
    requires Enabled(s, a) && id in s.store.events && Writes(s, a) != Some(id)
    ensures id in Apply(s, a).store.events && Apply(s, a).store.events[id] == s.store.events[id]
  {
    if Writes(s, a).None? {
      StoreUntouched(s, a);
    }
  }

  lemma WritesAreOpen(s: State, a: Action, id: Id)
    requires Inv(s) && Enabled(s, a) && Writes(s, a) == Some(id)
    ensures !Terminal(s, id)
  {
    assert CardOk(s.cfg, id, CardOf(s, id));
    if a.SaveArrival? {
      assert CardOk(s.cfg, a.id, CardOf(s, a.id));
    }
  }

  lemma StepKeepsTerminal(s: State, a: Action, id: Id)
    requires Inv(s) && Enabled(s, a) && Terminal(s, id)
    ensures id in Apply(s, a).store.events && Apply(s, a).store.events[id] == s.store.events[id]
  {
    if Writes(s, a) == Some(id) {
      WritesAreOpen(s, a, id);
    } else {
      WritesOnly(s, a, id);
    }
  }

  /** Once an id is processed or dead, its record stays as it is for the rest of the run. */
  lemma {:induction false} TerminalIsForever(run: seq<State>, acts: seq<Action>, m: nat, n: nat, id: Id)
    requires IsRun(run, acts) && m <= n < |run| && Terminal(run[m], id)
    ensures Terminal(run[n], id) && run[n].store.events[id] == run[m].store.events[id]
    decreases n
  {
    if m < n {
      TerminalIsForever(run, acts, m, n - 1, id);
      RunInv(run, acts, n - 1);
      StepKeepsTerminal(run[n - 1], acts[n - 1], id);
    }
  }

  /** The store stays consistent in every reachable state. */
  lemma StoreStaysConsistent(run: seq<State>, acts: seq<Action>, n: nat)
    requires IsRun(run, acts) && n < |run|
    ensures OrderAgrees(run[n].store) && DeadAgrees(run[n].store)
  {
    RunInv(run, acts, n);
  }

  // ---- Attempts, outcomes and delays of one envelope ----

  ghost function Sum(delays: seq<real>): real {
    if delays == [] then 0.0 else Sum(delays[..|delays| - 1]) + delays[|delays| - 1]
  }

  /** All of the first `n` sleeps together. */
  ghost function TotalDelay(cfg: Config, n: nat): real {
    cfg.backoff * ((Pow2(n) - 1) as real)
  }

  lemma {:induction false} DelaySum(cfg: Config, n: nat)
    ensures |Delays(cfg, n)| == n
    ensures Sum(Delays(cfg, n)) == TotalDelay(cfg, n)
  {
    if n > 0 {
      DelaySum(cfg, n - 1);
      assert Delays(cfg, n)[..n - 1] == Delays(cfg, n - 1);
      assert Pow2(n) - 1 == (Pow2(n - 1) - 1) + Pow2(n - 1);
      Distribute(cfg.backoff, (Pow2(n - 1) - 1) as real, Pow2(n - 1) as real);
    }
  }

  lemma Distribute(x: real, y: real, z: real)
    ensures x * (y + z) == x * y + x * z
  {
  }

  /** Attempt numbers 1..k with 1 <= k <= max(1, maxAttempts), and backoff * (2^(k-1) - 1) slept in all. */
  ghost predicate WithinAttempts(cfg: Config, h: History) {
    && 1 <= |h.dispatched| <= Max(1, cfg.maxAttempts)
    && (forall i :: 0 <= i < |h.dispatched| ==> h.dispatched[i] == i + 1)
    && Sum(h.delays) == TotalDelay(cfg, |h.dispatched| - 1)
  }

  lemma SettledWithin(cfg: Config, h: History, o: Outcome)
    requires Settled(cfg, h, o)
    ensures WithinAttempts(cfg, h)
  {
    UpToLength(|h.dispatched|);
    DelaySum(cfg, |h.dispatched| - 1);
  }

  /** An envelope with an outcome has just one, after a bounded, numbered series of attempts. */
  lemma SettledEnvelope(run: seq<State>, acts: seq<Action>, n: nat, id: Id)
    requires IsRun(run, acts) && n < |run|
    requires id in run[n].succeeded || id in run[n].failures
    ensures WithinAttempts(run[0].cfg, HistoryOf(run[n].hist, id))
    ensures HistoryOf(run[n].hist, id).outcomes == [if id in run[n].succeeded then Success else Failure]
  {
    RunInv(run, acts, n);
    var s := run[n];
    assert CardOk(s.cfg, id, CardOf(s, id));
    SettledWithin(s.cfg, HistoryOf(s.hist, id), if id in s.succeeded then Success else Failure);
  }

  /** Only accepting, dispatching and its outcome are recorded. */
  lemma HistoryUntouched(s: State, a: Action)
    requires Enabled(s, a) && !a.Accept? && !a.Get? && !a.DispatchDone?
    ensures Apply(s, a).hist == s.hist
  {
  }

  lemma AcceptKeepsOutcome(s: State, env: Envelope, id: Id)
    requires Inv(s) && Enabled(s, Accept(env)) && HistoryOf(s.hist, id).outcomes != []
    ensures HistoryOf(Accepted(s, env).hist, id) == HistoryOf(s.hist, id)
  {
    assert id != env.id by {
      assert CardOk(s.cfg, id, CardOf(s, id));
    }
  }

  lemma GetKeepsOutcome(s: State, c: nat, id: Id)
    requires Inv(s) && Enabled(s, Get(c)) && HistoryOf(s.hist, id).outcomes != []
    ensures HistoryOf(Got(s, c).hist, id) == HistoryOf(s.hist, id)
  {
    if s.queue[0].Some? {
      assert id != s.queue[0].value.id by {
        assert CardOk(s.cfg, id, CardOf(s, id));
      }
    }
  }

  lemma DispatchKeepsOutcome(s: State, c: nat, result: DispatchResult, id: Id)
    requires Inv(s) && Enabled(s, DispatchDone(c, result)) && HistoryOf(s.hist, id).outcomes != []
    ensures HistoryOf(AfterDispatch(s, c, s.tasks[c].env, result).hist, id) == HistoryOf(s.hist, id)
  {
    assert id != s.tasks[c].env.id by {
      assert CardOk(s.cfg, id, CardOf(s, id));
      assert CardOk(s.cfg, s.tasks[c].env.id, CardOf(s, s.tasks[c].env.id));
    }
  }

  lemma StepKeepsOutcome(s: State, a: Action, id: Id)
    requires Inv(s) && Enabled(s, a) && HistoryOf(s.hist, id).outcomes != []
    ensures HistoryOf(Apply(s, a).hist, id) == HistoryOf(s.hist, id)
  {
    match a
    case Accept(env) => AcceptKeepsOutcome(s, env, id);
    case Get(c) => GetKeepsOutcome(s, c, id);
    case DispatchDone(c, result) => DispatchKeepsOutcome(s, c, result, id);
    case _ => HistoryUntouched(s, a);
  }

  /** The outcome of an envelope is final: no further dispatch, sleep or outcome follows it. */
  lemma {:induction false} OutcomeIsFinal(run: seq<State>, acts: seq<Action>, m: nat, n: nat, id: Id)
    requires IsRun(run, acts) && m <= n < |run| && HistoryOf(run[m].hist, id).outcomes != []
    ensures HistoryOf(run[n].hist, id) == HistoryOf(run[m].hist, id)
    decreases n
  {
    if m < n {
      OutcomeIsFinal(run, acts, m, n - 1, id);
      RunInv(run, acts, n - 1);
      StepKeepsOutcome(run[n - 1], acts[n - 1], id);
    }
  }
}
