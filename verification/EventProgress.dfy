/** When the consumers of the event bus can go on, and when they wait for each other. */
module EventProgress {
  import opened Wrappers
  import opened EventStore
  import opened EventMachine
  import opened EventProofs
  import opened EventTheorems

  /** A step a consumer takes in the course of its work; being dropped is not one. */
  predicate IsConsumerStep(a: Action) {
    || a.Get? || a.DispatchDone? || a.StoreProcessed? || a.FinishProcessed? || a.BackoffDone?
    || a.PutRetry? || a.StoreFailed? || a.StoreDead? || a.FinishDead?
  }

  ghost predicate ConsumersMove(s: State) {
    exists a :: IsConsumerStep(a) && Enabled(s, a)
  }

  /** Every consumer has ended, or waits to put a retry into a full queue that only consumers empty. */
  ghost predicate Jammed(s: State) {
    forall c :: c in s.tasks ==> s.tasks[c].Exited? || (s.tasks[c].Requeueing? && !HasRoom(s))
  }

  lemma HolderMoves(s: State, c: nat) returns (a: Action)
    requires c in s.tasks && s.tasks[c].Holds() && (s.tasks[c].Requeueing? ==> HasRoom(s))
    ensures IsConsumerStep(a) && Enabled(s, a)
  {
    match s.tasks[c] {
      case Dispatching(_) => a := DispatchDone(c, DispatchResult([], None));
      case MarkingProcessed(_) => a := StoreProcessed(c);
      case Completed(_) => a := FinishProcessed(c);
      case BackingOff(_, _) => a := BackoffDone(c);
      case Requeueing(_, _) => a := PutRetry(c);
      case MarkingFailed(_, _, _) => a := StoreFailed(c);
      case DeadLettering(_, _, _) => a := StoreDead(c);
      case DeadLettered(_) => a := FinishDead(c);
    }
  }

  /** While something is unfinished, a consumer can move unless the bus is jammed. */
  lemma MovesExactly(s: State)
    requires Inv(s) && s.unfinished > 0
    ensures ConsumersMove(s) <==> !Jammed(s)
  {
    if !Jammed(s) {
      var c :| c in s.tasks && !s.tasks[c].Exited? && !(s.tasks[c].Requeueing? && !HasRoom(s));
      if s.tasks[c].Holds() {
        var a := HolderMoves(s, c);
      } else if |s.queue| > 0 {
        assert IsConsumerStep(Get(c)) && Enabled(s, Get(c));
      } else {
        assert Holders(s.tasks) != {};
        var d :| d in Holders(s.tasks);
        var a := HolderMoves(s, d);
      }
    }
  }

  /** Along every run: work left and no consumer able to move means exactly a jam. */
  lemma BusMovesExactly(run: seq<State>, acts: seq<Action>, n: nat)
    requires IsRun(run, acts) && n < |run| && run[n].unfinished > 0
    ensures ConsumersMove(run[n]) <==> !Jammed(run[n])
  {
    RunInv(run, acts, n);
    MovesExactly(run[n]);
  }

  /** A bus whose queue has no limit never jams while a consumer is left. */
  lemma UnboundedNeverJams(run: seq<State>, acts: seq<Action>, n: nat)
    requires IsRun(run, acts) && n < |run| && run[n].unfinished > 0
    requires run[0].cfg.queueSize <= 0 && exists c :: c in run[n].tasks && !run[n].tasks[c].Exited?
    ensures ConsumersMove(run[n])
  {
    RunInv(run, acts, n);
    MovesExactly(run[n]);
  }

  // ---- A jam lasts ----

  /** The bus runs, some consumer has not ended, and none can move. */
  ghost predicate Deadlocked(s: State) {
    && s.running && Jammed(s)
    && exists c :: c in s.tasks && s.tasks[c].Requeueing?
  }

  /** Nothing but dropping a consumer, by an exception or a cancellation, changes the queue or a consumer of a jammed bus. */
  lemma JamStays(s: State, a: Action)
    requires Deadlocked(s) && Enabled(s, a) && !a.Drop?
    ensures var t := Apply(s, a);
      Deadlocked(t) && t.queue == s.queue && t.tasks == s.tasks && t.unfinished == s.unfinished && t.cfg == s.cfg
    ensures !a.PutSentinel? && !a.StopDone?
  {
  }

  lemma JamHasWork(s: State)
    requires Inv(s) && Deadlocked(s)
    ensures s.unfinished > 0
  {
    var c :| c in s.tasks && s.tasks[c].Requeueing?;
    assert c in Holders(s.tasks);
  }

  /**
   * Once jammed, always jammed: no envelope moves, `flush` never returns, and a graceful `stop` never
   * gets to its drain timeout, since it first waits to put a sentinel.
   */
  lemma {:induction false} JamLasts(run: seq<State>, acts: seq<Action>, n: nat, m: nat)
    requires IsRun(run, acts) && n <= m < |run| && Deadlocked(run[n])
    requires forall k :: n <= k < m ==> !acts[k].Drop?
    ensures Deadlocked(run[m]) && run[m].queue == run[n].queue && run[m].tasks == run[n].tasks
    ensures run[m].unfinished == run[n].unfinished > 0
    ensures forall k :: n <= k < m ==> !acts[k].PutSentinel? && !acts[k].StopDone?
  {
    if m == n {
      RunInv(run, acts, n);
      JamHasWork(run[n]);
    } else {
      JamLasts(run, acts, n, m - 1);
      JamStays(run[m - 1], acts[m - 1]);
    }
  }

  // ---- When the bus can jam ----

  ghost predicate Reaches(cfg: Config, s: State) {
    exists run, acts :: IsRun(run, acts) && run[0] == Quiet(cfg) && run[|acts|] == s
  }

  ghost predicate MayJam(cfg: Config) {
    exists s :: Reaches(cfg, s) && Deadlocked(s)
  }

  lemma ReachesStep(cfg: Config, s: State, a: Action)
    requires Reaches(cfg, s) && Enabled(s, a)
    ensures Reaches(cfg, Apply(s, a))
  {
    var run, acts :| IsRun(run, acts) && run[0] == Quiet(cfg) && run[|acts|] == s;
    assert IsRun(run + [Apply(s, a)], acts + [a]);
  }

  function Quiet(cfg: Config): (s: State)
    ensures Initial(s) && s.cfg == cfg
  {
    State(cfg, [], 0, map[], map[], false, false, Stats(0, 0, 0, 0, 0), EMPTY_STORE, map[], map[], {}, {}, {}, {})
  }

  /** The bus accepts envelopes, and the next free id is the name of length `n`. */
  ghost predicate Open(s: State, n: nat) {
    && s.running && !s.stopping && s.arriving == map[]
    && forall id :: id in s.places ==> |id| < n
  }

  function NewEnvelope(n: nat): Envelope {
    Envelope(seq(n, _ => 'e'), "event", 1, 1, None, None, map[])
  }

  /** One more envelope enters the queue. */
  lemma EnterOne(cfg: Config, s: State, n: nat) returns (t: State)
    requires Reaches(cfg, s) && Open(s, n) && HasRoom(s)
    ensures Reaches(cfg, t) && Open(t, n + 1) && t.cfg == s.cfg && t.tasks == s.tasks
    ensures t.queue == s.queue + [Some(NewEnvelope(n).(maxAttempts := s.cfg.maxAttempts))]
  {
    var e := NewEnvelope(n);
    var s1, s2 := Accepted(s, e), Saved(Accepted(s, e), e.id);
    t := Arrived(s2, e.id);
    ReachesStep(cfg, s, Accept(e));
    ReachesStep(cfg, s1, SaveArrival(e.id));
    ReachesStep(cfg, s2, PutArrival(e.id));
    assert t.arriving == map[];
  }

  /** A waiting consumer takes an envelope, its handlers fail, and it comes back from the backoff. */
  lemma FailOne(cfg: Config, s: State, n: nat, c: nat) returns (t: State)
    requires Reaches(cfg, s) && Open(s, n) && s.cfg == cfg && cfg.maxAttempts > 1
    requires c in s.tasks && s.tasks[c].Waiting?
    requires |s.queue| == 1 && s.queue[0].Some? && s.queue[0].value.attempt == 1 && s.queue[0].value.maxAttempts == cfg.maxAttempts
    requires |s.queue[0].value.id| < n
    ensures Reaches(cfg, t) && Open(t, n) && t.cfg == cfg && t.queue == []
    ensures c in t.tasks && t.tasks[c].Requeueing? && t.tasks == s.tasks[c := t.tasks[c]]
  {
    var failed := DispatchResult([HandlerError("h", "boom")], None);
    var s1 := Got(s, c);
    var s2 := AfterDispatch(s1, c, s1.tasks[c].env, failed);
    t := RetryStored(s2, c);
    ReachesStep(cfg, s, Get(c));
    ReachesStep(cfg, s1, DispatchDone(c, failed));
    ReachesStep(cfg, s2, BackoffDone(c));
  }

  /** The first `n` consumers sit in the put of a retry, the others wait for an envelope. */
  ghost predicate FirstStuck(s: State, n: nat) {
    && s.tasks.Keys == Consumers(s.cfg.concurrency).Keys
    && forall c :: c in s.tasks ==> if c < n then s.tasks[c].Requeueing? else s.tasks[c].Waiting?
  }

  lemma {:induction false} StickFirst(cfg: Config, n: nat) returns (s: State)
    requires n <= cfg.concurrency && cfg.queueSize > 0 && cfg.maxAttempts > 1
    ensures Reaches(cfg, s) && Open(s, n) && s.cfg == cfg && s.queue == [] && FirstStuck(s, n)
  {
    if n == 0 {
      assert IsRun([Quiet(cfg)], []);
      s := Started(Quiet(cfg));
      ReachesStep(cfg, Quiet(cfg), Start);
    } else {
      s := StickFirst(cfg, n - 1);
      s := StickOne(cfg, s, n - 1);
    }
  }

  lemma StickOne(cfg: Config, s: State, n: nat) returns (t: State)
    requires n < cfg.concurrency && cfg.queueSize > 0 && cfg.maxAttempts > 1
    requires Reaches(cfg, s) && Open(s, n) && s.cfg == cfg && s.queue == [] && FirstStuck(s, n)
    ensures Reaches(cfg, t) && Open(t, n + 1) && t.cfg == cfg && t.queue == [] && FirstStuck(t, n + 1)
  {
    t := EnterOne(cfg, s, n);
    assert n in Consumers(cfg.concurrency).Keys;
    t := FailOne(cfg, t, n + 1, n);
  }

  lemma {:induction false} FillQueue(cfg: Config, s: State, n: nat, k: nat) returns (t: State)
    requires Reaches(cfg, s) && Open(s, n) && s.cfg == cfg && s.queue == [] && k <= cfg.queueSize
    ensures Reaches(cfg, t) && Open(t, n + k) && t.cfg == cfg && |t.queue| == k && t.tasks == s.tasks
  {
    t := s;
    if k > 0 {
      t := FillQueue(cfg, s, n, k - 1);
      t := EnterOne(cfg, t, n + k - 1);
    }
  }

  /** Every consumer's first envelope fails while new ones fill the queue. */
  lemma Jam(cfg: Config) returns (s: State)
    requires cfg.concurrency > 0 && cfg.queueSize > 0 && cfg.maxAttempts > 1
    ensures Reaches(cfg, s) && Deadlocked(s) && !s.stopping && |s.queue| == cfg.queueSize
  {
    s := StickFirst(cfg, cfg.concurrency);
    s := FillQueue(cfg, s, cfg.concurrency, cfg.queueSize);
    assert 0 in Consumers(cfg.concurrency);
    assert s.tasks[0].Requeueing?;
  }

  lemma {:induction false} FewTasks(run: seq<State>, acts: seq<Action>, n: nat)
    requires IsRun(run, acts) && n < |run|
    ensures run[n].cfg == run[0].cfg
    ensures forall c :: c in run[n].tasks ==> c < run[0].cfg.concurrency
  {
    RunInv(run, acts, n);
    if n > 0 {
      FewTasks(run, acts, n - 1);
      forall c | c in run[n].tasks ensures c < run[0].cfg.concurrency {
        StepKeepsTasks(run[n - 1], acts[n - 1], c);
      }
    }
  }

  lemma StepKeepsTasks(s: State, a: Action, c: nat)
    requires Enabled(s, a) && c in Apply(s, a).tasks
    ensures c in s.tasks || c < s.cfg.concurrency
  {
    if a.DispatchDone? {
      DispatchKeepsTasks(s, a.c, s.tasks[a.c].env, a.result);
    }
  }

  lemma DispatchKeepsTasks(s: State, c: nat, env: Envelope, result: DispatchResult)
    requires c in s.tasks
    ensures AfterDispatch(s, c, env, result).tasks.Keys == s.tasks.Keys
  {
  }

  /** A consumer that puts a retry holds an envelope that may still be tried again. */
  lemma RetriesLeft(s: State, c: nat)
    requires Inv(s) && c in s.tasks && s.tasks[c].Requeueing?
    ensures s.cfg.maxAttempts > 1
  {
    var id := s.tasks[c].env.id;
    assert CardOk(s.cfg, id, CardOf(s, id));
  }

  /** Some schedule jams the bus for good exactly when the queue is bounded and an envelope may be retried. */
  lemma BusJamsExactly(cfg: Config)
    ensures MayJam(cfg) <==> cfg.concurrency > 0 && cfg.queueSize > 0 && cfg.maxAttempts > 1
  {
    if cfg.concurrency > 0 && cfg.queueSize > 0 && cfg.maxAttempts > 1 {
      var s := Jam(cfg);
    } else if MayJam(cfg) {
      var s :| Reaches(cfg, s) && Deadlocked(s);
      var run, acts :| IsRun(run, acts) && run[0] == Quiet(cfg) && run[|acts|] == s;
      RunInv(run, acts, |acts|);
      FewTasks(run, acts, |acts|);
      var c :| c in s.tasks && s.tasks[c].Requeueing?;
      RetriesLeft(s, c);
    }
  }

  /** One consumer and one queue slot, with the retries the configuration sets by default. */
  lemma BusJams() returns (s: State)
    ensures Reaches(Config(1, 1, 3, 1.0), s) && Deadlocked(s) && !s.stopping && |s.queue| == 1 && !ConsumersMove(s)
  {
    s := Jam(Config(1, 1, 3, 1.0));
  }
}
