/** Entries of the event bus are taken in the order they were put, and an envelope stays the same event throughout. */
module EventOrder {
  import opened Wrappers
  import opened EventStore
  import opened EventMachine
  import opened EventProofs
  import opened EventTheorems

  // ---- First in, first out ----

  /** What a step adds to the queue: an arrival, a retry, or a sentinel. */
  function Added(s: State, a: Action): seq<Option<Envelope>>
    requires Enabled(s, a)
  {
    match a
    case PutArrival(id) => [Some(s.arriving[id].env)]
    case PutRetry(c) => [Some(s.tasks[c].env.WithAttempt(s.tasks[c].env.attempt + 1, Some(s.tasks[c].error)))]
    case PutSentinel => [None]
    case _ => []
  }

  /** What the consumer that moved has in its hands: an envelope, or a sentinel, on which it ends. */
  function InHand(t: State, a: Action): seq<Option<Envelope>> {
    if !a.Get? || a.c !in t.tasks then []
    else if t.tasks[a.c].Dispatching? then [Some(t.tasks[a.c].env)]
    else [None]
  }

  function AllAdded(run: seq<State>, acts: seq<Action>, n: nat): seq<Option<Envelope>>
    requires IsRun(run, acts) && n <= |acts|
  {
    if n == 0 then [] else AllAdded(run, acts, n - 1) + Added(run[n - 1], acts[n - 1])
  }

  function AllTaken(run: seq<State>, acts: seq<Action>, n: nat): seq<Option<Envelope>>
    requires IsRun(run, acts) && n <= |acts|
  {
    if n == 0 then [] else AllTaken(run, acts, n - 1) + InHand(run[n], acts[n - 1])
  }

  lemma DispatchKeepsQueue(s: State, c: nat, env: Envelope, r: DispatchResult)
    ensures AfterDispatch(s, c, env, r).queue == s.queue
  {
  }

  lemma GetTakesHead(s: State, c: nat)
    requires Enabled(s, Get(c))
    ensures s.queue == InHand(Got(s, c), Get(c)) + Got(s, c).queue
  {
  }

  lemma StepKeepsOrder(s: State, a: Action)
    requires Enabled(s, a)
    ensures s.queue + Added(s, a) == InHand(Apply(s, a), a) + Apply(s, a).queue
  {
    if a.DispatchDone? {
      DispatchKeepsQueue(s, a.c, s.tasks[a.c].env, a.result);
    } else if a.Get? {
      GetTakesHead(s, a.c);
    }
  }

  lemma OneMoreStep<T>(added: seq<T>, taken: seq<T>, queue: seq<T>, more: seq<T>, hand: seq<T>, queue': seq<T>)
    requires added == taken + queue && queue + more == hand + queue'
    ensures added + more == taken + hand + queue'
  {
    assert taken + queue + more == taken + (queue + more);
    assert taken + hand + queue' == taken + (hand + queue');
  }

  /** Along every run the entries put are, in order, the ones taken and then the ones still queued. */
  lemma {:induction false} TakenInOrder(run: seq<State>, acts: seq<Action>, n: nat)
    requires IsRun(run, acts) && n <= |acts|
    ensures AllAdded(run, acts, n) == AllTaken(run, acts, n) + run[n].queue
  {
    if n > 0 {
      TakenInOrder(run, acts, n - 1);
      StepKeepsOrder(run[n - 1], acts[n - 1]);
      OneMoreStep(AllAdded(run, acts, n - 1), AllTaken(run, acts, n - 1), run[n - 1].queue,
                  Added(run[n - 1], acts[n - 1]), InHand(run[n], acts[n - 1]), run[n].queue);
    }
  }

  lemma StepKeepsBound(s: State, a: Action)
    requires Enabled(s, a) && 0 < s.cfg.queueSize && |s.queue| <= s.cfg.queueSize
    ensures |Apply(s, a).queue| <= s.cfg.queueSize
  {
    StepKeepsOrder(s, a);
  }

  /** A bounded queue never holds more than its size: producers, retries and sentinels wait for room. */
  lemma {:induction false} QueueIsBounded(run: seq<State>, acts: seq<Action>, n: nat)
    requires IsRun(run, acts) && n < |run| && run[0].cfg.queueSize > 0
    ensures run[n].cfg == run[0].cfg && |run[n].queue| <= run[0].cfg.queueSize
  {
    RunInv(run, acts, n);
    if n > 0 {
      QueueIsBounded(run, acts, n - 1);
      StepKeepsBound(run[n - 1], acts[n - 1]);
    }
  }

  // ---- The same event throughout ----

  predicate SameEvent(x: Envelope, e: Envelope) {
    x.id == e.id && x.event == e.event && x.metadata == e.metadata && x.traceId == e.traceId
  }

  /** Wherever the envelope is, and in its record, it is the event that was accepted. */
  ghost predicate Carries(s: State, e: Envelope) {
    && e.id in s.places
    && (e.id in s.arriving ==> SameEvent(s.arriving[e.id].env, e))
    && (s.places[e.id].Queued? ==> SameEvent(s.places[e.id].env, e))
    && (forall c :: c in s.tasks && s.tasks[c].Holds() && s.tasks[c].env.id == e.id ==> SameEvent(s.tasks[c].env, e))
    && (e.id in s.store.events ==>
          s.store.events[e.id].id == e.id && s.store.events[e.id].event == e.event && s.store.events[e.id].metadata == e.metadata)
  }

  lemma AcceptCarries(s: State, e: Envelope)
    requires Inv(s) && Enabled(s, Accept(e))
    ensures Carries(Accepted(s, e), e)
  {
    assert CardOk(s.cfg, e.id, CardOf(s, e.id));
  }

  lemma ArrivalCarries(s: State, a: Action, e: Envelope)
    requires Inv(s) && Enabled(s, a) && Carries(s, e)
    requires a.Accept? || a.SaveArrival? || a.PutArrival? || a.AbortArrival?
    ensures Carries(Apply(s, a), e)
  {
    if !a.Accept? {
      assert CardOk(s.cfg, a.id, CardOf(s, a.id));
    }
  }

  lemma GetCarries(s: State, c: nat, e: Envelope)
    requires Inv(s) && Enabled(s, Get(c)) && Carries(s, e)
    ensures Carries(Got(s, c), e)
  {
  }

  /** A consumer that keeps its envelope and only changes phase. */
  ghost predicate OnlyPhase(s: State, t: State, c: nat) {
    && t.places == s.places && t.arriving == s.arriving && t.store == s.store
    && c in s.tasks && s.tasks[c].Holds() && c in t.tasks && t.tasks[c].Holds()
    && t.tasks[c].env == s.tasks[c].env
    && forall d :: d in t.tasks && d != c ==> d in s.tasks && t.tasks[d] == s.tasks[d]
  }

  lemma PhaseCarries(s: State, t: State, c: nat, e: Envelope)
    requires Carries(s, e) && OnlyPhase(s, t, c)
    ensures Carries(t, e)
  {
  }

  lemma BranchesArePhases(s: State, c: nat, error: string, handler: Option<string>)
    requires c in s.tasks && s.tasks[c].Holds()
    ensures OnlyPhase(s, Succeeding(s, c, s.tasks[c].env), c)
    ensures OnlyPhase(s, Retrying(s, c, s.tasks[c].env, error), c)
    ensures OnlyPhase(s, GivingUp(s, c, s.tasks[c].env, error, handler), c)
  {
  }

  lemma DispatchIsPhase(s: State, c: nat, r: DispatchResult)
    requires c in s.tasks && s.tasks[c].Holds()
    ensures OnlyPhase(s, AfterDispatch(s, c, s.tasks[c].env, r), c)
  {
    if r.middlewareError.Some? {
      BranchesArePhases(s, c, r.middlewareError.value, None);
    } else if |r.handlerErrors| > 0 {
      BranchesArePhases(s, c, JoinErrors(r.handlerErrors), Some(r.handlerErrors[|r.handlerErrors| - 1].handler));
    } else {
      BranchesArePhases(s, c, "", None);
    }
  }

  lemma DispatchCarries(s: State, c: nat, r: DispatchResult, e: Envelope)
    requires Enabled(s, DispatchDone(c, r)) && Carries(s, e)
    ensures Carries(AfterDispatch(s, c, s.tasks[c].env, r), e)
  {
    DispatchIsPhase(s, c, r);
    PhaseCarries(s, AfterDispatch(s, c, s.tasks[c].env, r), c, e);
  }

  /** The steps in which a consumer writes the store. */
  lemma StoreCarries(s: State, a: Action, e: Envelope)
    requires Inv(s) && Enabled(s, a) && Carries(s, e)
    requires a.StoreProcessed? || a.BackoffDone? || a.StoreFailed? || a.StoreDead?
    ensures Carries(Apply(s, a), e)
  {
  }

  lemma RetryCarries(s: State, c: nat, e: Envelope)
    requires Inv(s) && Enabled(s, PutRetry(c)) && Carries(s, e)
    ensures Carries(Retried(s, c), e)
  {
  }

  lemma ReleaseCarries(s: State, c: nat, next: Phase, e: Envelope)
    requires c in s.tasks && s.tasks[c].Holds() && !next.Holds() && Carries(s, e)
    ensures Carries(Released(s, c, next), e)
  {
  }

  lemma DropCarries(s: State, c: nat, cancelled: bool, e: Envelope)
    requires Enabled(s, Drop(c, cancelled)) && Carries(s, e)
    ensures Carries(Apply(s, Drop(c, cancelled)), e)
  {
    if s.tasks[c].Holds() {
      ReleaseCarries(s, c, if cancelled then Exited else Waiting, e);
    }
  }

  lemma StepCarries(s: State, a: Action, e: Envelope)
    requires Inv(s) && Enabled(s, a) && Carries(s, e)
    ensures Carries(Apply(s, a), e)
  {
    match a
    case Accept(_) => ArrivalCarries(s, a, e);
    case SaveArrival(_) => ArrivalCarries(s, a, e);
    case PutArrival(_) => ArrivalCarries(s, a, e);
    case AbortArrival(_) => ArrivalCarries(s, a, e);
    case Get(c) => GetCarries(s, c, e);
    case DispatchDone(c, r) => DispatchCarries(s, c, r, e);
    case StoreProcessed(_) => StoreCarries(s, a, e);
    case BackoffDone(_) => StoreCarries(s, a, e);
    case StoreFailed(_) => StoreCarries(s, a, e);
    case StoreDead(_) => StoreCarries(s, a, e);
    case PutRetry(c) => RetryCarries(s, c, e);
    case FinishProcessed(c) => ReleaseCarries(s, c, Waiting, e);
    case FinishDead(c) => ReleaseCarries(CountDeadLetter(s), c, Waiting, e);
    case Drop(c, cancelled) => DropCarries(s, c, cancelled, e);
    case _ =>
  }

  /** From its acceptance on, in the queue, with a consumer and in the store, an envelope is the event that was accepted. */
  lemma {:induction false} StaysTheEvent(run: seq<State>, acts: seq<Action>, m: nat, n: nat)
    requires IsRun(run, acts) && m < n < |run| && acts[m].Accept?
    ensures Carries(run[n], acts[m].env)
    decreases n
  {
    RunInv(run, acts, n - 1);
    if n == m + 1 {
      AcceptCarries(run[m], acts[m].env);
    } else {
      StaysTheEvent(run, acts, m, n - 1);
      StepCarries(run[n - 1], acts[n - 1], acts[m].env);
    }
  }
}
