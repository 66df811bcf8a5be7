/** Which dispatch result leads to which outcome, retry and dead letter, over whole runs of the event bus. */
module EventOutcomes {
  import opened Wrappers
  import opened EventStore
  import opened EventMachine
  import opened EventProofs
  import opened EventTheorems

  // ---- What a dispatch result calls for ----

  predicate Clean(r: DispatchResult) {
    r.middlewareError.None? && r.handlerErrors == []
  }

  /** The middleware raised, or handlers failed on the last attempt. */
  predicate Final(env: Envelope, r: DispatchResult) {
    r.middlewareError.Some? || (r.handlerErrors != [] && env.attempt >= env.maxAttempts)
  }

  predicate Retries(env: Envelope, r: DispatchResult) {
    r.middlewareError.None? && r.handlerErrors != [] && env.attempt < env.maxAttempts
  }

  /** Error messages are joined by "; ". */
  lemma {:induction false} JoinsMessages(xs: seq<HandlerError>, ys: seq<HandlerError>)
    ensures |xs| == 1 ==> JoinErrors(xs) == xs[0].message
    ensures xs != [] && ys != [] ==> JoinErrors(xs + ys) == JoinErrors(xs) + "; " + JoinErrors(ys)
  {
    if xs != [] && ys != [] {
      var n := |ys| - 1;
      assert (xs + ys)[..|xs + ys| - 1] == xs + ys[..n];
      if n > 0 {
        JoinsMessages(xs, ys[..n]);
        assert JoinErrors(xs) + "; " + (JoinErrors(ys[..n]) + "; " + ys[n].message)
            == JoinErrors(xs) + "; " + JoinErrors(ys[..n]) + "; " + ys[n].message;
      } else {
        assert xs + ys[..n] == xs;
      }
    }
  }

  lemma HeldIsUndecided(s: State, c: nat)
    requires Inv(s) && c in s.tasks && s.tasks[c].Dispatching?
    ensures s.tasks[c].env.id !in s.succeeded && s.tasks[c].env.id !in s.failures
  {
    var id := s.tasks[c].env.id;
    assert CardOk(s.cfg, id, CardOf(s, id));
  }

  /** What one dispatch result changes of the outcomes and the counters. */
  ghost predicate Decides(s: State, t: State, env: Envelope, r: DispatchResult) {
    && t.succeeded == s.succeeded + (if Clean(r) then {env.id} else {})
    && t.failures == s.failures + (if Final(env, r) then {env.id} else {})
    && t.stats == s.stats.(processed := t.stats.processed, failed := t.stats.failed, retried := t.stats.retried)
    && t.stats.processed == s.stats.processed + (if Clean(r) then 1 else 0)
    && t.stats.failed == s.stats.failed + (if Final(env, r) then 1 else 0)
    && t.stats.retried == s.stats.retried + (if Retries(env, r) then 1 else 0)
  }

  lemma BranchesCount(s: State, c: nat, env: Envelope, error: string, handler: Option<string>)
    ensures var t := Succeeding(s, c, env);
      t.succeeded == s.succeeded + {env.id} && t.failures == s.failures && t.stats == s.stats.(processed := s.stats.processed + 1)
    ensures var t := Retrying(s, c, env, error);
      t.succeeded == s.succeeded && t.failures == s.failures && t.stats == s.stats.(retried := s.stats.retried + 1)
    ensures var t := GivingUp(s, c, env, error, handler);
      t.succeeded == s.succeeded && t.failures == s.failures + {env.id} && t.stats == s.stats.(failed := s.stats.failed + 1)
  {
  }

  lemma StepDecides(s: State, c: nat, r: DispatchResult)
    requires Enabled(s, DispatchDone(c, r))
    ensures Decides(s, Apply(s, DispatchDone(c, r)), s.tasks[c].env, r)
  {
    if r.middlewareError.Some? {
      BranchesCount(s, c, s.tasks[c].env, r.middlewareError.value, None);
    } else if r.handlerErrors != [] {
      BranchesCount(s, c, s.tasks[c].env, JoinErrors(r.handlerErrors), Some(r.handlerErrors[|r.handlerErrors| - 1].handler));
    } else {
      BranchesCount(s, c, s.tasks[c].env, "", None);
    }
  }

  /**
   * An envelope succeeds exactly on a clean result, and fails exactly when the middleware raised or
   * handlers failed on its last attempt; any other result leaves it undecided. The counters follow.
   */
  lemma DispatchDecides(run: seq<State>, acts: seq<Action>, n: nat)
    requires IsRun(run, acts) && n < |acts| && acts[n].DispatchDone?
    ensures var s, c := run[n], acts[n].c;
      && c in s.tasks && s.tasks[c].Dispatching?
      && s.tasks[c].env.id !in s.succeeded && s.tasks[c].env.id !in s.failures
      && Decides(s, run[n + 1], s.tasks[c].env, acts[n].result)
  {
    RunInv(run, acts, n);
    HeldIsUndecided(run[n], acts[n].c);
    StepDecides(run[n], acts[n].c, acts[n].result);
  }

  lemma LettingGoDecidesNothing(s: State, a: Action)
    requires Enabled(s, a) && (a.FinishProcessed? || a.FinishDead? || a.Drop? || a.Get? || a.PutRetry?)
    ensures Apply(s, a).succeeded == s.succeeded && Apply(s, a).failures == s.failures
  {
  }

  /** Nothing but a dispatch result decides an envelope. */
  lemma OnlyDispatchDecides(s: State, a: Action)
    requires Enabled(s, a) && !a.DispatchDone?
    ensures Apply(s, a).succeeded == s.succeeded && Apply(s, a).failures == s.failures
  {
    if a.FinishProcessed? || a.FinishDead? || a.Drop? || a.Get? || a.PutRetry? {
      LettingGoDecidesNothing(s, a);
    }
  }

  /** A dispatch result moves the one consumer it is for. */
  lemma DispatchedIsOne(s: State, c: nat, env: Envelope, r: DispatchResult, d: nat)
    requires c in s.tasks && d != c
    ensures d in AfterDispatch(s, c, env, r).tasks <==> d in s.tasks
    ensures d in s.tasks ==> AfterDispatch(s, c, env, r).tasks[d] == s.tasks[d]
  {
  }

  // ---- The next attempt ----

  /** The retry: same identity, event, limit, trace and metadata; the attempt goes up and the joined errors come along. */
  ghost predicate IsRetry(e: Envelope, env: Envelope, error: string) {
    && e.id == env.id && e.event == env.event && e.maxAttempts == env.maxAttempts
    && e.traceId == env.traceId && e.metadata == env.metadata
    && e.attempt == env.attempt + 1 && e.lastError == Some(error)
  }

  /** Where an envelope can be between a failed attempt and the next one. */
  ghost predicate OnItsWay(s: State, c: nat, env: Envelope, error: string) {
    env.id in s.places &&
    match s.places[env.id]
    case Held(d) => d == c && c in s.tasks && (s.tasks[c] == BackingOff(env, error) || s.tasks[c] == Requeueing(env, error))
    case Queued(e) => IsRetry(e, env, error)
    case Gone => true
    case Arriving => false
  }

  /** The step takes an entry of `id` off the queue. */
  predicate Takes(s: State, a: Action, id: Id)
    requires Enabled(s, a)
  {
    a.Get? && s.queue[0].Some? && s.queue[0].value.id == id
  }

  lemma RetryBegins(s: State, c: nat, r: DispatchResult)
    requires Inv(s) && Enabled(s, DispatchDone(c, r)) && Retries(s.tasks[c].env, r)
    ensures OnItsWay(Apply(s, DispatchDone(c, r)), c, s.tasks[c].env, JoinErrors(r.handlerErrors))
  {
  }

  /** The holder of the failed envelope goes on: it writes the store, puts the retry, or is dropped. */
  lemma HolderGoesOn(s: State, a: Action, c: nat, env: Envelope, error: string)
    requires Inv(s) && Enabled(s, a) && OnItsWay(s, c, env, error) && s.places[env.id] == Held(c)
    requires a.BackoffDone? || a.PutRetry? || a.Drop?
    requires a.c == c
    ensures OnItsWay(Apply(s, a), c, env, error)
  {
  }

  lemma RestsAtArrival(s: State, a: Action, id: Id)
    requires Inv(s) && Enabled(s, a) && id in s.places && (s.places[id].Queued? || s.places[id].Gone?)
    requires a.Accept? || a.SaveArrival? || a.PutArrival? || a.AbortArrival?
    ensures id in Apply(s, a).places && Apply(s, a).places[id] == s.places[id]
  {
    if a.PutArrival? || a.AbortArrival? {
      assert CardOk(s.cfg, a.id, CardOf(s, a.id));
    }
  }

  lemma RestsAtDispatch(s: State, c: nat, env: Envelope, r: DispatchResult)
    ensures AfterDispatch(s, c, env, r).places == s.places
  {
  }

  /** A retry in the queue, or an envelope given up, stays where it is. */
  lemma RestsMeanwhile(s: State, a: Action, id: Id)
    requires Inv(s) && Enabled(s, a) && id in s.places && (s.places[id].Queued? || s.places[id].Gone?)
    requires !Takes(s, a, id)
    ensures id in Apply(s, a).places && Apply(s, a).places[id] == s.places[id]
  {
    if a.Accept? || a.SaveArrival? || a.PutArrival? || a.AbortArrival? {
      RestsAtArrival(s, a, id);
    } else if a.DispatchDone? {
      RestsAtDispatch(s, a.c, s.tasks[a.c].env, a.result);
    }
  }

  /** Producers leave the holder and its place alone. */
  lemma HolderAndArrivals(s: State, a: Action, c: nat, env: Envelope, error: string)
    requires Inv(s) && Enabled(s, a) && OnItsWay(s, c, env, error) && s.places[env.id] == Held(c)
    requires a.Accept? || a.SaveArrival? || a.PutArrival? || a.AbortArrival?
    ensures OnItsWay(Apply(s, a), c, env, error)
  {
    if a.PutArrival? || a.AbortArrival? {
      assert CardOk(s.cfg, a.id, CardOf(s, a.id));
    }
  }

  /** So does a consumer that takes an entry, which is that of another envelope. */
  lemma HolderAndGet(s: State, d: nat, c: nat, env: Envelope, error: string)
    requires Inv(s) && Enabled(s, Get(d)) && OnItsWay(s, c, env, error) && s.places[env.id] == Held(c)
    ensures OnItsWay(Apply(s, Get(d)), c, env, error)
  {
    if s.queue[0].Some? {
      assert s.places[s.queue[0].value.id].Queued?;
    }
  }

  /** So does the end of another envelope. */
  lemma HolderAndOthers(s: State, a: Action, c: nat, env: Envelope, error: string)
    requires Inv(s) && Enabled(s, a) && OnItsWay(s, c, env, error) && s.places[env.id] == Held(c)
    requires a.PutRetry? || a.Drop? || a.FinishProcessed? || a.FinishDead?
    requires a.PutRetry? || a.Drop? ==> a.c != c
    ensures OnItsWay(Apply(s, a), c, env, error)
  {
    if s.tasks[a.c].Holds() {
      assert s.places[s.tasks[a.c].env.id] == Held(a.c);
    }
  }

  lemma HolderAndControl(s: State, a: Action, c: nat, env: Envelope, error: string)
    requires Inv(s) && Enabled(s, a) && OnItsWay(s, c, env, error) && s.places[env.id] == Held(c)
    requires a.Start? || a.Stop? || a.PutSentinel? || a.StopDone?
    ensures OnItsWay(Apply(s, a), c, env, error)
  {
    assert c in Holders(s.tasks);
  }

  lemma HolderAndDispatch(s: State, d: nat, r: DispatchResult, c: nat, env: Envelope, error: string)
    requires Inv(s) && Enabled(s, DispatchDone(d, r)) && OnItsWay(s, c, env, error) && s.places[env.id] == Held(c)
    ensures OnItsWay(Apply(s, DispatchDone(d, r)), c, env, error)
  {
    RestsAtDispatch(s, d, s.tasks[d].env, r);
    DispatchedIsOne(s, d, s.tasks[d].env, r, c);
  }

  lemma HolderAndRest(s: State, a: Action, c: nat, env: Envelope, error: string)
    requires Inv(s) && Enabled(s, a) && OnItsWay(s, c, env, error) && s.places[env.id] == Held(c)
    requires a.StoreProcessed? || a.BackoffDone? || a.StoreFailed? || a.StoreDead?
    requires a.BackoffDone? ==> a.c != c
    ensures OnItsWay(Apply(s, a), c, env, error)
  {
  }

  lemma HolderWaits(s: State, a: Action, c: nat, env: Envelope, error: string)
    requires Inv(s) && Enabled(s, a) && OnItsWay(s, c, env, error) && s.places[env.id] == Held(c)
    requires !((a.BackoffDone? || a.PutRetry? || a.Drop?) && a.c == c)
    ensures OnItsWay(Apply(s, a), c, env, error)
  {
    match a
    case Accept(_) => HolderAndArrivals(s, a, c, env, error);
    case SaveArrival(_) => HolderAndArrivals(s, a, c, env, error);
    case PutArrival(_) => HolderAndArrivals(s, a, c, env, error);
    case AbortArrival(_) => HolderAndArrivals(s, a, c, env, error);
    case Get(d) => HolderAndGet(s, d, c, env, error);
    case PutRetry(_) => HolderAndOthers(s, a, c, env, error);
    case Drop(_, _) => HolderAndOthers(s, a, c, env, error);
    case FinishProcessed(_) => HolderAndOthers(s, a, c, env, error);
    case FinishDead(_) => HolderAndOthers(s, a, c, env, error);
    case DispatchDone(d, r) => HolderAndDispatch(s, d, r, c, env, error);
    case StoreProcessed(_) => HolderAndRest(s, a, c, env, error);
    case BackoffDone(_) => HolderAndRest(s, a, c, env, error);
    case StoreFailed(_) => HolderAndRest(s, a, c, env, error);
    case StoreDead(_) => HolderAndRest(s, a, c, env, error);
    case _ => HolderAndControl(s, a, c, env, error);
  }

  lemma StepOnItsWay(s: State, a: Action, c: nat, env: Envelope, error: string)
    requires Inv(s) && Enabled(s, a) && OnItsWay(s, c, env, error) && !Takes(s, a, env.id)
    ensures OnItsWay(Apply(s, a), c, env, error)
  {
    if !s.places[env.id].Held? {
      RestsMeanwhile(s, a, env.id);
    } else if (a.BackoffDone? || a.PutRetry? || a.Drop?) && a.c == c {
      HolderGoesOn(s, a, c, env, error);
    } else {
      HolderWaits(s, a, c, env, error);
    }
  }

  lemma {:induction false} WayToRetry(run: seq<State>, acts: seq<Action>, n: nat, m: nat, c: nat, env: Envelope)
    requires IsRun(run, acts) && n < m < |run| && acts[n].DispatchDone? && acts[n].c == c
    requires c in run[n].tasks && run[n].tasks[c].Dispatching? && run[n].tasks[c].env == env
    requires Retries(env, acts[n].result)
    requires forall k :: n < k < m ==> !Takes(run[k], acts[k], env.id)
    ensures OnItsWay(run[m], c, env, JoinErrors(acts[n].result.handlerErrors))
    decreases m
  {
    RunInv(run, acts, m - 1);
    if m == n + 1 {
      RetryBegins(run[n], c, acts[n].result);
    } else {
      WayToRetry(run, acts, n, m - 1, c, env);
      StepOnItsWay(run[m - 1], acts[m - 1], c, env, JoinErrors(acts[n].result.handlerErrors));
    }
  }

  /**
   * After a failed attempt that is not the last, the next queue entry of the envelope is its retry: the
   * attempt is one higher and the joined errors are its last error.
   */
  lemma NextEntryIsRetry(run: seq<State>, acts: seq<Action>, n: nat, m: nat, i: nat)
    requires IsRun(run, acts) && n < m < |run| && acts[n].DispatchDone?
    requires acts[n].c in run[n].tasks && run[n].tasks[acts[n].c].Dispatching?
    requires Retries(run[n].tasks[acts[n].c].env, acts[n].result)
    requires forall k :: n < k < m ==> !Takes(run[k], acts[k], run[n].tasks[acts[n].c].env.id)
    requires QueuedAt(run[m], i, run[n].tasks[acts[n].c].env.id)
    ensures IsRetry(run[m].queue[i].value, run[n].tasks[acts[n].c].env, JoinErrors(acts[n].result.handlerErrors))
  {
    WayToRetry(run, acts, n, m, acts[n].c, run[n].tasks[acts[n].c].env);
    RunInv(run, acts, m);
  }

  /** Once back from its backoff, a failed attempt is on record with its joined errors. */
  lemma FailedAttemptIsRecorded(run: seq<State>, acts: seq<Action>, n: nat, m: nat)
    requires IsRun(run, acts) && n < m < |acts| && acts[n].DispatchDone? && acts[m] == BackoffDone(acts[n].c)
    requires acts[n].c in run[n].tasks && run[n].tasks[acts[n].c].Dispatching?
    requires Retries(run[n].tasks[acts[n].c].env, acts[n].result)
    requires forall k :: n < k < m ==> !Takes(run[k], acts[k], run[n].tasks[acts[n].c].env.id)
    requires acts[n].c in run[m].tasks && run[m].tasks[acts[n].c].BackingOff?
    requires run[m].tasks[acts[n].c].env.id == run[n].tasks[acts[n].c].env.id
    ensures var env, records := run[n].tasks[acts[n].c].env, run[m + 1].store.events;
      && env.id in records && records[env.id].status == Failed && records[env.id].attempt == env.attempt
      && records[env.id].lastError == Some(JoinErrors(acts[n].result.handlerErrors))
  {
    WayToRetry(run, acts, n, m, acts[n].c, run[n].tasks[acts[n].c].env);
    RunInv(run, acts, m);
    var id := run[n].tasks[acts[n].c].env.id;
    assert CardOk(run[m].cfg, id, CardOf(run[m], id));
  }

  // ---- Dead letters ----

  /** The error and the handler a final failure is reported with. */
  predicate FailsWith(env: Envelope, r: DispatchResult, error: string, handler: Option<string>) {
    if r.middlewareError.Some? then error == r.middlewareError.value && handler == None
    else
      && r.handlerErrors != [] && env.attempt >= env.maxAttempts
      && error == JoinErrors(r.handlerErrors)
      && handler == Some(r.handlerErrors[|r.handlerErrors| - 1].handler)
  }

  /** Action `k` is the end of a dispatch of `env` that fails for good with this error and handler. */
  ghost predicate FailedAt(run: seq<State>, acts: seq<Action>, k: nat, env: Envelope, error: string, handler: Option<string>)
    requires IsRun(run, acts)
  {
    && k < |acts| && acts[k].DispatchDone? && acts[k].c in run[k].tasks
    && run[k].tasks[acts[k].c] == Dispatching(env)
    && FailsWith(env, acts[k].result, error, handler)
  }

  ghost predicate FailedBefore(run: seq<State>, acts: seq<Action>, n: nat, env: Envelope, error: string, handler: Option<string>)
    requires IsRun(run, acts)
  {
    exists k: nat :: k < n && FailedAt(run, acts, k, env, error, handler)
  }

  /** The record of a dead letter is the envelope's, dead, with the error it failed with. */
  ghost predicate BuriedAs(d: DeadLetter, env: Envelope) {
    && d.stored.id == env.id && d.stored.event == env.event && d.stored.metadata == env.metadata
    && d.stored.attempt == env.attempt && d.stored.status == Dead && d.stored.lastError == Some(d.error)
  }

  ghost predicate Deserved(run: seq<State>, acts: seq<Action>, n: nat, d: DeadLetter)
    requires IsRun(run, acts)
  {
    exists env :: BuriedAs(d, env) && FailedBefore(run, acts, n, env, d.error, d.handler)
  }

  /** Consumers on their way to the dead letters, and the dead letters, go back to failed dispatches. */
  ghost predicate Explained(run: seq<State>, acts: seq<Action>, n: nat, s: State)
    requires IsRun(run, acts)
  {
    && (forall c :: c in s.tasks && (s.tasks[c].MarkingFailed? || s.tasks[c].DeadLettering?) ==>
          FailedBefore(run, acts, n, s.tasks[c].env, s.tasks[c].error, s.tasks[c].handler))
    && (forall i :: 0 <= i < |s.store.dead| ==> Deserved(run, acts, n, s.store.dead[i]))
  }

  lemma FailedEarlier(run: seq<State>, acts: seq<Action>, m: nat, n: nat, env: Envelope, error: string, handler: Option<string>)
    requires IsRun(run, acts) && m <= n && FailedBefore(run, acts, m, env, error, handler)
    ensures FailedBefore(run, acts, n, env, error, handler)
  {
  }

  /** On its way to the dead letters, with what the letter will say. */
  predicate Failing(s: State, c: nat, env: Envelope, error: string, handler: Option<string>) {
    && c in s.tasks && (s.tasks[c].MarkingFailed? || s.tasks[c].DeadLettering?)
    && s.tasks[c].env == env && s.tasks[c].error == error && s.tasks[c].handler == handler
  }

  lemma DispatchedFails(
      s: State, c: nat, held: Envelope, r: DispatchResult, env: Envelope, error: string, handler: Option<string>)
    requires c in s.tasks && Failing(AfterDispatch(s, c, held, r), c, env, error, handler)
    ensures env == held && FailsWith(env, r, error, handler)
  {
  }

  lemma FailingByDispatch(s: State, d: nat, r: DispatchResult, c: nat, env: Envelope, error: string, handler: Option<string>)
    requires Enabled(s, DispatchDone(d, r)) && Failing(Apply(s, DispatchDone(d, r)), c, env, error, handler)
    ensures Failing(s, c, env, error, handler) || (d == c && s.tasks[c] == Dispatching(env) && FailsWith(env, r, error, handler))
  {
    if d == c {
      DispatchedFails(s, c, s.tasks[c].env, r, env, error, handler);
    } else {
      DispatchedIsOne(s, d, s.tasks[d].env, r, c);
    }
  }

  lemma FailingBeforeLast(s: State, a: Action, c: nat, env: Envelope, error: string, handler: Option<string>)
    requires Enabled(s, a) && Failing(Apply(s, a), c, env, error, handler)
    requires a.FinishDead? || a.Drop? || a.FinishProcessed? || a.Get?
    ensures Failing(s, c, env, error, handler)
  {
  }

  lemma FailingBeforeStore(s: State, a: Action, c: nat, env: Envelope, error: string, handler: Option<string>)
    requires Enabled(s, a) && Failing(Apply(s, a), c, env, error, handler)
    requires a.StoreFailed? || a.StoreDead? || a.StoreProcessed? || a.BackoffDone?
    ensures Failing(s, c, env, error, handler)
  {
  }

  lemma FailingBefore(s: State, a: Action, c: nat, env: Envelope, error: string, handler: Option<string>)
    requires Enabled(s, a) && !a.DispatchDone? && Failing(Apply(s, a), c, env, error, handler)
    ensures Failing(s, c, env, error, handler)
  {
    if a.FinishDead? || a.Drop? || a.FinishProcessed? || a.Get? {
      FailingBeforeLast(s, a, c, env, error, handler);
    } else if a.StoreFailed? || a.StoreDead? || a.StoreProcessed? || a.BackoffDone? {
      FailingBeforeStore(s, a, c, env, error, handler);
    }
  }

  /** A step adds at most one dead letter, that of the consumer that takes it. */
  lemma NewDeadLetter(s: State, a: Action)
    requires Enabled(s, a)
    ensures a.StoreDead? ==>
      && a.c in s.tasks && s.tasks[a.c].DeadLettering?
      && |Apply(s, a).store.dead| == |s.store.dead| + 1
      && Apply(s, a).store.dead[..|s.store.dead|] == s.store.dead
      && var d, p := Apply(s, a).store.dead[|s.store.dead|], s.tasks[a.c];
         BuriedAs(d, p.env) && d.error == p.error && d.handler == p.handler
    ensures !a.StoreDead? ==> Apply(s, a).store.dead == s.store.dead
  {
  }

  lemma FailingGoesBack(run: seq<State>, acts: seq<Action>, n: nat, c: nat)
    requires IsRun(run, acts) && n < |acts| && Explained(run, acts, n, run[n])
    requires c in run[n + 1].tasks && (run[n + 1].tasks[c].MarkingFailed? || run[n + 1].tasks[c].DeadLettering?)
    ensures var p := run[n + 1].tasks[c]; FailedBefore(run, acts, n + 1, p.env, p.error, p.handler)
  {
    var s, a, p := run[n], acts[n], run[n + 1].tasks[c];
    if a.DispatchDone? {
      FailingByDispatch(s, a.c, a.result, c, p.env, p.error, p.handler);
    } else {
      FailingBefore(s, a, c, p.env, p.error, p.handler);
    }
    if Failing(s, c, p.env, p.error, p.handler) {
      FailedEarlier(run, acts, n, n + 1, p.env, p.error, p.handler);
    } else {
      assert FailedAt(run, acts, n, p.env, p.error, p.handler);
    }
  }

  lemma StepExplains(run: seq<State>, acts: seq<Action>, n: nat)
    requires IsRun(run, acts) && n < |acts| && Explained(run, acts, n, run[n])
    ensures Explained(run, acts, n + 1, run[n + 1])
  {
    var s, a, t := run[n], acts[n], run[n + 1];
    forall c | c in t.tasks && (t.tasks[c].MarkingFailed? || t.tasks[c].DeadLettering?)
      ensures FailedBefore(run, acts, n + 1, t.tasks[c].env, t.tasks[c].error, t.tasks[c].handler)
    {
      FailingGoesBack(run, acts, n, c);
    }
    NewDeadLetter(s, a);
    forall i | 0 <= i < |t.store.dead|
      ensures Deserved(run, acts, n + 1, t.store.dead[i])
    {
      DeadLetterExplained(run, acts, n, i);
    }
  }

  lemma DeadLetterExplained(run: seq<State>, acts: seq<Action>, n: nat, i: nat)
    requires IsRun(run, acts) && n < |acts| && Explained(run, acts, n, run[n]) && i < |run[n + 1].store.dead|
    ensures Deserved(run, acts, n + 1, run[n + 1].store.dead[i])
  {
    var s, a, t := run[n], acts[n], run[n + 1];
    NewDeadLetter(s, a);
    var d := t.store.dead[i];
    if i < |s.store.dead| {
      assert s.store.dead[i] == d && Deserved(run, acts, n, s.store.dead[i]);
      var env :| BuriedAs(d, env) && FailedBefore(run, acts, n, env, d.error, d.handler);
      FailedEarlier(run, acts, n, n + 1, env, d.error, d.handler);
    } else {
      var p := s.tasks[a.c];
      FailedEarlier(run, acts, n, n + 1, p.env, p.error, p.handler);
      assert BuriedAs(d, p.env);
    }
  }

  lemma {:induction false} RunExplained(run: seq<State>, acts: seq<Action>, n: nat)
    requires IsRun(run, acts) && n < |run|
    ensures Explained(run, acts, n, run[n])
  {
    if n == 0 {
      assert run[0].tasks == map[] && run[0].store.dead == [];
    } else {
      RunExplained(run, acts, n - 1);
      StepExplains(run, acts, n - 1);
    }
  }

  /**
   * Every dead letter is that of a dispatch that failed for good: it carries the middleware's error and
   * no handler, or the handlers' errors joined and the last handler, and the attempt that failed.
   */
  lemma DeadLetterTellsWhy(run: seq<State>, acts: seq<Action>, n: nat, i: nat) returns (k: nat, env: Envelope)
    requires IsRun(run, acts) && n < |run| && i < |run[n].store.dead|
    ensures var d := run[n].store.dead[i];
      k < n && BuriedAs(d, env) && FailedAt(run, acts, k, env, d.error, d.handler)
  {
    RunExplained(run, acts, n);
    var d := run[n].store.dead[i];
    assert Deserved(run, acts, n, d);
    env :| BuriedAs(d, env) && FailedBefore(run, acts, n, env, d.error, d.handler);
    k :| k < n && FailedAt(run, acts, k, env, d.error, d.handler);
  }

  predicate Decided(s: State, id: Id, succeeded: bool) {
    if succeeded then id in s.succeeded else id in s.failures
  }

  lemma StepKeepsDecided(s: State, a: Action, id: Id, succeeded: bool)
    requires Enabled(s, a) && Decided(s, id, succeeded)
    ensures Decided(Apply(s, a), id, succeeded)
  {
    if a.DispatchDone? {
      StepDecides(s, a.c, a.result);
    } else {
      OnlyDispatchDecides(s, a);
    }
  }

  lemma {:induction false} DecidedStays(run: seq<State>, acts: seq<Action>, m: nat, n: nat, id: Id, succeeded: bool)
    requires IsRun(run, acts) && m <= n < |run| && Decided(run[m], id, succeeded)
    ensures Decided(run[n], id, succeeded)
    decreases n
  {
    if m < n {
      DecidedStays(run, acts, m, n - 1, id, succeeded);
      StepKeepsDecided(run[n - 1], acts[n - 1], id, succeeded);
    }
  }

  /** An id fails at most once. */
  lemma FailsOnce(run: seq<State>, acts: seq<Action>, j: nat, k: nat, env: Envelope, env': Envelope,
                  e: string, e': string, h: Option<string>, h': Option<string>)
    requires IsRun(run, acts) && FailedAt(run, acts, j, env, e, h) && FailedAt(run, acts, k, env', e', h')
    requires env.id == env'.id
    ensures j == k
  {
    DispatchDecides(run, acts, j);
    DispatchDecides(run, acts, k);
    if j < k {
      DecidedStays(run, acts, j + 1, k, env.id, false);
    } else if k < j {
      DecidedStays(run, acts, k + 1, j, env.id, false);
    }
  }

  /**
   * A dispatch that failed for good has its dead letter once the envelope is done with, unless an
   * exception or a cancellation dropped it: with just its error and handler.
   */
  lemma FailureIsRecorded(run: seq<State>, acts: seq<Action>, k: nat, n: nat, env: Envelope, error: string, handler: Option<string>)
    returns (i: nat)
    requires IsRun(run, acts) && k < n < |run| && FailedAt(run, acts, k, env, error, handler)
    requires env.id in run[n].places && run[n].places[env.id] == Gone && env.id !in run[n].dropped
    ensures i < |run[n].store.dead|
    ensures BuriedAs(run[n].store.dead[i], env) && run[n].store.dead[i].error == error && run[n].store.dead[i].handler == handler
  {
    var s := run[n];
    RunInv(run, acts, n);
    DispatchDecides(run, acts, k);
    DecidedStays(run, acts, k + 1, n, env.id, false);
    assert CardOk(s.cfg, env.id, CardOf(s, env.id));
    assert IsDead(s.store, env.id);
    i :| 0 <= i < |s.store.dead| && s.store.dead[i].stored.id == env.id;
    var j, other := DeadLetterTellsWhy(run, acts, n, i);
    FailsOnce(run, acts, j, k, other, env, s.store.dead[i].error, error, s.store.dead[i].handler, handler);
  }

  /** A clean result is recorded: once the envelope is done with and not dropped, it is stored as processed. */
  lemma SuccessIsRecorded(run: seq<State>, acts: seq<Action>, k: nat, n: nat)
    requires IsRun(run, acts) && k < n < |run| && acts[k].DispatchDone? && Clean(acts[k].result)
    requires acts[k].c in run[k].tasks && run[k].tasks[acts[k].c].Dispatching?
    ensures var id := run[k].tasks[acts[k].c].env.id;
      id in run[n].places && run[n].places[id] == Gone && id !in run[n].dropped ==>
        id in run[n].store.events && run[n].store.events[id].status == Processed
  {
    var id, s := run[k].tasks[acts[k].c].env.id, run[n];
    RunInv(run, acts, n);
    DispatchDecides(run, acts, k);
    DecidedStays(run, acts, k + 1, n, id, true);
    assert CardOk(s.cfg, id, CardOf(s, id));
  }

  // ---- The dead-letter counter ----

  /** Failed envelopes that are done with and were not dropped. */
  ghost function DoneFailures(s: State): set<Id> {
    set id | id in s.failures && id in s.places && s.places[id] == Gone && id !in s.dropped
  }

  lemma FinishDeadCounts(s: State, c: nat)
    requires Inv(s) && Enabled(s, FinishDead(c))
    ensures var t, id := Apply(s, FinishDead(c)), s.tasks[c].env.id;
      id !in DoneFailures(s) && DoneFailures(t) == DoneFailures(s) + {id} && t.stats.deadLettered == s.stats.deadLettered + 1
  {
    var id := s.tasks[c].env.id;
    assert CardOk(s.cfg, id, CardOf(s, id));
  }

  lemma DispatchLeaves(s: State, c: nat, env: Envelope, r: DispatchResult)
    ensures AfterDispatch(s, c, env, r).places == s.places && AfterDispatch(s, c, env, r).dropped == s.dropped
    ensures AfterDispatch(s, c, env, r).stats.deadLettered == s.stats.deadLettered
  {
  }

  lemma SameDoneFailures(s: State, t: State, id: Id)
    requires t.places == s.places && t.dropped == s.dropped && id in s.places && s.places[id] != Gone
    requires s.failures <= t.failures <= s.failures + {id}
    ensures DoneFailures(t) == DoneFailures(s)
  {
  }

  lemma DispatchCountsNone(s: State, c: nat, r: DispatchResult)
    requires Inv(s) && Enabled(s, DispatchDone(c, r))
    ensures var t := Apply(s, DispatchDone(c, r));
      DoneFailures(t) == DoneFailures(s) && t.stats.deadLettered == s.stats.deadLettered
  {
    var env, t := s.tasks[c].env, Apply(s, DispatchDone(c, r));
    DispatchLeaves(s, c, env, r);
    assert s.failures <= t.failures <= s.failures + {env.id} by {
      StepDecides(s, c, r);
    }
    SameDoneFailures(s, t, env.id);
  }

  /** Letting go of an envelope that did not fail, or dropping one. */
  lemma ReleaseCountsNone(s: State, a: Action)
    requires Inv(s) && Enabled(s, a) && (a.FinishProcessed? || a.Drop? || a.PutRetry?)
    ensures DoneFailures(Apply(s, a)) == DoneFailures(s) && Apply(s, a).stats.deadLettered == s.stats.deadLettered
  {
    if s.tasks[a.c].Holds() {
      assert CardOk(s.cfg, s.tasks[a.c].env.id, CardOf(s, s.tasks[a.c].env.id));
    }
  }

  lemma ArrivalCountsNone(s: State, a: Action)
    requires Inv(s) && Enabled(s, a) && (a.Accept? || a.SaveArrival? || a.PutArrival? || a.AbortArrival?)
    ensures DoneFailures(Apply(s, a)) == DoneFailures(s) && Apply(s, a).stats.deadLettered == s.stats.deadLettered
  {
    var id := if a.Accept? then a.env.id else a.id;
    assert CardOk(s.cfg, id, CardOf(s, id));
  }

  lemma GetCountsNone(s: State, c: nat)
    requires Inv(s) && Enabled(s, Get(c))
    ensures DoneFailures(Got(s, c)) == DoneFailures(s) && Got(s, c).stats.deadLettered == s.stats.deadLettered
  {
    if s.queue[0].Some? {
      assert CardOk(s.cfg, s.queue[0].value.id, CardOf(s, s.queue[0].value.id));
    }
  }

  lemma StepCounts(s: State, a: Action)
    requires Inv(s) && Enabled(s, a) && s.stats.deadLettered == |DoneFailures(s)|
    ensures Apply(s, a).stats.deadLettered == |DoneFailures(Apply(s, a))|
  {
    match a
    case FinishDead(c) => FinishDeadCounts(s, c);
    case DispatchDone(c, r) => DispatchCountsNone(s, c, r);
    case FinishProcessed(_) => ReleaseCountsNone(s, a);
    case Drop(_, _) => ReleaseCountsNone(s, a);
    case PutRetry(_) => ReleaseCountsNone(s, a);
    case Accept(_) => ArrivalCountsNone(s, a);
    case SaveArrival(_) => ArrivalCountsNone(s, a);
    case PutArrival(_) => ArrivalCountsNone(s, a);
    case AbortArrival(_) => ArrivalCountsNone(s, a);
    case Get(c) => GetCountsNone(s, c);
    case _ => assert DoneFailures(Apply(s, a)) == DoneFailures(s);
  }

  /**
   * The dead-letter counter is the number of failed envelopes that are done with and were not dropped;
   * so after a flush in which nothing was dropped it equals the failures.
   */
  lemma {:induction false} DeadLettersAreCounted(run: seq<State>, acts: seq<Action>, n: nat)
    requires IsRun(run, acts) && n < |run|
    ensures run[n].stats.deadLettered == |DoneFailures(run[n])|
    ensures run[n].unfinished == 0 && run[n].dropped == {} ==> run[n].stats.deadLettered == run[n].stats.failed
  {
    RunInv(run, acts, n);
    if n == 0 {
      assert DoneFailures(run[0]) == {};
    } else {
      RunInv(run, acts, n - 1);
      DeadLettersAreCounted(run, acts, n - 1);
      StepCounts(run[n - 1], acts[n - 1]);
    }
    if run[n].unfinished == 0 && run[n].dropped == {} {
      AllFailuresDone(run, acts, n);
    }
  }

  lemma AllFailuresDone(run: seq<State>, acts: seq<Action>, n: nat)
    requires IsRun(run, acts) && n < |run| && run[n].unfinished == 0 && run[n].dropped == {}
    ensures DoneFailures(run[n]) == run[n].failures && run[n].stats.failed == |run[n].failures|
  {
    RunInv(run, acts, n);
    FlushIsSound(run, acts, n);
    var s := run[n];
    forall id | id in s.failures ensures id in DoneFailures(s) {
      assert CardOk(s.cfg, id, CardOf(s, id));
    }
  }
}
