/** What every schedule of the bulk executor keeps: one step at a time. */
module ExecutorProofs {
  import opened Wrappers
  import opened TaskLoop
  import opened ExecutorMachine

  // ---- The life of one item ----

  datatype Card = Card(
    place: Place,
    phase: Option<Phase>,
    result: Option<BulkResult>,
    calls: seq<Call>,
    asks: seq<Ask>,
    fired: nat)

  ghost function CardOf(s: State, i: nat): Card
    requires WellShaped(s) && i < |s.items|
  {
    Card(
      s.places[i],
      if s.places[i].With? && s.places[i].worker in s.workers then Some(s.workers[s.places[i].worker]) else None,
      s.results[i],
      s.calls[i],
      s.asks[i],
      s.fired[i])
  }

  ghost predicate Untouched(k: Card) {
    k.result == None && k.calls == [] && k.asks == [] && k.fired == 0
  }

  ghost predicate Settles(cfg: Config, task: Task, k: Card) {
    && k.result.Some? && ResultOk(cfg, task, k.result.value, k.asks, k.calls)
    && k.fired == (if cfg.notifies then 1 else 0)
  }

  /** What a card keeps even when its worker dies. */
  ghost predicate Bounded(cfg: Config, k: Card) {
    && CallsOk(k.calls) && |k.calls| <= Max(0, cfg.maxAttempts)
    && AsksOk(k.asks, k.calls) && KeptOn(cfg, k.asks) && |k.asks| <= RoundBound(cfg)
    && (k.result == None ==> k.fired == 0)
  }

  /** Between two rounds of the task loop. */
  ghost predicate AtLoop(cfg: Config, l: Local, k: Card) {
    && k.result == None && k.fired == 0
    && LocalOk(cfg, l, k.asks, k.calls)
  }

  /** An attempt is counted before its call is made. */
  ghost predicate AtCall(cfg: Config, l: Local, a: Account, k: Card) {
    && k.result == None && k.fired == 0
    && CallOk(cfg, l, a, k.asks, k.calls)
  }

  ghost predicate PhaseOk(cfg: Config, task: Task, k: Card, p: Phase) {
    && p.Holds() && p.task == task
    && match p
       case Picking(_, l) => AtLoop(cfg, l, k) && l.attempts < cfg.maxAttempts
       case Sleeping(_, l) => AtLoop(cfg, l, k)
       case Acquiring(_, l, a) => AtCall(cfg, l, a, k)
       case Calling(_, l, a) => AtCall(cfg, l, a, k)
       case Reacting(_, l, a, outcome) =>
         && k.result == None && k.fired == 0
         && !outcome.Ends() && LocalOk(cfg, AfterError(l, a, outcome), k.asks, k.calls)
       case Reporting(_, r) => Settles(cfg, task, k) && k.result == Some(r)
  }

  ghost predicate CardOk(cfg: Config, task: Task, k: Card) {
    match k.place
    case Unsent => Untouched(k)
    case Queued => Untouched(k)
    case With(_) => k.phase.Some? && PhaseOk(cfg, task, k, k.phase.value)
    case Finished => Settles(cfg, task, k)
    case Crashed => Bounded(cfg, k) && (k.result.Some? ==> Settles(cfg, task, k))
  }

  // ---- The invariant ----

  ghost predicate PlacesAgree(s: State)
    requires WellShaped(s)
  {
    && (forall i, j :: 0 <= i < j < |s.queue| ==> s.queue[i] != s.queue[j])
    && (forall i :: 0 <= i < |s.items| ==> (s.places[i] == Queued <==> i in s.queue))
    && (forall i :: 0 <= i < |s.items| ==> (s.places[i] == Unsent <==> i >= s.next))
    && (forall w :: w in s.workers && s.workers[w].Holds() ==> s.places[s.workers[w].task.index] == With(w))
  }

  ghost predicate CardsAgree(s: State)
    requires WellShaped(s)
  {
    forall i: nat :: i < |s.items| ==> CardOk(s.cfg, Task(i, s.items[i]), CardOf(s, i))
  }

  ghost function Holders(workers: map<nat, Phase>): set<nat> {
    set w | w in workers && workers[w].Holds()
  }

  ghost function PermitHolders(workers: map<nat, Phase>, a: Account): set<nat> {
    set w | w in workers && workers[w].HasPermit(a)
  }

  /** Free permits plus permits in use make up the account's allowance. */
  ghost predicate PermitsAgree(s: State) {
    forall a :: Free(s, a) >= 0 && Free(s, a) + |PermitHolders(s.workers, a)| == s.cfg.perAccount
  }

  /** The results that go to the dead letters. */
  ghost function Failures(results: seq<Option<BulkResult>>): multiset<BulkResult> {
    if results == [] then multiset{}
    else
      var last := results[|results| - 1];
      Failures(results[..|results| - 1]) + (if last.Some? && !last.value.ok then multiset{last.value} else multiset{})
  }

  ghost predicate DeadAgrees(s: State) {
    multiset(s.dead) == multiset(s.before) + Failures(s.results)
  }

  ghost predicate Inv(s: State) {
    && WellShaped(s)
    && PlacesAgree(s)
    && CardsAgree(s)
    && s.unfinished == |s.queue| + |Holders(s.workers)|
    && DeadAgrees(s)
  }

  // ---- Small facts ----

  lemma HoldersChange(workers: map<nat, Phase>, w: nat, p: Phase)
    requires w in workers
    ensures |Holders(workers[w := p])| ==
      |Holders(workers)| + (if p.Holds() then 1 else 0) - (if workers[w].Holds() then 1 else 0)
  {
    var before, after := Holders(workers), Holders(workers[w := p]);
    if workers[w].Holds() && !p.Holds() {
      assert after == before - {w};
    } else if !workers[w].Holds() && p.Holds() {
      assert after == before + {w};
    } else {
      assert after == before;
    }
  }

  lemma PermitHoldersChange(workers: map<nat, Phase>, w: nat, p: Phase, a: Account)
    requires w in workers
    ensures |PermitHolders(workers[w := p], a)| ==
      |PermitHolders(workers, a)| + (if p.HasPermit(a) then 1 else 0) - (if workers[w].HasPermit(a) then 1 else 0)
  {
    var before, after := PermitHolders(workers, a), PermitHolders(workers[w := p], a);
    if workers[w].HasPermit(a) && !p.HasPermit(a) {
      assert after == before - {w};
    } else if !workers[w].HasPermit(a) && p.HasPermit(a) {
      assert after == before + {w};
    } else {
      assert after == before;
    }
  }

  lemma {:induction false} FailuresSet(results: seq<Option<BulkResult>>, i: nat, r: BulkResult)
    requires i < |results| && results[i] == None
    ensures Failures(results[i := Some(r)]) == Failures(results) + (if r.ok then multiset{} else multiset{r})
  {
    var n := |results| - 1;
    var after := results[i := Some(r)];
    if i == n {
      assert after[..n] == results[..n];
    } else {
      FailuresSet(results[..n], i, r);
      assert after[..n] == results[..n][i := Some(r)];
    }
  }

  // ---- Steps of one worker on one item ----

  /** Nothing but item `i` and worker `w` changes. */
  ghost predicate Local1(s: State, t: State, w: nat, i: nat) {
    && WellShaped(s) && WellShaped(t) && i < |s.items|
    && t.cfg == s.cfg && t.items == s.items && t.before == s.before
    && w in s.workers && t.workers.Keys == s.workers.Keys
    && (forall v :: v in s.workers && v != w ==> t.workers[v] == s.workers[v])
    && (forall j :: 0 <= j < |s.items| && j != i ==>
          && t.places[j] == s.places[j] && t.results[j] == s.results[j] && t.calls[j] == s.calls[j]
          && t.asks[j] == s.asks[j] && t.fired[j] == s.fired[j])
  }

  lemma OneCard(s: State, t: State, w: nat, i: nat)
    requires Local1(s, t, w, i) && CardsAgree(s) && PlacesAgree(s)
    requires s.workers[w].Holds() ==> s.workers[w].task.index == i
    requires s.places[i] == With(w) || !s.places[i].With?
    requires CardOk(t.cfg, Task(i, t.items[i]), CardOf(t, i))
    ensures CardsAgree(t)
  {
    forall j: nat | j < |t.items| && j != i ensures CardOk(t.cfg, Task(j, t.items[j]), CardOf(t, j)) {
      assert CardOk(s.cfg, Task(j, s.items[j]), CardOf(s, j));
    }
  }

  /** A worker that keeps its item and its place. */
  lemma WorkerStep(s: State, t: State, w: nat, i: nat)
    requires Inv(s) && Local1(s, t, w, i)
    requires s.workers[w].Holds() && s.workers[w].task.index == i
    requires t.workers[w].Holds() && t.workers[w].task.index == i
    requires t.places == s.places && t.queue == s.queue && t.next == s.next && t.unfinished == s.unfinished
    requires DeadAgrees(t)
    requires CardOk(t.cfg, Task(i, t.items[i]), CardOf(t, i))
    ensures Inv(t)
  {
    OneCard(s, t, w, i);
    assert t.workers == s.workers[w := t.workers[w]];
    HoldersChange(s.workers, w, t.workers[w]);
  }

  lemma SettledDead(s: State, w: nat, task: Task, r: BulkResult)
    requires WellShaped(s) && DeadAgrees(s) && task.index < |s.items| && s.results[task.index] == None
    ensures DeadAgrees(Settled(s, w, task, r))
  {
    FailuresSet(s.results, task.index, r);
  }

  /** Bookkeeping of item `i` that leaves every worker, place, queue slot and result alone. */
  ghost predicate Books(s: State, b: State, i: nat) {
    && WellShaped(s) && i < |s.items| && |b.calls| == |b.asks| == |s.items|
    && b == s.(sems := b.sems, calls := s.calls[i := b.calls[i]], asks := s.asks[i := b.asks[i]])
  }

  ghost predicate Runs(s: State, w: nat, task: Task) {
    w in s.workers && s.workers[w].Holds() && s.workers[w].task == task
  }

  lemma HeldItem(s: State, w: nat)
    requires Inv(s) && w in s.workers && s.workers[w].Holds()
    ensures var p := s.workers[w];
      && p.task == Task(p.task.index, s.items[p.task.index])
      && PhaseOk(s.cfg, p.task, CardOf(s, p.task.index), p)
  {
    var i := s.workers[w].task.index;
    assert CardOk(s.cfg, Task(i, s.items[i]), CardOf(s, i));
  }

  lemma CardIsBounded(cfg: Config, task: Task, k: Card)
    requires CardOk(cfg, task, k)
    ensures Bounded(cfg, k)
  {
  }

  lemma EnterReport(s: State, b: State, w: nat, task: Task, r: BulkResult)
    requires Inv(s) && Runs(s, w, task) && Books(s, b, task.index)
    requires s.results[task.index] == None && s.fired[task.index] == 0
    requires ResultOk(s.cfg, task, r, b.asks[task.index], b.calls[task.index])
    ensures Inv(Settled(b, w, task, r))
  {
    HeldItem(s, w);
    SettledDead(b, w, task, r);
    WorkerStep(s, Settled(b, w, task, r), w, task.index);
  }

  lemma EnterLoop(s: State, b: State, w: nat, task: Task, l: Local)
    requires Inv(s) && Runs(s, w, task) && Books(s, b, task.index)
    requires s.results[task.index] == None && s.fired[task.index] == 0
    requires LocalOk(s.cfg, l, b.asks[task.index], b.calls[task.index])
    ensures Inv(Loop(b, w, task, l))
  {
    if l.attempts < s.cfg.maxAttempts {
      HeldItem(s, w);
      WorkerStep(s, Loop(b, w, task, l), w, task.index);
    } else {
      OutOfAttempts(s.cfg, task, l, b.asks[task.index], b.calls[task.index]);
      EnterReport(s, b, w, task, Fail(task, l));
    }
  }

  // ---- The steps ----

  lemma ProduceKeeps(s: State)
    requires Inv(s) && s.next < |s.items| && |s.queue| < s.capacity
    ensures Inv(Produced(s))
  {
    var t := Produced(s);
    assert s.places[s.next] == Unsent;
    assert forall w :: w in s.workers && s.workers[w].Holds() ==> s.workers[w].task.index != s.next;
    forall i: nat | i < |t.items| ensures CardOk(t.cfg, Task(i, t.items[i]), CardOf(t, i)) {
      assert CardOk(s.cfg, Task(i, s.items[i]), CardOf(s, i));
    }
  }

  /** Halfway through Take: the worker holds the item, about to enter the task loop. */
  ghost function Fetched(s: State, w: nat): State
    requires Enabled(s, Take(w))
  {
    var i := s.queue[0];
    s.(queue := s.queue[1..], places := s.places[i := With(w)],
       workers := s.workers[w := Sleeping(Task(i, s.items[i]), START)])
  }

  lemma FetchKeeps(s: State, w: nat)
    requires Inv(s) && Enabled(s, Take(w))
    ensures Inv(Fetched(s, w))
  {
    var i := s.queue[0];
    var m := Fetched(s, w);
    assert i in s.queue && CardOk(s.cfg, Task(i, s.items[i]), CardOf(s, i));
    HoldersChange(s.workers, w, m.workers[w]);
    PopPlaces(s, m, w);
    FetchedCard(s, w);
    OneCard(s, m, w, i);
  }

  lemma FetchedCard(s: State, w: nat)
    requires Enabled(s, Take(w)) && Untouched(CardOf(s, s.queue[0]))
    ensures var i, m := s.queue[0], Fetched(s, w);
      WellShaped(m) && CardOk(m.cfg, Task(i, m.items[i]), CardOf(m, i)) && Local1(s, m, w, i)
  {
  }

  lemma TakeKeeps(s: State, w: nat)
    requires Inv(s) && Enabled(s, Take(w))
    ensures Inv(Taken(s, w))
  {
    FetchKeeps(s, w);
    var m := Fetched(s, w);
    var task := m.workers[w].task;
    HeldItem(m, w);
    EnterLoop(m, m, w, task, START);
    TakenIsFetchedThenLoop(s, w);
  }

  lemma TakenIsFetchedThenLoop(s: State, w: nat)
    requires Enabled(s, Take(w))
    ensures WellShaped(Fetched(s, w))
    ensures Taken(s, w) == Loop(Fetched(s, w), w, Task(s.queue[0], s.items[s.queue[0]]), START)
  {
    var task := Task(s.queue[0], s.items[s.queue[0]]);
    assert s.workers[w := Sleeping(task, START)][w := Picking(task, START)] == s.workers[w := Picking(task, START)];
    var r := Reporting(task, Fail(task, START));
    assert s.workers[w := Sleeping(task, START)][w := r] == s.workers[w := r];
  }

  lemma PopPlaces(s: State, m: State, w: nat)
    requires Inv(s) && Enabled(s, Take(w))
    requires m == Fetched(s, w)
    ensures WellShaped(m) && PlacesAgree(m)
  {
    var i := s.queue[0];
    assert i in s.queue;
    assert forall v :: v in s.workers && s.workers[v].Holds() ==> s.workers[v].task.index != i;
    forall j | 0 <= j < |m.items| ensures m.places[j] == Queued <==> j in m.queue {
      if j in s.queue && j != i {
        var k :| 0 <= k < |s.queue| && s.queue[k] == j;
        assert m.queue[k - 1] == j;
      }
      if j in m.queue {
        var k :| 0 <= k < |m.queue| && m.queue[k] == j;
        assert s.queue[k + 1] == j;
      }
    }
  }

  lemma SleepKeeps(s: State, w: nat, l: Local)
    requires Inv(s) && w in s.workers && s.workers[w].Picking?
    requires AfterPick(s.cfg, s.workers[w].task, s.workers[w].l, NoneAvailable) == SleepOn(l)
    ensures var p := s.workers[w];
      Inv(TakeTurn(Asked(s, p.task.index, Ask(p.l.tried, NoneAvailable)), w, p.task, SleepOn(l)))
  {
    HeldItem(s, w);
    var p := s.workers[w];
    var i := p.task.index;
    SleptOk(s.cfg, p.l, s.asks[i], s.calls[i]);
    WorkerStep(s, Asked(s, i, Ask(p.l.tried, NoneAvailable)).(workers := s.workers[w := Sleeping(p.task, l)]), w, i);
  }

  /** Item `i` with the account `a` given to its worker. */
  ghost function Given(s: State, w: nat, a: Account): State
    requires WellShaped(s) && w in s.workers && s.workers[w].Picking?
  {
    var p := s.workers[w];
    Asked(s, p.task.index, Ask(p.l.tried, Picked(a))).(
      workers := s.workers[w := Acquiring(p.task, p.l.(attempts := p.l.attempts + 1), a)])
  }

  lemma GivenCard(s: State, w: nat, a: Account)
    requires Inv(s) && w in s.workers && s.workers[w].Picking? && a !in s.workers[w].l.tried
    ensures var i := s.workers[w].task.index;
      WellShaped(Given(s, w, a)) && CardOk(s.cfg, Task(i, s.items[i]), CardOf(Given(s, w, a), i))
  {
    HeldItem(s, w);
    var p := s.workers[w];
    PickedOk(s.cfg, p.l, s.asks[p.task.index], s.calls[p.task.index], a);
  }

  lemma PickedKeeps(s: State, w: nat, a: Account)
    requires Inv(s) && w in s.workers && s.workers[w].Picking? && a !in s.workers[w].l.tried
    ensures var p := s.workers[w];
      Inv(TakeTurn(Asked(s, p.task.index, Ask(p.l.tried, Picked(a))), w, p.task, MakeCall(p.l.(attempts := p.l.attempts + 1), a)))
  {
    GivenCard(s, w, a);
    WorkerStep(s, Given(s, w, a), w, s.workers[w].task.index);
  }

  lemma GiveUpKeeps(s: State, w: nat, reply: PickReply, r: BulkResult)
    requires Inv(s) && w in s.workers && s.workers[w].Picking?
    requires AfterPick(s.cfg, s.workers[w].task, s.workers[w].l, reply) == GiveUp(r)
    ensures var p := s.workers[w];
      Inv(TakeTurn(Asked(s, p.task.index, Ask(p.l.tried, reply)), w, p.task, GiveUp(r)))
  {
    HeldItem(s, w);
    var p := s.workers[w];
    var i := p.task.index;
    var b := Asked(s, i, Ask(p.l.tried, reply));
    GaveUpOk(s.cfg, p.task, p.l, s.asks[i], s.calls[i], reply, r);
    assert b.calls == s.calls[i := b.calls[i]];
    EnterReport(s, b, w, p.task, r);
  }

  lemma ReplyKeeps(s: State, w: nat, reply: PickReply)
    requires Inv(s) && w in s.workers && s.workers[w].Picking?
    requires reply.Picked? ==> reply.account !in s.workers[w].l.tried
    ensures var p := s.workers[w];
      Inv(TakeTurn(Asked(s, p.task.index, Ask(p.l.tried, reply)), w, p.task, AfterPick(s.cfg, p.task, p.l, reply)))
  {
    var turn := AfterPick(s.cfg, s.workers[w].task, s.workers[w].l, reply);
    if turn.GiveUp? {
      GiveUpKeeps(s, w, reply, turn.result);
    } else if turn.SleepOn? {
      SleepKeeps(s, w, turn.l);
    } else {
      PickedKeeps(s, w, turn.account);
    }
  }

  lemma WakeKeeps(s: State, w: nat)
    requires Inv(s) && Enabled(s, Wake(w))
    ensures Inv(Loop(s, w, s.workers[w].task, s.workers[w].l))
  {
    HeldItem(s, w);
    EnterLoop(s, s, w, s.workers[w].task, s.workers[w].l);
  }

  lemma AcquireKeeps(s: State, w: nat)
    requires Inv(s) && Enabled(s, Acquire(w))
    ensures Inv(Acquired(s, w))
  {
    HeldItem(s, w);
    WorkerStep(s, Acquired(s, w), w, s.workers[w].task.index);
  }

  lemma EndKeeps(s: State, w: nat, outcome: Outcome)
    requires Inv(s) && Enabled(s, End(w, outcome))
    ensures Inv(Ended(s, w, outcome))
  {
    HeldItem(s, w);
    var p := s.workers[w];
    var i := p.task.index;
    CallAppended(s.cfg, p.l, p.account, outcome, s.asks[i], s.calls[i]);
    var b := Logged(s, p.task, Call(p.account, outcome));
    var r := Release(b, p.account);
    assert b.asks == s.asks[i := b.asks[i]];
    assert Books(s, b, i) && Books(s, r, i);
    if outcome.Ends() {
      EnterReport(s, r, w, p.task, EndResult(p.task, p.l, p.account, outcome));
    } else if outcome.RateLimited? || outcome.AuthFailed? {
      WorkerStep(s, Ended(s, w, outcome), w, i);
    } else {
      EnterLoop(s, r, w, p.task, AfterError(p.l, p.account, outcome));
    }
  }

  lemma ReactedKeeps(s: State, w: nat)
    requires Inv(s) && Enabled(s, Reacted(w))
    ensures Inv(AfterReaction(s, w))
  {
    HeldItem(s, w);
    var p := s.workers[w];
    assert Books(s, Release(s, p.account), p.task.index);
    EnterLoop(s, Release(s, p.account), w, p.task, AfterError(p.l, p.account, p.outcome));
  }

  lemma DonePlaces(s: State, b: State, w: nat, place: Place, next: Phase)
    requires Inv(s) && w in s.workers && s.workers[w].Holds() && !next.Holds()
    requires b == s.(sems := b.sems) && (place == Crashed || place == Finished)
    ensures WellShaped(Done(b, w, place, next)) && PlacesAgree(Done(b, w, place, next))
  {
    assert s.places[s.workers[w].task.index] == With(w);
  }

  lemma DoneKeeps(s: State, b: State, w: nat, place: Place, next: Phase)
    requires Inv(s) && w in s.workers && s.workers[w].Holds() && !next.Holds()
    requires b == s.(sems := b.sems)
    requires place == Crashed || (place == Finished && s.workers[w].Reporting?)
    ensures Inv(Done(b, w, place, next))
  {
    HeldItem(s, w);
    CardIsBounded(s.cfg, s.workers[w].task, CardOf(s, s.workers[w].task.index));
    DonePlaces(s, b, w, place, next);
    HoldersChange(s.workers, w, next);
    OneCard(s, Done(b, w, place, next), w, s.workers[w].task.index);
  }

  /** Every step of the executor keeps the invariant. */
  lemma StepKeepsInv(s: State, act: Action)
    requires Inv(s) && Enabled(s, act)
    ensures Inv(Apply(s, act))
  {
    match act
    case Produce => ProduceKeeps(s);
    case Take(w) => TakeKeeps(s, w);
    case Reply(w, reply) => ReplyKeeps(s, w, reply);
    case Wake(w) => WakeKeeps(s, w);
    case Acquire(w) => AcquireKeeps(s, w);
    case End(w, outcome) => EndKeeps(s, w, outcome);
    case Reacted(w) => ReactedKeeps(s, w);
    case Reported(w) => DoneKeeps(s, s, w, Finished, Idle);
    case Raise(w) =>
      var p := s.workers[w];
      DoneKeeps(s, if p.Calling? || p.Reacting? then Release(s, p.account) else s, w, Crashed, Dead);
  }

  // ---- The bulkhead ----

  function Used(p: Phase, a: Account): int {
    if p.HasPermit(a) then 1 else 0
  }

  /** What worker `w` takes or gives back of account `a`, the semaphore loses or gains. */
  ghost predicate Balanced(s: State, t: State, w: nat, a: Account)
    requires w in s.workers && w in t.workers
  {
    Free(t, a) >= 0 && Free(t, a) + Used(t.workers[w], a) == Free(s, a) + Used(s.workers[w], a)
  }

  /** Only worker `w` moves, and the semaphores change by what its permits show. */
  ghost predicate PermitStep(s: State, t: State, w: nat) {
    && w in s.workers && w in t.workers && t.cfg == s.cfg
    && t.workers == s.workers[w := t.workers[w]]
    && forall a :: Balanced(s, t, w, a)
  }

  /** No semaphore is ever below zero. */
  lemma FreeIsNatural(s: State, a: Account)
    requires PermitsAgree(s)
    ensures Free(s, a) >= 0 && Free(s, a) + |PermitHolders(s.workers, a)| == s.cfg.perAccount
  {
    assert Free(s, a) >= 0;
  }

  lemma PermitStepKeeps(s: State, t: State, w: nat)
    requires PermitsAgree(s) && PermitStep(s, t, w)
    ensures PermitsAgree(t)
  {
    forall a ensures Free(t, a) >= 0 && Free(t, a) + |PermitHolders(t.workers, a)| == t.cfg.perAccount {
      assert Balanced(s, t, w, a);
      FreeIsNatural(s, a);
      PermitHoldersChange(s.workers, w, t.workers[w], a);
    }
  }

  /** Leaving the task loop or going round it takes and gives no permit. */
  lemma LoopTakesNoPermit(s: State, w: nat, task: Task, l: Local)
    requires WellShaped(s) && task.index < |s.items|
    ensures var t := Loop(s, w, task, l);
      t.cfg == s.cfg && t.sems == s.sems && t.workers == s.workers[w := t.workers[w]] &&
      forall a :: Used(t.workers[w], a) == 0
  {
  }

  lemma EndGivesPermitBack(s: State, w: nat, outcome: Outcome)
    requires PermitsAgree(s) && Enabled(s, End(w, outcome))
    ensures PermitStep(s, Ended(s, w, outcome), w)
  {
    var p, t := s.workers[w], Ended(s, w, outcome);
    if !outcome.Ends() {
      LoopTakesNoPermit(Release(Logged(s, p.task, Call(p.account, outcome)), p.account), w, p.task, AfterError(p.l, p.account, outcome));
    }
    forall a ensures Balanced(s, t, w, a) {
      FreeIsNatural(s, a);
    }
  }

  lemma ReactionGivesPermitBack(s: State, w: nat)
    requires PermitsAgree(s) && Enabled(s, Reacted(w))
    ensures PermitStep(s, AfterReaction(s, w), w)
  {
    var p, t := s.workers[w], AfterReaction(s, w);
    LoopTakesNoPermit(Release(s, p.account), w, p.task, AfterError(p.l, p.account, p.outcome));
    forall a ensures Balanced(s, t, w, a) {
      FreeIsNatural(s, a);
    }
  }

  lemma TakeTakesNoPermit(s: State, w: nat)
    requires PermitsAgree(s) && Enabled(s, Take(w))
    ensures PermitStep(s, Taken(s, w), w)
  {
    var i, t := s.queue[0], Taken(s, w);
    LoopTakesNoPermit(s.(queue := s.queue[1..], places := s.places[i := With(w)]), w, Task(i, s.items[i]), START);
    forall a ensures Balanced(s, t, w, a) {
      FreeIsNatural(s, a);
    }
  }

  lemma ReplyTakesNoPermit(s: State, w: nat, reply: PickReply)
    requires PermitsAgree(s) && Enabled(s, Reply(w, reply))
    ensures PermitStep(s, Replied(s, w, reply), w)
  {
    var turn, t := AfterPick(s.cfg, s.workers[w].task, s.workers[w].l, reply), Replied(s, w, reply);
    assert turn.GiveUp? || turn.SleepOn? || turn.MakeCall?;
    forall a ensures Balanced(s, t, w, a) {
      FreeIsNatural(s, a);
    }
  }

  lemma WakeTakesNoPermit(s: State, w: nat)
    requires PermitsAgree(s) && Enabled(s, Wake(w))
    ensures PermitStep(s, Apply(s, Wake(w)), w)
  {
    var t := Apply(s, Wake(w));
    LoopTakesNoPermit(s, w, s.workers[w].task, s.workers[w].l);
    forall a ensures Balanced(s, t, w, a) {
      FreeIsNatural(s, a);
    }
  }

  lemma AcquireTakesPermit(s: State, w: nat)
    requires PermitsAgree(s) && Enabled(s, Acquire(w))
    ensures PermitStep(s, Acquired(s, w), w)
  {
    var t := Acquired(s, w);
    forall a ensures Balanced(s, t, w, a) {
      FreeIsNatural(s, a);
    }
  }

  /** Done with an item, or dead of an exception: a permit in use is given back. */
  lemma DoneGivesPermitBack(s: State, act: Action)
    requires PermitsAgree(s) && Enabled(s, act) && (act.Reported? || act.Raise?)
    ensures PermitStep(s, Apply(s, act), act.w)
  {
    var t := Apply(s, act);
    forall a ensures Balanced(s, t, act.w, a) {
      FreeIsNatural(s, a);
    }
  }

  lemma ProduceTakesNoPermit(s: State)
    requires PermitsAgree(s) && Enabled(s, Produce)
    ensures PermitsAgree(Produced(s))
  {
    var t := Produced(s);
    forall a ensures Free(t, a) >= 0 && Free(t, a) + |PermitHolders(t.workers, a)| == t.cfg.perAccount {
      FreeIsNatural(s, a);
    }
  }

  /** Every step keeps free plus used permits equal to the allowance: each exit path gives its permit back. */
  lemma StepKeepsPermits(s: State, act: Action)
    requires PermitsAgree(s) && Enabled(s, act)
    ensures PermitsAgree(Apply(s, act))
  {
    if act.Produce? {
      ProduceTakesNoPermit(s);
    } else {
      match act {
        case Take(w) => TakeTakesNoPermit(s, w);
        case Reply(w, reply) => ReplyTakesNoPermit(s, w, reply);
        case Wake(w) => WakeTakesNoPermit(s, w);
        case Acquire(w) => AcquireTakesPermit(s, w);
        case End(w, outcome) => EndGivesPermitBack(s, w, outcome);
        case Reacted(w) => ReactionGivesPermitBack(s, w);
        case Reported(w) => DoneGivesPermitBack(s, act);
        case Raise(w) => DoneGivesPermitBack(s, act);
      }
      PermitStepKeeps(s, Apply(s, act), act.w);
    }
  }
}
