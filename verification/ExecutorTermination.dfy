/** Every schedule of the bulk executor ends: each step uses up a part of a fixed budget per item. */
module ExecutorTermination {
  import opened Wrappers
  import opened TaskLoop
  import opened ExecutorMachine
  import opened ExecutorProofs
  import opened ExecutorTheorems
  import opened ExecutorProgress

  // ---- What is left to do for one item ----

  function Budget(cfg: Config): nat {
    4 * RoundBound(cfg) + 4
  }

  /** Steps at most left in the rounds not used yet. */
  function RoundsLeft(cfg: Config, rounds: nat): nat {
    4 * Max(0, RoundBound(cfg) - rounds)
  }

  function PhaseWork(cfg: Config, rounds: nat, p: Phase): nat {
    match p
    case Picking(_, _) => RoundsLeft(cfg, rounds) + 2
    case Sleeping(_, _) => RoundsLeft(cfg, rounds) + 3
    case Acquiring(_, _, _) => RoundsLeft(cfg, rounds) + 5
    case Calling(_, _, _) => RoundsLeft(cfg, rounds) + 4
    case Reacting(_, _, _, _) => RoundsLeft(cfg, rounds) + 3
    case Reporting(_, _) => 1
    case Idle => 0
    case Dead => 0
  }

  function Work(s: State, i: nat): nat
    requires WellShaped(s) && i < |s.items|
  {
    match s.places[i]
    case Unsent => Budget(s.cfg)
    case Queued => Budget(s.cfg) - 1
    case With(w) => if w in s.workers then PhaseWork(s.cfg, |s.asks[i]|, s.workers[w]) else 0
    case Finished => 0
    case Crashed => 0
  }

  /** All that is left to do for the first `n` items. */
  function TotalWork(s: State, n: nat): nat
    requires WellShaped(s) && n <= |s.items|
  {
    if n == 0 then 0 else TotalWork(s, n - 1) + Work(s, n - 1)
  }

  // ---- One step ----

  /** The item a step works on. */
  function ItemOf(s: State, act: Action): (i: nat)
    requires Enabled(s, act)
    ensures i < |s.items|
  {
    match act
    case Produce => s.next
    case Take(_) => s.queue[0]
    case Reply(w, _) => s.workers[w].task.index
    case Wake(w) => s.workers[w].task.index
    case Acquire(w) => s.workers[w].task.index
    case End(w, _) => s.workers[w].task.index
    case Reacted(w) => s.workers[w].task.index
    case Reported(w) => s.workers[w].task.index
    case Raise(w) => s.workers[w].task.index
  }

  /** Item `i` and worker `w` are all that moves. */
  ghost predicate Touches(s: State, t: State, w: nat, i: nat) {
    && WellShaped(s) && WellShaped(t) && i < |s.items| == |t.items| && t.cfg == s.cfg
    && w in s.workers && w in t.workers && t.workers == s.workers[w := t.workers[w]]
    && t.places == s.places[i := t.places[i]] && t.asks == s.asks[i := t.asks[i]]
  }

  /** The worker holds item `i` after the step, in a phase with at most `work` to do. */
  ghost predicate HoldsWith(t: State, w: nat, i: nat, work: int) {
    && WellShaped(t) && i < |t.items| && w in t.workers && t.workers[w].Holds() && t.workers[w].task.index == i
    && PhaseWork(t.cfg, |t.asks[i]|, t.workers[w]) <= work
  }

  lemma LoopWork(s: State, w: nat, task: Task, l: Local)
    requires WellShaped(s) && task.index < |s.items| && w in s.workers
    ensures Touches(s, Loop(s, w, task, l), w, task.index)
    ensures Loop(s, w, task, l).places == s.places && Loop(s, w, task, l).asks == s.asks
    ensures HoldsWith(Loop(s, w, task, l), w, task.index, RoundsLeft(s.cfg, |s.asks[task.index]|) + 2)
  {
  }

  lemma TurnWork(s: State, w: nat, task: Task, turn: Turn)
    requires WellShaped(s) && task.index < |s.items| && w in s.workers
    ensures Touches(s, TakeTurn(s, w, task, turn), w, task.index)
    ensures TakeTurn(s, w, task, turn).places == s.places && TakeTurn(s, w, task, turn).asks == s.asks
    ensures HoldsWith(TakeTurn(s, w, task, turn), w, task.index, RoundsLeft(s.cfg, |s.asks[task.index]|) + 5)
  {
  }

  lemma TouchesTwice(s: State, m: State, t: State, w: nat, i: nat)
    requires Touches(s, m, w, i) && Touches(m, t, w, i)
    ensures Touches(s, t, w, i)
  {
    assert t.places == s.places[i := t.places[i]] && t.asks == s.asks[i := t.asks[i]];
  }

  /** What a worker's step has to do to item `i`: touch nothing else, and leave less to do. */
  ghost predicate Uses(s: State, t: State, w: nat, i: nat) {
    Touches(s, t, w, i) && Work(t, i) < Work(s, i)
  }

  lemma HeldWork(s: State, w: nat)
    requires Inv(s) && w in s.workers && s.workers[w].Holds()
    ensures var i := s.workers[w].task.index;
      && s.places[i] == With(w) && |s.asks[i]| <= RoundBound(s.cfg)
      && Work(s, i) == PhaseWork(s.cfg, |s.asks[i]|, s.workers[w])
  {
    HeldItem(s, w);
    var i := s.workers[w].task.index;
    CardIsBounded(s.cfg, s.workers[w].task, CardOf(s, i));
  }

  lemma TakeUses(s: State, w: nat)
    requires Inv(s) && Enabled(s, Take(w))
    ensures Uses(s, Taken(s, w), w, s.queue[0])
  {
    var i := s.queue[0];
    assert i in s.queue && CardOk(s.cfg, Task(i, s.items[i]), CardOf(s, i));
    var m := s.(queue := s.queue[1..], places := s.places[i := With(w)]);
    LoopWork(m, w, Task(i, s.items[i]), START);
    TouchesTwice(s, m, Taken(s, w), w, i);
  }

  lemma ReplyUses(s: State, w: nat, reply: PickReply)
    requires Inv(s) && Enabled(s, Reply(w, reply))
    ensures Uses(s, Replied(s, w, reply), w, s.workers[w].task.index)
  {
    var p, t := s.workers[w], Replied(s, w, reply);
    var i := p.task.index;
    var m := Asked(s, i, Ask(p.l.tried, reply));
    TurnWork(m, w, p.task, AfterPick(s.cfg, p.task, p.l, reply));
    TouchesTwice(s, m, t, w, i);
    HeldWork(s, w);
    StepKeepsInv(s, Reply(w, reply));
    HeldWork(t, w);
  }

  lemma WakeUses(s: State, w: nat)
    requires Inv(s) && Enabled(s, Wake(w))
    ensures Uses(s, Apply(s, Wake(w)), w, s.workers[w].task.index)
  {
    HeldWork(s, w);
    LoopWork(s, w, s.workers[w].task, s.workers[w].l);
  }

  lemma AcquireUses(s: State, w: nat)
    requires Inv(s) && Enabled(s, Acquire(w))
    ensures Uses(s, Acquired(s, w), w, s.workers[w].task.index)
  {
    HeldWork(s, w);
  }

  lemma EndUses(s: State, w: nat, outcome: Outcome)
    requires Inv(s) && Enabled(s, End(w, outcome))
    ensures Uses(s, Ended(s, w, outcome), w, s.workers[w].task.index)
  {
    HeldWork(s, w);
    if !outcome.Ends() && !outcome.RateLimited? && !outcome.AuthFailed? {
      var p := s.workers[w];
      var m := Release(Logged(s, p.task, Call(p.account, outcome)), p.account);
      GoesRound(s, m, w, AfterError(p.l, p.account, outcome));
    }
  }

  lemma ReactedUses(s: State, w: nat)
    requires Inv(s) && Enabled(s, Reacted(w))
    ensures Uses(s, AfterReaction(s, w), w, s.workers[w].task.index)
  {
    var p := s.workers[w];
    GoesRound(s, Release(s, p.account), w, AfterError(p.l, p.account, p.outcome));
  }

  /** Back at the top of the task loop after a call. */
  lemma GoesRound(s: State, m: State, w: nat, l: Local)
    requires Inv(s) && w in s.workers && (s.workers[w].Calling? || s.workers[w].Reacting?)
    requires WellShaped(m) && m == s.(sems := m.sems, calls := m.calls)
    ensures Uses(s, Loop(m, w, s.workers[w].task, l), w, s.workers[w].task.index)
  {
    HeldWork(s, w);
    LoopWork(m, w, s.workers[w].task, l);
  }

  lemma DoneUses(s: State, b: State, w: nat, place: Place, next: Phase)
    requires Inv(s) && w in s.workers && s.workers[w].Holds() && !next.Holds()
    requires b == s.(sems := b.sems) && (place == Crashed || place == Finished)
    ensures Uses(s, Done(b, w, place, next), w, s.workers[w].task.index)
  {
    HeldWork(s, w);
  }

  lemma StepUses(s: State, act: Action)
    requires Inv(s) && Enabled(s, act) && !act.Produce?
    ensures Uses(s, Apply(s, act), act.w, ItemOf(s, act))
  {
    match act
    case Take(w) => TakeUses(s, w);
    case Reply(w, reply) => ReplyUses(s, w, reply);
    case Wake(w) => WakeUses(s, w);
    case Acquire(w) => AcquireUses(s, w);
    case End(w, outcome) => EndUses(s, w, outcome);
    case Reacted(w) => ReactedUses(s, w);
    case Reported(w) => DoneUses(s, s, w, Finished, Idle);
    case Raise(w) =>
      var p := s.workers[w];
      DoneUses(s, if p.Calling? || p.Reacting? then Release(s, p.account) else s, w, Crashed, Dead);
  }

  /** The work for item `j` is not touched by a worker that is busy with another item. */
  lemma OtherWork(s: State, t: State, w: nat, i: nat, j: nat)
    requires Inv(s) && Touches(s, t, w, i) && j < |s.items| && j != i
    requires s.workers[w].Holds() ==> s.workers[w].task.index == i
    ensures Work(t, j) == Work(s, j)
  {
    assert CardOk(s.cfg, Task(j, s.items[j]), CardOf(s, j));
  }

  lemma ProduceUses(s: State, j: nat)
    requires Inv(s) && Enabled(s, Produce) && j < |s.items|
    ensures WellShaped(Produced(s))
    ensures Work(Produced(s), j) == Work(s, j) - if j == s.next then 1 else 0
  {
    assert s.places[s.next] == Unsent;
  }

  /** Each step takes something off the work left for its item, and leaves all other work as it is. */
  lemma StepWorks(s: State, act: Action, j: nat)
    requires Inv(s) && Enabled(s, act) && j < |s.items|
    ensures var t := Apply(s, act);
      && WellShaped(t) && |t.items| == |s.items|
      && (if j == ItemOf(s, act) then Work(t, j) < Work(s, j) else Work(t, j) == Work(s, j))
  {
    if act.Produce? {
      ProduceUses(s, j);
    } else {
      StepUses(s, act);
      if j != ItemOf(s, act) {
        OtherWork(s, Apply(s, act), act.w, ItemOf(s, act), j);
      }
    }
  }

  lemma {:induction false} TotalFalls(s: State, t: State, i: nat, n: nat)
    requires WellShaped(s) && WellShaped(t) && |t.items| == |s.items| && t.cfg == s.cfg && i < |s.items| && n <= |s.items|
    requires Work(t, i) < Work(s, i)
    requires forall j: nat :: j < |s.items| && j != i ==> Work(t, j) == Work(s, j)
    ensures TotalWork(t, n) <= TotalWork(s, n) - if i < n then 1 else 0
  {
    if n > 0 {
      TotalFalls(s, t, i, n - 1);
    }
  }

  lemma StepTakesWork(s: State, act: Action)
    requires Inv(s) && Enabled(s, act)
    ensures var t := Apply(s, act);
      WellShaped(t) && |t.items| == |s.items| && t.cfg == s.cfg && TotalWork(t, |s.items|) < TotalWork(s, |s.items|)
  {
    StepKeepsInv(s, act);
    StepKeepsInputs(s, act);
    var i, t := ItemOf(s, act), Apply(s, act);
    StepWorks(s, act, i);
    forall j: nat | j < |s.items| && j != i ensures Work(t, j) == Work(s, j) {
      StepWorks(s, act, j);
    }
    TotalFalls(s, t, i, |s.items|);
  }

  // ---- Whole schedules ----

  lemma {:induction false} AllUnsent(s: State, n: nat)
    requires Initial(s) && n <= |s.items|
    ensures TotalWork(s, n) == n * Budget(s.cfg)
  {
    if n > 0 {
      AllUnsent(s, n - 1);
      assert s.places[n - 1] == Unsent;
      assert n * Budget(s.cfg) == (n - 1) * Budget(s.cfg) + Budget(s.cfg);
    }
  }

  lemma {:induction false} StepsUseWork(run: seq<State>, acts: seq<Action>, n: nat)
    requires IsRun(run, acts) && n < |run|
    ensures Inv(run[n]) && |run[n].items| == |run[0].items|
    ensures TotalWork(run[n], |run[0].items|) + n <= |run[0].items| * Budget(run[0].cfg)
  {
    RunInv(run, acts, n);
    if n == 0 {
      AllUnsent(run[0], |run[0].items|);
    } else {
      StepsUseWork(run, acts, n - 1);
      StepTakesWork(run[n - 1], acts[n - 1]);
    }
  }

  /** No schedule is longer than four steps for each round an item may take, and four more, per item. */
  lemma ScheduleBound(run: seq<State>, acts: seq<Action>)
    requires IsRun(run, acts)
    ensures |acts| <= |run[0].items| * (4 * RoundBound(run[0].cfg) + 4)
  {
    StepsUseWork(run, acts, |acts|);
  }

  /**
   * Without an exception every schedule leads to the return of `map`: it is bounded, and it can only
   * stop where `map` can return, with a result for every item.
   */
  lemma MapReturns(run: seq<State>, acts: seq<Action>)
    requires IsRun(run, acts) && Usable(run[0])
    requires forall k :: 0 <= k < |acts| ==> !acts[k].Raise?
    requires forall act: Action :: !act.Raise? ==> !Enabled(run[|acts|], act)
    ensures CanReturn(run[|acts|]) && Complete(run[|acts|], Compact(run[|acts|].results))
  {
    NeverStuckWithoutException(run, acts, |acts|);
    MapReturnsEverything(run, acts, |acts|);
  }
}
