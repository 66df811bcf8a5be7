/**
 * A batch run on top of the executor (claude_ai/orchestrator/batch.py, BatchRunner._execute): its
 * progress is what a run of the executor machine does, so the executor's promises carry over.
 */
module BatchExecution {
  import opened BatchStore
  import opened Batch
  import opened BatchTheorems
  import TaskLoop
  import Machine = ExecutorMachine
  import Proofs = ExecutorProofs
  import Theorems = ExecutorTheorems
  import ExecutorProgress

  // ---- What a run of the executor reports ----

  function ToProgress(r: TaskLoop.BulkResult): Progress {
    Settled(r.index, r.ok, r.value, r.error, r.attempts, r.account)
  }

  /** A permit acquired starts a call; a worker that enters `on_result` has settled its item. */
  function StepTrace(s: Machine.State, act: Machine.Action): seq<Progress>
    requires Machine.Enabled(s, act)
  {
    match act
    case Acquire(w) => [Called(s.workers[w].task.index)]
    case Take(w) => Entered(Machine.Apply(s, act), w)
    case Reply(w, _) => Entered(Machine.Apply(s, act), w)
    case Wake(w) => Entered(Machine.Apply(s, act), w)
    case End(w, _) => Entered(Machine.Apply(s, act), w)
    case Reacted(w) => Entered(Machine.Apply(s, act), w)
    case _ => []
  }

  function Entered(t: Machine.State, w: nat): seq<Progress> {
    if w in t.workers && t.workers[w].Reporting? then [ToProgress(t.workers[w].result)] else []
  }

  function Trace(states: seq<Machine.State>, acts: seq<Machine.Action>, n: nat): seq<Progress>
    requires Machine.IsRun(states, acts) && n <= |acts|
  {
    if n == 0 then [] else Trace(states, acts, n - 1) + StepTrace(states[n - 1], acts[n - 1])
  }

  /** One step calls an unsettled item, or settles one for the first time, or reports nothing. */
  ghost predicate Reports(s: Machine.State, ps: seq<Progress>, t: Machine.State) {
    && |ps| <= 1 && |t.results| == |s.results|
    && (ps == [] ==> t.results == s.results)
    && (|ps| == 1 ==> ps[0].pos < |s.results| && s.results[ps[0].pos].None?)
    && (|ps| == 1 && ps[0].Called? ==> t.results == s.results)
    && (|ps| == 1 && ps[0].Settled? ==>
          var r := t.results[ps[0].pos];
          r.Some? && ps[0] == ToProgress(r.value) && t.results == s.results[ps[0].pos := r])
  }

  lemma LoopReports(s: Machine.State, b: Machine.State, w: nat, task: TaskLoop.Task, l: TaskLoop.Local)
    requires Machine.WellShaped(b) && b.results == s.results && task.index < |b.items| && s.results[task.index].None?
    ensures Reports(s, Entered(Machine.Loop(b, w, task, l), w), Machine.Loop(b, w, task, l))
  {
  }

  lemma TakeReports(s: Machine.State, w: nat)
    requires Proofs.Inv(s) && Machine.Enabled(s, Machine.Take(w))
    ensures Reports(s, StepTrace(s, Machine.Take(w)), Machine.Apply(s, Machine.Take(w)))
  {
    var i := s.queue[0];
    assert i in s.queue && Proofs.CardOk(s.cfg, TaskLoop.Task(i, s.items[i]), Proofs.CardOf(s, i));
    LoopReports(s, s.(queue := s.queue[1..], places := s.places[i := Machine.With(w)]), w,
                TaskLoop.Task(i, s.items[i]), TaskLoop.START);
  }

  /** A worker that holds its item, before it has a result. */
  ghost predicate Working(s: Machine.State, w: nat) {
    && Machine.WellShaped(s) && w in s.workers && s.workers[w].Holds() && !s.workers[w].Reporting?
    && s.results[s.workers[w].task.index].None?
  }

  lemma ReplyReports(s: Machine.State, w: nat, reply: TaskLoop.PickReply)
    requires Working(s, w) && Machine.Enabled(s, Machine.Reply(w, reply))
    ensures Reports(s, StepTrace(s, Machine.Reply(w, reply)), Machine.Apply(s, Machine.Reply(w, reply)))
  {
  }

  lemma EndReports(s: Machine.State, w: nat, outcome: TaskLoop.Outcome)
    requires Working(s, w) && Machine.Enabled(s, Machine.End(w, outcome))
    ensures Reports(s, StepTrace(s, Machine.End(w, outcome)), Machine.Apply(s, Machine.End(w, outcome)))
  {
  }

  lemma StepReports(s: Machine.State, act: Machine.Action)
    requires Proofs.Inv(s) && Machine.Enabled(s, act)
    ensures Reports(s, StepTrace(s, act), Machine.Apply(s, act))
  {
    match act {
      case Take(w) => TakeReports(s, w);
      case Acquire(w) => Proofs.HeldItem(s, w);
      case Reply(w, reply) =>
        Proofs.HeldItem(s, w);
        ReplyReports(s, w, reply);
      case Wake(w) =>
        Proofs.HeldItem(s, w);
        LoopReports(s, s, w, s.workers[w].task, s.workers[w].l);
      case End(w, outcome) =>
        Proofs.HeldItem(s, w);
        EndReports(s, w, outcome);
      case Reacted(w) =>
        Proofs.HeldItem(s, w);
        var p := s.workers[w];
        LoopReports(s, Machine.Release(s, p.account), w, p.task, TaskLoop.AfterError(p.l, p.account, p.outcome));
      case _ =>
    }
  }

  // ---- The executor's guarantee, derived ----

  /** The settled items are those with a result, each settled once with it, and called only before. */
  ghost predicate TraceOk(ps: seq<Progress>, s: Machine.State) {
    && ValidProgress(ps, |s.results|)
    && (forall e :: 0 <= e < |ps| && ps[e].Settled? ==>
          var r := s.results[ps[e].pos]; r.Some? && ps[e] == ToProgress(r.value))
    && (forall i :: 0 <= i < |s.results| && s.results[i].Some? ==> SettledIn(ps, |ps|, i))
  }

  lemma TraceGrows(ps: seq<Progress>, s: Machine.State, more: seq<Progress>, t: Machine.State)
    requires TraceOk(ps, s) && Reports(s, more, t)
    ensures TraceOk(ps + more, t)
  {
    if |more| == 1 {
      assert ps + more == ps + [more[0]];
      OneMore(ps, s, more[0], t);
    } else {
      assert ps + more == ps;
    }
  }

  lemma OneMore(ps: seq<Progress>, s: Machine.State, p: Progress, t: Machine.State)
    requires TraceOk(ps, s) && Reports(s, [p], t)
    ensures TraceOk(ps + [p], t)
  {
    var after := ps + [p];
    assert [p][0] == p;
    forall i | 0 <= i < |t.results| && t.results[i].Some? ensures SettledIn(after, |after|, i) {
      if i == p.pos && p.Settled? {
        assert after[|ps|].Settled? && after[|ps|].pos == i;
      } else {
        var e :| 0 <= e < |ps| && ps[e].Settled? && ps[e].pos == i;
        assert after[e] == ps[e];
      }
    }
  }

  /** In every run of the executor, under any schedule, an item settles at most once and is not called after that. */
  lemma {:induction false} TraceIsValid(states: seq<Machine.State>, acts: seq<Machine.Action>, n: nat)
    requires Machine.IsRun(states, acts) && n <= |acts|
    ensures |states[n].results| == |states[0].items|
    ensures TraceOk(Trace(states, acts, n), states[n])
  {
    Theorems.RunInv(states, acts, n);
    if n > 0 {
      TraceIsValid(states, acts, n - 1);
      Theorems.RunInv(states, acts, n - 1);
      StepReports(states[n - 1], acts[n - 1]);
      TraceGrows(Trace(states, acts, n - 1), states[n - 1], StepTrace(states[n - 1], acts[n - 1]), states[n]);
    }
  }

  // ---- Batch runs on the executor ----

  /** One run of the executor machine. */
  datatype Execution = Execution(states: seq<Machine.State>, acts: seq<Machine.Action>)

  function Payloads(records: seq<BatchItem>): seq<Payload> {
    seq(|records|, i requires 0 <= i < |records| => records[i].payload)
  }

  /**
   * The run's progress is that of an executor given the records, with `on_result`; and if `map`
   * returned, it could.
   */
  ghost predicate Backed(jobs: Jobs, run: Run, x: Execution) {
    && Machine.IsRun(x.states, x.acts)
    && x.states[0].items == Payloads(Records(jobs, run)) && x.states[0].cfg.notifies
    && run.progress == Trace(x.states, x.acts, |x.acts|)
    && (run.returned ==> Machine.CanReturn(x.states[|x.acts|]))
  }

  /** So what a batch run assumes of the executor holds. */
  lemma BackedIsValid(jobs: Jobs, run: Run, x: Execution)
    requires Backed(jobs, run, x)
    ensures ValidRun(jobs, run)
  {
    TraceIsValid(x.states, x.acts, |x.acts|);
  }

  /** Runs of any jobs, each on an executor and cut off where its process died. */
  ghost predicate IsBackedHistory(stores: seq<Jobs>, runs: seq<Run>, xs: seq<Execution>) {
    && |stores| == |runs| + 1 && |xs| == |runs|
    && Good(stores[0])
    && forall i :: 0 <= i < |runs| ==> BackedStep(stores[i], runs[i], xs[i], stores[i + 1])
  }

  ghost predicate BackedStep(before: Jobs, run: Run, x: Execution, after: Jobs) {
    Backed(before, run, x) && after == Outcome(before, run)
  }

  lemma BackedHistory(stores: seq<Jobs>, runs: seq<Run>, xs: seq<Execution>)
    requires IsBackedHistory(stores, runs, xs)
    ensures IsHistory(stores, runs)
  {
    forall i | 0 <= i < |runs| ensures Follows(stores[i], runs[i], stores[i + 1]) {
      assert BackedStep(stores[i], runs[i], xs[i], stores[i + 1]);
      BackedIsValid(stores[i], runs[i], xs[i]);
    }
  }

  /**
   * Over any number of executor-driven runs and crashes: once a job exists, its item count, indices
   * and payloads are fixed, and a record stored as done is never rewritten.
   */
  lemma ResumesForever(stores: seq<Jobs>, runs: seq<Run>, xs: seq<Execution>, m: nat, n: nat, id: JobId)
    requires IsBackedHistory(stores, runs, xs) && m <= n < |stores|
    ensures KeepsJob(stores[m], stores[n], id)
    ensures id in stores[n] ==> Indexed(stores[n][id].items)
  {
    BackedHistory(stores, runs, xs);
    ResumeForever(stores, runs, m, n, id);
  }

  /** In such a history the task function is never called on an item that is stored as done. */
  lemma CallsOnlyOpen(stores: seq<Jobs>, runs: seq<Run>, xs: seq<Execution>, n: nat, e: nat)
    requires IsBackedHistory(stores, runs, xs) && n < |runs|
    requires e < |runs[n].progress| && runs[n].progress[e].Called?
    ensures runs[n].progress[e].pos < |Records(stores[n], runs[n])|
    ensures IsOpen(ItemList(StoreAtEvent(stores[n], runs[n], e), runs[n].id),
                   Records(stores[n], runs[n])[runs[n].progress[e].pos])
  {
    BackedHistory(stores, runs, xs);
    NeverCallsDone(stores, runs, n, e);
  }

  /** A result of the executor ends up under its item's own index. */
  lemma ResultUnderOwnIndex(jobs: Jobs, run: Run, x: Execution, i: nat)
    requires Good(jobs) && Backed(jobs, run, x)
    requires i < |x.states[|x.acts|].results| && x.states[|x.acts|].results[i].Some?
    ensures i < |Records(jobs, run)|
    ensures var record, r := Records(jobs, run)[i], x.states[|x.acts|].results[i].value;
      var items := ItemList(Executed(jobs, run), run.id);
      && record.index < |items|
      && items[record.index].index == record.index && items[record.index].payload == record.payload
      && (items[record.index].status == Done <==> r.ok) && (items[record.index].status == Failed <==> !r.ok)
      && items[record.index].result == r.value && items[record.index].error == r.error
      && items[record.index].attempts == r.attempts && items[record.index].account == r.account
  {
    BackedIsValid(jobs, run, x);
    TraceIsValid(x.states, x.acts, |x.acts|);
    var e :| 0 <= e < |run.progress| && run.progress[e].Settled? && run.progress[e].pos == i;
    OutcomeUnderOwnIndex(jobs, run, e);
  }

  // ---- A run that returned ----

  /** When `map` returned and no worker died, every record of the run is stored as done or failed, as its result says. */
  lemma ReturnedSettlesAll(jobs: Jobs, run: Run, x: Execution)
    requires Good(jobs) && Backed(jobs, run, x) && run.returned
    requires forall k :: 0 <= k < |x.acts| ==> !x.acts[k].Raise?
    ensures |x.states[|x.acts|].results| == |Records(jobs, run)|
    ensures forall i: nat :: i < |Records(jobs, run)| ==> SettledIn(run.progress, |run.progress|, i)
  {
    var n := |x.acts|;
    TraceIsValid(x.states, x.acts, n);
    Theorems.RunInv(x.states, x.acts, n);
    forall i: nat | i < |Records(jobs, run)| ensures SettledIn(run.progress, |run.progress|, i) {
      var s := x.states[n];
      Theorems.NothingInTransit(s, i);
      Theorems.NeverCrashed(x.states, x.acts, n, i);
      assert Proofs.CardOk(s.cfg, TaskLoop.Task(i, s.items[i]), Proofs.CardOf(s, i));
    }
  }

  /** A run that finishes, with no worker dead, leaves no item of its job pending. */
  lemma NothingLeftPending(jobs: Jobs, run: Run, x: Execution)
    requires Good(jobs) && Backed(jobs, run, x) && run.returned && run.survived >= |Writes(jobs, run)|
    requires forall k :: 0 <= k < |x.acts| ==> !x.acts[k].Raise?
    ensures var after := Outcome(jobs, run);
      run.id in after && forall k :: 0 <= k < |after[run.id].items| ==> after[run.id].items[k].status != Pending
  {
    BackedIsValid(jobs, run, x);
    ReturnedSettlesAll(jobs, run, x);
    SettledLeavesNonePending(jobs, run);
  }

  // ---- What failed is tried again ----

  /** The executor's result for record `i` is a success. */
  ghost predicate ResultIsOk(x: Execution, i: nat) {
    x.states != [] &&
    var results := x.states[|x.states| - 1].results;
    i < |results| && results[i].Some? && results[i].value.ok
  }

  lemma SucceedsExactly(jobs: Jobs, run: Run, x: Execution, i: nat)
    requires Backed(jobs, run, x) && i < |Records(jobs, run)|
    ensures Succeeds(run.progress, i) <==> ResultIsOk(x, i)
  {
    TraceIsValid(x.states, x.acts, |x.acts|);
    if ResultIsOk(x, i) {
      var e :| 0 <= e < |run.progress| && run.progress[e].Settled? && run.progress[e].pos == i;
      assert run.progress[e].ok;
    }
  }

  /** A finished run is COMPLETED exactly when the executor has an ok result for every record of it, else PARTIAL. */
  lemma CompletedIffAllOk(jobs: Jobs, run: Run, x: Execution)
    requires Good(jobs) && Backed(jobs, run, x) && run.returned && run.survived >= |Writes(jobs, run)|
    ensures var after := Outcome(jobs, run);
      && run.id in after
      && (after[run.id].job.status == Completed <==> forall i: nat :: i < |Records(jobs, run)| ==> ResultIsOk(x, i))
      && (after[run.id].job.status == Partial <==> after[run.id].job.status != Completed)
  {
    BackedIsValid(jobs, run, x);
    CompletedExactly(jobs, run);
    FinishedStatus(jobs, run);
    forall i: nat | i < |Records(jobs, run)| ensures Succeeds(run.progress, i) <==> ResultIsOk(x, i) {
      SucceedsExactly(jobs, run, x, i);
    }
  }

  lemma RunLeaves(before: Jobs, run: Run, after: Jobs, id: JobId)
    requires Follows(before, run, after) && run.id != id
    ensures id in after <==> id in before
    ensures id in before ==> after[id] == before[id]
  {
    RunTouchesOnlyItsJob(before, run, id);
  }

  lemma {:induction false} UntouchedBetween(stores: seq<Jobs>, runs: seq<Run>, m: nat, n: nat, id: JobId)
    requires IsHistory(stores, runs) && m <= n < |stores|
    requires forall j :: m <= j < n ==> runs[j].id != id
    ensures id in stores[n] <==> id in stores[m]
    ensures id in stores[m] ==> stores[n][id] == stores[m][id]
    decreases n
  {
    if m < n {
      UntouchedBetween(stores, runs, m, n - 1, id);
      assert Follows(stores[n - 1], runs[n - 1], stores[n - 1 + 1]);
      RunLeaves(stores[n - 1], runs[n - 1], stores[n], id);
    }
  }

  /**
   * A record for which the executor has no ok result is among the records of the job's next run, under
   * its index and with its payload, wherever the first run was cut off after it was opened.
   */
  lemma FailedIsRetried(stores: seq<Jobs>, runs: seq<Run>, xs: seq<Execution>, m: nat, n: nat, i: nat) returns (p: nat)
    requires IsBackedHistory(stores, runs, xs) && m < n < |runs| && runs[n].id == runs[m].id
    requires forall j :: m < j < n ==> runs[j].id != runs[m].id
    requires runs[m].survived >= |Opening(stores[m], runs[m])|
    requires i < |Records(stores[m], runs[m])| && !ResultIsOk(xs[m], i)
    ensures var first, next := Records(stores[m], runs[m])[i], Records(stores[n], runs[n]);
      p < |next| && next[p].index == first.index && next[p].payload == first.payload && next[p].status != Done
  {
    BackedHistory(stores, runs, xs);
    HistoryIsOk(stores, runs);
    assert BackedStep(stores[m], runs[m], xs[m], stores[m + 1]);
    BackedIsValid(stores[m], runs[m], xs[m]);
    SucceedsExactly(stores[m], runs[m], xs[m], i);
    NotOkStaysOpen(stores[m], runs[m], i);
    UntouchedBetween(stores, runs, m + 1, n, runs[m].id);
    var items := stores[n][runs[n].id].items;
    var item := items[Records(stores[m], runs[m])[i].index];
    PendingExactly(items);
    assert item in PendingOf(items);
    p :| 0 <= p < |PendingOf(items)| && PendingOf(items)[p] == item;
  }

  // ---- An instance: a job that loses an item ----

  /** One more step. */
  function Grown(x: Execution, act: Machine.Action): Execution
    requires Machine.IsRun(x.states, x.acts) && Machine.Enabled(x.states[|x.acts|], act)
  {
    Execution(x.states + [Machine.Apply(x.states[|x.acts|], act)], x.acts + [act])
  }

  lemma {:induction false} TracePrefix(x: Execution, y: Execution, n: nat)
    requires Machine.IsRun(x.states, x.acts) && Machine.IsRun(y.states, y.acts)
    requires n <= |x.acts| <= |y.acts| && x.states <= y.states && x.acts <= y.acts
    ensures Trace(x.states, x.acts, n) == Trace(y.states, y.acts, n)
  {
    if n > 0 {
      TracePrefix(x, y, n - 1);
    }
  }

  lemma TraceNext(x: Execution, n: nat)
    requires Machine.IsRun(x.states, x.acts) && n < |x.acts|
    ensures Trace(x.states, x.acts, n + 1) == Trace(x.states, x.acts, n) + StepTrace(x.states[n], x.acts[n])
  {
  }

  lemma Grow(x: Execution, act: Machine.Action)
    requires Machine.IsRun(x.states, x.acts) && Machine.Enabled(x.states[|x.acts|], act)
    ensures var y := Grown(x, act);
      && Machine.IsRun(y.states, y.acts) && |y.acts| == |x.acts| + 1 && y.states[0] == x.states[0]
      && y.states[|y.acts|] == Machine.Apply(x.states[|x.acts|], act)
      && Trace(y.states, y.acts, |y.acts|) ==
           Trace(x.states, x.acts, |x.acts|) + StepTrace(x.states[|x.acts|], act)
  {
    Theorems.RunGrows(x.states, x.acts, act);
    TracePrefix(x, Grown(x, act), |x.acts|);
    TraceNext(Grown(x, act), |x.acts|);
  }

  const ONE_CALL := TaskLoop.Config(1, 1, 0, true)
  const ONLY := TaskLoop.Task(0, "a")
  const TRIED := TaskLoop.START.(attempts := 1)

  /** The executor has put its one item and taken it off the queue; its one worker is at `p`. */
  ghost predicate AtPhase(s: Machine.State, p: Machine.Phase) {
    && Machine.WellShaped(s) && s.cfg == ONE_CALL && s.items == ["a"] && s.next == 1 && s.queue == []
    && s.unfinished == (if p.Idle? then 0 else 1) && s.workers == map[0 := p]
    && (p.Picking? || p.Acquiring? ==> s.sems == map[])
  }

  ghost predicate Reached(x: Execution, p: Machine.Phase, ps: seq<Progress>) {
    && Machine.IsRun(x.states, x.acts) && x.states[0].items == ["a"] && x.states[0].cfg == ONE_CALL
    && AtPhase(x.states[|x.acts|], p) && Trace(x.states, x.acts, |x.acts|) == ps
  }

  /** The step `act` takes the worker from `p` to `q` and reports `ps`. */
  ghost predicate Moves(s: Machine.State, act: Machine.Action, q: Machine.Phase, ps: seq<Progress>) {
    Machine.Enabled(s, act) && AtPhase(Machine.Apply(s, act), q) && StepTrace(s, act) == ps
  }

  lemma PickMoves(s: Machine.State)
    requires AtPhase(s, Machine.Picking(ONLY, TaskLoop.START))
    ensures Moves(s, Machine.Reply(0, TaskLoop.Picked("acc")), Machine.Acquiring(ONLY, TRIED, "acc"), [])
  {
  }

  lemma AcquireMoves(s: Machine.State)
    requires AtPhase(s, Machine.Acquiring(ONLY, TRIED, "acc"))
    ensures Moves(s, Machine.Acquire(0), Machine.Calling(ONLY, TRIED, "acc"), [Called(0)])
  {
  }

  const SUCCESS := TaskLoop.Succeed(ONLY, TRIED, "acc", "v")

  lemma EndMoves(s: Machine.State)
    requires AtPhase(s, Machine.Calling(ONLY, TRIED, "acc"))
    ensures Moves(s, Machine.End(0, TaskLoop.Returned("v")), Machine.Reporting(ONLY, SUCCESS), [ToProgress(SUCCESS)])
  {
  }

  lemma ReportMoves(s: Machine.State)
    requires AtPhase(s, Machine.Reporting(ONLY, SUCCESS))
    ensures Moves(s, Machine.Reported(0), Machine.Idle, [])
  {
  }

  lemma Advance(x: Execution, act: Machine.Action, p: Machine.Phase, q: Machine.Phase, ps: seq<Progress>, more: seq<Progress>)
    returns (y: Execution)
    requires Reached(x, p, ps) && Moves(x.states[|x.acts|], act, q, more)
    ensures Reached(y, q, ps + more)
  {
    Grow(x, act);
    y := Grown(x, act);
  }

  lemma TakesOnly() returns (x: Execution)
    ensures Reached(x, Machine.Picking(ONLY, TaskLoop.START), [])
  {
    x := Execution([ExecutorProgress.Fresh(ONE_CALL, ["a"], 2)], []);
    Grow(x, Machine.Produce);
    x := Grown(x, Machine.Produce);
    Grow(x, Machine.Take(0));
    x := Grown(x, Machine.Take(0));
  }

  lemma CallsOnly() returns (x: Execution)
    ensures Reached(x, Machine.Calling(ONLY, TRIED, "acc"), [Called(0)])
  {
    x := TakesOnly();
    PickMoves(x.states[|x.acts|]);
    x := Advance(x, Machine.Reply(0, TaskLoop.Picked("acc")), Machine.Picking(ONLY, TaskLoop.START),
                 Machine.Acquiring(ONLY, TRIED, "acc"), [], []);
    AcquireMoves(x.states[|x.acts|]);
    x := Advance(x, Machine.Acquire(0), Machine.Acquiring(ONLY, TRIED, "acc"),
                 Machine.Calling(ONLY, TRIED, "acc"), [], [Called(0)]);
  }

  /** The executor's run on one item that succeeds at once. */
  lemma RunsOnly() returns (x: Execution)
    ensures Reached(x, Machine.Idle, [Called(0), ToProgress(SUCCESS)])
  {
    x := CallsOnly();
    EndMoves(x.states[|x.acts|]);
    x := Advance(x, Machine.End(0, TaskLoop.Returned("v")), Machine.Calling(ONLY, TRIED, "acc"),
                 Machine.Reporting(ONLY, SUCCESS), [Called(0)], [ToProgress(SUCCESS)]);
    ReportMoves(x.states[|x.acts|]);
    x := Advance(x, Machine.Reported(0), Machine.Reporting(ONLY, SUCCESS), Machine.Idle,
                 [Called(0), ToProgress(SUCCESS)], []);
  }

  /** A job short of an item completes on real executor runs: the first dies in the save loop, the second returns. */
  lemma TwoItemsOneLostOnExecutor() returns (stores: seq<Jobs>, runs: seq<Run>, xs: seq<Execution>)
    ensures IsBackedHistory(stores, runs, xs) && |runs| == 2
    ensures stores[0] == map[] && runs[0].id == runs[1].id == "j" && runs[0].payloads == ["a", "b"]
    ensures "j" in stores[2] && stores[2]["j"].job.status == Completed
    ensures stores[2]["j"].job.total == 2 && |stores[2]["j"].items| == 1
  {
    var jobs := Outcome(map[], TWO_ITEMS_RUN);
    TwoItemsOneLost();
    OneOfTwoSaved(TWO_ITEMS_RUN);
    OnePending(jobs["j"].items);
    FreshAt(TWO_ITEMS_RUN.payloads);
    var first := Execution([ExecutorProgress.Fresh(ONE_CALL, ["a", "b"], 2)], []);
    var second := RunsOnly();
    assert Payloads(Records(map[], TWO_ITEMS_RUN)) == ["a", "b"];
    assert Payloads(Records(jobs, SECOND_RUN)) == ["a"];
    stores, runs, xs := [map[], jobs, Outcome(jobs, SECOND_RUN)], [TWO_ITEMS_RUN, SECOND_RUN], [first, second];
    TwoSteps(stores, runs, xs);
  }

  lemma TwoSteps(stores: seq<Jobs>, runs: seq<Run>, xs: seq<Execution>)
    requires |stores| == 3 && |runs| == |xs| == 2 && Good(stores[0])
    requires BackedStep(stores[0], runs[0], xs[0], stores[1]) && BackedStep(stores[1], runs[1], xs[1], stores[2])
    ensures IsBackedHistory(stores, runs, xs)
  {
  }
}
