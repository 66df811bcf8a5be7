/**
 * The runner against the real store (claude_ai/orchestrator/batch.py, BatchRunner.run and
 * _execute). The process dies when the run's budget of store writes is used up.
 */
module BatchRunner {
  import opened Wrappers
  import opened BatchStore
  import opened Batch
  import opened BatchTheorems

  class BatchRunner {
    const store: StorageBatchStore

    constructor (store: StorageBatchStore)
      ensures this.store == store
    {
      this.store := store;
    }

    /** One write of a run, unless the process is dead by now. */
    method Write1(w: Write, ghost before: Jobs, left: nat) returns (alive: bool)
      requires Represents(store.storage.data, before) && CanApply(before, w)
      modifies store.storage
      ensures alive <==> left > 0
      ensures Represents(store.storage.data, if alive then ApplyWrite(before, w) else before)
    {
      if left == 0 {
        return false;
      }
      match w {
        case Create(job) => store.CreateJob(job, before);
        case SetStatus(id, status) => store.SetJobStatus(id, status, before);
        case SaveItem(id, item) => store.SaveOne(id, item, before);
      }
      return true;
    }

    /** Mark an existing job running and list what is pending. */
    method Reopen(run: Run, ghost jobs: Jobs) returns (records: seq<BatchItem>, alive: bool)
      requires Represents(store.storage.data, jobs) && run.id in jobs
      modifies store.storage
      ensures alive <==> run.survived >= 1
      ensures alive ==> records == Records(jobs, run)
      ensures Represents(store.storage.data, StoreAtWrite(jobs, run, if alive then 1 else 0))
    {
      alive := Write1(SetStatus(run.id, Running), jobs, run.survived);
      assert StoreAtWrite(jobs, run, 0) == jobs;
      if !alive {
        return [], false;
      }
      var items := store.ListItems(run.id, ApplyWrite(jobs, SetStatus(run.id, Running)));
      return PendingOf(items), true;
    }

    /** Save the records of a new job one by one. */
    method SaveAll(id: JobId, records: seq<BatchItem>, budget: nat, ghost base: Jobs) returns (saved: nat)
      requires Represents(store.storage.data, base) && Holds(base, id, |records|, []) && Indexed(records)
      modifies store.storage
      ensures saved == Min(budget, |records|) && |Saves(id, records)| == |records|
      ensures Represents(store.storage.data, After(base, Saves(id, records), saved))
    {
      saved := 0;
      SavesAt(id, records);
      while saved < |records|
        invariant saved <= budget && saved <= |records|
        invariant Represents(store.storage.data, After(base, Saves(id, records), saved))
      {
        NextSave(base, id, records, saved);
        var alive := Write1(SaveItem(id, records[saved]), After(base, Saves(id, records), saved), budget - saved);
        if !alive {
          return;
        }
        saved := saved + 1;
      }
    }

    /** Create the job and save every record. */
    method OpenNew(run: Run, ghost jobs: Jobs) returns (records: seq<BatchItem>, alive: bool)
      requires Represents(store.storage.data, jobs) && run.id !in jobs
      modifies store.storage
      ensures records == Fresh(run.payloads)
      ensures alive <==> run.survived >= |Opening(jobs, run)|
      ensures Represents(store.storage.data, StoreAtWrite(jobs, run, Min(run.survived, |Opening(jobs, run)|)))
    {
      records := Fresh(run.payloads);
      NewJob(jobs, run);
      ghost var created := ApplyWrite(jobs, Create(BatchJob(run.id, |run.payloads|, Running)));
      alive := Write1(Create(BatchJob(run.id, |run.payloads|, Running)), jobs, run.survived);
      if alive {
        var saved := SaveAll(run.id, records, run.survived - 1, created);
        alive := saved == |records|;
        NewOpening(jobs, run, saved);
      }
    }

    method Open(run: Run, ghost jobs: Jobs) returns (records: seq<BatchItem>, left: int, alive: bool)
      requires Represents(store.storage.data, jobs) && Good(jobs)
      modifies store.storage
      ensures alive <==> run.survived >= |Opening(jobs, run)|
      ensures alive ==> records == Records(jobs, run)
      ensures left == run.survived - |Opening(jobs, run)|
      ensures Represents(store.storage.data, StoreAtWrite(jobs, run, Min(run.survived, |Opening(jobs, run)|)))
    {
      var existing := store.GetJob(run.id, jobs);
      if existing.Some? {
        records, alive := Reopen(run, jobs);
        left := run.survived - 1;
      } else {
        records, alive := OpenNew(run, jobs);
        SavesAt(run.id, records);
        left := run.survived - 1 - |records|;
      }
    }

    /** `on_result` of the `e`-th event. */
    method SaveSettled(run: Run, record: BatchItem, e: nat, left: nat, ghost jobs: Jobs) returns (alive: bool)
      requires Good(jobs) && ValidRun(jobs, run) && e < |run.progress| && run.progress[e].Settled?
      requires record == Records(jobs, run)[run.progress[e].pos]
      requires Represents(store.storage.data, StoreAtEvent(jobs, run, e))
      modifies store.storage
      ensures alive <==> left > 0
      ensures Represents(store.storage.data, StoreAtEvent(jobs, run, if alive then e + 1 else e))
    {
      SettledFits(jobs, run, e);
      alive := Write1(SaveItem(run.id, OutcomeOf(record, run.progress[e])), StoreAtEvent(jobs, run, e), left);
    }

    /** `_execute`: every settled task saves its record; `reached` events were processed. */
    method Execute(run: Run, records: seq<BatchItem>, budget: nat, ghost jobs: Jobs)
      returns (left: nat, reached: nat, alive: bool)
      requires Good(jobs) && ValidRun(jobs, run) && records == Records(jobs, run)
      requires Represents(store.storage.data, StoreAtEvent(jobs, run, 0))
      modifies store.storage
      ensures reached <= |run.progress| && (alive ==> reached == |run.progress|)
      ensures budget - left == SavesMade(jobs, run, reached)
      ensures !alive ==> left == 0 && reached < |run.progress| && run.progress[reached].Settled?
      ensures Represents(store.storage.data, StoreAtEvent(jobs, run, reached))
      ensures AllTold(jobs, run, reached)
    {
      left, reached := budget, 0;
      while reached < |run.progress|
        invariant reached <= |run.progress|
        invariant budget - left == SavesMade(jobs, run, reached)
        invariant Represents(store.storage.data, StoreAtEvent(jobs, run, reached))
      {
        EventStep(jobs, run, reached);
        if run.progress[reached].Settled? {
          alive := SaveSettled(run, records[run.progress[reached].pos], reached, left, jobs);
          if !alive {
            EventsAreTold(jobs, run, reached);
            return;
          }
          left := left - 1;
        }
        reached := reached + 1;
      }
      EventsAreTold(jobs, run, reached);
      alive := true;
    }

    /** Store the final status, unless the process is dead by now, and read the job back. */
    method Close(run: Run, left: nat, ghost jobs: Jobs) returns (job: Option<BatchJob>)
      requires Good(jobs) && run.returned && Represents(store.storage.data, Executed(jobs, run))
      modifies store.storage
      ensures job.Some? <==> left > 0
      ensures Represents(store.storage.data,
                         if left > 0 then After(jobs, Writes(jobs, run), |Writes(jobs, run)|) else Executed(jobs, run))
      ensures left > 0 ==> run.id in After(jobs, Writes(jobs, run), |Writes(jobs, run)|)
      ensures left > 0 ==> job.value == After(jobs, Writes(jobs, run), |Writes(jobs, run)|)[run.id].job
    {
      ClosedState(jobs, run);
      var items := store.ListItems(run.id, Executed(jobs, run));
      var status := if AllDone(items) then Completed else Partial;
      var alive := Write1(SetStatus(run.id, status), Executed(jobs, run), left);
      if !alive {
        return None;
      }
      job := store.GetJob(run.id, ApplyWrite(Executed(jobs, run), SetStatus(run.id, status)));
    }

    /** `run`: open, execute, then record the final status. */
    method RunJob(run: Run, ghost jobs: Jobs) returns (job: Option<BatchJob>)
      requires Represents(store.storage.data, jobs) && Good(jobs) && ValidRun(jobs, run)
      modifies store.storage
      ensures Represents(store.storage.data, Outcome(jobs, run))
      ensures job.Some? <==> run.returned && run.survived >= |Writes(jobs, run)|
      ensures job.Some? ==> run.id in Outcome(jobs, run) && job.value == Outcome(jobs, run)[run.id].job
    {
      var records, left, alive := Open(run, jobs);
      if !alive {
        DiedInOpening(jobs, run);
        return None;
      }
      var reached: nat;
      left, reached, alive := Execute(run, records, left, jobs);
      if !alive {
        DiedAtEvent(jobs, run, reached);
        return None;
      }
      OutlivedBody(jobs, run);
      if !run.returned {
        return None;
      }
      job := Close(run, left, jobs);
    }
  }

  /** The store after `m` writes of the opening. */
  function StoreAtWrite(jobs: Jobs, run: Run, m: nat): Jobs
    requires m <= |Opening(jobs, run)|
  {
    After(jobs, Opening(jobs, run), m)
  }

  lemma NextSave(base: Jobs, id: JobId, records: seq<BatchItem>, i: nat)
    requires Holds(base, id, |records|, []) && Indexed(records) && i < |records|
    ensures |Saves(id, records)| == |records|
    ensures CanApply(After(base, Saves(id, records), i), SaveItem(id, records[i]))
    ensures After(base, Saves(id, records), i + 1) ==
      ApplyWrite(After(base, Saves(id, records), i), SaveItem(id, records[i]))
  {
    SavesAt(id, records);
    SavesBuild(base, id, |records|, records, i);
  }

  /** The saves that the first `n` events lead to. */
  function SavesMade(jobs: Jobs, run: Run, n: nat): nat
    requires n <= |run.progress|
  {
    |ProgressWrites(run.id, Records(jobs, run), run.progress, n)|
  }

  /** A settled event adds one save; a call adds none. */
  lemma EventWrites(jobs: Jobs, run: Run, e: nat)
    requires ValidRun(jobs, run) && e < |run.progress|
    ensures var records, progress := Records(jobs, run), run.progress;
      ProgressWrites(run.id, records, progress, e + 1) == ProgressWrites(run.id, records, progress, e) +
        if progress[e].Settled? then [SaveItem(run.id, OutcomeOf(records[progress[e].pos], progress[e]))] else []
  {
  }

  lemma EventStep(jobs: Jobs, run: Run, e: nat)
    requires ValidRun(jobs, run) && e < |run.progress|
    ensures run.progress[e].pos < |Records(jobs, run)|
    ensures SavesMade(jobs, run, e + 1) == SavesMade(jobs, run, e) + if run.progress[e].Settled? then 1 else 0
    ensures !run.progress[e].Settled? ==> StoreAtEvent(jobs, run, e + 1) == StoreAtEvent(jobs, run, e)
  {
    EventWrites(jobs, run, e);
  }

  lemma AfterLast(jobs: Jobs, ws: seq<Write>, w: Write)
    ensures After(jobs, ws + [w], |ws| + 1) == Apply1(After(jobs, ws, |ws|), w)
  {
    AfterPrefix(jobs, ws, ws + [w], |ws|);
  }

  lemma SettledCanBeSaved(jobs: Jobs, run: Run, e: nat)
    requires Good(jobs) && ValidRun(jobs, run) && e < |run.progress| && run.progress[e].Settled?
    ensures CanApply(StoreAtEvent(jobs, run, e),
                     SaveItem(run.id, OutcomeOf(Records(jobs, run)[run.progress[e].pos], run.progress[e])))
  {
    StartRecords(jobs, run);
    ExecutionState(jobs, run, e);
  }

  lemma SettledFits(jobs: Jobs, run: Run, e: nat)
    requires Good(jobs) && ValidRun(jobs, run) && e < |run.progress| && run.progress[e].Settled?
    ensures var w := SaveItem(run.id, OutcomeOf(Records(jobs, run)[run.progress[e].pos], run.progress[e]));
      && CanApply(StoreAtEvent(jobs, run, e), w)
      && StoreAtEvent(jobs, run, e + 1) == ApplyWrite(StoreAtEvent(jobs, run, e), w)
  {
    SettledCanBeSaved(jobs, run, e);
    EventWrites(jobs, run, e);
    AfterLast(Opened(jobs, run), ProgressWrites(run.id, Records(jobs, run), run.progress, e),
              SaveItem(run.id, OutcomeOf(Records(jobs, run)[run.progress[e].pos], run.progress[e])));
  }

  lemma DiedInOpening(jobs: Jobs, run: Run)
    requires run.survived < |Opening(jobs, run)|
    ensures run.survived < |Writes(jobs, run)| && Outcome(jobs, run) == StoreAtWrite(jobs, run, run.survived)
  {
    WritesPrefix(jobs, run, run.survived);
  }

  lemma OutlivedBody(jobs: Jobs, run: Run)
    requires run.survived >= |Opening(jobs, run)| + SavesMade(jobs, run, |run.progress|)
    ensures Executed(jobs, run) == StoreAtEvent(jobs, run, |run.progress|)
    ensures run.survived >= |Body(jobs, run)|
    ensures |Body(jobs, run)| == |Opening(jobs, run)| + SavesMade(jobs, run, |run.progress|)
    ensures |Writes(jobs, run)| == |Body(jobs, run)| + if run.returned then 1 else 0
    ensures !run.returned || run.survived == |Body(jobs, run)| ==> Outcome(jobs, run) == Executed(jobs, run)
  {
    AllEventsBy(jobs, run);
    WritesPrefix(jobs, run, |Body(jobs, run)|);
  }

  /** A run that dies at a settled event has made exactly the writes before it. */
  lemma DiedAtEvent(jobs: Jobs, run: Run, e: nat)
    requires ValidRun(jobs, run) && e < |run.progress| && run.progress[e].Settled?
    requires run.survived == |Opening(jobs, run)| + SavesMade(jobs, run, e)
    ensures run.survived < |Body(jobs, run)| && Outcome(jobs, run) == StoreAtEvent(jobs, run, e)
  {
    var opening, records, all := Opening(jobs, run), Records(jobs, run), |run.progress|;
    var ws := ProgressWrites(run.id, records, run.progress, e);
    var total := ProgressWrites(run.id, records, run.progress, all);
    assert |ws| < |total| && ws <= total by {
      ProgressPrefix(run.id, records, run.progress, e + 1, all);
      ProgressPrefix(run.id, records, run.progress, e, all);
    }
    WritesPrefix(jobs, run, run.survived);
    AfterConcat(jobs, opening, total, |ws|);
    AfterPrefix(Opened(jobs, run), ws, total, |ws|);
  }
}
