/**
 * The resumable batch runner as the series of store writes it makes
 * (claude_ai/orchestrator/batch.py, BatchRunner). A crash keeps a prefix of a run's writes.
 */
module Batch {
  import opened Wrappers
  import opened BatchStore

  /** What the executor reports while it works on a list of records, by position in that list. */
  datatype Progress =
    | Called(pos: nat)                                          // the task function is called on the record
    | Settled(pos: nat, ok: bool, value: Option<string>, error: Option<string>, attempts: nat, account: Option<string>)

  /**
   * One run of a job: the events of its executor, whether `map` returned, and how many store
   * writes took effect before the process died.
   */
  datatype Run = Run(id: JobId, payloads: seq<Payload>, progress: seq<Progress>, returned: bool, survived: nat)

  /** Each position settles at most once and is not called after it settled; `BatchExecution` derives this from the executor. */
  ghost predicate ValidProgress(progress: seq<Progress>, n: nat) {
    && (forall e :: 0 <= e < |progress| ==> progress[e].pos < n)
    && (forall d, e :: 0 <= d < e < |progress| && progress[d].Settled? ==> progress[e].pos != progress[d].pos)
  }

  // ---- The records a run works on ----

  function Fresh(payloads: seq<Payload>): seq<BatchItem> {
    if payloads == [] then []
    else
      var n := |payloads| - 1;
      Fresh(payloads[..n]) + [BatchItem(n, payloads[n], Pending, None, None, 0, None)]
  }

  /** The records of a new job: pending, in input order, each under its position. */
  lemma {:induction false} FreshAt(payloads: seq<Payload>)
    ensures |Fresh(payloads)| == |payloads|
    ensures forall i :: 0 <= i < |payloads| ==>
      Fresh(payloads)[i] == BatchItem(i, payloads[i], Pending, None, None, 0, None)
  {
    if payloads != [] {
      FreshAt(payloads[..|payloads| - 1]);
    }
  }

  /** `pending`: the items that are not done, in index order. */
  function PendingOf(items: seq<BatchItem>): seq<BatchItem> {
    if items == [] then []
    else
      var n := |items| - 1;
      var rest := PendingOf(items[..n]);
      if items[n].status != Done then rest + [items[n]] else rest
  }

  lemma {:induction false} PendingDistinct(items: seq<BatchItem>)
    requires Indexed(items)
    ensures forall i, j :: 0 <= i < j < |PendingOf(items)| ==> PendingOf(items)[i].index != PendingOf(items)[j].index
    ensures forall i :: 0 <= i < |PendingOf(items)| ==>
      PendingOf(items)[i].index < |items| && items[PendingOf(items)[i].index] == PendingOf(items)[i]
    ensures forall i :: 0 <= i < |PendingOf(items)| ==> PendingOf(items)[i].status != Done
    ensures forall item :: item in items && item.status != Done ==> item in PendingOf(items)
  {
    if items != [] {
      PendingDistinct(items[..|items| - 1]);
    }
  }

  function Records(jobs: Jobs, run: Run): seq<BatchItem> {
    if run.id in jobs then PendingOf(jobs[run.id].items) else Fresh(run.payloads)
  }

  // ---- The writes of a run ----

  function Apply1(jobs: Jobs, w: Write): Jobs {
    if CanApply(jobs, w) then ApplyWrite(jobs, w) else jobs
  }

  /** The store after the first `n` writes. */
  function After(jobs: Jobs, ws: seq<Write>, n: nat): Jobs
    requires n <= |ws|
  {
    if n == 0 then jobs else Apply1(After(jobs, ws, n - 1), ws[n - 1])
  }

  function Saves(id: JobId, items: seq<BatchItem>): seq<Write> {
    if items == [] then []
    else Saves(id, items[..|items| - 1]) + [SaveItem(id, items[|items| - 1])]
  }

  lemma {:induction false} SavesAt(id: JobId, items: seq<BatchItem>)
    ensures |Saves(id, items)| == |items|
    ensures forall i :: 0 <= i < |items| ==> Saves(id, items)[i] == SaveItem(id, items[i])
  {
    if items != [] {
      SavesAt(id, items[..|items| - 1]);
    }
  }

  /** Create the job and save every record, or mark the existing job running. */
  function Opening(jobs: Jobs, run: Run): seq<Write> {
    if run.id in jobs then [SetStatus(run.id, Running)]
    else [Create(BatchJob(run.id, |run.payloads|, Running))] + Saves(run.id, Fresh(run.payloads))
  }

  function OutcomeOf(record: BatchItem, p: Progress): BatchItem
    requires p.Settled?
  {
    BatchItem(record.index, record.payload, if p.ok then Done else Failed, p.value, p.error, p.attempts, p.account)
  }

  /** The writes of the first `n` events: `on_result` saves each record under its own index, not its position. */
  function ProgressWrites(id: JobId, records: seq<BatchItem>, progress: seq<Progress>, n: nat): seq<Write>
    requires n <= |progress|
  {
    if n == 0 then []
    else
      var rest := ProgressWrites(id, records, progress, n - 1);
      var p := progress[n - 1];
      if p.Settled? && p.pos < |records| then rest + [SaveItem(id, OutcomeOf(records[p.pos], p))] else rest
  }

  predicate AllDone(items: seq<BatchItem>) {
    forall i :: 0 <= i < |items| ==> items[i].status == Done
  }

  function Body(jobs: Jobs, run: Run): seq<Write> {
    Opening(jobs, run) + ProgressWrites(run.id, Records(jobs, run), run.progress, |run.progress|)
  }

  /** The store when the executor is through. */
  function Executed(jobs: Jobs, run: Run): Jobs {
    After(jobs, Body(jobs, run), |Body(jobs, run)|)
  }

  function FinalStatus(jobs: Jobs, id: JobId): JobStatus {
    if AllDone(ItemList(jobs, id)) then Completed else Partial
  }

  function Writes(jobs: Jobs, run: Run): seq<Write> {
    if run.returned then Body(jobs, run) + [SetStatus(run.id, FinalStatus(Executed(jobs, run), run.id))]
    else Body(jobs, run)
  }

  /** The store when the process has died, or finished. */
  function Outcome(jobs: Jobs, run: Run): Jobs {
    After(jobs, Writes(jobs, run), Min(run.survived, |Writes(jobs, run)|))
  }

  // ---- Well-formed stores and runs ----

  ghost predicate GoodJob(stored: Stored, id: JobId) {
    Indexed(stored.items) && |stored.items| <= stored.job.total && stored.job.id == id
  }

  ghost predicate Good(jobs: Jobs) {
    forall id :: id in jobs ==> GoodJob(jobs[id], id)
  }

  ghost predicate ValidRun(jobs: Jobs, run: Run) {
    ValidProgress(run.progress, |Records(jobs, run)|)
  }

  /** The stores between runs of any jobs, each run cut off where its process died. */
  ghost predicate IsHistory(stores: seq<Jobs>, runs: seq<Run>) {
    && |stores| == |runs| + 1
    && Good(stores[0])
    && forall i :: 0 <= i < |runs| ==> Follows(stores[i], runs[i], stores[i + 1])
  }

  ghost predicate Follows(before: Jobs, run: Run, after: Jobs) {
    ValidRun(before, run) && after == Outcome(before, run)
  }

  // ---- What a write may do to a job ----

  /** Same job, same items and payloads; an item that is done stays exactly as it is. */
  ghost predicate Keeps(a: seq<BatchItem>, b: seq<BatchItem>) {
    && |a| == |b|
    && (forall k :: 0 <= k < |a| ==> b[k].payload == a[k].payload)
    && (forall k :: 0 <= k < |a| && a[k].status == Done ==> b[k] == a[k])
  }

  /** Every write is for job `id`. */
  ghost predicate AllOf(ws: seq<Write>, id: JobId) {
    forall i :: 0 <= i < |ws| ==> ws[i].JobOf() == id
  }

  lemma AllOfConcat(a: seq<Write>, b: seq<Write>, id: JobId)
    requires AllOf(a, id) && AllOf(b, id)
    ensures AllOf(a + b, id)
  {
  }

  lemma {:induction false} OtherJobsUntouched(jobs: Jobs, ws: seq<Write>, n: nat, id: JobId, other: JobId)
    requires n <= |ws| && AllOf(ws, id)
    requires other != id
    ensures other in After(jobs, ws, n) <==> other in jobs
    ensures other in jobs ==> After(jobs, ws, n)[other] == jobs[other]
  {
    if n > 0 {
      OtherJobsUntouched(jobs, ws, n - 1, id, other);
    }
  }

  lemma {:induction false} SavesOf(id: JobId, items: seq<BatchItem>)
    ensures AllOf(Saves(id, items), id)
  {
    if items != [] {
      SavesOf(id, items[..|items| - 1]);
    }
  }

  lemma {:induction false} ProgressWritesOf(id: JobId, records: seq<BatchItem>, progress: seq<Progress>, n: nat)
    requires n <= |progress|
    ensures AllOf(ProgressWrites(id, records, progress, n), id)
  {
    if n > 0 {
      ProgressWritesOf(id, records, progress, n - 1);
    }
  }

  lemma OpeningIsOwn(jobs: Jobs, run: Run)
    ensures AllOf(Opening(jobs, run), run.id)
  {
    if run.id !in jobs {
      SavesOf(run.id, Fresh(run.payloads));
      AllOfConcat([Create(BatchJob(run.id, |run.payloads|, Running))], Saves(run.id, Fresh(run.payloads)), run.id);
    }
  }

  lemma WritesAreOwn(jobs: Jobs, run: Run)
    ensures AllOf(Writes(jobs, run), run.id)
  {
    var progress := ProgressWrites(run.id, Records(jobs, run), run.progress, |run.progress|);
    OpeningIsOwn(jobs, run);
    ProgressWritesOf(run.id, Records(jobs, run), run.progress, |run.progress|);
    AllOfConcat(Opening(jobs, run), progress, run.id);
    if run.returned {
      AllOfConcat(Body(jobs, run), [SetStatus(run.id, FinalStatus(Executed(jobs, run), run.id))], run.id);
    }
  }

  /** A run leaves every other job exactly as it was. */
  lemma RunTouchesOnlyItsJob(jobs: Jobs, run: Run, other: JobId)
    requires other != run.id
    ensures other in Outcome(jobs, run) <==> other in jobs
    ensures other in jobs ==> Outcome(jobs, run)[other] == jobs[other]
  {
    WritesAreOwn(jobs, run);
    var ws := Writes(jobs, run);
    OtherJobsUntouched(jobs, ws, Min(run.survived, |ws|), run.id, other);
  }
}
