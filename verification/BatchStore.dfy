/**
 * The resumable batch store on top of the key-value storage
 * (claude_ai/orchestrator/batch.py, StorageBatchStore).
 */
module BatchStore {
  import opened Wrappers
  import opened KeyValue
  import Decimal

  type JobId = string
  type Payload = string

  datatype ItemStatus = Pending | Done | Failed

  datatype BatchItem = BatchItem(
    index: nat,
    payload: Payload,
    status: ItemStatus,
    result: Option<string>,
    error: Option<string>,
    attempts: nat,
    account: Option<string>)

  datatype JobStatus = Running | Completed | Partial

  datatype BatchJob = BatchJob(id: JobId, total: nat, status: JobStatus)

  datatype Record = JobRecord(job: BatchJob) | ItemRecord(item: BatchItem)

  const JOBS := "batch_jobs"

  function ItemsOf(id: JobId): string {
    "batch:" + id
  }

  lemma NamespacesDiffer(a: JobId, b: JobId)
    ensures ItemsOf(a) != JOBS
    ensures ItemsOf(a) == ItemsOf(b) ==> a == b
  {
    assert ItemsOf(a)[5] == ':' && JOBS[5] == '_';
    assert ItemsOf(a)[6..] == a && ItemsOf(b)[6..] == b;
  }

  /** One job as the store holds it: its record and its items in index order. */
  datatype Stored = Stored(job: BatchJob, items: seq<BatchItem>)

  type Jobs = map<JobId, Stored>

  ghost predicate Indexed(items: seq<BatchItem>) {
    forall i :: 0 <= i < |items| ==> items[i].index == i
  }

  /** The namespace contents that stand for a list of items. */
  ghost predicate Encodes(ns: map<string, Record>, items: seq<BatchItem>) {
    && Indexed(items)
    && (forall i: nat :: i < |items| ==> Decimal.Print(i) in ns && ns[Decimal.Print(i)] == ItemRecord(items[i]))
    && (forall k :: k in ns ==> exists i: nat :: i < |items| && k == Decimal.Print(i))
  }

  ghost predicate Represents(data: Data<Record>, jobs: Jobs) {
    && (forall id :: id in jobs <==> id in Items(data, JOBS))
    && (forall id :: id in jobs ==> Items(data, JOBS)[id] == JobRecord(jobs[id].job) && jobs[id].job.id == id)
    && (forall id :: Encodes(Items(data, ItemsOf(id)), ItemList(jobs, id)))
  }

  /** A job that was never created has no items. */
  function ItemList(jobs: Jobs, id: JobId): seq<BatchItem> {
    if id in jobs then jobs[id].items else []
  }

  // ---- Writes ----

  datatype Write =
    | Create(job: BatchJob)
    | SetStatus(id: JobId, status: JobStatus)
    | SaveItem(id: JobId, item: BatchItem)
  {
    function JobOf(): JobId {
      match this
      case Create(job) => job.id
      case SetStatus(id, _) => id
      case SaveItem(id, _) => id
    }
  }

  /** A save replaces the item with the same index, or adds the next one. */
  predicate CanApply(jobs: Jobs, w: Write) {
    match w
    case Create(job) => job.id !in jobs
    case SetStatus(_, _) => true
    case SaveItem(id, item) => id in jobs && item.index <= |jobs[id].items|
  }

  function Saved(items: seq<BatchItem>, item: BatchItem): seq<BatchItem>
    requires item.index <= |items|
  {
    if item.index < |items| then items[item.index := item] else items + [item]
  }

  function ApplyWrite(jobs: Jobs, w: Write): Jobs
    requires CanApply(jobs, w)
  {
    match w
    case Create(job) => jobs[job.id := Stored(job, [])]
    case SetStatus(id, status) =>
      if id in jobs then jobs[id := jobs[id].(job := jobs[id].job.(status := status))] else jobs
    case SaveItem(id, item) => jobs[id := jobs[id].(items := Saved(jobs[id].items, item))]
  }

  lemma EncodesSaved(ns: map<string, Record>, items: seq<BatchItem>, item: BatchItem)
    requires Encodes(ns, items) && item.index <= |items|
    ensures Encodes(ns[Decimal.Print(item.index) := ItemRecord(item)], Saved(items, item))
  {
    var after, saved := ns[Decimal.Print(item.index) := ItemRecord(item)], Saved(items, item);
    forall i: nat | i < |saved|
      ensures Decimal.Print(i) in after && after[Decimal.Print(i)] == ItemRecord(saved[i])
    {
      if i != item.index && Decimal.Print(i) == Decimal.Print(item.index) {
        Decimal.PrintInjective(i, item.index);
      }
    }
    forall k | k in after ensures exists i: nat :: i < |saved| && k == Decimal.Print(i) {
      if k == Decimal.Print(item.index) {
        assert item.index < |saved|;
      } else {
        var i: nat :| i < |items| && k == Decimal.Print(i);
        assert i < |saved|;
      }
    }
  }

  /** Writing the job namespace leaves every item namespace alone. */
  lemma ItemsUntouched(before: Data<Record>, after: Data<Record>)
    requires forall ns :: ns != JOBS ==> Items(after, ns) == Items(before, ns)
    ensures forall id :: Items(after, ItemsOf(id)) == Items(before, ItemsOf(id))
  {
    forall id ensures ItemsOf(id) != JOBS {
      NamespacesDiffer(id, id);
    }
  }

  lemma CreateRepresents(before: Data<Record>, after: Data<Record>, jobs: Jobs, job: BatchJob)
    requires Represents(before, jobs) && job.id !in jobs
    requires Items(after, JOBS) == Items(before, JOBS)[job.id := JobRecord(job)]
    requires forall id :: Items(after, ItemsOf(id)) == Items(before, ItemsOf(id))
    ensures Represents(after, ApplyWrite(jobs, Create(job)))
  {
    assert forall id :: ItemList(ApplyWrite(jobs, Create(job)), id) == ItemList(jobs, id);
  }

  lemma StatusRepresents(before: Data<Record>, after: Data<Record>, jobs: Jobs, id: JobId, status: JobStatus)
    requires Represents(before, jobs) && id in jobs
    requires Items(after, JOBS) == Items(before, JOBS)[id := JobRecord(jobs[id].job.(status := status))]
    requires forall other :: Items(after, ItemsOf(other)) == Items(before, ItemsOf(other))
    ensures Represents(after, ApplyWrite(jobs, SetStatus(id, status)))
  {
    assert forall other :: ItemList(ApplyWrite(jobs, SetStatus(id, status)), other) == ItemList(jobs, other);
  }

  lemma SaveRepresents(before: Data<Record>, after: Data<Record>, jobs: Jobs, id: JobId, item: BatchItem)
    requires Represents(before, jobs) && CanApply(jobs, SaveItem(id, item))
    requires Items(after, ItemsOf(id)) == Items(before, ItemsOf(id))[Decimal.Print(item.index) := ItemRecord(item)]
    requires forall ns :: ns != ItemsOf(id) ==> Items(after, ns) == Items(before, ns)
    ensures Represents(after, ApplyWrite(jobs, SaveItem(id, item)))
  {
    NamespacesDiffer(id, id);
    var jobs' := ApplyWrite(jobs, SaveItem(id, item));
    forall other ensures Encodes(Items(after, ItemsOf(other)), ItemList(jobs', other)) {
      if other == id {
        EncodesSaved(Items(before, ItemsOf(id)), jobs[id].items, item);
      } else {
        NamespacesDiffer(other, id);
        assert Encodes(Items(before, ItemsOf(other)), ItemList(jobs, other));
      }
    }
  }

  class StorageBatchStore {
    const storage: MemoryStorage<Record>

    constructor (storage: MemoryStorage<Record>)
      ensures this.storage == storage
    {
      this.storage := storage;
    }

    method GetJob(id: JobId, ghost jobs: Jobs) returns (job: Option<BatchJob>)
      requires Represents(storage.data, jobs)
      ensures job == if id in jobs then Some(jobs[id].job) else None
    {
      var ns := Items(storage.data, JOBS);
      if id !in ns {
        return None;
      }
      return Some(ns[id].job);
    }

    method CreateJob(job: BatchJob, ghost jobs: Jobs)
      requires Represents(storage.data, jobs) && job.id !in jobs
      modifies storage
      ensures Represents(storage.data, ApplyWrite(jobs, Create(job)))
    {
      ghost var before := storage.data;
      storage.Set(JOBS, job.id, JobRecord(job));
      ItemsUntouched(before, storage.data);
      CreateRepresents(before, storage.data, jobs, job);
    }

    method SetJobStatus(id: JobId, status: JobStatus, ghost jobs: Jobs)
      requires Represents(storage.data, jobs)
      modifies storage
      ensures Represents(storage.data, ApplyWrite(jobs, SetStatus(id, status)))
    {
      var job := GetJob(id, jobs);
      if job.Some? {
        ghost var before := storage.data;
        storage.Set(JOBS, id, JobRecord(job.value.(status := status)));
        ItemsUntouched(before, storage.data);
        StatusRepresents(before, storage.data, jobs, id, status);
      }
    }

    method SaveOne(id: JobId, item: BatchItem, ghost jobs: Jobs)
      requires Represents(storage.data, jobs) && CanApply(jobs, SaveItem(id, item))
      modifies storage
      ensures Represents(storage.data, ApplyWrite(jobs, SaveItem(id, item)))
    {
      ghost var before := storage.data;
      storage.Set(ItemsOf(id), Decimal.Print(item.index), ItemRecord(item));
      SaveRepresents(before, storage.data, jobs, id, item);
    }

    /** `items`: the values of the namespace, sorted by index. */
    method ListItems(id: JobId, ghost jobs: Jobs) returns (items: seq<BatchItem>)
      requires Represents(storage.data, jobs)
      ensures items == ItemList(jobs, id)
    {
      items := SortByIndex(Items(storage.data, ItemsOf(id)), ItemList(jobs, id));
    }
  }

  method SortByIndex(ns: map<string, Record>, ghost all: seq<BatchItem>) returns (items: seq<BatchItem>)
    requires Encodes(ns, all)
    ensures items == all
  {
    var todo := ns.Keys;
    items := [];
    assert all != [] ==> Decimal.Print(0) in todo;
    while todo != {}
      invariant todo == {} ==> |items| == |all|
      invariant |items| <= |all| && items == all[..|items|]
      invariant todo <= ns.Keys
      invariant forall k :: k in ns ==> ns[k].ItemRecord? && (k in todo <==> ns[k].item.index >= |items|)
      decreases todo
    {
      var least := Least(ns, todo);
      FirstIsNext(ns, all, |items|, least);
      items := items + [ns[least].item];
      todo := todo - {least};
      if |items| < |all| {
        assert Decimal.Print(|items|) in todo;
      }
    }
  }

  /** The key whose record has the least index. */
  method Least(ns: map<string, Record>, keys: set<string>) returns (least: string)
    requires keys != {} && keys <= ns.Keys && forall k :: k in keys ==> ns[k].ItemRecord?
    ensures least in keys && forall k :: k in keys ==> ns[least].item.index <= ns[k].item.index
  {
    least :| least in keys;
    var todo := keys - {least};
    while todo != {}
      invariant least in keys && todo <= keys
      invariant forall k :: k in keys && k !in todo ==> ns[least].item.index <= ns[k].item.index
      decreases todo
    {
      var k :| k in todo;
      todo := todo - {k};
      if ns[k].item.index < ns[least].item.index {
        least := k;
      }
    }
  }

  lemma FirstIsNext(ns: map<string, Record>, all: seq<BatchItem>, n: nat, least: string)
    requires Encodes(ns, all) && n <= |all|
    requires least in ns && ns[least].ItemRecord? && ns[least].item.index >= n
    requires forall k :: k in ns && ns[k].ItemRecord? && ns[k].item.index >= n ==> ns[least].item.index <= ns[k].item.index
    ensures n < |all| && ns[least].item == all[n]
    ensures forall k :: k in ns && ns[k].ItemRecord? && ns[k].item.index == n ==> k == least
  {
    var i: nat :| i < |all| && least == Decimal.Print(i);
    assert Decimal.Print(n) in ns;
    forall k | k in ns && ns[k].ItemRecord? && ns[k].item.index == n ensures k == least {
      var j: nat :| j < |all| && k == Decimal.Print(j);
    }
  }
}
