/** What survives any number of crashes of the batch runner. */
module BatchTheorems {
  import opened Wrappers
  import opened BatchStore
  import opened Batch

  // ---- The item list while the executor works ----

  /** The items after the first `n` events, starting from `start`. */
  function Image(start: seq<BatchItem>, records: seq<BatchItem>, progress: seq<Progress>, n: nat): (r: seq<BatchItem>)
    requires n <= |progress|
    ensures |r| == |start|
  {
    if n == 0 then start
    else
      var rest := Image(start, records, progress, n - 1);
      var p := progress[n - 1];
      if p.Settled? && p.pos < |records| && records[p.pos].index < |start|
      then rest[records[p.pos].index := OutcomeOf(records[p.pos], p)]
      else rest
  }

  /** The records are the unfinished items of the list, each once. */
  ghost predicate RecordsOf(start: seq<BatchItem>, records: seq<BatchItem>) {
    && Indexed(start)
    && (forall i :: 0 <= i < |records| ==> records[i].index < |start| && start[records[i].index] == records[i])
    && (forall i :: 0 <= i < |records| ==> records[i].status != Done)
    && (forall i, j :: 0 <= i < j < |records| ==> records[i].index != records[j].index)
  }

  ghost predicate SettledIn(progress: seq<Progress>, n: nat, pos: nat)
    requires n <= |progress|
  {
    exists e :: 0 <= e < n && progress[e].Settled? && progress[e].pos == pos
  }

  /** A record not settled yet is still in the list; one settled is there with its outcome. */
  ghost predicate IsImage(
      start: seq<BatchItem>, records: seq<BatchItem>, progress: seq<Progress>, n: nat, image: seq<BatchItem>)
    requires RecordsOf(start, records) && ValidProgress(progress, |records|) && n <= |progress| && |image| == |start|
  {
    && Indexed(image)
    && (forall pos: nat :: pos < |records| && !SettledIn(progress, n, pos) ==> image[records[pos].index] == records[pos])
    && (forall e :: 0 <= e < n && progress[e].Settled? ==>
          image[records[progress[e].pos].index] == OutcomeOf(records[progress[e].pos], progress[e]))
    && (forall k :: 0 <= k < |start| ==> image[k].payload == start[k].payload)
    && (forall k :: 0 <= k < |start| && start[k].status == Done ==> image[k] == start[k])
  }

  lemma ImageOnSettled(
      start: seq<BatchItem>, records: seq<BatchItem>, progress: seq<Progress>, n: nat, image: seq<BatchItem>)
    requires RecordsOf(start, records) && ValidProgress(progress, |records|) && n < |progress| && |image| == |start|
    requires IsImage(start, records, progress, n, image) && progress[n].Settled?
    ensures var record := records[progress[n].pos];
      IsImage(start, records, progress, n + 1, image[record.index := OutcomeOf(record, progress[n])])
  {
    assert forall pos: nat :: SettledIn(progress, n, pos) ==> SettledIn(progress, n + 1, pos);
  }

  lemma {:induction false} ImageAt(start: seq<BatchItem>, records: seq<BatchItem>, progress: seq<Progress>, n: nat)
    requires RecordsOf(start, records) && ValidProgress(progress, |records|) && n <= |progress|
    ensures IsImage(start, records, progress, n, Image(start, records, progress, n))
  {
    if n > 0 {
      ImageAt(start, records, progress, n - 1);
      if progress[n - 1].Settled? {
        ImageOnSettled(start, records, progress, n - 1, Image(start, records, progress, n - 1));
      } else {
        assert forall pos: nat :: SettledIn(progress, n - 1, pos) ==> SettledIn(progress, n, pos);
      }
    }
  }

  lemma KeepsTransitive(a: seq<BatchItem>, b: seq<BatchItem>, c: seq<BatchItem>)
    requires Keeps(a, b) && Keeps(b, c)
    ensures Keeps(a, c)
  {
  }

  /** One event replaces at most one item, and that one is not done. */
  lemma EventKeeps(start: seq<BatchItem>, records: seq<BatchItem>, progress: seq<Progress>, n: nat)
    requires RecordsOf(start, records) && ValidProgress(progress, |records|) && n < |progress|
    ensures Keeps(Image(start, records, progress, n), Image(start, records, progress, n + 1))
  {
    ImageAt(start, records, progress, n);
    NotSettledBefore(progress, |records|, n);
    var p, image := progress[n], Image(start, records, progress, n);
    if p.Settled? {
      assert image[records[p.pos].index] == records[p.pos];
    }
  }

  /** As the executor goes on, payloads stay and done items stay done, record for record. */
  lemma {:induction false} ImageKeeps(
      start: seq<BatchItem>, records: seq<BatchItem>, progress: seq<Progress>, m: nat, n: nat)
    requires RecordsOf(start, records) && ValidProgress(progress, |records|) && m <= n <= |progress|
    ensures Keeps(Image(start, records, progress, m), Image(start, records, progress, n))
    decreases n
  {
    if m < n {
      ImageKeeps(start, records, progress, m, n - 1);
      EventKeeps(start, records, progress, n - 1);
      KeepsTransitive(Image(start, records, progress, m), Image(start, records, progress, n - 1),
                      Image(start, records, progress, n));
    }
  }

  lemma NotSettledBefore(progress: seq<Progress>, count: nat, n: nat)
    requires ValidProgress(progress, count) && n < |progress|
    ensures !SettledIn(progress, n, progress[n].pos)
  {
  }

  // ---- The store while the executor works ----

  lemma {:induction false} AfterPrefix(jobs: Jobs, a: seq<Write>, b: seq<Write>, n: nat)
    requires a <= b && n <= |a|
    ensures After(jobs, a, n) == After(jobs, b, n)
  {
    if n > 0 {
      AfterPrefix(jobs, a, b, n - 1);
    }
  }

  lemma {:induction false} AfterConcat(jobs: Jobs, a: seq<Write>, b: seq<Write>, n: nat)
    requires n <= |b|
    ensures After(jobs, a + b, |a| + n) == After(After(jobs, a, |a|), b, n)
  {
    if n == 0 {
      AfterPrefix(jobs, a, a + b, |a|);
    } else {
      AfterConcat(jobs, a, b, n - 1);
    }
  }

  ghost predicate Holds(jobs: Jobs, id: JobId, total: nat, items: seq<BatchItem>) {
    id in jobs && jobs[id].items == items && jobs[id].job.total == total && jobs[id].job.id == id
  }

  lemma {:induction false} SavesBuild(jobs: Jobs, id: JobId, total: nat, items: seq<BatchItem>, n: nat)
    requires Holds(jobs, id, total, []) && Indexed(items) && n <= |items|
    ensures |Saves(id, items)| == |items| && Holds(After(jobs, Saves(id, items), n), id, total, items[..n])
  {
    SavesAt(id, items);
    if n > 0 {
      SavesBuild(jobs, id, total, items, n - 1);
      assert items[..n] == items[..n - 1] + [items[n - 1]];
    }
  }

  lemma {:induction false} ProgressPrefix(id: JobId, records: seq<BatchItem>, progress: seq<Progress>, m: nat, n: nat)
    requires m <= n <= |progress|
    ensures ProgressWrites(id, records, progress, m) <= ProgressWrites(id, records, progress, n)
    decreases n
  {
    if m < n {
      ProgressPrefix(id, records, progress, m, n - 1);
    }
  }

  lemma {:induction false} ProgressImage(
      jobs: Jobs, id: JobId, total: nat, start: seq<BatchItem>, records: seq<BatchItem>, progress: seq<Progress>, n: nat)
    requires Holds(jobs, id, total, start) && n <= |progress|
    requires forall i :: 0 <= i < |records| ==> records[i].index < |start|
    ensures var ws := ProgressWrites(id, records, progress, n);
      Holds(After(jobs, ws, |ws|), id, total, Image(start, records, progress, n))
  {
    if n > 0 {
      ProgressImage(jobs, id, total, start, records, progress, n - 1);
      var ws := ProgressWrites(id, records, progress, n - 1);
      AfterPrefix(jobs, ws, ProgressWrites(id, records, progress, n), |ws|);
    }
  }

  /** How many of the first `n` events have their writes among the first `w`. */
  function Cut(id: JobId, records: seq<BatchItem>, progress: seq<Progress>, n: nat, w: nat): (k: nat)
    requires n <= |progress|
    ensures k <= n
  {
    if |ProgressWrites(id, records, progress, n)| <= w then n else Cut(id, records, progress, n - 1, w)
  }

  lemma {:induction false} CutWrites(id: JobId, records: seq<BatchItem>, progress: seq<Progress>, n: nat, w: nat)
    requires n <= |progress| && w <= |ProgressWrites(id, records, progress, n)|
    ensures ProgressWrites(id, records, progress, n)[..w] ==
      ProgressWrites(id, records, progress, Cut(id, records, progress, n, w))
  {
    var ws := ProgressWrites(id, records, progress, n);
    if |ws| <= w {
      assert ws[..w] == ws;
    } else {
      CutWrites(id, records, progress, n - 1, w);
    }
  }

  lemma {:induction false} CutMonotone(id: JobId, records: seq<BatchItem>, progress: seq<Progress>, n: nat, v: nat, w: nat)
    requires n <= |progress| && v <= w
    ensures Cut(id, records, progress, n, v) <= Cut(id, records, progress, n, w)
  {
    if |ProgressWrites(id, records, progress, n)| > w {
      CutMonotone(id, records, progress, n - 1, v, w);
    }
  }

  // ---- One run ----

  function StartItems(jobs: Jobs, run: Run): seq<BatchItem> {
    if run.id in jobs then jobs[run.id].items else Fresh(run.payloads)
  }

  function Total(jobs: Jobs, run: Run): nat {
    if run.id in jobs then jobs[run.id].job.total else |run.payloads|
  }

  function Take(items: seq<BatchItem>, n: nat): seq<BatchItem> {
    if n <= |items| then items[..n] else items
  }

  lemma OpeningSize(jobs: Jobs, run: Run)
    ensures |Opening(jobs, run)| == 1 + if run.id in jobs then 0 else |run.payloads|
  {
    FreshAt(run.payloads);
    SavesAt(run.id, Fresh(run.payloads));
  }

  lemma StartRecords(jobs: Jobs, run: Run)
    requires Good(jobs)
    ensures RecordsOf(StartItems(jobs, run), Records(jobs, run))
  {
    if run.id in jobs {
      PendingDistinct(jobs[run.id].items);
    } else {
      FreshAt(run.payloads);
    }
  }

  /** After one write and `n` of the others. */
  lemma AfterFirst(jobs: Jobs, w: Write, ws: seq<Write>, n: nat)
    requires CanApply(jobs, w) && n <= |ws|
    ensures After(jobs, [w] + ws, 1 + n) == After(ApplyWrite(jobs, w), ws, n)
  {
    AfterConcat(jobs, [w], ws, n);
    assert After(jobs, [w], 1) == Apply1(After(jobs, [w], 0), w);
  }

  /** The new job, before any of its records is saved. */
  lemma NewJob(jobs: Jobs, run: Run)
    requires run.id !in jobs
    ensures var create := Create(BatchJob(run.id, |run.payloads|, Running));
      CanApply(jobs, create) && Holds(ApplyWrite(jobs, create), run.id, |run.payloads|, [])
    ensures Indexed(Fresh(run.payloads)) && |Fresh(run.payloads)| == |run.payloads|
    ensures |Saves(run.id, Fresh(run.payloads))| == |run.payloads| && |Opening(jobs, run)| == 1 + |run.payloads|
  {
    FreshAt(run.payloads);
    SavesAt(run.id, Fresh(run.payloads));
  }

  lemma NewOpening(jobs: Jobs, run: Run, saved: nat)
    requires run.id !in jobs && saved <= |run.payloads|
    ensures |Saves(run.id, Fresh(run.payloads))| == |run.payloads| && |Opening(jobs, run)| == 1 + |run.payloads|
    ensures After(jobs, Opening(jobs, run), 1 + saved) ==
      After(ApplyWrite(jobs, Create(BatchJob(run.id, |run.payloads|, Running))), Saves(run.id, Fresh(run.payloads)), saved)
  {
    NewJob(jobs, run);
    AfterFirst(jobs, Create(BatchJob(run.id, |run.payloads|, Running)), Saves(run.id, Fresh(run.payloads)), saved);
  }

  /** Before the execution phase: the job is as it was, or is being created item by item. */
  lemma OpeningState(jobs: Jobs, run: Run, m: nat)
    requires Good(jobs) && 1 <= m <= |Opening(jobs, run)|
    ensures Holds(After(jobs, Opening(jobs, run), m), run.id, Total(jobs, run),
                  if run.id in jobs then StartItems(jobs, run) else Take(StartItems(jobs, run), m - 1))
  {
    if run.id in jobs {
      assert After(jobs, Opening(jobs, run), 1) == Apply1(After(jobs, Opening(jobs, run), 0), SetStatus(run.id, Running));
    } else {
      NewJob(jobs, run);
      NewOpening(jobs, run, m - 1);
      SavesBuild(ApplyWrite(jobs, Create(BatchJob(run.id, |run.payloads|, Running))), run.id, |run.payloads|,
                 Fresh(run.payloads), m - 1);
    }
  }

  function Opened(jobs: Jobs, run: Run): Jobs {
    After(jobs, Opening(jobs, run), |Opening(jobs, run)|)
  }

  lemma OpenedState(jobs: Jobs, run: Run)
    requires Good(jobs)
    ensures Holds(Opened(jobs, run), run.id, Total(jobs, run), StartItems(jobs, run))
  {
    OpeningState(jobs, run, |Opening(jobs, run)|);
    OpeningSize(jobs, run);
    FreshAt(run.payloads);
  }

  /** The store just before the event of position `n` in a run: its opening and the saves of earlier events. */
  function StoreAtEvent(jobs: Jobs, run: Run, n: nat): Jobs
    requires n <= |run.progress|
  {
    var ws := ProgressWrites(run.id, Records(jobs, run), run.progress, n);
    After(Opened(jobs, run), ws, |ws|)
  }

  lemma ExecutionState(jobs: Jobs, run: Run, n: nat)
    requires Good(jobs) && n <= |run.progress|
    ensures Holds(StoreAtEvent(jobs, run, n), run.id, Total(jobs, run),
                  Image(StartItems(jobs, run), Records(jobs, run), run.progress, n))
  {
    OpenedState(jobs, run);
    StartRecords(jobs, run);
    ProgressImage(Opened(jobs, run), run.id, Total(jobs, run), StartItems(jobs, run), Records(jobs, run), run.progress, n);
  }

  /** The events whose saves are among the first `m` writes of a run. */
  function EventsBy(jobs: Jobs, run: Run, m: nat): (n: nat)
    requires m >= |Opening(jobs, run)|
    ensures n <= |run.progress|
  {
    Cut(run.id, Records(jobs, run), run.progress, |run.progress|, m - |Opening(jobs, run)|)
  }

  lemma BodyPrefix(jobs: Jobs, run: Run, m: nat)
    requires |Opening(jobs, run)| <= m <= |Body(jobs, run)|
    ensures After(jobs, Body(jobs, run), m) == StoreAtEvent(jobs, run, EventsBy(jobs, run, m))
  {
    var opening, records, all := Opening(jobs, run), Records(jobs, run), |run.progress|;
    var w := m - |opening|;
    var ws := ProgressWrites(run.id, records, run.progress, all);
    CutWrites(run.id, records, run.progress, all, w);
    AfterConcat(jobs, opening, ws, w);
    AfterPrefix(Opened(jobs, run), ws[..w], ws, w);
  }

  lemma AllEventsBy(jobs: Jobs, run: Run)
    ensures Executed(jobs, run) == StoreAtEvent(jobs, run, |run.progress|)
  {
    BodyPrefix(jobs, run, |Body(jobs, run)|);
  }

  lemma WritesPrefix(jobs: Jobs, run: Run, m: nat)
    requires m <= |Body(jobs, run)|
    ensures After(jobs, Writes(jobs, run), m) == After(jobs, Body(jobs, run), m)
    ensures m <= |Opening(jobs, run)| ==> After(jobs, Body(jobs, run), m) == After(jobs, Opening(jobs, run), m)
  {
    AfterPrefix(jobs, Body(jobs, run), Writes(jobs, run), m);
    if m <= |Opening(jobs, run)| {
      AfterPrefix(jobs, Opening(jobs, run), Body(jobs, run), m);
    }
  }

  /** The closing status write changes no item. */
  lemma ClosedState(jobs: Jobs, run: Run)
    requires Good(jobs) && run.returned
    ensures var done := Executed(jobs, run);
      && run.id in done
      && After(jobs, Writes(jobs, run), |Writes(jobs, run)|) ==
           done[run.id := done[run.id].(job := done[run.id].job.(status := FinalStatus(done, run.id)))]
  {
    WritesPrefix(jobs, run, |Body(jobs, run)|);
    AllEventsBy(jobs, run);
    ExecutionState(jobs, run, |run.progress|);
  }

  /** The store after the first `m` writes of a run, once the opening is over. */
  lemma RunState(jobs: Jobs, run: Run, m: nat)
    requires Good(jobs) && |Opening(jobs, run)| <= m <= |Writes(jobs, run)|
    ensures Holds(After(jobs, Writes(jobs, run), m), run.id, Total(jobs, run),
                  Image(StartItems(jobs, run), Records(jobs, run), run.progress, EventsBy(jobs, run, m)))
  {
    ExecutionState(jobs, run, EventsBy(jobs, run, m));
    if m <= |Body(jobs, run)| {
      WritesPrefix(jobs, run, m);
      BodyPrefix(jobs, run, m);
    } else {
      ClosedState(jobs, run);
      AllEventsBy(jobs, run);
    }
  }

  /** More items may have been added; those there were keep payload, and done ones stay as they are. */
  ghost predicate Extends(a: seq<BatchItem>, b: seq<BatchItem>) {
    |a| <= |b| && Keeps(a, b[..|a|])
  }

  /**
   * Within one run, from any surviving prefix to any longer one, from the first write on: the items
   * saved so far keep index and payload, and an item stored as done is never rewritten. Items are
   * added only while a new job is being opened.
   */
  lemma DoneStaysDuringRun(jobs: Jobs, run: Run, m: nat, m': nat)
    requires Good(jobs) && ValidRun(jobs, run) && m <= m' <= |Writes(jobs, run)|
    ensures var a, b := ItemList(After(jobs, Writes(jobs, run), m), run.id), ItemList(After(jobs, Writes(jobs, run), m'), run.id);
      && Extends(a, b) && (m >= |Opening(jobs, run)| || run.id in jobs ==> |a| == |b|)
      && Indexed(a) && Indexed(b)
  {
    var open := |Opening(jobs, run)|;
    ItemsIndexed(jobs, run, m);
    ItemsIndexed(jobs, run, m');
    if m < open {
      OpeningExtends(jobs, run, m, Min(m', open));
    }
    if m' > open {
      DoneStaysOnceOpen(jobs, run, Max(m, open), m');
    }
    PrefixThenKeeps(ItemList(After(jobs, Writes(jobs, run), m), run.id),
                    ItemList(After(jobs, Writes(jobs, run), if m' <= open then m' else Max(m, open)), run.id),
                    ItemList(After(jobs, Writes(jobs, run), m'), run.id));
  }

  lemma PrefixThenKeeps(a: seq<BatchItem>, b: seq<BatchItem>, c: seq<BatchItem>)
    requires a <= b && (b == c || Keeps(b, c))
    ensures Extends(a, c) && |b| == |c|
  {
  }

  /** At every point of a run the items stand under their indices. */
  lemma ItemsIndexed(jobs: Jobs, run: Run, m: nat)
    requires Good(jobs) && ValidRun(jobs, run) && m <= |Writes(jobs, run)|
    ensures Indexed(ItemList(After(jobs, Writes(jobs, run), m), run.id))
  {
    StartRecords(jobs, run);
    if m <= |Opening(jobs, run)| {
      OpeningItemsAt(jobs, run, m);
    } else {
      RunItems(jobs, run, m);
      ImageAt(StartItems(jobs, run), Records(jobs, run), run.progress, EventsBy(jobs, run, m));
    }
  }

  lemma DoneStaysOnceOpen(jobs: Jobs, run: Run, m: nat, m': nat)
    requires Good(jobs) && ValidRun(jobs, run) && |Opening(jobs, run)| <= m <= m' <= |Writes(jobs, run)|
    ensures Keeps(ItemList(After(jobs, Writes(jobs, run), m), run.id),
                  ItemList(After(jobs, Writes(jobs, run), m'), run.id))
  {
    RunItems(jobs, run, m);
    RunItems(jobs, run, m');
    EventsMonotone(jobs, run, m, m');
    StartRecords(jobs, run);
    ImageKeeps(StartItems(jobs, run), Records(jobs, run), run.progress, EventsBy(jobs, run, m), EventsBy(jobs, run, m'));
  }

  /** The items in the store while the job is being opened. */
  function OpeningItems(jobs: Jobs, run: Run, m: nat): seq<BatchItem> {
    if run.id in jobs then StartItems(jobs, run) else if m == 0 then [] else Take(StartItems(jobs, run), m - 1)
  }

  lemma OpeningItemsAt(jobs: Jobs, run: Run, m: nat)
    requires Good(jobs) && m <= |Opening(jobs, run)|
    ensures ItemList(After(jobs, Writes(jobs, run), m), run.id) == OpeningItems(jobs, run, m)
  {
    WritesPrefix(jobs, run, m);
    if m > 0 {
      OpeningState(jobs, run, m);
    }
  }

  lemma OpeningExtends(jobs: Jobs, run: Run, m: nat, m': nat)
    requires Good(jobs) && m <= m' <= |Opening(jobs, run)|
    ensures var a, b := ItemList(After(jobs, Writes(jobs, run), m), run.id), ItemList(After(jobs, Writes(jobs, run), m'), run.id);
      a <= b && (run.id in jobs ==> a == b)
  {
    OpeningItemsAt(jobs, run, m);
    OpeningItemsAt(jobs, run, m');
  }

  lemma RunItems(jobs: Jobs, run: Run, m: nat)
    requires Good(jobs) && |Opening(jobs, run)| <= m <= |Writes(jobs, run)|
    ensures ItemList(After(jobs, Writes(jobs, run), m), run.id) ==
      Image(StartItems(jobs, run), Records(jobs, run), run.progress, EventsBy(jobs, run, m))
  {
    RunState(jobs, run, m);
  }

  lemma EventsMonotone(jobs: Jobs, run: Run, m: nat, m': nat)
    requires |Opening(jobs, run)| <= m <= m'
    ensures EventsBy(jobs, run, m) <= EventsBy(jobs, run, m')
  {
    var opening := |Opening(jobs, run)|;
    CutMonotone(run.id, Records(jobs, run), run.progress, |run.progress|, m - opening, m' - opening);
  }

  /** A run on an existing job, cut off anywhere, keeps its size, payloads and done items. */
  lemma ResumeKeeps(jobs: Jobs, run: Run)
    requires Good(jobs) && ValidRun(jobs, run) && run.id in jobs
    ensures var after := Outcome(jobs, run);
      && run.id in after && Keeps(jobs[run.id].items, after[run.id].items)
      && after[run.id].job.total == jobs[run.id].job.total
  {
    var m := Min(run.survived, |Writes(jobs, run)|);
    if m > 0 {
      RunState(jobs, run, m);
      StartRecords(jobs, run);
      ImageKeeps(StartItems(jobs, run), Records(jobs, run), run.progress, 0, EventsBy(jobs, run, m));
    }
  }

  /** A job being created ends up with a prefix of its items, all of them once the save loop is over. */
  lemma CreationSize(jobs: Jobs, run: Run)
    requires Good(jobs) && run.id !in jobs
    ensures var after, m, n := Outcome(jobs, run), Min(run.survived, |Writes(jobs, run)|), |run.payloads|;
      && (run.id in after <==> m >= 1)
      && (m >= 1 ==> after[run.id].job.total == n && |after[run.id].items| == Min(m - 1, n))
  {
    var m := Min(run.survived, |Writes(jobs, run)|);
    FreshAt(run.payloads);
    SavesAt(run.id, Fresh(run.payloads));
    if m > |Opening(jobs, run)| {
      RunState(jobs, run, m);
    } else if m > 0 {
      OpeningState(jobs, run, m);
      WritesPrefix(jobs, run, m);
    }
  }

  /** The job of a run whose process outlived the opening. */
  lemma ExecutedIsGood(jobs: Jobs, run: Run)
    requires Good(jobs) && ValidRun(jobs, run)
    requires |Opening(jobs, run)| <= Min(run.survived, |Writes(jobs, run)|)
    ensures run.id in Outcome(jobs, run) && GoodJob(Outcome(jobs, run)[run.id], run.id)
  {
    var m := Min(run.survived, |Writes(jobs, run)|);
    RunState(jobs, run, m);
    StartRecords(jobs, run);
    ImageAt(StartItems(jobs, run), Records(jobs, run), run.progress, EventsBy(jobs, run, m));
  }

  /** The job of a run whose process died in the opening. */
  lemma OpenedIsGood(jobs: Jobs, run: Run)
    requires Good(jobs) && 0 < run.survived < |Opening(jobs, run)| && run.survived <= |Writes(jobs, run)|
    ensures run.id in Outcome(jobs, run) && GoodJob(Outcome(jobs, run)[run.id], run.id)
  {
    OpeningState(jobs, run, run.survived);
    WritesPrefix(jobs, run, run.survived);
    OpeningSize(jobs, run);
    FreshAt(run.payloads);
  }

  lemma OutcomeIsGood(jobs: Jobs, run: Run)
    requires Good(jobs) && ValidRun(jobs, run)
    ensures Good(Outcome(jobs, run))
  {
    var after := Outcome(jobs, run);
    var m := Min(run.survived, |Writes(jobs, run)|);
    assert |Opening(jobs, run)| <= |Writes(jobs, run)|;
    forall id | id in after ensures GoodJob(after[id], id) {
      if id != run.id {
        RunTouchesOnlyItsJob(jobs, run, id);
      } else if m >= |Opening(jobs, run)| {
        ExecutedIsGood(jobs, run);
      } else if m > 0 {
        OpenedIsGood(jobs, run);
      }
    }
  }

  // ---- The status while a run is on ----

  lemma SavesKeepJob(jobs: Jobs, w: Write)
    requires w.SaveItem? && w.id in jobs
    ensures w.id in Apply1(jobs, w) && Apply1(jobs, w)[w.id].job == jobs[w.id].job
  {
  }

  lemma {:induction false} FirstThenSaves(jobs: Jobs, ws: seq<Write>, id: JobId, n: nat)
    requires 1 <= n <= |ws| && AllOf(ws, id)
    requires id in After(jobs, ws, 1) && After(jobs, ws, 1)[id].job.status == Running
    requires forall i :: 1 <= i < |ws| ==> ws[i].SaveItem?
    ensures id in After(jobs, ws, n) && After(jobs, ws, n)[id].job.status == Running
  {
    if n > 1 {
      FirstThenSaves(jobs, ws, id, n - 1);
      SavesKeepJob(After(jobs, ws, n - 1), ws[n - 1]);
    }
  }

  lemma {:induction false} ProgressSaves(id: JobId, records: seq<BatchItem>, progress: seq<Progress>, n: nat)
    requires n <= |progress|
    ensures forall i :: 0 <= i < |ProgressWrites(id, records, progress, n)| ==>
      ProgressWrites(id, records, progress, n)[i].SaveItem?
  {
    if n > 0 {
      ProgressSaves(id, records, progress, n - 1);
    }
  }

  lemma BodyIsSaves(jobs: Jobs, run: Run)
    ensures |Body(jobs, run)| >= 1 && forall i :: 1 <= i < |Body(jobs, run)| ==> Body(jobs, run)[i].SaveItem?
  {
    SavesAt(run.id, Fresh(run.payloads));
    ProgressSaves(run.id, Records(jobs, run), run.progress, |run.progress|);
    OpeningSize(jobs, run);
    FreshAt(run.payloads);
  }

  /** From its first write until its last one a run's job is stored as running, so a crash leaves it running. */
  lemma RunningMeanwhile(jobs: Jobs, run: Run, n: nat)
    requires Good(jobs) && 1 <= n <= |Body(jobs, run)|
    ensures run.id in After(jobs, Writes(jobs, run), n) && After(jobs, Writes(jobs, run), n)[run.id].job.status == Running
  {
    var ws := Body(jobs, run);
    WritesPrefix(jobs, run, n);
    WritesPrefix(jobs, run, 1);
    BodyIsSaves(jobs, run);
    WritesAreOwn(jobs, run);
    assert forall i :: 0 <= i < |ws| ==> ws[i] == Writes(jobs, run)[i];
    StartsRunning(jobs, run);
    FirstThenSaves(jobs, ws, run.id, n);
  }

  lemma StartsRunning(jobs: Jobs, run: Run)
    requires Good(jobs)
    ensures |Body(jobs, run)| >= 1
    ensures run.id in After(jobs, Body(jobs, run), 1) && After(jobs, Body(jobs, run), 1)[run.id].job.status == Running
  {
    OpeningSize(jobs, run);
    var ws := Body(jobs, run);
    assert After(jobs, ws, 1) == Apply1(After(jobs, ws, 0), ws[0]);
  }

  // ---- Any number of runs and crashes ----

  /** What a run, or many, may do to job `id`: nothing to its size, payloads and done items. */
  ghost predicate KeepsJob(before: Jobs, after: Jobs, id: JobId) {
    id in before ==>
      id in after && Keeps(before[id].items, after[id].items) && after[id].job.total == before[id].job.total
  }

  lemma RunKeepsJob(before: Jobs, run: Run, after: Jobs, id: JobId)
    requires Good(before) && Follows(before, run, after)
    ensures KeepsJob(before, after, id) && Good(after)
  {
    OutcomeIsGood(before, run);
    if id in before {
      if run.id == id {
        ResumeKeeps(before, run);
      } else {
        RunTouchesOnlyItsJob(before, run, id);
      }
    }
  }

  /** One more run keeps every job, and keeps the store well formed. */
  ghost predicate StepOk(before: Jobs, after: Jobs) {
    Good(before) ==> Good(after) && forall id :: KeepsJob(before, after, id)
  }

  lemma RunIsOk(before: Jobs, run: Run, after: Jobs)
    requires Follows(before, run, after)
    ensures StepOk(before, after)
  {
    if Good(before) {
      RunKeepsJob(before, run, after, run.id);
      forall id ensures KeepsJob(before, after, id) {
        RunKeepsJob(before, run, after, id);
      }
    }
  }

  lemma KeepsJobTransitive(a: Jobs, b: Jobs, c: Jobs, id: JobId)
    requires KeepsJob(a, b, id) && KeepsJob(b, c, id)
    ensures KeepsJob(a, c, id)
  {
    if id in a {
      KeepsTransitive(a[id].items, b[id].items, c[id].items);
    }
  }

  lemma {:induction false} StepsKeep(stores: seq<Jobs>, m: nat, n: nat, id: JobId)
    requires m <= n < |stores| && Good(stores[m])
    requires forall i :: 0 <= i < |stores| - 1 ==> StepOk(stores[i], stores[i + 1])
    ensures Good(stores[n]) && KeepsJob(stores[m], stores[n], id)
    decreases n
  {
    if m < n {
      StepsKeep(stores, m, n - 1, id);
      assert StepOk(stores[n - 1], stores[n - 1 + 1]);
      KeepsJobTransitive(stores[m], stores[n - 1], stores[n], id);
    }
  }

  lemma HistoryIsOk(stores: seq<Jobs>, runs: seq<Run>)
    requires IsHistory(stores, runs)
    ensures forall i :: 0 <= i < |stores| - 1 ==> StepOk(stores[i], stores[i + 1])
    ensures forall i :: 0 <= i < |stores| ==> Good(stores[i])
  {
    forall i | 0 <= i < |stores| - 1 ensures StepOk(stores[i], stores[i + 1]) {
      RunIsOk(stores[i], runs[i], stores[i + 1]);
    }
    forall i | 0 <= i < |stores| ensures Good(stores[i]) {
      StepsKeep(stores, 0, i, "");
    }
  }

  /**
   * Resume over any number of runs and crashes: once a job exists, its item count, indices and
   * payloads are fixed, and a record stored as done is never rewritten.
   */
  lemma ResumeForever(stores: seq<Jobs>, runs: seq<Run>, m: nat, n: nat, id: JobId)
    requires IsHistory(stores, runs) && m <= n < |stores|
    ensures KeepsJob(stores[m], stores[n], id)
    ensures id in stores[n] ==> Indexed(stores[n][id].items)
  {
    HistoryIsOk(stores, runs);
    StepsKeep(stores, m, n, id);
  }

  /** The record a position stands for is stored, not done, and carries its item's own payload. */
  ghost predicate IsOpen(items: seq<BatchItem>, record: BatchItem) {
    record.index < |items| && items[record.index].status != Done && items[record.index].payload == record.payload
  }

  lemma UnsettledIsOpen(start: seq<BatchItem>, records: seq<BatchItem>, progress: seq<Progress>, e: nat)
    requires RecordsOf(start, records) && ValidProgress(progress, |records|) && e < |progress|
    ensures IsOpen(Image(start, records, progress, e), records[progress[e].pos])
  {
    ImageAt(start, records, progress, e);
    NotSettledBefore(progress, |records|, e);
  }

  /**
   * The task function is never called on an item that is stored as done: not on one finished by an
   * earlier run, and not on one finished earlier in the same run. It gets the item's own payload.
   */
  lemma NeverCallsDone(stores: seq<Jobs>, runs: seq<Run>, n: nat, e: nat)
    requires IsHistory(stores, runs) && n < |runs|
    requires e < |runs[n].progress| && runs[n].progress[e].Called?
    ensures runs[n].progress[e].pos < |Records(stores[n], runs[n])|
    ensures IsOpen(ItemList(StoreAtEvent(stores[n], runs[n], e), runs[n].id),
                   Records(stores[n], runs[n])[runs[n].progress[e].pos])
  {
    HistoryIsOk(stores, runs);
    assert Follows(stores[n], runs[n], stores[n + 1]);
    StartRecords(stores[n], runs[n]);
    ExecutionState(stores[n], runs[n], e);
    UnsettledIsOpen(StartItems(stores[n], runs[n]), Records(stores[n], runs[n]), runs[n].progress, e);
  }

  /** Every outcome is saved under the item's own index, whatever its position among the pending ones. */
  lemma OutcomeUnderOwnIndex(jobs: Jobs, run: Run, e: nat)
    requires Good(jobs) && ValidRun(jobs, run) && e < |run.progress| && run.progress[e].Settled?
    ensures var record := Records(jobs, run)[run.progress[e].pos];
      var items := ItemList(Executed(jobs, run), run.id);
      && record.index < |items| && Tells(items[record.index], record, run.progress[e])
      && record.index < |StartItems(jobs, run)| && StartItems(jobs, run)[record.index] == record
  {
    StartRecords(jobs, run);
    AllEventsBy(jobs, run);
    ExecutionState(jobs, run, |run.progress|);
    ImageAt(StartItems(jobs, run), Records(jobs, run), run.progress, |run.progress|);
  }

  /** The item stands for how its record settled: done or failed, and with what. */
  ghost predicate Tells(item: BatchItem, record: BatchItem, p: Progress)
    requires p.Settled?
  {
    && item.index == record.index && item.payload == record.payload
    && (item.status == Done <==> p.ok) && (item.status == Failed <==> !p.ok)
    && item.result == p.value && item.error == p.error && item.attempts == p.attempts && item.account == p.account
  }

  /** Once the executor has settled a record, every later store of the run tells how. */
  lemma SettledIsStored(jobs: Jobs, run: Run, n: nat, e: nat)
    requires Good(jobs) && ValidRun(jobs, run) && e < n <= |run.progress| && run.progress[e].Settled?
    ensures var record, items := Records(jobs, run)[run.progress[e].pos], ItemList(StoreAtEvent(jobs, run, n), run.id);
      record.index < |items| && Tells(items[record.index], record, run.progress[e])
  {
    StartRecords(jobs, run);
    ExecutionState(jobs, run, n);
    ImageAt(StartItems(jobs, run), Records(jobs, run), run.progress, n);
  }

  /** All of the first `n` events are stored. */
  ghost predicate AllTold(jobs: Jobs, run: Run, n: nat)
    requires ValidRun(jobs, run) && n <= |run.progress|
  {
    var items := ItemList(StoreAtEvent(jobs, run, n), run.id);
    forall e :: 0 <= e < n && run.progress[e].Settled? ==>
      var record := Records(jobs, run)[run.progress[e].pos];
      record.index < |items| && Tells(items[record.index], record, run.progress[e])
  }

  lemma EventsAreTold(jobs: Jobs, run: Run, n: nat)
    requires Good(jobs) && ValidRun(jobs, run) && n <= |run.progress|
    ensures AllTold(jobs, run, n)
  {
    forall e | 0 <= e < n && run.progress[e].Settled?
      ensures var record, items := Records(jobs, run)[run.progress[e].pos], ItemList(StoreAtEvent(jobs, run, n), run.id);
        record.index < |items| && Tells(items[record.index], record, run.progress[e])
    {
      SettledIsStored(jobs, run, n, e);
    }
  }

  /** The records of a job that exists are exactly its stored items that are not done, failed ones included. */
  lemma {:induction false} PendingExactly(items: seq<BatchItem>)
    ensures forall item :: item in PendingOf(items) <==> item in items && item.status != Done
  {
    if items != [] {
      var n := |items| - 1;
      PendingExactly(items[..n]);
      assert items == items[..n] + [items[n]];
    }
  }

  lemma ImageStaysOpen(start: seq<BatchItem>, records: seq<BatchItem>, progress: seq<Progress>, n: nat, i: nat)
    requires RecordsOf(start, records) && ValidProgress(progress, |records|) && n <= |progress|
    requires i < |records| && !Succeeds(progress, i)
    ensures var image := Image(start, records, progress, n);
      && records[i].index < |image| && image[records[i].index].status != Done
      && image[records[i].index].index == records[i].index && image[records[i].index].payload == records[i].payload
  {
    ImageAt(start, records, progress, n);
    if SettledIn(progress, n, i) {
      var e :| 0 <= e < n && progress[e].Settled? && progress[e].pos == i;
      assert !progress[e].ok;
    }
  }

  /** A record whose event failed, or never came, is not done in what a run leaves, wherever it was cut off. */
  lemma NotOkStaysOpen(jobs: Jobs, run: Run, i: nat)
    requires Good(jobs) && ValidRun(jobs, run) && i < |Records(jobs, run)| && !Succeeds(run.progress, i)
    requires run.survived >= |Opening(jobs, run)|
    ensures var index, after := Records(jobs, run)[i].index, Outcome(jobs, run);
      && run.id in after && index < |after[run.id].items|
      && after[run.id].items[index].status != Done && after[run.id].items[index].index == index
      && after[run.id].items[index].payload == Records(jobs, run)[i].payload
  {
    var m := Min(run.survived, |Writes(jobs, run)|);
    RunState(jobs, run, m);
    StartRecords(jobs, run);
    ImageStaysOpen(StartItems(jobs, run), Records(jobs, run), run.progress, EventsBy(jobs, run, m), i);
  }

  /** A run that finishes reports COMPLETED exactly when every stored item of its job is done, else PARTIAL. */
  lemma FinishedStatus(jobs: Jobs, run: Run)
    requires Good(jobs) && ValidRun(jobs, run) && run.returned && run.survived >= |Writes(jobs, run)|
    ensures var after := Outcome(jobs, run);
      && run.id in after
      && (after[run.id].job.status == Completed <==>
            forall k :: 0 <= k < |after[run.id].items| ==> after[run.id].items[k].status == Done)
      && (after[run.id].job.status == Partial <==>
            exists k :: 0 <= k < |after[run.id].items| && after[run.id].items[k].status != Done)
  {
    ClosedState(jobs, run);
  }

  // ---- Finished runs ----

  /** Every item that is not done is one of the records. */
  ghost predicate Covers(start: seq<BatchItem>, records: seq<BatchItem>) {
    forall k :: 0 <= k < |start| && start[k].status != Done ==> start[k] in records
  }

  /** Once every record has settled, no item is pending. */
  lemma {:induction false} AllSettled(start: seq<BatchItem>, records: seq<BatchItem>, progress: seq<Progress>)
    requires RecordsOf(start, records) && ValidProgress(progress, |records|) && Covers(start, records)
    requires forall i: nat :: i < |records| ==> SettledIn(progress, |progress|, i)
    ensures forall k :: 0 <= k < |start| ==> Image(start, records, progress, |progress|)[k].status != Pending
  {
    ImageAt(start, records, progress, |progress|);
    forall k | 0 <= k < |start| ensures Image(start, records, progress, |progress|)[k].status != Pending {
      if start[k].status != Done {
        var i :| 0 <= i < |records| && records[i] == start[k];
        assert SettledIn(progress, |progress|, i);
      }
    }
  }

  /** The record of position `i` settles successfully. */
  ghost predicate Succeeds(progress: seq<Progress>, i: nat) {
    exists e :: 0 <= e < |progress| && progress[e].Settled? && progress[e].ok && progress[e].pos == i
  }

  /** Once every record has settled successfully, every item is done. */
  lemma {:induction false} AllSucceeded(start: seq<BatchItem>, records: seq<BatchItem>, progress: seq<Progress>)
    requires RecordsOf(start, records) && ValidProgress(progress, |records|) && Covers(start, records)
    requires forall i: nat :: i < |records| ==> Succeeds(progress, i)
    ensures AllDone(Image(start, records, progress, |progress|))
  {
    ImageAt(start, records, progress, |progress|);
    forall k | 0 <= k < |start| ensures Image(start, records, progress, |progress|)[k].status == Done {
      if start[k].status != Done {
        var i :| 0 <= i < |records| && records[i] == start[k];
        assert Succeeds(progress, i);
      }
    }
  }

  lemma RecordsCover(jobs: Jobs, run: Run)
    requires Good(jobs)
    ensures Covers(StartItems(jobs, run), Records(jobs, run))
  {
    if run.id in jobs {
      PendingDistinct(jobs[run.id].items);
    }
  }

  /** The items of a run that finished are those after its last event. */
  lemma FinishedItems(jobs: Jobs, run: Run)
    requires Good(jobs) && run.returned && run.survived >= |Writes(jobs, run)|
    ensures var after := Outcome(jobs, run);
      && run.id in after && after[run.id].job.total == Total(jobs, run)
      && after[run.id].items == Image(StartItems(jobs, run), Records(jobs, run), run.progress, |run.progress|)
  {
    ClosedState(jobs, run);
    AllEventsBy(jobs, run);
    ExecutionState(jobs, run, |run.progress|);
  }

  /** Once every record has settled, no item of the finished job is pending. */
  lemma SettledLeavesNonePending(jobs: Jobs, run: Run)
    requires Good(jobs) && ValidRun(jobs, run) && run.returned && run.survived >= |Writes(jobs, run)|
    requires forall i: nat :: i < |Records(jobs, run)| ==> SettledIn(run.progress, |run.progress|, i)
    ensures var after := Outcome(jobs, run);
      run.id in after && forall k :: 0 <= k < |after[run.id].items| ==> after[run.id].items[k].status != Pending
  {
    FinishedItems(jobs, run);
    StartRecords(jobs, run);
    RecordsCover(jobs, run);
    AllSettled(StartItems(jobs, run), Records(jobs, run), run.progress);
  }

  /** A finished run is COMPLETED exactly when every record of it settled successfully: what was done before stays done. */
  lemma CompletedExactly(jobs: Jobs, run: Run)
    requires Good(jobs) && ValidRun(jobs, run) && run.returned && run.survived >= |Writes(jobs, run)|
    ensures var after := Outcome(jobs, run);
      && run.id in after
      && (after[run.id].job.status == Completed <==> forall i: nat :: i < |Records(jobs, run)| ==> Succeeds(run.progress, i))
  {
    FinishedStatus(jobs, run);
    FinishedItems(jobs, run);
    StartRecords(jobs, run);
    if forall i: nat :: i < |Records(jobs, run)| ==> Succeeds(run.progress, i) {
      RecordsCover(jobs, run);
      AllSucceeded(StartItems(jobs, run), Records(jobs, run), run.progress);
    } else {
      var i: nat :| i < |Records(jobs, run)| && !Succeeds(run.progress, i);
      assert |Opening(jobs, run)| <= |Writes(jobs, run)|;
      NotOkStaysOpen(jobs, run, i);
    }
  }

  /** A job that lost items is reported complete all the same, once those it has are done. */
  lemma LostItemsCompleted(jobs: Jobs, run: Run)
    requires Good(jobs) && ValidRun(jobs, run) && run.returned && run.survived >= |Writes(jobs, run)|
    requires run.id in jobs && |jobs[run.id].items| < jobs[run.id].job.total
    requires forall i: nat :: i < |Records(jobs, run)| ==> Succeeds(run.progress, i)
    ensures var after := Outcome(jobs, run);
      && run.id in after && after[run.id].job.status == Completed
      && |after[run.id].items| < after[run.id].job.total
  {
    FinishedItems(jobs, run);
    FinishedStatus(jobs, run);
    StartRecords(jobs, run);
    RecordsCover(jobs, run);
    AllSucceeded(StartItems(jobs, run), Records(jobs, run), run.progress);
  }

  /**
   * A completed job has all the items it was created with exactly when its first run outlived the
   * save loop: a crash inside that loop loses the unsaved items for good.
   */
  lemma ItemsLostExactlyInSaveLoop(stores: seq<Jobs>, runs: seq<Run>, n: nat)
    requires IsHistory(stores, runs) && 1 <= n < |stores|
    requires runs[0].id !in stores[0] && runs[0].survived >= 1
    ensures var id, count := runs[0].id, |runs[0].payloads|;
      && id in stores[n]
      && stores[n][id].job.total == count
      && (|stores[n][id].items| == count <==> runs[0].survived >= count + 1)
  {
    assert Follows(stores[0], runs[0], stores[0 + 1]);
    CreationSize(stores[0], runs[0]);
    OpeningSize(stores[0], runs[0]);
    ResumeForever(stores, runs, 1, n, runs[0].id);
  }

  const TWO_ITEMS_RUN := Run("j", ["a", "b"], [], false, 2)
  const SECOND_RUN := Run("j", [], [Called(0), Settled(0, true, Some("v"), None, 1, Some("acc"))], true, 3)

  /** The first run of a job of two items dies after saving one; the second run does that one and completes the job. */
  lemma TwoItemsOneLost()
    ensures var jobs := Outcome(map[], TWO_ITEMS_RUN);
      && IsHistory([map[], jobs, Outcome(jobs, SECOND_RUN)], [TWO_ITEMS_RUN, SECOND_RUN])
      && "j" in jobs && |jobs["j"].items| == 1 && jobs["j"].job.total == 2
    ensures var after := Outcome(Outcome(map[], TWO_ITEMS_RUN), SECOND_RUN);
      "j" in after && after["j"].job.status == Completed && after["j"].job.total == 2 && |after["j"].items| == 1
  {
    var jobs := Outcome(map[], TWO_ITEMS_RUN);
    OneOfTwoSaved(TWO_ITEMS_RUN);
    CompletedWithOne(jobs);
    TwoRuns([map[], jobs, Outcome(jobs, SECOND_RUN)], [TWO_ITEMS_RUN, SECOND_RUN]);
  }

  lemma TwoRuns(stores: seq<Jobs>, runs: seq<Run>)
    requires |stores| == 3 && |runs| == 2 && Good(stores[0])
    requires Follows(stores[0], runs[0], stores[1]) && Follows(stores[1], runs[1], stores[2])
    ensures IsHistory(stores, runs)
  {
  }

  lemma CompletedWithOne(jobs: Jobs)
    requires Good(jobs) && "j" in jobs && jobs["j"].job.total == 2
    requires jobs["j"].items == [BatchItem(0, "a", Pending, None, None, 0, None)]
    ensures ValidRun(jobs, SECOND_RUN)
    ensures var after := Outcome(jobs, SECOND_RUN);
      "j" in after && after["j"].job.status == Completed && after["j"].job.total == 2 && |after["j"].items| == 1
  {
    OnePending(jobs["j"].items);
    SecondWrites(jobs, SECOND_RUN);
    assert Succeeds(SECOND_RUN.progress, 0) by {
      assert SECOND_RUN.progress[1].Settled?;
    }
    LostItemsCompleted(jobs, SECOND_RUN);
    ResumeKeeps(jobs, SECOND_RUN);
  }

  lemma OnePending(items: seq<BatchItem>)
    requires |items| == 1 && items[0].status == Pending
    ensures PendingOf(items) == items
  {
    assert items[..0] == [];
    assert PendingOf(items[..0]) == [];
  }

  lemma OneOfTwoSaved(run: Run)
    requires run == Run("j", ["a", "b"], [], false, 2)
    ensures ValidRun(map[], run) && Good(Outcome(map[], run))
    ensures var jobs := Outcome(map[], run);
      "j" in jobs && jobs["j"].job.total == 2 && jobs["j"].items == [BatchItem(0, "a", Pending, None, None, 0, None)]
  {
    FreshAt(run.payloads);
    OpeningSize(map[], run);
    OutcomeIsGood(map[], run);
    OpeningState(map[], run, 2);
    WritesPrefix(map[], run, 2);
  }

  lemma SecondWrites(jobs: Jobs, run: Run)
    requires run.id in jobs && run.returned && |Records(jobs, run)| == 1
    requires |run.progress| == 2 && run.progress[0] == Called(0) && run.progress[1].Settled? && run.progress[1].pos == 0
    ensures |Writes(jobs, run)| == 3
  {
    var records := Records(jobs, run);
    assert ProgressWrites(run.id, records, run.progress, 1) == [];
    assert |ProgressWrites(run.id, records, run.progress, 2)| == 1;
  }
}
