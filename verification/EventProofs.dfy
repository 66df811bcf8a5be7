/** What every interleaving of the event bus keeps: one step at a time. */
module EventProofs {
  import opened Wrappers
  import opened EventStore
  import opened EventMachine

  // ---- Attempts and delays ----

  /** Attempt numbers 1, 2, ..., n. */
  ghost function UpTo(n: int): seq<int> {
    if n <= 0 then [] else UpTo(n - 1) + [n]
  }

  /** The sleeps after the first `n` failed attempts. */
  ghost function Delays(cfg: Config, n: int): seq<real> {
    if n <= 0 then [] else Delays(cfg, n - 1) + [Delay(cfg, n)]
  }

  ghost function Bound(cfg: Config): int {
    Max(1, cfg.maxAttempts)
  }

  /** Dispatched 1..k times within the bound, with k - 1 sleeps between, and one outcome. */
  ghost predicate Settled(cfg: Config, h: History, o: Outcome) {
    && 1 <= |h.dispatched| <= Bound(cfg)
    && h.dispatched == UpTo(|h.dispatched|)
    && h.delays == Delays(cfg, |h.dispatched| - 1)
    && h.outcomes == [o]
  }

  lemma {:induction false} UpToLength(n: nat)
    ensures |UpTo(n)| == n
    ensures forall i :: 0 <= i < n ==> UpTo(n)[i] == i + 1
  {
    if n > 0 {
      UpToLength(n - 1);
    }
  }

  // ---- The life of one id ----

  /** Everything the state records about one id. */
  datatype Card = Card(
    place: Option<Place>,
    arrival: Option<Arrival>,
    phase: Option<Phase>,
    hist: History,
    entered: bool,
    succeeded: bool,
    failed: bool,
    dropped: bool,
    status: Option<Status>)

  ghost function CardOf(s: State, id: Id): Card {
    Card(
      if id in s.places then Some(s.places[id]) else None,
      if id in s.arriving then Some(s.arriving[id]) else None,
      if id in s.places && s.places[id].Held? && s.places[id].task in s.tasks then Some(s.tasks[s.places[id].task]) else None,
      HistoryOf(s.hist, id),
      id in s.entered,
      id in s.succeeded,
      id in s.failures,
      id in s.dropped,
      if id in s.store.events then Some(s.store.events[id].status) else None)
  }

  predicate IsOpenStatus(status: Option<Status>) {
    status == Some(Pending) || status == Some(Failed)
  }

  predicate Undecided(k: Card) {
    !k.succeeded && !k.failed && k.hist.outcomes == []
  }

  ghost predicate Decided(cfg: Config, k: Card) {
    || (k.succeeded && !k.failed && Settled(cfg, k.hist, Success))
    || (k.failed && !k.succeeded && Settled(cfg, k.hist, Failure))
  }

  ghost predicate EnvelopeOk(cfg: Config, id: Id, e: Envelope) {
    e.id == id && e.maxAttempts == cfg.maxAttempts && 1 <= e.attempt <= Bound(cfg)
  }

  ghost predicate HeldOk(cfg: Config, id: Id, k: Card, p: Phase) {
    && p.Holds()
    && EnvelopeOk(cfg, id, p.env)
    && var n := p.env.attempt;
       match p
       case Dispatching(_) =>
         Undecided(k) && IsOpenStatus(k.status) && k.hist.dispatched == UpTo(n) && k.hist.delays == Delays(cfg, n - 1)
       case BackingOff(_, _) =>
         Undecided(k) && IsOpenStatus(k.status) && k.hist.dispatched == UpTo(n) && k.hist.delays == Delays(cfg, n)
         && n < cfg.maxAttempts
       case Requeueing(_, _) =>
         Undecided(k) && k.status == Some(Failed) && k.hist.dispatched == UpTo(n) && k.hist.delays == Delays(cfg, n)
         && n < cfg.maxAttempts
       case MarkingProcessed(_) => Decided(cfg, k) && k.succeeded && IsOpenStatus(k.status)
       case Completed(_) => Decided(cfg, k) && k.succeeded && k.status == Some(Processed)
       case MarkingFailed(_, _, _) => Decided(cfg, k) && k.failed && IsOpenStatus(k.status)
       case DeadLettering(_, _, _) => Decided(cfg, k) && k.failed && IsOpenStatus(k.status)
       case DeadLettered(_) => Decided(cfg, k) && k.failed && k.status == Some(Dead)
  }

  ghost predicate GoneOk(cfg: Config, k: Card) {
    if !k.entered then Undecided(k) && !k.dropped && (k.status == None || k.status == Some(Pending))
    else if k.dropped then (Undecided(k) && IsOpenStatus(k.status)) || (Decided(cfg, k) && k.status.Some?)
    else Decided(cfg, k) && k.status == Some(if k.succeeded then Processed else Dead)
  }

  ghost predicate CardOk(cfg: Config, id: Id, k: Card) {
    match k.place
    case None =>
      k == Card(None, None, None, History([], [], []), false, false, false, false, None)
    case Some(Arriving) =>
      && k.arrival.Some? && EnvelopeOk(cfg, id, k.arrival.value.env) && k.arrival.value.env.attempt == 1
      && !k.entered && !k.dropped && Undecided(k) && k.hist == History([], [], [])
      && k.status == (if k.arrival.value.Saving? then None else Some(Pending))
    case Some(Queued(e)) =>
      && k.arrival.None? && EnvelopeOk(cfg, id, e)
      && k.entered && !k.dropped && Undecided(k) && IsOpenStatus(k.status)
      && k.hist.dispatched == UpTo(e.attempt - 1) && k.hist.delays == Delays(cfg, e.attempt - 1)
    case Some(Held(_)) =>
      k.arrival.None? && k.entered && !k.dropped && k.phase.Some? && HeldOk(cfg, id, k, k.phase.value)
    case Some(Gone) =>
      k.arrival.None? && GoneOk(cfg, k)
  }

  // ---- The invariant ----

  /** Queue slots and queued places correspond one to one. */
  ghost predicate QueueAgrees(queue: seq<Option<Envelope>>, places: map<Id, Place>) {
    && (forall i :: 0 <= i < |queue| && queue[i].Some? ==>
          queue[i].value.id in places && places[queue[i].value.id] == Queued(queue[i].value))
    && (forall i, j :: 0 <= i < j < |queue| && queue[i].Some? && queue[j].Some? ==> queue[i].value.id != queue[j].value.id)
    && (forall id :: id in places && places[id].Queued? ==> places[id].env.id == id && Some(places[id].env) in queue)
  }

  /** A consumer that holds an envelope is the place of its id. */
  ghost predicate TasksAgree(tasks: map<nat, Phase>, places: map<Id, Place>) {
    forall c :: c in tasks && tasks[c].Holds() ==>
      tasks[c].env.id in places && places[tasks[c].env.id] == Held(c)
  }

  ghost function Holders(tasks: map<nat, Phase>): set<nat> {
    set c | c in tasks && tasks[c].Holds()
  }

  ghost predicate CountsAgree(s: State) {
    && s.unfinished == |s.queue| + |Holders(s.tasks)|
    && s.stats.enqueued == |s.entered|
    && s.stats.processed == |s.succeeded|
    && s.stats.failed == |s.failures|
    && (!s.running ==> s.tasks == map[])
  }

  ghost predicate CardsAgree(s: State) {
    forall id :: CardOk(s.cfg, id, CardOf(s, id))
  }

  ghost predicate Inv(s: State) {
    && QueueAgrees(s.queue, s.places)
    && TasksAgree(s.tasks, s.places)
    && CountsAgree(s)
    && OrderAgrees(s.store)
    && DeadAgrees(s.store)
    && CardsAgree(s)
  }

  // ---- Small facts about each part ----

  lemma Push(queue: seq<Option<Envelope>>, places: map<Id, Place>, e: Envelope)
    requires QueueAgrees(queue, places)
    requires e.id in places ==> !places[e.id].Queued?
    ensures QueueAgrees(queue + [Some(e)], places[e.id := Queued(e)])
  {
    var q, p := queue + [Some(e)], places[e.id := Queued(e)];
    assert q[|queue|] == Some(e);
    forall id | id in p && p[id].Queued? ensures Some(p[id].env) in q {
      if id != e.id {
        assert Some(places[id].env) in queue;
      }
    }
  }

  lemma PushSentinel(queue: seq<Option<Envelope>>, places: map<Id, Place>)
    requires QueueAgrees(queue, places)
    ensures QueueAgrees(queue + [None], places)
  {
    forall id | id in places && places[id].Queued? ensures Some(places[id].env) in queue + [None] {
      assert Some(places[id].env) in queue;
    }
  }

  lemma Pop(queue: seq<Option<Envelope>>, places: map<Id, Place>, p: Place)
    requires |queue| > 0 && QueueAgrees(queue, places) && !p.Queued?
    ensures QueueAgrees(queue[1..], if queue[0].Some? then places[queue[0].value.id := p] else places)
  {
    var after := if queue[0].Some? then places[queue[0].value.id := p] else places;
    var rest := queue[1..];
    forall id | id in after && after[id].Queued? ensures Some(after[id].env) in rest {
      var i :| 0 <= i < |queue| && queue[i] == Some(places[id].env);
      assert rest[i - 1] == queue[i];
    }
  }

  lemma HoldersChange(tasks: map<nat, Phase>, c: nat, p: Phase)
    requires c in tasks
    ensures |Holders(tasks[c := p])| ==
      |Holders(tasks)| + (if p.Holds() then 1 else 0) - (if tasks[c].Holds() then 1 else 0)
  {
    var before, after := Holders(tasks), Holders(tasks[c := p]);
    if tasks[c].Holds() && !p.Holds() {
      assert after == before - {c};
    } else if !tasks[c].Holds() && p.Holds() {
      assert after == before + {c};
    } else {
      assert after == before;
    }
  }

  lemma StatusKeepsStore(s: StoreState, t: StoreState, id: Id)
    requires OrderAgrees(s) && DeadAgrees(s) && id in s.events && s.events[id].status != Dead
    requires t.order == s.order && t.dead == s.dead
    requires t.events.Keys == s.events.Keys && t.events[id].status != Dead
    requires forall other :: other in s.events && other != id ==> t.events[other] == s.events[other]
    ensures OrderAgrees(t) && DeadAgrees(t)
  {
    assert forall other :: IsDead(t, other) <==> IsDead(s, other);
    assert forall other :: other in t.events <==> other in s.events;
  }

  lemma SaveKeepsStore(s: StoreState, e: Envelope)
    requires OrderAgrees(s) && DeadAgrees(s) && e.id !in s.events
    ensures OrderAgrees(Save(s, e)) && DeadAgrees(Save(s, e))
  {
    var t := Save(s, e);
    assert forall other :: IsDead(t, other) <==> IsDead(s, other);
  }

  lemma BuryKeepsStore(s: StoreState, e: Envelope, error: string, handler: Option<string>)
    requires OrderAgrees(s) && DeadAgrees(s) && e.id in s.events && !IsDead(s, e.id)
    ensures OrderAgrees(AddDeadLetter(s, e, error, handler)) && DeadAgrees(AddDeadLetter(s, e, error, handler))
  {
    var t := AddDeadLetter(s, e, error, handler);
    assert t.dead[|s.dead|].stored.id == e.id;
    assert forall i :: 0 <= i < |s.dead| ==> t.dead[i] == s.dead[i];
    forall id | IsDead(t, id) ensures exists i :: 0 <= i < |t.dead| && t.dead[i].stored.id == id {
      if id != e.id {
        assert IsDead(s, id);
        var i :| 0 <= i < |s.dead| && s.dead[i].stored.id == id;
        assert t.dead[i].stored.id == id;
      }
    }
  }

  // ---- One step at a time ----

  /** Only the touched id's card can change. */
  ghost predicate OthersKept(s: State, t: State, id: Id) {
    forall other :: other != id ==> CardOf(t, other) == CardOf(s, other)
  }

  lemma OneCard(s: State, t: State, id: Id)
    requires CardsAgree(s) && t.cfg == s.cfg && OthersKept(s, t, id) && CardOk(t.cfg, id, CardOf(t, id))
    ensures CardsAgree(t)
  {
  }

  lemma AcceptKeeps(s: State, env: Envelope)
    requires Inv(s) && env.id !in s.places && env.attempt == 1
    ensures Inv(Accepted(s, env))
  {
    var t := Accepted(s, env);
    assert CardOk(s.cfg, env.id, CardOf(s, env.id));
    OneCard(s, t, env.id);
  }

  lemma SaveArrivalKeeps(s: State, id: Id)
    requires Inv(s) && id in s.arriving && s.arriving[id].Saving?
    ensures Inv(Saved(s, id))
  {
    var t := Saved(s, id);
    assert CardOk(s.cfg, id, CardOf(s, id));
    SaveKeepsStore(s.store, s.arriving[id].env);
    OneCard(s, t, id);
  }

  lemma ArrivedCard(s: State, id: Id)
    requires Inv(s) && id in s.arriving && s.arriving[id].Putting?
    ensures s.arriving[id].env.id == id && id in s.places && s.places[id] == Arriving && id !in s.entered
    ensures CardOk(s.cfg, id, CardOf(Arrived(s, id), id))
  {
    assert CardOk(s.cfg, id, CardOf(s, id));
  }

  lemma ArrivalKeepsOthers(s: State, id: Id)
    requires id in s.arriving && s.arriving[id].env.id == id
    ensures OthersKept(s, Arrived(s, id), id)
  {
  }

  lemma PutArrivalKeeps(s: State, id: Id)
    requires Inv(s) && id in s.arriving && s.arriving[id].Putting?
    ensures Inv(Arrived(s, id))
  {
    ArrivedCard(s, id);
    ArrivalKeepsOthers(s, id);
    Push(s.queue, s.places, s.arriving[id].env);
    OneCard(s, Arrived(s, id), id);
  }

  lemma AbortArrivalKeeps(s: State, id: Id)
    requires Inv(s) && id in s.arriving
    ensures Inv(Aborted(s, id))
  {
    var t := Aborted(s, id);
    assert CardOk(s.cfg, id, CardOf(s, id));
    OneCard(s, t, id);
  }

  /** Moving consumer `c` to another phase shows on no card but the one it holds. */
  lemma OtherPhasesKept(s: State, t: State, c: nat, id: Id)
    requires CardsAgree(s) && TasksAgree(s.tasks, s.places) && c in s.tasks
    requires s.tasks[c].Holds() ==> s.tasks[c].env.id == id
    requires t.tasks.Keys == s.tasks.Keys && forall d :: d in s.tasks && d != c ==> t.tasks[d] == s.tasks[d]
    requires forall other :: other != id ==> (other in t.places <==> other in s.places)
    requires forall other :: other != id && other in s.places ==> t.places[other] == s.places[other]
    ensures forall other :: other != id ==> CardOf(t, other).phase == CardOf(s, other).phase
  {
    forall other | other != id ensures CardOf(t, other).phase == CardOf(s, other).phase {
      assert CardOk(s.cfg, other, CardOf(s, other));
    }
  }

  lemma SentinelKeeps(s: State, c: nat)
    requires Inv(s) && At(s, c) && s.tasks[c].Waiting? && |s.queue| > 0 && s.queue[0].None?
    ensures Inv(Got(s, c))
  {
    Pop(s.queue, s.places, Gone);
    HoldersChange(s.tasks, c, Exited);
    SameCards(s, Got(s, c));
  }

  lemma GotCard(s: State, c: nat)
    requires Inv(s) && At(s, c) && |s.queue| > 0 && s.queue[0].Some?
    ensures CardOk(s.cfg, s.queue[0].value.id, CardOf(Got(s, c), s.queue[0].value.id))
    ensures s.queue[0].value.id in s.places && s.places[s.queue[0].value.id].Queued?
  {
    var id := s.queue[0].value.id;
    assert CardOk(s.cfg, id, CardOf(s, id));
  }

  lemma GetKeeps(s: State, c: nat)
    requires Inv(s) && At(s, c) && s.tasks[c].Waiting? && |s.queue| > 0 && s.queue[0].Some?
    ensures Inv(Got(s, c))
  {
    var t := Got(s, c);
    var env := s.queue[0].value;
    Pop(s.queue, s.places, Held(c));
    HoldersChange(s.tasks, c, Dispatching(env));
    GotCard(s, c);
    OtherPhasesKept(s, t, c, env.id);
    OneCard(s, t, env.id);
  }

  /** A consumer that keeps its envelope and only changes phase. */
  lemma PhaseKeeps(s: State, t: State, c: nat, p: Phase)
    requires Inv(s) && c in s.tasks && s.tasks[c].Holds() && p.Holds() && p.env == s.tasks[c].env
    requires t == s.(tasks := s.tasks[c := p], stats := t.stats, store := t.store, hist := t.hist,
                     succeeded := t.succeeded, failures := t.failures)
    requires t.stats.enqueued == s.stats.enqueued
    requires t.stats.processed == |t.succeeded| && t.stats.failed == |t.failures|
    requires OrderAgrees(t.store) && DeadAgrees(t.store)
    requires forall other :: other != p.env.id ==>
      CardOf(t, other) == CardOf(s, other).(phase := CardOf(t, other).phase)
    requires CardOk(t.cfg, p.env.id, CardOf(t, p.env.id))
    ensures Inv(t)
  {
    HoldersChange(s.tasks, c, p);
    OtherPhasesKept(s, t, c, p.env.id);
    OneCard(s, t, p.env.id);
  }

  lemma SuccessCard(s: State, c: nat, result: DispatchResult)
    requires Inv(s) && At(s, c) && s.tasks[c].Dispatching?
    requires result.middlewareError.None? && |result.handlerErrors| == 0
    ensures var env := s.tasks[c].env;
      && env.id !in s.succeeded
      && CardOk(s.cfg, env.id, CardOf(AfterDispatch(s, c, env, result), env.id))
  {
    var env := s.tasks[c].env;
    assert CardOk(s.cfg, env.id, CardOf(s, env.id));
    UpToLength(env.attempt);
  }

  lemma SuccessKeeps(s: State, c: nat, result: DispatchResult)
    requires Inv(s) && At(s, c) && s.tasks[c].Dispatching?
    requires result.middlewareError.None? && |result.handlerErrors| == 0
    ensures Inv(AfterDispatch(s, c, s.tasks[c].env, result))
  {
    var env := s.tasks[c].env;
    SuccessCard(s, c, result);
    PhaseKeeps(s, AfterDispatch(s, c, env, result), c, MarkingProcessed(env));
  }

  lemma RetryKeeps(s: State, c: nat, result: DispatchResult)
    requires Inv(s) && At(s, c) && s.tasks[c].Dispatching?
    requires result.middlewareError.None? && |result.handlerErrors| > 0
    requires s.tasks[c].env.attempt < s.tasks[c].env.maxAttempts
    ensures Inv(AfterDispatch(s, c, s.tasks[c].env, result))
  {
    var env := s.tasks[c].env;
    var t := AfterDispatch(s, c, env, result);
    assert CardOk(s.cfg, env.id, CardOf(s, env.id));
    PhaseKeeps(s, t, c, t.tasks[c]);
  }

  lemma FailureKeeps(s: State, t: State, c: nat, error: string, handler: Option<string>)
    requires Inv(s) && c in s.tasks && s.tasks[c].Dispatching?
    requires var env := s.tasks[c].env; var h := HistoryOf(s.hist, env.id);
      t == s.(stats := s.stats.(failed := s.stats.failed + 1),
              tasks := s.tasks[c := MarkingFailed(env, error, handler)],
              hist := s.hist[env.id := h.(outcomes := h.outcomes + [Failure])],
              failures := s.failures + {env.id})
    ensures Inv(t)
  {
    var env := s.tasks[c].env;
    assert CardOk(s.cfg, env.id, CardOf(s, env.id));
    UpToLength(env.attempt);
    PhaseKeeps(s, t, c, MarkingFailed(env, error, handler));
  }

  lemma DispatchKeeps(s: State, c: nat, result: DispatchResult)
    requires Inv(s) && At(s, c) && s.tasks[c].Dispatching?
    ensures Inv(AfterDispatch(s, c, s.tasks[c].env, result))
  {
    var env := s.tasks[c].env;
    assert CardOk(s.cfg, env.id, CardOf(s, env.id));
    if result.middlewareError.Some? {
      FailureKeeps(s, AfterDispatch(s, c, env, result), c, result.middlewareError.value, None);
    } else if |result.handlerErrors| == 0 {
      SuccessKeeps(s, c, result);
    } else if env.attempt < env.maxAttempts {
      RetryKeeps(s, c, result);
    } else {
      FailureKeeps(s, AfterDispatch(s, c, env, result), c, JoinErrors(result.handlerErrors),
                   Some(result.handlerErrors[|result.handlerErrors| - 1].handler));
    }
  }

  lemma StoreProcessedKeeps(s: State, c: nat)
    requires Inv(s) && At(s, c) && s.tasks[c].MarkingProcessed?
    ensures Inv(ProcessedStored(s, c))
  {
    var t := ProcessedStored(s, c);
    var id := s.tasks[c].env.id;
    assert CardOk(s.cfg, id, CardOf(s, id));
    StatusKeepsStore(s.store, t.store, id);
    PhaseKeeps(s, t, c, t.tasks[c]);
  }

  lemma BackoffDoneKeeps(s: State, c: nat)
    requires Inv(s) && At(s, c) && s.tasks[c].BackingOff?
    ensures Inv(RetryStored(s, c))
  {
    var t := RetryStored(s, c);
    var id := s.tasks[c].env.id;
    assert CardOk(s.cfg, id, CardOf(s, id));
    StatusKeepsStore(s.store, t.store, id);
    PhaseKeeps(s, t, c, t.tasks[c]);
  }

  lemma StoreFailedKeeps(s: State, c: nat)
    requires Inv(s) && At(s, c) && s.tasks[c].MarkingFailed?
    ensures Inv(FailureStored(s, c))
  {
    var t := FailureStored(s, c);
    var id := s.tasks[c].env.id;
    assert CardOk(s.cfg, id, CardOf(s, id));
    StatusKeepsStore(s.store, t.store, id);
    PhaseKeeps(s, t, c, t.tasks[c]);
  }

  lemma StoreDeadKeeps(s: State, c: nat)
    requires Inv(s) && At(s, c) && s.tasks[c].DeadLettering?
    ensures Inv(DeathStored(s, c))
  {
    var t := DeathStored(s, c);
    var p := s.tasks[c];
    assert CardOk(s.cfg, p.env.id, CardOf(s, p.env.id));
    BuryKeepsStore(s.store, p.env, p.error, p.handler);
    PhaseKeeps(s, t, c, t.tasks[c]);
  }

  lemma RetriedCard(s: State, c: nat)
    requires Inv(s) && At(s, c) && s.tasks[c].Requeueing?
    ensures var id := s.tasks[c].env.id;
      && s.places[id] == Held(c) && EnvelopeOk(s.cfg, id, s.tasks[c].env)
      && CardOk(s.cfg, id, CardOf(Retried(s, c), id))
  {
    var id := s.tasks[c].env.id;
    assert CardOk(s.cfg, id, CardOf(s, id));
  }

  lemma PutRetryKeeps(s: State, c: nat)
    requires Inv(s) && At(s, c) && s.tasks[c].Requeueing?
    ensures Inv(Retried(s, c))
  {
    var t := Retried(s, c);
    var env := s.tasks[c].env;
    RetriedCard(s, c);
    Push(s.queue, s.places, env.WithAttempt(env.attempt + 1, Some(s.tasks[c].error)));
    HoldersChange(s.tasks, c, Waiting);
    OtherPhasesKept(s, t, c, env.id);
    OneCard(s, t, env.id);
  }

  /** `task_done` after an outcome. */
  lemma ReleaseKeeps(s: State, c: nat)
    requires Inv(s) && At(s, c) && (s.tasks[c].Completed? || s.tasks[c].DeadLettered?)
    ensures Inv(Released(s, c, Waiting))
  {
    var t := Released(s, c, Waiting);
    var id := s.tasks[c].env.id;
    assert CardOk(s.cfg, id, CardOf(s, id));
    HoldersChange(s.tasks, c, Waiting);
    OtherPhasesKept(s, t, c, id);
    GonePlace(s, t, id);
    OneCard(s, t, id);
  }

  /** `task_done` after an exception or on cancellation. */
  lemma LossKeeps(s: State, c: nat, next: Phase)
    requires Inv(s) && At(s, c) && s.tasks[c].Holds() && !next.Holds()
    ensures Inv(Lost(s, c, next))
  {
    var t := Lost(s, c, next);
    var id := s.tasks[c].env.id;
    assert CardOk(s.cfg, id, CardOf(s, id));
    HoldersChange(s.tasks, c, next);
    OtherPhasesKept(s, t, c, id);
    GonePlace(s, t, id);
    OneCard(s, t, id);
  }

  lemma GonePlace(s: State, t: State, id: Id)
    requires QueueAgrees(s.queue, s.places) && t.queue == s.queue
    requires id in s.places && s.places[id].Held? && t.places == s.places[id := Gone]
    ensures QueueAgrees(t.queue, t.places)
  {
  }

  lemma DeadCountKeeps(s: State)
    requires Inv(s)
    ensures Inv(CountDeadLetter(s))
  {
    var t := CountDeadLetter(s);
    assert forall id :: CardOf(t, id) == CardOf(s, id);
  }

  /** Steps that touch no envelope change no card. */
  lemma SameCards(s: State, t: State)
    requires CardsAgree(s) && TasksAgree(s.tasks, s.places)
    requires t == s.(queue := t.queue, unfinished := t.unfinished, tasks := t.tasks, running := t.running, stopping := t.stopping)
    requires forall c :: c in s.tasks && s.tasks[c].Holds() ==> c in t.tasks && t.tasks[c] == s.tasks[c]
    ensures CardsAgree(t)
  {
    forall id ensures CardOk(t.cfg, id, CardOf(t, id)) {
      assert CardOk(s.cfg, id, CardOf(s, id));
    }
  }

  lemma StartStopKeeps(s: State, t: State)
    requires Inv(s) && Holders(s.tasks) == Holders(t.tasks) == {}
    requires t == s.(tasks := t.tasks, running := t.running, stopping := t.stopping)
    requires !t.running ==> t.tasks == map[]
    ensures Inv(t)
  {
    assert forall c :: c in s.tasks && s.tasks[c].Holds() ==> c in Holders(s.tasks);
    assert forall c :: c in t.tasks && t.tasks[c].Holds() ==> c in Holders(t.tasks);
    SameCards(s, t);
  }

  lemma PutSentinelKeeps(s: State)
    requires Inv(s)
    ensures Inv(s.(queue := s.queue + [None], unfinished := s.unfinished + 1))
  {
    PushSentinel(s.queue, s.places);
    SameCards(s, s.(queue := s.queue + [None], unfinished := s.unfinished + 1));
  }

  lemma CancelIdleKeeps(s: State, c: nat)
    requires Inv(s) && At(s, c) && s.tasks[c].Waiting?
    ensures Inv(s.(tasks := s.tasks[c := Exited]))
  {
    HoldersChange(s.tasks, c, Exited);
    SameCards(s, s.(tasks := s.tasks[c := Exited]));
  }

  /** Every step of the bus keeps the invariant. */
  lemma StepKeepsInv(s: State, a: Action)
    requires Inv(s) && Enabled(s, a)
    ensures Inv(Apply(s, a))
  {
    match a
    case Accept(env) => AcceptKeeps(s, env);
    case SaveArrival(id) => SaveArrivalKeeps(s, id);
    case PutArrival(id) => PutArrivalKeeps(s, id);
    case AbortArrival(id) => AbortArrivalKeeps(s, id);
    case Get(c) => if s.queue[0].None? { SentinelKeeps(s, c); } else { GetKeeps(s, c); }
    case DispatchDone(c, r) => DispatchKeeps(s, c, r);
    case StoreProcessed(c) => StoreProcessedKeeps(s, c);
    case BackoffDone(c) => BackoffDoneKeeps(s, c);
    case StoreFailed(c) => StoreFailedKeeps(s, c);
    case StoreDead(c) => StoreDeadKeeps(s, c);
    case PutRetry(c) => PutRetryKeeps(s, c);
    case FinishProcessed(c) => ReleaseKeeps(s, c);
    case FinishDead(c) => DeadCountKeeps(s); ReleaseKeeps(CountDeadLetter(s), c);
    case Drop(c, cancelled) =>
      if s.tasks[c].Holds() { LossKeeps(s, c, if cancelled then Exited else Waiting); } else { CancelIdleKeeps(s, c); }
    case Start => StartStopKeeps(s, Apply(s, a));
    case Stop => SameCards(s, Apply(s, a));
    case PutSentinel => PutSentinelKeeps(s);
    case StopDone => StartStopKeeps(s, Apply(s, a));
  }
}
