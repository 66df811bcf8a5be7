/**
 * The in-memory event store (claude_ai/bus/store/memory.py) and the envelope it
 * records (claude_ai/bus/envelope.py).
 */
module EventStore {
  import opened Wrappers

  type Id = string

  /** One delivery of an event. Timings carry no control information and are left out. */
  datatype Envelope = Envelope(
    id: Id,
    event: string,
    attempt: int,
    maxAttempts: int,
    traceId: Option<string>,
    lastError: Option<string>,
    metadata: map<string, string>)
  {
    /** A new envelope for the next attempt: same identity, new attempt number and error. */
    function WithAttempt(next: int, error: Option<string>): (e: Envelope)
      ensures e.id == id && e.event == event && e.maxAttempts == maxAttempts
      ensures e.traceId == traceId && e.metadata == metadata
    {
      Envelope(id, event, next, maxAttempts, traceId, error, metadata)
    }
  }

  datatype Status = Pending | Processed | Failed | Dead

  datatype Stored = Stored(
    id: Id,
    event: string,
    attempt: int,
    status: Status,
    lastError: Option<string>,
    metadata: map<string, string>)

  function FromEnvelope(e: Envelope, status: Status): Stored {
    Stored(e.id, e.event, e.attempt, status, e.lastError, e.metadata)
  }

  datatype DeadLetter = DeadLetter(stored: Stored, handler: Option<string>, error: string)

  datatype StoreState = StoreState(events: map<Id, Stored>, order: seq<Id>, dead: seq<DeadLetter>)

  const EMPTY_STORE := StoreState(map[], [], [])

  function Save(s: StoreState, e: Envelope): StoreState {
    StoreState(
      s.events[e.id := FromEnvelope(e, Pending)],
      if e.id in s.events then s.order else s.order + [e.id],
      s.dead)
  }

  function MarkProcessed(s: StoreState, id: Id): StoreState {
    if id in s.events then s.(events := s.events[id := s.events[id].(status := Processed)]) else s
  }

  function MarkFailed(s: StoreState, id: Id, error: string, attempt: int): StoreState {
    if id in s.events then
      s.(events := s.events[id := s.events[id].(status := Failed, lastError := Some(error), attempt := attempt)])
    else s
  }

  function AddDeadLetter(s: StoreState, e: Envelope, error: string, handler: Option<string>): StoreState {
    var stored := FromEnvelope(e, Dead).(lastError := Some(error));
    s.(events := s.events[e.id := stored], dead := s.dead + [DeadLetter(stored, handler, error)])
  }

  /** `_order` lists every recorded id exactly once. */
  ghost predicate OrderAgrees(s: StoreState) {
    && Distinct(s.order)
    && (forall id :: id in s.order <==> id in s.events)
  }

  /** The dead list holds each id at most once, and exactly the ids whose status is dead. */
  ghost predicate DeadAgrees(s: StoreState) {
    && (forall i, j :: 0 <= i < j < |s.dead| ==> s.dead[i].stored.id != s.dead[j].stored.id)
    && (forall i :: 0 <= i < |s.dead| ==> IsDead(s, s.dead[i].stored.id))
    && (forall id :: IsDead(s, id) ==> exists i :: 0 <= i < |s.dead| && s.dead[i].stored.id == id)
  }

  predicate IsDead(s: StoreState, id: Id) {
    id in s.events && s.events[id].status == Dead
  }

  datatype Query = Query(eventTypes: seq<string>, statuses: seq<Status>, limit: Option<int>)

  /** An empty filter list lets everything through, as does an absent one. */
  predicate Matches(q: Query, e: Stored) {
    && (|q.eventTypes| > 0 ==> e.event in q.eventTypes)
    && (|q.statuses| > 0 ==> e.status in q.statuses)
  }

  /** Every match among the first `n` recorded ids, in the order they were first saved. */
  function Selected(events: map<Id, Stored>, order: seq<Id>, n: nat, q: Query): (r: seq<Stored>)
    requires n <= |order|
  {
    if n == 0 then []
    else
      var rest := Selected(events, order, n - 1, q);
      var id := order[n - 1];
      if id in events && Matches(q, events[id]) then rest + [events[id]] else rest
  }

  /** The limit is tested after a match is emitted, so any limit below one still emits one. */
  function Limited(matches: seq<Stored>, limit: Option<int>): seq<Stored> {
    if limit.None? || |matches| <= Max(1, limit.value) then matches else matches[..Max(1, limit.value)]
  }

  lemma {:induction false} SelectedPrefix(events: map<Id, Stored>, order: seq<Id>, m: nat, n: nat, q: Query)
    requires m <= n <= |order|
    ensures Selected(events, order, m, q) <= Selected(events, order, n, q)
    decreases n
  {
    if m < n {
      SelectedPrefix(events, order, m, n - 1, q);
    }
  }

  /** Replaying an agreeing store without a limit yields exactly the matching records. */
  lemma {:induction false} ReplayIsExact(s: StoreState, n: nat, q: Query, e: Stored)
    requires OrderAgrees(s) && n <= |s.order|
    requires forall id :: id in s.events ==> s.events[id].id == id
    ensures e in Selected(s.events, s.order, n, q)
       <==> e.id in s.order[..n] && s.events[e.id] == e
            && (q.eventTypes == [] || e.event in q.eventTypes) && (q.statuses == [] || e.status in q.statuses)
  {
    if n > 0 {
      ReplayIsExact(s, n - 1, q, e);
      assert s.order[..n] == s.order[..n - 1] + [s.order[n - 1]];
      assert s.order[n - 1] in s.order;
      if e.id in s.order[..n - 1] {
        assert e.id in s.order;
      }
    }
  }

  class MemoryEventStore {
    var events: map<Id, Stored>
    var order: seq<Id>
    var dead: seq<DeadLetter>

    function View(): StoreState
      reads this
    {
      StoreState(events, order, dead)
    }

    constructor ()
      ensures View() == EMPTY_STORE
    {
      events, order, dead := map[], [], [];
    }

    method SaveEnvelope(e: Envelope)
      modifies this
      ensures View() == Save(old(View()), e)
    {
      if e.id !in events {
        order := order + [e.id];
      }
      events := events[e.id := FromEnvelope(e, Pending)];
    }

    method SetProcessed(id: Id)
      modifies this`events
      ensures View() == MarkProcessed(old(View()), id)
    {
      if id in events {
        events := events[id := events[id].(status := Processed)];
      }
    }

    method SetFailed(id: Id, error: string, attempt: int)
      modifies this`events
      ensures View() == MarkFailed(old(View()), id, error, attempt)
      ensures id in events <==> id in old(events)
      ensures id in events ==> events[id] == old(events)[id].(status := Failed, lastError := Some(error), attempt := attempt)
      ensures forall other :: other != id ==>
        (other in events <==> other in old(events)) && (other in events ==> events[other] == old(events)[other])
    {
      if id in events {
        events := events[id := events[id].(status := Failed, lastError := Some(error), attempt := attempt)];
      }
    }

    method Bury(e: Envelope, error: string, handler: Option<string>)
      modifies this`events, this`dead
      ensures View() == AddDeadLetter(old(View()), e, error, handler)
      ensures |dead| == |old(dead)| + 1 && dead[..|old(dead)|] == old(dead)
      ensures var d := dead[|old(dead)|];
        d.error == error && d.handler == handler && d.stored.lastError == Some(error) && d.stored.status == Dead
      ensures e.id in events && events[e.id] == dead[|old(dead)|].stored
    {
      var stored := FromEnvelope(e, Dead).(lastError := Some(error));
      dead := dead + [DeadLetter(stored, handler, error)];
      events := events[e.id := stored];
    }

    /** `replay`: walks the saved order, filters, and stops once the limit is reached. */
    method Replay(q: Query) returns (found: seq<Stored>)
      ensures found == Limited(Selected(events, order, |order|, q), q.limit)
      ensures var all := Selected(events, order, |order|, q);
        && found <= all && (q.limit.None? ==> found == all)
        && (q.limit.Some? ==> |found| == Min(|all|, Max(1, q.limit.value)))
    {
      found := [];
      for i := 0 to |order|
        invariant found == Selected(events, order, i, q)
        invariant q.limit.Some? ==> |found| == 0 || |found| < q.limit.value
      {
        var id := order[i];
        if id in events && Matches(q, events[id]) {
          found := found + [events[id]];
          if q.limit.Some? && |found| >= q.limit.value {
            SelectedPrefix(events, order, i + 1, |order|, q);
            return;
          }
        }
      }
    }
  }
}
