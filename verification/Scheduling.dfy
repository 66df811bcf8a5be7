/**
 * Parking and quarantine of accounts, persisted so that a restart sees the same pool
 * (claude_ai/orchestrator/scheduling.py). Clock readings are parameters.
 */
module Scheduling {
  import opened Wrappers
  import opened KeyValue

  type Account = string
  type Time = real

  const PARKING := "parking"
  const AFFINITY := "affinity"

  datatype ParkState = ParkState(until: Option<Time>, reason: string, quarantined: bool)

  /** What the orchestrator's trackers persist: a pin or a park record. */
  datatype StateValue = Pin(account: Account) | Parking(state: ParkState)

  type Parks = map<Account, ParkState>

  /** A record that keeps its account out of the pool at `now`, as `load` decides. */
  predicate Live(p: ParkState, now: Time) {
    p.quarantined || (p.until.Some? && p.until.value > now)
  }

  predicate AvailableAt(parked: Parks, a: Account, now: Time) {
    a !in parked || (!parked[a].quarantined && parked[a].until.Some? && now >= parked[a].until.value)
  }

  /** `is_available` forgets a park that has run out. */
  function Forget(parked: Parks, a: Account, now: Time): Parks {
    if a in parked && AvailableAt(parked, a, now) then parked - {a} else parked
  }

  function Effective(now: Time, until: Option<Time>, cooldown: Time): Time {
    if until.None? || until.value <= now then now + cooldown else until.value
  }

  /** Memory, and the parking namespace of the store. */
  datatype Tracker = Tracker(parked: Parks, disk: Parks)

  datatype Op =
    | Check(account: Account)
    | Park(account: Account, until: Option<Time>, reason: string)
    | Quarantine(account: Account, reason: string)
    | Release(account: Account)

  function Put(s: Tracker, a: Account, p: ParkState): Tracker {
    Tracker(s.parked[a := p], s.disk[a := p])
  }

  function Step(s: Tracker, op: Op, now: Time, cooldown: Time): Tracker {
    match op
    case Check(a) => s.(parked := Forget(s.parked, a, now))
    case Park(a, until, reason) => Put(s, a, ParkState(Some(Effective(now, until, cooldown)), reason, false))
    case Quarantine(a, reason) => Put(s, a, ParkState(None, reason, true))
    case Release(a) => Tracker(s.parked - {a}, s.disk - {a})
  }

  function LiveOnly(disk: Parks, now: Time): (kept: Parks)
    ensures forall a :: a in kept <==> a in disk && Live(disk[a], now)
    ensures forall a :: a in kept ==> kept[a] == disk[a]
  {
    map a | a in disk && Live(disk[a], now) :: disk[a]
  }

  /** A tracker that loads at `now` what is on disk. */
  function Loaded(disk: Parks, now: Time): Tracker {
    Tracker(LiveOnly(disk, now), LiveOnly(disk, now))
  }

  datatype Event = Event(op: Op, at: Time)

  function Run(s: Tracker, events: seq<Event>, cooldown: Time): Tracker {
    if events == [] then s
    else
      var last := events[|events| - 1];
      Step(Run(s, events[..|events| - 1], cooldown), last.op, last.at, cooldown)
  }

  /** The clock never goes back: start, events in order, end. */
  ghost predicate Ordered(start: Time, events: seq<Event>, end: Time) {
    && (forall i :: 0 <= i < |events| ==> start <= events[i].at <= end)
    && (forall i, j :: 0 <= i < j < |events| ==> events[i].at <= events[j].at)
  }

  // ---- Restart equivalence ----

  /** Memory mirrors the disk, except that disk keeps parks that ran out by `now`. */
  ghost predicate Mirrors(s: Tracker, now: Time) {
    && (forall a :: a in s.parked ==> a in s.disk && s.disk[a] == s.parked[a])
    && (forall a :: a in s.disk && a !in s.parked ==> !Live(s.disk[a], now))
    && (forall a :: a in s.parked ==> s.parked[a].quarantined || s.parked[a].until.Some?)
  }

  lemma StepMirrors(s: Tracker, op: Op, at: Time, cooldown: Time)
    requires Mirrors(s, at)
    ensures Mirrors(Step(s, op, at, cooldown), at)
  {
  }

  lemma {:induction false} RunMirrors(disk: Parks, start: Time, events: seq<Event>, end: Time, cooldown: Time)
    requires Ordered(start, events, end) && start <= end
    ensures Mirrors(Run(Loaded(disk, start), events, cooldown), end)
  {
    if events != [] {
      var n := |events| - 1;
      assert forall i :: 0 <= i < n ==> events[..n][i] == events[i];
      RunMirrors(disk, start, events[..n], events[n].at, cooldown);
      StepMirrors(Run(Loaded(disk, start), events[..n], cooldown), events[n].op, events[n].at, cooldown);
    }
  }

  /**
   * After any run of checks, parks, quarantines and releases, a fresh tracker that loads the disk
   * reports the same availability as the running one, for every account, then and at any later time.
   */
  lemma {:induction false} RestartEquivalence(disk: Parks, start: Time, events: seq<Event>, t: Time, later: Time, cooldown: Time, a: Account)
    requires Ordered(start, events, t) && start <= t <= later
    ensures var s := Run(Loaded(disk, start), events, cooldown);
      AvailableAt(Loaded(s.disk, t).parked, a, later) == AvailableAt(s.parked, a, later)
  {
    RunMirrors(disk, start, events, t, cooldown);
  }

  // ---- Soonest release ----

  predicate Timed(p: ParkState) {
    p.until.Some? && !p.quarantined
  }

  /** `r` is the earliest release time of the parked accounts, or None when nothing is timed. */
  ghost predicate IsSoonest(parked: Parks, r: Option<Time>) {
    && (r.None? <==> forall a :: a in parked ==> !Timed(parked[a]))
    && (r.Some? ==> exists a :: a in parked && Timed(parked[a]) && parked[a].until == r)
    && (r.Some? ==> forall a :: a in parked && Timed(parked[a]) ==> r.value <= parked[a].until.value)
  }

  /** Before the soonest release no unavailable account becomes available by time alone. */
  lemma NothingBeforeSoonest(parked: Parks, r: Option<Time>, a: Account, t: Time, later: Time)
    requires IsSoonest(parked, r) && t <= later && (r.Some? ==> later < r.value)
    requires !AvailableAt(parked, a, t)
    ensures !AvailableAt(parked, a, later)
  {
  }

  /** At that instant one does: some parked account is unavailable at every earlier time and available then. */
  lemma SomeoneAtSoonest(parked: Parks, r: Option<Time>) returns (a: Account)
    requires IsSoonest(parked, r) && r.Some?
    ensures a in parked && AvailableAt(parked, a, r.value)
    ensures forall t :: t < r.value ==> !AvailableAt(parked, a, t)
  {
    a :| a in parked && Timed(parked[a]) && parked[a].until == r;
  }

  // ---- What ends a quarantine ----

  /** The last event that sets or clears the record of `a`; a check is not one. */
  function LastChange(events: seq<Event>, a: Account): Option<Event> {
    if events == [] then None
    else
      var last := events[|events| - 1];
      if !last.op.Check? && last.op.account == a then Some(last) else LastChange(events[..|events| - 1], a)
  }

  ghost predicate Forever(parked: Parks, a: Account) {
    forall t: Time :: !AvailableAt(parked, a, t)
  }

  /** The record `load` keeps of `a`. */
  function Kept(disk: Parks, a: Account, start: Time): Option<ParkState> {
    if a in disk && Live(disk[a], start) then Some(disk[a]) else None
  }

  /** The record the last change made to `a` left it, or the one it was loaded with. */
  function Owed(disk: Parks, start: Time, events: seq<Event>, cooldown: Time, a: Account): Option<ParkState> {
    var last := LastChange(events, a);
    if last.None? then Kept(disk, a, start)
    else
      match last.value.op
      case Park(_, until, reason) => Some(ParkState(Some(Effective(last.value.at, until, cooldown)), reason, false))
      case Quarantine(_, reason) => Some(ParkState(None, reason, true))
      case Release(_) => None
      case Check(_) => None
  }

  /** The tracker keeps that record, or has forgotten it because it ran out by `end`. */
  ghost predicate Owes(s: Tracker, owed: Option<ParkState>, end: Time, a: Account) {
    && (a in s.parked ==> owed == Some(s.parked[a]))
    && (a !in s.parked ==> owed.None? || !Live(owed.value, end))
    && (owed.Some? ==> owed.value.quarantined || owed.value.until.Some?)
  }

  /** What one event leaves owed. */
  function OwedAfter(owed: Option<ParkState>, e: Event, cooldown: Time, a: Account): Option<ParkState> {
    if e.op.Check? || e.op.account != a then owed
    else
      match e.op
      case Park(_, until, reason) => Some(ParkState(Some(Effective(e.at, until, cooldown)), reason, false))
      case Quarantine(_, reason) => Some(ParkState(None, reason, true))
      case _ => None
  }

  lemma StepOwes(s: Tracker, owed: Option<ParkState>, e: Event, end: Time, cooldown: Time, a: Account)
    requires Owes(s, owed, e.at, a) && e.at <= end
    ensures Owes(Step(s, e.op, e.at, cooldown), OwedAfter(owed, e, cooldown, a), end, a)
  {
  }

  lemma {:induction false} RunOwes(disk: Parks, start: Time, events: seq<Event>, end: Time, cooldown: Time, a: Account)
    requires Ordered(start, events, end) && start <= end
    ensures Owes(Run(Loaded(disk, start), events, cooldown), Owed(disk, start, events, cooldown, a), end, a)
  {
    if events != [] {
      var n := |events| - 1;
      assert forall i :: 0 <= i < n ==> events[..n][i] == events[i];
      RunOwes(disk, start, events[..n], events[n].at, cooldown, a);
      StepOwes(Run(Loaded(disk, start), events[..n], cooldown), Owed(disk, start, events[..n], cooldown, a), events[n], end, cooldown, a);
    }
  }

  /** Out at `t` because of this record. */
  predicate Blocks(p: Option<ParkState>, t: Time) {
    p.Some? && (p.value.quarantined || p.value.until.None? || t < p.value.until.value)
  }

  /**
   * The code's rule, for a tracker that loaded any disk. From the end of the run on, an account is
   * out exactly while the record of its last change says so, or, unchanged, the one it was loaded
   * with; and it is out for good exactly when that is a quarantine. So a later park replaces a
   * quarantine with its own release time, and a release ends one.
   */
  lemma QuarantineRule(disk: Parks, start: Time, events: seq<Event>, end: Time, cooldown: Time, a: Account)
    requires Ordered(start, events, end) && start <= end
    ensures var s, last := Run(Loaded(disk, start), events, cooldown), LastChange(events, a);
      && (forall t :: t >= end ==> (AvailableAt(s.parked, a, t) <==> !Blocks(Owed(disk, start, events, cooldown, a), t)))
      && (Forever(s.parked, a) <==>
            (last.Some? && last.value.op.Quarantine?) || (last.None? && a in disk && disk[a].quarantined))
  {
    var s := Run(Loaded(disk, start), events, cooldown);
    RunOwes(disk, start, events, end, cooldown, a);
    ChangeIsNoCheck(events, a);
    if a !in s.parked {
      assert AvailableAt(s.parked, a, end);
    } else if !s.parked[a].quarantined {
      assert AvailableAt(s.parked, a, s.parked[a].until.value);
    }
  }

  lemma {:induction false} ChangeIsNoCheck(events: seq<Event>, a: Account)
    ensures LastChange(events, a).Some? ==> !LastChange(events, a).value.op.Check?
  {
    if events != [] {
      ChangeIsNoCheck(events[..|events| - 1], a);
    }
  }

  /** Event `i` is the last one that changes the record of `a`. */
  ghost predicate LastToChange(events: seq<Event>, a: Account, i: nat) {
    && i < |events| && events[i].op.account == a && !events[i].op.Check?
    && forall j :: i < j < |events| ==> events[j].op.Check? || events[j].op.account != a
  }

  lemma {:induction false} LastChangeAt(events: seq<Event>, a: Account, i: nat)
    requires LastToChange(events, a, i)
    ensures LastChange(events, a) == Some(events[i])
  {
    if i < |events| - 1 {
      LastChangeAt(events[..|events| - 1], a, i);
    }
  }

  lemma {:induction false} NeverChanged(events: seq<Event>, a: Account)
    requires forall j :: 0 <= j < |events| ==> events[j].op.Check? || events[j].op.account != a
    ensures LastChange(events, a) == None
  {
    if events != [] {
      NeverChanged(events[..|events| - 1], a);
    }
  }

  /** From `from` on the account is out exactly before `release`. */
  ghost predicate OutBefore(parked: Parks, a: Account, release: Time, from: Time) {
    forall t :: t >= from ==> (AvailableAt(parked, a, t) <==> t >= release)
  }

  /**
   * What the last change of an account means for it, whatever came before and whatever happens to
   * other accounts: a park with a time still ahead holds until that time, a park without one for the
   * cooldown, a quarantine for ever, and a release frees it.
   */
  lemma LastChangeDecides(disk: Parks, start: Time, events: seq<Event>, end: Time, cooldown: Time, a: Account, i: nat)
    requires Ordered(start, events, end) && start <= end && LastToChange(events, a, i)
    ensures var parked, op, at := Run(Loaded(disk, start), events, cooldown).parked, events[i].op, events[i].at;
      && (op.Park? && op.until.Some? && op.until.value > at ==> OutBefore(parked, a, op.until.value, end))
      && (op.Park? && (op.until.None? || op.until.value <= at) ==> OutBefore(parked, a, at + cooldown, end))
      && (op.Quarantine? ==> forall t :: !AvailableAt(parked, a, t))
      && (op.Release? ==> forall t :: t >= end ==> AvailableAt(parked, a, t))
  {
    LastChangeAt(events, a, i);
    QuarantineRule(disk, start, events, end, cooldown, a);
  }

  /** An account no event changes stays out as the loaded store says: for ever, or until its own time. */
  lemma UnchangedStaysOut(disk: Parks, start: Time, events: seq<Event>, end: Time, cooldown: Time, a: Account)
    requires Ordered(start, events, end) && start <= end
    requires forall j :: 0 <= j < |events| ==> events[j].op.Check? || events[j].op.account != a
    ensures var parked := Run(Loaded(disk, start), events, cooldown).parked;
      && (a !in disk ==> forall t :: t >= end ==> AvailableAt(parked, a, t))
      && (a in disk && disk[a].quarantined ==> forall t :: !AvailableAt(parked, a, t))
      && (a in disk && !disk[a].quarantined && disk[a].until.Some? ==> OutBefore(parked, a, disk[a].until.value, end))
  {
    NeverChanged(events, a);
    QuarantineRule(disk, start, events, end, cooldown, a);
  }

  /** The module comment of the source promises that a quarantine ends only by release; a park ends it too. */
  lemma ParkEndsQuarantine()
    ensures var events := [Event(Quarantine("acc", "401"), 0.0), Event(Park("acc", None, "429"), 1.0)];
      && Ordered(0.0, events, 1.0)
      && !AvailableAt(Run(Loaded(map[], 0.0), events, 300.0).parked, "acc", 300.0)
      && AvailableAt(Run(Loaded(map[], 0.0), events, 300.0).parked, "acc", 301.0)
  {
    var events := [Event(Quarantine("acc", "401"), 0.0), Event(Park("acc", None, "429"), 1.0)];
    assert LastChange(events, "acc") == Some(events[1]);
    QuarantineRule(map[], 0.0, events, 1.0, 300.0, "acc");
    assert Effective(1.0, None, 300.0) == 301.0;
  }

  // ---- The tracker object ----

  /** The parking namespace as park records. */
  ghost function DiskParks(data: Data<StateValue>): Parks {
    map a | a in Items(data, PARKING) && Items(data, PARKING)[a].Parking? :: Items(data, PARKING)[a].state
  }

  ghost predicate OnlyParks(data: Data<StateValue>) {
    forall a :: a in Items(data, PARKING) ==> Items(data, PARKING)[a].Parking?
  }

  /** The account an event names, or "default". */
  function Who(account: Option<Account>): Account {
    if account.Some? && account.value != "" then account.value else "default"
  }

  /** A dead session, as reported on the event bus. */
  datatype AccountExpired = AccountExpired(account: Option<Account>, reason: string) {
    function Why(): string {
      if reason != "" then reason else "session expired"
    }
  }

  class AvailabilityTracker {
    const store: MemoryStorage<StateValue>
    const threshold: real
    const cooldown: Time
    var parked: Parks

    ghost function View(): Tracker
      reads this, store
    {
      Tracker(parked, DiskParks(store.data))
    }

    ghost predicate Valid()
      reads store
    {
      OnlyParks(store.data)
    }

    constructor (store: MemoryStorage<StateValue>, threshold: real, cooldown: Time)
      ensures this.store == store && this.threshold == threshold && this.cooldown == cooldown && parked == map[]
    {
      this.store, this.threshold, this.cooldown := store, threshold, cooldown;
      parked := map[];
    }

    /** `load`: keep the live records, delete the others from the store. */
    method Load(now: Time)
      requires Valid() && parked == map[]
      modifies this`parked, store
      ensures Valid() && View() == Loaded(DiskParks(old(store.data)), now)
      ensures forall ns :: ns != PARKING ==> Items(store.data, ns) == Items(old(store.data), ns)
    {
      var raw := Items(store.data, PARKING);
      ghost var disk := DiskParks(store.data);
      var todo := raw.Keys;
      while todo != {}
        invariant todo <= raw.Keys
        invariant Valid()
        invariant forall a :: a in parked <==> a in raw && a !in todo && Live(disk[a], now)
        invariant forall a :: a in parked ==> parked[a] == disk[a]
        invariant forall a :: a in Items(store.data, PARKING) <==> a in raw && (a in todo || Live(disk[a], now))
        invariant forall a :: a in Items(store.data, PARKING) ==> Items(store.data, PARKING)[a] == raw[a]
        invariant forall ns :: ns != PARKING ==> Items(store.data, ns) == Items(old(store.data), ns)
        decreases todo
      {
        var a :| a in todo;
        todo := todo - {a};
        if Live(raw[a].state, now) {
          parked := parked[a := raw[a].state];
        } else {
          store.Delete(PARKING, a);
        }
      }
      assert parked == LiveOnly(disk, now);
      assert DiskParks(store.data) == LiveOnly(disk, now);
    }

    /** `is_available`: answers, and forgets a park that has run out. */
    method IsAvailable(a: Account, now: Time) returns (available: bool)
      modifies this`parked
      ensures available == AvailableAt(old(parked), a, now)
      ensures View() == Step(old(View()), Check(a), now, cooldown)
    {
      if a !in parked {
        return true;
      }
      var state := parked[a];
      if state.quarantined || state.until.None? {
        return false;
      }
      if now >= state.until.value {
        parked := parked - {a};
        return true;
      }
      return false;
    }

    method SetState(a: Account, p: ParkState)
      requires Valid()
      modifies this`parked, store
      ensures Valid() && View() == Put(old(View()), a, p)
      ensures forall ns :: ns != PARKING ==> Items(store.data, ns) == Items(old(store.data), ns)
    {
      parked := parked[a := p];
      store.Set(PARKING, a, Parking(p));
      assert DiskParks(store.data) == old(DiskParks(store.data))[a := p];
    }

    method ParkAccount(a: Account, until: Option<Time>, reason: string, now: Time)
      requires Valid()
      modifies this`parked, store
      ensures Valid() && View() == Step(old(View()), Park(a, until, reason), now, cooldown)
      ensures until.Some? && until.value > now ==> OutBefore(parked, a, until.value, now)
      ensures until.None? || until.value <= now ==> OutBefore(parked, a, now + cooldown, now)
      ensures forall ns :: ns != PARKING ==> Items(store.data, ns) == Items(old(store.data), ns)
    {
      var release := until;
      if until.None? || until.value <= now {
        release := Some(now + cooldown);
      }
      SetState(a, ParkState(release, reason, false));
    }

    method QuarantineAccount(a: Account, reason: string, now: Time)
      requires Valid()
      modifies this`parked, store
      ensures Valid() && View() == Step(old(View()), Quarantine(a, reason), now, cooldown)
      ensures forall ns :: ns != PARKING ==> Items(store.data, ns) == Items(old(store.data), ns)
    {
      SetState(a, ParkState(None, reason, true));
    }

    method ReleaseAccount(a: Account, now: Time)
      requires Valid()
      modifies this`parked, store
      ensures Valid() && View() == Step(old(View()), Release(a), now, cooldown)
      ensures forall ns :: ns != PARKING ==> Items(store.data, ns) == Items(old(store.data), ns)
    {
      parked := parked - {a};
      store.Delete(PARKING, a);
      assert DiskParks(store.data) == old(DiskParks(store.data)) - {a};
    }

    method SoonestRelease() returns (r: Option<Time>)
      ensures IsSoonest(parked, r)
    {
      r := None;
      var todo := parked.Keys;
      while todo != {}
        invariant todo <= parked.Keys
        invariant r.None? ==> forall a :: a in parked && a !in todo ==> !Timed(parked[a])
        invariant r.Some? ==> exists a :: a in parked && a !in todo && Timed(parked[a]) && parked[a].until == r
        invariant r.Some? ==> forall a :: a in parked && a !in todo && Timed(parked[a]) ==> r.value <= parked[a].until.value
        decreases todo
      {
        var a :| a in todo;
        todo := todo - {a};
        if Timed(parked[a]) && (r.None? || parked[a].until.value < r.value) {
          r := parked[a].until;
        }
      }
    }

    /** `on_expired`: the account named by the event, or "default", is quarantined. */
    method OnExpired(event: AccountExpired, now: Time)
      requires Valid()
      modifies this`parked, store
      ensures Valid() && View() == Step(old(View()), Quarantine(Who(event.account), event.Why()), now, cooldown)
      ensures Forever(parked, Who(event.account))
      ensures forall ns :: ns != PARKING ==> Items(store.data, ns) == Items(old(store.data), ns)
    {
      QuarantineAccount(Who(event.account), event.Why(), now);
    }

    /** `on_limit`: the five-hour window is tested first, then the weekly one. */
    method OnLimit(event: LimitUpdated, now: Time)
      requires Valid()
      modifies this`parked, store
      ensures Valid()
      ensures event.h5.utilization >= threshold ==>
        View() == Step(old(View()), Park(Who(event.account), CoerceEpoch(event.h5.resetsAt), "5h window exhausted"), now, cooldown)
      ensures event.h5.utilization < threshold <= event.d7.utilization ==>
        View() == Step(old(View()), Park(Who(event.account), CoerceEpoch(event.d7.resetsAt), "7d window exhausted"), now, cooldown)
      ensures event.h5.utilization < threshold && event.d7.utilization < threshold ==> View() == old(View())
      ensures event.h5.utilization >= threshold ==> LimitHolds(parked, event.account, event.h5.resetsAt, now, cooldown)
      ensures event.h5.utilization < threshold <= event.d7.utilization ==>
        LimitHolds(parked, event.account, event.d7.resetsAt, now, cooldown)
      ensures forall a :: event.account != Some(a) && a != "default" ==>
        (a in parked <==> a in old(parked)) && (a in parked ==> parked[a] == old(parked)[a])
    {
      if event.h5.utilization >= threshold {
        ParkAccount(Who(event.account), CoerceEpoch(event.h5.resetsAt), "5h window exhausted", now);
      } else if event.d7.utilization >= threshold {
        ParkAccount(Who(event.account), CoerceEpoch(event.d7.resetsAt), "7d window exhausted", now);
      }
    }
  }

  /** New limits of an account, as reported on the event bus; a missing window has utilization 0. */
  datatype LimitUpdated = LimitUpdated(account: Option<Account>, h5: Window, d7: Window)

  datatype Window = Window(utilization: real, resetsAt: Option<real>)

  /**
   * An exhausted window holds its account, or "default", until the reset time, given in seconds or,
   * beyond 10^12, in milliseconds; for the cooldown if that time is missing or past.
   */
  ghost predicate LimitHolds(parked: Parks, account: Option<Account>, resetsAt: Option<real>, now: Time, cooldown: Time) {
    var a := if account == None || account == Some("") then "default" else account.value;
    match resetsAt
    case None => OutBefore(parked, a, now + cooldown, now)
    case Some(v) =>
      && (v <= 1000000000000.0 && v > now ==> OutBefore(parked, a, v, now))
      && (v <= 1000000000000.0 && v <= now ==> OutBefore(parked, a, now + cooldown, now))
      && (v > 1000000000000.0 && v > 1000.0 * now ==> OutBefore(parked, a, v / 1000.0, now))
      && (v > 1000000000000.0 && v <= 1000.0 * now ==> OutBefore(parked, a, now + cooldown, now))
  }

  /** Values beyond 10^12 are taken as milliseconds. */
  function CoerceEpoch(value: Option<real>): Option<Time> {
    if value.None? then None
    else if value.value > 1000000000000.0 then Some(value.value / 1000.0)
    else value
  }
}
