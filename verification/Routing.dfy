/**
 * Choosing an account for a request (claude_ai/orchestrator/orchestrator.py and
 * claude_ai/orchestrator/selector.py).
 */
module Routing {
  import opened Wrappers
  import opened KeyValue
  import opened Scheduling
  import opened Affinity
  import Cyclic

  datatype PickError = NoClients | NoAvailableAccounts(soonest: Option<Time>)

  const FREE := 0

  // ---- Selectors: each answers with a member of its candidates ----

  type Score = Account -> real

  /** The min-based selectors: the first candidate with the least score. */
  method LeastScore(candidates: seq<Account>, score: Score) returns (i: nat)
    requires candidates != []
    ensures i < |candidates|
    ensures forall j :: 0 <= j < |candidates| ==> score(candidates[i]) <= score(candidates[j])
    ensures forall j :: 0 <= j < i ==> score(candidates[i]) < score(candidates[j])
  {
    i := 0;
    for j := 1 to |candidates|
      invariant i < j
      invariant forall k :: 0 <= k < j ==> score(candidates[i]) <= score(candidates[k])
      invariant forall k :: 0 <= k < i ==> score(candidates[i]) < score(candidates[k])
    {
      if score(candidates[j]) < score(candidates[i]) {
        i := j;
      }
    }
  }

  class RoundRobinSelector {
    var counter: nat

    constructor ()
      ensures counter == 0
    {
      counter := 0;
    }

    method Next(candidates: seq<Account>) returns (i: nat)
      requires candidates != []
      modifies this
      ensures i < |candidates| && i == Cyclic.Remainder(old(counter), |candidates|)
      ensures counter == old(counter) + 1
    {
      Cyclic.RemainderIsMod(counter, |candidates|);
      i := counter % |candidates|;
      counter := counter + 1;
    }
  }

  /** As many calls of `Next` as there are candidates choose each of them, and none twice, whatever the counter was. */
  lemma EachChosenOnce(counter: nat, chosen: seq<nat>)
    requires forall j :: 0 <= j < |chosen| ==> chosen[j] == Cyclic.Remainder(counter + j, |chosen|)
    ensures Distinct(chosen) && forall i: nat :: i < |chosen| <==> i in chosen
  {
    forall i: nat | i < |chosen| ensures i in chosen {
      var turn := Cyclic.TurnComes(counter, i, |chosen|);
      assert chosen[turn - counter] == i;
    }
    forall j, k | 0 <= j < k < |chosen| ensures chosen[j] != chosen[k] {
      if chosen[j] == chosen[k] {
        Cyclic.RemainderOnce(counter + j, counter + k, |chosen|);
      }
    }
  }

  // ---- The pool as a value ----

  type Tiers = map<Account, int>

  datatype Pool = Pool(accounts: seq<Account>, tiers: Tiers, pins: Pins, parked: Parks)

  datatype Request = Request(key: Option<string>, minTier: Option<int>, exclude: set<Account>)

  predicate TierOk(tiers: Tiers, a: Account, minTier: Option<int>) {
    minTier.None? || (if a in tiers then tiers[a] else FREE) >= minTier.value
  }

  /** Not excluded, available now, and of a sufficient tier. */
  predicate Eligible(p: Pool, q: Request, now: Time, a: Account) {
    a !in q.exclude && AvailableAt(p.parked, a, now) && TierOk(p.tiers, a, q.minTier)
  }

  predicate Qualifies(p: Pool, q: Request, now: Time, a: Account) {
    a in p.accounts && Eligible(p, q, now, a)
  }

  function Candidates(p: Pool, accounts: seq<Account>, q: Request, now: Time): (r: seq<Account>)
    ensures forall a :: a in r <==> a in accounts && Eligible(p, q, now, a)
  {
    if accounts == [] then []
    else
      var rest := Candidates(p, accounts[..|accounts| - 1], q, now);
      var last := accounts[|accounts| - 1];
      assert accounts == accounts[..|accounts| - 1] + [last];
      if Eligible(p, q, now, last) then rest + [last] else rest
  }

  /** Parks that ran out may be forgotten, and nothing else; no answer changes at `now` or later. */
  ghost predicate OnlyForgets(before: Parks, after: Parks, now: Time) {
    && (forall a :: a in after ==> a in before && after[a] == before[a])
    && (forall a :: a in before && a !in after ==> AvailableAt(before, a, now))
  }

  lemma ForgettingIsInvisible(before: Parks, after: Parks, now: Time, a: Account, later: Time)
    requires OnlyForgets(before, after, now) && now <= later
    ensures AvailableAt(after, a, later) == AvailableAt(before, a, later)
  {
  }

  lemma ForgetTwice(first: Parks, second: Parks, third: Parks, now: Time)
    requires OnlyForgets(first, second, now) && OnlyForgets(second, third, now)
    ensures OnlyForgets(first, third, now)
  {
  }

  /** A selector answers with an index into the candidates it is given. */
  ghost predicate Selects(select: seq<Account> -> nat) {
    forall c :: c != [] ==> select(c) < |c|
  }

  predicate IsChoice(candidates: seq<Account>, select: seq<Account> -> nat, a: Account) {
    candidates != [] && select(candidates) < |candidates| && candidates[select(candidates)] == a
  }

  /** What `pick` promises, as a relation between the pool before and after. */
  ghost predicate Picks(p: Pool, q: Request, now: Time, r: Result<Account, PickError>, after: Pool) {
    && after.accounts == p.accounts && after.tiers == p.tiers
    && OnlyForgets(p.parked, after.parked, now)
    && (r.Ok? ==> Qualifies(p, q, now, r.value))
    && (r == Err(NoClients) <==> p.accounts == [])
    && (r.Err? && r.error.NoAvailableAccounts? <==> p.accounts != [] && forall a :: !Qualifies(p, q, now, a))
    && (r.Err? && r.error.NoAvailableAccounts? ==> IsSoonest(after.parked, r.error.soonest))
    && (Sticks(p, q, now) ==> r == Ok(p.pins[q.key.value]))
    && after.pins == (if r.Ok? && q.key.Some? then p.pins[q.key.value := r.value] else p.pins)
  }

  /** The request's key is pinned to an account that still qualifies. */
  predicate Sticks(p: Pool, q: Request, now: Time) {
    q.key.Some? && q.key.value in p.pins && Qualifies(p, q, now, p.pins[q.key.value])
  }

  /** Its park record keeps the account out at `now`. */
  predicate Held(parked: Parks, a: Account, now: Time) {
    a in parked && (parked[a].quarantined || parked[a].until.None? || parked[a].until.value > now)
  }

  /** In plain terms: in the pool, not excluded, not held, and of the tier asked for or above. */
  predicate Fit(p: Pool, q: Request, now: Time, a: Account) {
    && a in p.accounts && a !in q.exclude && !Held(p.parked, a, now)
    && (q.minTier.Some? ==> (if a in p.tiers then p.tiers[a] else 0) >= q.minTier.value)
  }

  lemma FitExactly(p: Pool, q: Request, now: Time)
    ensures forall a :: Qualifies(p, q, now, a) <==> Fit(p, q, now, a)
  {
  }

  /** The answer is fit, a fit pinned account is the answer, and nobody is handed out exactly when nobody is fit. */
  ghost predicate Respects(p: Pool, q: Request, now: Time, r: Result<Account, PickError>) {
    && (r == Err(NoClients) <==> p.accounts == [])
    && (r.Ok? ==> r.value in p.accounts && r.value !in q.exclude)
    && (r.Ok? && r.value in p.parked ==>
          !p.parked[r.value].quarantined && p.parked[r.value].until.Some? && p.parked[r.value].until.value <= now)
    && (r.Ok? && q.minTier.Some? ==> (if r.value in p.tiers then p.tiers[r.value] else 0) >= q.minTier.value)
    && (r.Err? && r.error.NoAvailableAccounts? <==> p.accounts != [] && forall a :: !Fit(p, q, now, a))
    && (q.key.Some? && q.key.value in p.pins && Fit(p, q, now, p.pins[q.key.value]) ==> r == Ok(p.pins[q.key.value]))
  }

  lemma PicksRespects(p: Pool, q: Request, now: Time, r: Result<Account, PickError>, after: Pool)
    requires Picks(p, q, now, r, after)
    ensures Respects(p, q, now, r)
  {
    FitExactly(p, q, now);
  }

  /** The accounts that qualify are offered to the selector in registration order, none twice. */
  lemma {:induction false} CandidatesInOrder(p: Pool, accounts: seq<Account>, q: Request, now: Time, i: nat, j: nat)
    requires Distinct(accounts) && i < j < |Candidates(p, accounts, q, now)|
    ensures exists k, m ::
      0 <= k < m < |accounts| && accounts[k] == Candidates(p, accounts, q, now)[i] && accounts[m] == Candidates(p, accounts, q, now)[j]
  {
    var n := |accounts| - 1;
    var rest := Candidates(p, accounts[..n], q, now);
    if j < |rest| {
      CandidatesInOrder(p, accounts[..n], q, now, i, j);
      var k, m :| 0 <= k < m < n && accounts[..n][k] == rest[i] && accounts[..n][m] == rest[j];
      assert accounts[k] == rest[i] && accounts[m] == rest[j];
    } else {
      assert rest[i] in rest;
      var k :| 0 <= k < n && accounts[..n][k] == rest[i];
      assert accounts[k] == rest[i];
    }
  }

  lemma {:induction false} SameCandidates(p: Pool, m: Pool, accounts: seq<Account>, q: Request, now: Time)
    requires forall a :: Eligible(m, q, now, a) == Eligible(p, q, now, a)
    ensures Candidates(m, accounts, q, now) == Candidates(p, accounts, q, now)
  {
    if accounts != [] {
      SameCandidates(p, m, accounts[..|accounts| - 1], q, now);
    }
  }

  lemma PicksPinned(p: Pool, q: Request, now: Time, after: Pool)
    requires Sticks(p, q, now) && after == p.(parked := after.parked) && OnlyForgets(p.parked, after.parked, now)
    ensures Picks(p, q, now, Ok(p.pins[q.key.value]), after)
  {
    assert Qualifies(p, q, now, p.pins[q.key.value]);
    assert p.pins == p.pins[q.key.value := p.pins[q.key.value]];
  }

  lemma PicksNobody(p: Pool, q: Request, now: Time, soonest: Option<Time>, after: Pool)
    requires p.accounts != [] && forall a :: !Qualifies(p, q, now, a)
    requires after == p.(parked := after.parked) && OnlyForgets(p.parked, after.parked, now)
    requires IsSoonest(after.parked, soonest)
    ensures Picks(p, q, now, Err(NoAvailableAccounts(soonest)), after)
  {
  }

  lemma PicksChosen(p: Pool, q: Request, now: Time, a: Account, after: Pool)
    requires !Sticks(p, q, now) && Qualifies(p, q, now, a)
    requires after == p.(parked := after.parked, pins := if q.key.Some? then p.pins[q.key.value := a] else p.pins)
    requires OnlyForgets(p.parked, after.parked, now)
    ensures Picks(p, q, now, Ok(a), after)
  {
  }

  function WithAccount(p: Pool, a: Account, tier: int): Pool {
    p.(accounts := if a in p.accounts then p.accounts else p.accounts + [a], tiers := p.tiers[a := tier])
  }

  function Others(accounts: seq<Account>, a: Account): (r: seq<Account>)
    ensures forall b :: b in r <==> b != a && b in accounts
  {
    if accounts == [] then []
    else
      var rest := Others(accounts[..|accounts| - 1], a);
      var last := accounts[|accounts| - 1];
      assert accounts == accounts[..|accounts| - 1] + [last];
      if last == a then rest else rest + [last]
  }

  function WithoutAccount(p: Pool, a: Account): Pool {
    Pool(Others(p.accounts, a), p.tiers - {a}, Without(p.pins, a), p.parked - {a})
  }

  // ---- Runs of the pool ----

  datatype PoolEvent =
    | Added(a: Account, tier: int)
    | Removed(a: Account)
    | Picked(q: Request, r: Result<Account, PickError>)
    | Pinned(key: string, a: Account)   // outside pick: a new conversation is pinned to its account
    | Unpinned(key: string)
    | ParksChanged                      // park, quarantine, release or the passing of time

  ghost predicate PoolStep(p: Pool, e: PoolEvent, now: Time, after: Pool) {
    match e
    case Added(a, tier) => after == WithAccount(p, a, tier)
    case Removed(a) => after == WithoutAccount(p, a)
    case Picked(q, r) => Picks(p, q, now, r, after)
    case Pinned(key, a) => after == p.(pins := p.pins[key := a])
    case Unpinned(key) => after == p.(pins := p.pins - {key})
    case ParksChanged => after == p.(parked := after.parked)
  }

  ghost predicate IsPoolRun(pools: seq<Pool>, events: seq<PoolEvent>, times: seq<Time>) {
    && |pools| == |events| + 1 && |times| == |events|
    && forall i :: 0 <= i < |events| ==> PoolStep(pools[i], events[i], times[i], pools[i + 1])
  }

  /** Every request for `key` finds `a` qualified, `a` never leaves the pool, and nobody re-pins the key. */
  ghost predicate KeepsQualifying(pools: seq<Pool>, events: seq<PoolEvent>, times: seq<Time>, key: string, a: Account)
    requires IsPoolRun(pools, events, times)
  {
    forall i :: 0 <= i < |events| ==>
      && (events[i].Picked? && events[i].q.key == Some(key) ==> Qualifies(pools[i], events[i].q, times[i], a))
      && events[i] != Removed(a) && events[i] != Unpinned(key)
      && (events[i].Pinned? && events[i].key == key ==> events[i].a == a)
  }

  /** A key stays on its pinned account for as long as that account qualifies, whatever else happens. */
  lemma {:induction false} StaysPinned(
      pools: seq<Pool>, events: seq<PoolEvent>, times: seq<Time>, n: nat, key: string, a: Account)
    requires IsPoolRun(pools, events, times) && n <= |events|
    requires key in pools[0].pins && pools[0].pins[key] == a
    requires KeepsQualifying(pools, events, times, key, a)
    ensures key in pools[n].pins && pools[n].pins[key] == a
    ensures n < |events| && events[n].Picked? && events[n].q.key == Some(key) ==> events[n].r == Ok(a)
  {
    if n > 0 {
      StaysPinned(pools, events, times, n - 1, key, a);
      assert PoolStep(pools[n - 1], events[n - 1], times[n - 1], pools[n]);
    }
    assert n < |events| ==> PoolStep(pools[n], events[n], times[n], pools[n + 1]);
  }

  // ---- The orchestrator object ----

  class ClaudeOrchestrator {
    const affinity: AffinityTracker
    const availability: AvailabilityTracker
    var accounts: seq<Account>      // keys of _clients in insertion order
    var tiers: Tiers
    var published: seq<AccountExpired>   // reports not yet delivered by the bus

    /** Both trackers share one store, and the pin map equals its persisted copy. */
    ghost predicate Valid()
      reads this, affinity, affinity.store, availability
    {
      && affinity.store == availability.store
      && affinity.Valid() && availability.Valid()
      && Distinct(accounts)
    }

    ghost function View(): Pool
      reads this, affinity, availability
    {
      Pool(accounts, tiers, affinity.pins, availability.parked)
    }

    /** Built and started: both trackers reload their namespaces. */
    constructor (store: MemoryStorage<StateValue>, threshold: real, now: Time)
      requires OnlyPins(store.data) && OnlyParks(store.data)
      modifies store
      ensures Valid() && affinity.store == store && fresh(affinity) && fresh(availability)
      ensures View() == Pool([], map[], DiskPins(old(store.data)), LiveOnly(DiskParks(old(store.data)), now))
    {
      var pins := new AffinityTracker(store);
      var parks := new AvailabilityTracker(store, threshold, 300.0);
      parks.Load(now);
      affinity, availability := pins, parks;
      accounts, tiers, published := [], map[], [];
    }

    method Add(a: Account, tier: int)
      requires Valid()
      modifies this
      ensures Valid()
      ensures View() == WithAccount(old(View()), a, tier)
    {
      if a !in accounts {
        accounts := accounts + [a];
      }
      tiers := tiers[a := tier];
    }

    /** The account leaves the pool, with every pin to it and its park record. */
    method Remove(a: Account, now: Time)
      requires Valid()
      modifies this, affinity, availability, affinity.store
      ensures Valid()
      ensures View() == WithoutAccount(old(View()), a)
    {
      var kept := [];
      for i := 0 to |accounts|
        invariant kept == Others(accounts[..i], a)
        invariant Distinct(kept)
      {
        assert accounts[..i + 1][..i] == accounts[..i];
        assert accounts[i] !in accounts[..i];
        if accounts[i] != a {
          kept := kept + [accounts[i]];
        }
      }
      assert accounts[..|accounts|] == accounts;
      accounts, tiers := kept, tiers - {a};
      affinity.DropAccount(a);
      availability.ReleaseAccount(a, now);
    }

    /** `report_expired` only publishes: the pool changes when the bus delivers the event. */
    method ReportExpired(a: Account, reason: string)
      requires Valid()
      modifies this`published
      ensures Valid() && View() == old(View())
      ensures published == old(published) + [AccountExpired(Some(a), reason)]
    {
      published := published + [AccountExpired(Some(a), reason)];
    }

    /** The bus hands the oldest report to the availability tracker: a quarantine, and no pin is touched. */
    method DeliverExpired(now: Time)
      requires Valid() && published != []
      modifies this`published, availability, affinity.store
      ensures Valid() && published == old(published)[1..]
      ensures var event := old(published)[0];
        && View() == old(View()).(parked := old(availability.parked)[Who(event.account) := ParkState(None, event.Why(), true)])
        && forall q, t :: !Qualifies(View(), q, t, Who(event.account))
    {
      var event := published[0];
      published := published[1..];
      availability.OnExpired(event, now);
    }

    /** The registered accounts that pass every filter, in registration order. */
    method Filter(q: Request, now: Time) returns (candidates: seq<Account>)
      requires Valid()
      modifies availability`parked
      ensures Valid()
      ensures candidates == Candidates(old(View()), accounts, q, now)
      ensures OnlyForgets(old(availability.parked), availability.parked, now)
    {
      candidates := [];
      for i := 0 to |accounts|
        invariant Valid()
        invariant OnlyForgets(old(availability.parked), availability.parked, now)
        invariant candidates == Candidates(old(View()), accounts[..i], q, now)
      {
        assert accounts[..i + 1][..i] == accounts[..i];
        var a := accounts[i];
        if a !in q.exclude {
          ForgettingIsInvisible(old(availability.parked), availability.parked, now, a, now);
          var available := availability.IsAvailable(a, now);
          if available && TierOk(tiers, a, q.minTier) {
            candidates := candidates + [a];
          }
        }
      }
      assert accounts[..|accounts|] == accounts;
    }

    /** The pinned account, while it qualifies. */
    method Pinned(q: Request, now: Time) returns (r: Option<Account>)
      requires Valid()
      modifies availability`parked
      ensures Valid()
      ensures r.Some? <==> Sticks(old(View()), q, now)
      ensures r.Some? ==> r.value == affinity.pins[q.key.value]
      ensures OnlyForgets(old(availability.parked), availability.parked, now)
    {
      if q.key.Some? && q.key.value in affinity.pins {
        var pinned := affinity.pins[q.key.value];
        if pinned !in q.exclude && pinned in accounts {
          var available := availability.IsAvailable(pinned, now);
          if available && TierOk(tiers, pinned, q.minTier) {
            return Some(pinned);
          }
        }
      }
      return None;
    }

    /** The selector's choice among the accounts that qualify, if any does. */
    method Choose(q: Request, now: Time, select: seq<Account> -> nat) returns (r: Option<Account>, soonest: Option<Time>)
      requires Valid() && Selects(select)
      modifies availability`parked
      ensures Valid()
      ensures r.Some? ==> Qualifies(old(View()), q, now, r.value)
      ensures r.Some? ==> IsChoice(Candidates(old(View()), accounts, q, now), select, r.value)
      ensures r.None? ==> forall a :: !Qualifies(old(View()), q, now, a)
      ensures r.None? ==> IsSoonest(availability.parked, soonest)
      ensures OnlyForgets(old(availability.parked), availability.parked, now)
    {
      var candidates := Filter(q, now);
      if candidates == [] {
        soonest := availability.SoonestRelease();
        return None, soonest;
      }
      var chosen := candidates[select(candidates)];
      assert chosen in candidates;
      return Some(chosen), None;
    }

    /** The request's key, if it has one, is pinned to the account chosen. */
    method PinChoice(q: Request, now: Time, a: Account, ghost p: Pool)
      requires Valid() && !Sticks(p, q, now) && Qualifies(p, q, now, a)
      requires View() == p.(parked := availability.parked) && OnlyForgets(p.parked, availability.parked, now)
      modifies affinity, affinity.store
      ensures Valid()
      ensures Picks(p, q, now, Ok(a), View())
      ensures DiskParks(affinity.store.data) == old(DiskParks(affinity.store.data))
    {
      if q.key.Some? {
        affinity.PinKey(q.key.value, a);
      }
      PicksChosen(p, q, now, a, View());
    }

    /** The selector's choice, which is pinned to the key, or nobody; `p` is the pool when the request came. */
    method PickUnpinned(q: Request, now: Time, select: seq<Account> -> nat, ghost p: Pool)
      returns (r: Result<Account, PickError>)
      requires Valid() && Selects(select) && accounts != [] && !Sticks(p, q, now)
      requires View() == p.(parked := availability.parked) && OnlyForgets(p.parked, availability.parked, now)
      modifies availability`parked, affinity, affinity.store
      ensures Valid()
      ensures Picks(p, q, now, r, View())
      ensures DiskParks(affinity.store.data) == old(DiskParks(affinity.store.data))
      ensures r.Ok? ==> IsChoice(Candidates(p, p.accounts, q, now), select, r.value)
    {
      ghost var m := View();
      var chosen, soonest := Choose(q, now, select);
      ChoiceHolds(p, m, q, now, select, chosen);
      assert OnlyForgets(p.parked, availability.parked, now) by {
        ForgetTwice(p.parked, m.parked, availability.parked, now);
      }
      if chosen.None? {
        PicksNobody(p, q, now, soonest, View());
        return Err(NoAvailableAccounts(soonest));
      }
      PinChoice(q, now, chosen.value, p);
      return Ok(chosen.value);
    }

    /** `pick`: the pinned account while it qualifies, otherwise the selector's choice, which is pinned. */
    method Pick(q: Request, now: Time, select: seq<Account> -> nat) returns (r: Result<Account, PickError>)
      requires Valid() && Selects(select)
      modifies availability`parked, affinity, affinity.store
      ensures Valid()
      ensures Picks(old(View()), q, now, r, View())
      ensures DiskParks(affinity.store.data) == old(DiskParks(affinity.store.data))
      ensures Respects(old(View()), q, now, r)
      ensures r.Ok? && !Sticks(old(View()), q, now) ==> IsChoice(Candidates(old(View()), accounts, q, now), select, r.value)
    {
      ghost var p := View();
      if accounts == [] {
        return Err(NoClients);
      }
      var pinned := Pinned(q, now);
      if pinned.Some? {
        PicksPinned(p, q, now, View());
        r := Ok(pinned.value);
      } else {
        r := PickUnpinned(q, now, select, p);
      }
      PicksRespects(p, q, now, r, View());
    }
  }

  /** A choice made after some parks were forgotten is one for the pool as it was. */
  lemma ChoiceHolds(p: Pool, m: Pool, q: Request, now: Time, select: seq<Account> -> nat, chosen: Option<Account>)
    requires m == p.(parked := m.parked) && OnlyForgets(p.parked, m.parked, now)
    requires chosen.Some? ==> Qualifies(m, q, now, chosen.value) && IsChoice(Candidates(m, m.accounts, q, now), select, chosen.value)
    requires chosen.None? ==> forall a :: !Qualifies(m, q, now, a)
    ensures chosen.Some? ==> Qualifies(p, q, now, chosen.value) && IsChoice(Candidates(p, p.accounts, q, now), select, chosen.value)
    ensures chosen.None? ==> forall a :: !Qualifies(p, q, now, a)
  {
    SameQualifies(p, m, q, now);
    SameCandidates(p, m, p.accounts, q, now);
  }

  lemma SameQualifies(p: Pool, m: Pool, q: Request, now: Time)
    requires m == p.(parked := m.parked) && OnlyForgets(p.parked, m.parked, now)
    ensures forall a :: Qualifies(m, q, now, a) == Qualifies(p, q, now, a)
    ensures forall a :: Eligible(m, q, now, a) == Eligible(p, q, now, a)
  {
    forall a ensures AvailableAt(m.parked, a, now) == AvailableAt(p.parked, a, now) {
      ForgettingIsInvisible(p.parked, m.parked, now, a, now);
    }
  }
}
