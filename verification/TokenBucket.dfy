/**
 * The token-bucket rate limiter (gateway/shared/rate_limit.py) in real arithmetic. The clock
 * reading of a call is a parameter.
 */
module TokenBucket {
  import opened Wrappers

  datatype Bucket = Bucket(tokens: real, last: real)

  datatype Limits = Limits(capacity: real, rate: real)

  datatype Call = Call(at: real, cost: real)

  function MinReal(a: real, b: real): real {
    if b < a then b else a
  }

  function Refilled(l: Limits, b: Bucket, now: real): real {
    MinReal(l.capacity, b.tokens + (now - b.last) * l.rate)
  }

  function Next(l: Limits, b: Bucket, c: Call): Bucket {
    var level := Refilled(l, b, c.at);
    Bucket(if level >= c.cost then level - c.cost else level, c.at)
  }

  // ---- A bucket over a run of calls ----

  /** The bucket before call `n`, from whatever it starts with. */
  function StateAt(l: Limits, start: Bucket, calls: seq<Call>, n: nat): Bucket
    requires n <= |calls|
  {
    if n == 0 then start else Next(l, StateAt(l, start, calls, n - 1), calls[n - 1])
  }

  function LevelAt(l: Limits, start: Bucket, calls: seq<Call>, n: nat): real
    requires n < |calls|
  {
    Refilled(l, StateAt(l, start, calls, n), calls[n].at)
  }

  predicate Granted(l: Limits, start: Bucket, calls: seq<Call>, n: nat)
    requires n < |calls|
  {
    LevelAt(l, start, calls, n) >= calls[n].cost
  }

  /** What calls `j` up to, not including, `n` were granted. */
  function Spent(l: Limits, start: Bucket, calls: seq<Call>, j: nat, n: nat): real
    requires j <= n <= |calls|
    decreases n
  {
    if j == n then 0.0
    else Spent(l, start, calls, j, n - 1) + if Granted(l, start, calls, n - 1) then calls[n - 1].cost else 0.0
  }

  /** What is left for call `n` of the most that may be granted from call `j` on. */
  function Allowance(l: Limits, start: Bucket, calls: seq<Call>, j: nat, n: nat): real
    requires j <= n < |calls|
  {
    l.capacity + (calls[n].at - calls[j].at) * l.rate - Spent(l, start, calls, j, n)
  }

  /** The tokens the bucket started with and all refill since, up to call `n`. */
  function Given(l: Limits, start: Bucket, calls: seq<Call>, n: nat): real
    requires n < |calls|
  {
    start.tokens + (calls[n].at - start.last) * l.rate
  }

  /** What is left of them for call `n`. */
  function FromStart(l: Limits, start: Bucket, calls: seq<Call>, n: nat): real
    requires n < |calls|
  {
    Given(l, start, calls, n) - Spent(l, start, calls, 0, n)
  }

  // ---- The same run with the refill measured in tokens: `fill[n]` is the clock of call `n` times the rate ----

  function Level(first: real, cap: real, fill: seq<real>, cost: seq<real>, n: nat): real
    requires n < |fill| == |cost|
    decreases n, 0
  {
    if n == 0 then first
    else MinReal(cap, Level(first, cap, fill, cost, n - 1) - Out(first, cap, fill, cost, n - 1) + fill[n] - fill[n - 1])
  }

  function Out(first: real, cap: real, fill: seq<real>, cost: seq<real>, n: nat): real
    requires n < |fill| == |cost|
    decreases n, 1
  {
    if Level(first, cap, fill, cost, n) >= cost[n] then cost[n] else 0.0
  }

  function Total(first: real, cap: real, fill: seq<real>, cost: seq<real>, j: nat, n: nat): real
    requires j <= n <= |fill| == |cost|
    decreases n
  {
    if j == n then 0.0 else Total(first, cap, fill, cost, j, n - 1) + Out(first, cap, fill, cost, n - 1)
  }

  function Left(first: real, cap: real, fill: seq<real>, cost: seq<real>, j: nat, n: nat): real
    requires j <= n < |fill| == |cost|
  {
    cap + fill[n] - fill[j] - Total(first, cap, fill, cost, j, n)
  }

  function LeftFromStart(first: real, cap: real, fill: seq<real>, cost: seq<real>, n: nat): real
    requires n < |fill| == |cost|
  {
    first + fill[n] - fill[0] - Total(first, cap, fill, cost, 0, n)
  }

  lemma {:induction false} LevelIsLeast(first: real, cap: real, fill: seq<real>, cost: seq<real>, n: nat)
    returns (least: Option<nat>)
    requires n < |fill| == |cost| && first <= cap
    ensures forall j :: 0 <= j <= n ==> Level(first, cap, fill, cost, n) <= Left(first, cap, fill, cost, j, n)
    ensures Level(first, cap, fill, cost, n) <= LeftFromStart(first, cap, fill, cost, n)
    ensures least.Some? ==> least.value <= n && Level(first, cap, fill, cost, n) == Left(first, cap, fill, cost, least.value, n)
    ensures least.None? ==> Level(first, cap, fill, cost, n) == LeftFromStart(first, cap, fill, cost, n)
  {
    if n == 0 {
      least := None;
    } else {
      least := LevelIsLeast(first, cap, fill, cost, n - 1);
      forall j | 0 <= j <= n ensures Level(first, cap, fill, cost, n) <= Left(first, cap, fill, cost, j, n) {
        if j < n {
          assert Level(first, cap, fill, cost, n - 1) <= Left(first, cap, fill, cost, j, n - 1);
        }
      }
      if Level(first, cap, fill, cost, n) == cap {
        least := Some(n);
      }
    }
  }

  /** Over any window, no more goes out than a full bucket and the refill. */
  lemma {:induction false} TotalBound(first: real, cap: real, fill: seq<real>, cost: seq<real>, i: nat, n: nat)
    requires i <= n < |fill| == |cost| && cap >= 0.0 && first <= cap
    requires forall j, k :: 0 <= j <= k < |fill| ==> fill[j] <= fill[k]
    ensures Total(first, cap, fill, cost, i, n + 1) <= cap + fill[n] - fill[i]
    decreases n
  {
    if Level(first, cap, fill, cost, n) >= cost[n] {
      var least := LevelIsLeast(first, cap, fill, cost, n);
      assert Level(first, cap, fill, cost, n) <= Left(first, cap, fill, cost, i, n);
    } else if i < n {
      TotalBound(first, cap, fill, cost, i, n - 1);
    } else {
      assert Total(first, cap, fill, cost, n, n) == 0.0;
    }
  }

  function Fills(l: Limits, calls: seq<Call>): seq<real> {
    seq(|calls|, i requires 0 <= i < |calls| => calls[i].at * l.rate)
  }

  function Costs(calls: seq<Call>): seq<real> {
    seq(|calls|, i requires 0 <= i < |calls| => calls[i].cost)
  }

  lemma Distribute(a: real, b: real, rate: real)
    ensures (b - a) * rate == b * rate - a * rate
  {
  }

  lemma Monotone(a: real, b: real, rate: real)
    requires a <= b && rate >= 0.0
    ensures a * rate <= b * rate
  {
  }

  lemma FillsBetween(l: Limits, calls: seq<Call>, j: nat, n: nat)
    requires j <= n < |calls|
    ensures (calls[n].at - calls[j].at) * l.rate == Fills(l, calls)[n] - Fills(l, calls)[j]
  {
    Distribute(calls[j].at, calls[n].at, l.rate);
  }

  lemma RefilledInTokens(l: Limits, b: Bucket, now: real, before: real, after: real, level: real)
    requires before == b.last * l.rate && after == now * l.rate && level == b.tokens + after - before
    ensures Refilled(l, b, now) == MinReal(l.capacity, level)
  {
    Distribute(b.last, now, l.rate);
  }

  lemma StateInTokens(l: Limits, start: Bucket, calls: seq<Call>, n: nat)
    requires n < |calls|
    requires LevelAt(l, start, calls, n) == Level(FirstLevel(l, start, calls), l.capacity, Fills(l, calls), Costs(calls), n)
    ensures var first, fills, costs := FirstLevel(l, start, calls), Fills(l, calls), Costs(calls);
      StateAt(l, start, calls, n + 1) ==
      Bucket(Level(first, l.capacity, fills, costs, n) - Out(first, l.capacity, fills, costs, n), calls[n].at)
  {
    StateStep(l, start, calls, n);
  }

  /** The clock of a call, in tokens. */
  lemma FillAt(l: Limits, calls: seq<Call>, n: nat)
    requires n < |calls|
    ensures Fills(l, calls)[n] == calls[n].at * l.rate
  {
  }

  lemma LevelFrom(l: Limits, b: Bucket, calls: seq<Call>, n: nat, level: real)
    requires 0 < n < |calls| && b.last == calls[n - 1].at
    requires level == b.tokens + Fills(l, calls)[n] - Fills(l, calls)[n - 1]
    ensures Refilled(l, b, calls[n].at) == MinReal(l.capacity, level)
  {
    FillAt(l, calls, n - 1);
    FillAt(l, calls, n);
    RefilledInTokens(l, b, calls[n].at, Fills(l, calls)[n - 1], Fills(l, calls)[n], level);
  }

  /** The level of a bucket, counted in tokens. */
  lemma {:induction false} LevelInTokens(l: Limits, start: Bucket, calls: seq<Call>, n: nat)
    requires n < |calls|
    ensures LevelAt(l, start, calls, n) == Level(FirstLevel(l, start, calls), l.capacity, Fills(l, calls), Costs(calls), n)
  {
    if n > 0 {
      var first, fills, costs := FirstLevel(l, start, calls), Fills(l, calls), Costs(calls);
      LevelInTokens(l, start, calls, n - 1);
      StateInTokens(l, start, calls, n - 1);
      LevelFrom(l, StateAt(l, start, calls, n), calls, n,
                Level(first, l.capacity, fills, costs, n - 1) - Out(first, l.capacity, fills, costs, n - 1) + fills[n] - fills[n - 1]);
    }
  }

  function FirstLevel(l: Limits, start: Bucket, calls: seq<Call>): (r: real)
    requires calls != []
    ensures r <= l.capacity
  {
    Refilled(l, start, calls[0].at)
  }

  lemma StateStep(l: Limits, start: Bucket, calls: seq<Call>, n: nat)
    requires n < |calls|
    ensures StateAt(l, start, calls, n + 1) ==
      Bucket(LevelAt(l, start, calls, n) - if Granted(l, start, calls, n) then calls[n].cost else 0.0, calls[n].at)
  {
  }

  lemma {:induction false} SpentInTokens(l: Limits, start: Bucket, calls: seq<Call>, j: nat, n: nat)
    requires j <= n <= |calls| && calls != []
    ensures Spent(l, start, calls, j, n) ==
      Total(FirstLevel(l, start, calls), l.capacity, Fills(l, calls), Costs(calls), j, n)
    decreases n
  {
    if j < n {
      SpentInTokens(l, start, calls, j, n - 1);
      LevelInTokens(l, start, calls, n - 1);
    }
  }

  lemma AllowanceInTokens(l: Limits, start: Bucket, calls: seq<Call>, j: nat, n: nat)
    requires j <= n < |calls|
    ensures Allowance(l, start, calls, j, n) ==
      Left(FirstLevel(l, start, calls), l.capacity, Fills(l, calls), Costs(calls), j, n)
  {
    var first := FirstLevel(l, start, calls);
    assert Spent(l, start, calls, j, n) == Total(first, l.capacity, Fills(l, calls), Costs(calls), j, n) by {
      SpentInTokens(l, start, calls, j, n);
    }
    FillsBetween(l, calls, j, n);
  }

  lemma GivenSince(l: Limits, start: Bucket, calls: seq<Call>, n: nat)
    requires n < |calls|
    ensures Given(l, start, calls, n) == Given(l, start, calls, 0) + (Fills(l, calls)[n] - Fills(l, calls)[0])
  {
    BetweenFills(start.last, calls[0].at, calls[n].at, l.rate, Fills(l, calls)[0], Fills(l, calls)[n]);
  }

  lemma FirstLevelIs(l: Limits, start: Bucket, calls: seq<Call>)
    requires calls != []
    ensures FirstLevel(l, start, calls) == MinReal(l.capacity, Given(l, start, calls, 0))
  {
  }

  lemma LessOfTwo(cap: real, given: real, rest: real)
    ensures MinReal(cap, given) + rest <= given + rest
    ensures MinReal(cap, given) + rest < given + rest ==> MinReal(cap, given) + rest == cap + rest
  {
  }

  /** The tokens left from the start; if the first refill overflowed, those since the first call count instead. */
  lemma StartInTokens(l: Limits, start: Bucket, calls: seq<Call>, n: nat)
    requires n < |calls|
    ensures var inTokens := LeftFromStart(FirstLevel(l, start, calls), l.capacity, Fills(l, calls), Costs(calls), n);
      && FromStart(l, start, calls, n) >= inTokens
      && (FromStart(l, start, calls, n) > inTokens ==> inTokens == Allowance(l, start, calls, 0, n))
  {
    FirstLevelIs(l, start, calls);
    GivenSince(l, start, calls, n);
    SpentInTokens(l, start, calls, 0, n);
    AllowanceInTokens(l, start, calls, 0, n);
    LessOfTwo(l.capacity, Given(l, start, calls, 0), Fills(l, calls)[n] - Fills(l, calls)[0] - Spent(l, start, calls, 0, n));
  }

  lemma Between(a: real, b: real, c: real, rate: real)
    ensures (c - a) * rate == (b - a) * rate + (c - b) * rate
  {
  }

  lemma BetweenFills(a: real, b: real, c: real, rate: real, before: real, after: real)
    requires before == b * rate && after == c * rate
    ensures (c - a) * rate == (b - a) * rate + (after - before)
  {
    Distribute(a, b, rate);
    Distribute(a, c, rate);
  }

  // ---- The exact level ----

  /**
   * The level at a call is the least of the allowances since each earlier call and of what is left
   * from the start; `least` says which one it is, None for the start.
   */
  lemma LevelIsLeastAllowance(l: Limits, start: Bucket, calls: seq<Call>, n: nat) returns (least: Option<nat>)
    requires n < |calls|
    ensures forall j :: 0 <= j <= n ==> LevelAt(l, start, calls, n) <= Allowance(l, start, calls, j, n)
    ensures LevelAt(l, start, calls, n) <= FromStart(l, start, calls, n)
    ensures least.Some? ==> least.value <= n && LevelAt(l, start, calls, n) == Allowance(l, start, calls, least.value, n)
    ensures least.None? ==> LevelAt(l, start, calls, n) == FromStart(l, start, calls, n)
  {
    least := LevelIsLeast(FirstLevel(l, start, calls), l.capacity, Fills(l, calls), Costs(calls), n);
    LevelInTokens(l, start, calls, n);
    StartInTokens(l, start, calls, n);
    forall j | 0 <= j <= n ensures LevelAt(l, start, calls, n) <= Allowance(l, start, calls, j, n) {
      AllowanceInTokens(l, start, calls, j, n);
    }
    if least.Some? {
      AllowanceInTokens(l, start, calls, least.value, n);
    } else if LevelAt(l, start, calls, n) != FromStart(l, start, calls, n) {
      least := Some(0);
    }
  }

  /** A bucket as the limiter makes it: full when its first call comes, or before. */
  ghost predicate Full(l: Limits, start: Bucket, calls: seq<Call>) {
    calls != [] && start.tokens == l.capacity && start.last <= calls[0].at && l.rate >= 0.0
  }

  /** A bucket that starts full has at least the allowance since its first call left from the start. */
  lemma FullStart(l: Limits, start: Bucket, calls: seq<Call>, n: nat)
    requires n < |calls| && Full(l, start, calls)
    ensures FromStart(l, start, calls, n) >= Allowance(l, start, calls, 0, n)
  {
    Monotone(0.0, calls[0].at - start.last, l.rate);
    Between(start.last, calls[0].at, calls[n].at, l.rate);
  }

  /** So the level of a bucket that starts full is the least allowance over all earlier calls. */
  lemma FullLevelIsLeast(l: Limits, start: Bucket, calls: seq<Call>, n: nat) returns (least: nat)
    requires n < |calls| && Full(l, start, calls)
    ensures least <= n && LevelAt(l, start, calls, n) == Allowance(l, start, calls, least, n)
    ensures forall j :: 0 <= j <= n ==> LevelAt(l, start, calls, n) <= Allowance(l, start, calls, j, n)
  {
    var which := LevelIsLeastAllowance(l, start, calls, n);
    FullStart(l, start, calls, n);
    least := if which.Some? then which.value else 0;
  }

  /** Granting call `n` would take more out since call `j` than a full bucket and the refill since then. */
  predicate Exceeds(l: Limits, start: Bucket, calls: seq<Call>, j: nat, n: nat)
    requires j <= n < |calls|
  {
    Spent(l, start, calls, j, n) + calls[n].cost > l.capacity + (calls[n].at - calls[j].at) * l.rate
  }

  /** Granting call `n` would take out more than the bucket started with and was refilled. */
  predicate ExceedsStart(l: Limits, start: Bucket, calls: seq<Call>, n: nat)
    requires n < |calls|
  {
    Spent(l, start, calls, 0, n) + calls[n].cost > start.tokens + (calls[n].at - start.last) * l.rate
  }

  /** A call is refused exactly when granting it would exceed the bound of some window ending with it, or of the whole run. */
  lemma RefusesExactly(l: Limits, start: Bucket, calls: seq<Call>, n: nat)
    requires n < |calls|
    ensures !Granted(l, start, calls, n) <==>
      ExceedsStart(l, start, calls, n) || exists j :: 0 <= j <= n && Exceeds(l, start, calls, j, n)
  {
    var least := LevelIsLeastAllowance(l, start, calls, n);
    ExceedsIs(l, start, calls, if least.Some? then least.value else 0, n);
    forall j | 0 <= j <= n ensures Exceeds(l, start, calls, j, n) ==> !Granted(l, start, calls, n) {
      ExceedsIs(l, start, calls, j, n);
    }
  }

  /** A bucket that starts full refuses exactly when some window ending with the call would be exceeded. */
  lemma FullRefusesExactly(l: Limits, start: Bucket, calls: seq<Call>, n: nat)
    requires n < |calls| && Full(l, start, calls)
    ensures !Granted(l, start, calls, n) <==> exists j :: 0 <= j <= n && Exceeds(l, start, calls, j, n)
  {
    RefusesExactly(l, start, calls, n);
    FullStart(l, start, calls, n);
    ExceedsIs(l, start, calls, 0, n);
  }

  lemma ExceedsIs(l: Limits, start: Bucket, calls: seq<Call>, j: nat, n: nat)
    requires j <= n < |calls|
    ensures Exceeds(l, start, calls, j, n) <==> Allowance(l, start, calls, j, n) < calls[n].cost
    ensures ExceedsStart(l, start, calls, n) <==> FromStart(l, start, calls, n) < calls[n].cost
  {
  }

  ghost predicate Ordered(calls: seq<Call>) {
    forall i, j :: 0 <= i <= j < |calls| ==> calls[i].at <= calls[j].at
  }

  lemma FillsOrdered(l: Limits, calls: seq<Call>)
    requires Ordered(calls) && l.rate >= 0.0
    ensures forall j, k :: 0 <= j <= k < |calls| ==> Fills(l, calls)[j] <= Fills(l, calls)[k]
  {
    forall j, k | 0 <= j <= k < |calls| ensures Fills(l, calls)[j] <= Fills(l, calls)[k] {
      Monotone(calls[j].at, calls[k].at, l.rate);
    }
  }

  /** Over any window of calls, no more is granted than a full bucket and the refill of that time. */
  lemma WindowBound(l: Limits, start: Bucket, calls: seq<Call>, i: nat, n: nat)
    requires i <= n < |calls| && Ordered(calls)
    requires l.rate >= 0.0 && l.capacity >= 0.0
    ensures Spent(l, start, calls, i, n + 1) <= l.capacity + (calls[n].at - calls[i].at) * l.rate
  {
    FillsOrdered(l, calls);
    TotalBound(FirstLevel(l, start, calls), l.capacity, Fills(l, calls), Costs(calls), i, n);
    SpentInTokens(l, start, calls, i, n + 1);
    FillsBetween(l, calls, i, n);
  }

  // ---- Per minute ----

  const MINUTE := 60.0

  function PerMinute(perMin: int): Limits {
    Limits(perMin as real, perMin as real / MINUTE)
  }

  ghost predicate UnitCost(calls: seq<Call>) {
    forall i :: 0 <= i < |calls| ==> calls[i].cost == 1.0
  }

  function Grants(l: Limits, start: Bucket, calls: seq<Call>, j: nat, n: nat): nat
    requires j <= n <= |calls|
    decreases n
  {
    if j == n then 0
    else Grants(l, start, calls, j, n - 1) + if Granted(l, start, calls, n - 1) then 1 else 0
  }

  lemma {:induction false} GrantsAreSpent(l: Limits, start: Bucket, calls: seq<Call>, j: nat, n: nat)
    requires j <= n <= |calls| && UnitCost(calls)
    ensures Spent(l, start, calls, j, n) == Grants(l, start, calls, j, n) as real
    decreases n
  {
    if j < n {
      GrantsAreSpent(l, start, calls, j, n - 1);
    }
  }

  lemma MinuteRefill(perMin: int)
    ensures MINUTE * PerMinute(perMin).rate == perMin as real
  {
  }

  lemma MinuteGain(perMin: int, time: real)
    requires perMin > 0 && time <= MINUTE
    ensures PerMinute(perMin).rate >= 0.0 && time * PerMinute(perMin).rate <= perMin as real
  {
    Monotone(time, MINUTE, PerMinute(perMin).rate);
    MinuteRefill(perMin);
  }

  lemma WindowGrants(l: Limits, start: Bucket, calls: seq<Call>, i: nat, n: nat, gain: real)
    requires i <= n < |calls| && Ordered(calls) && UnitCost(calls)
    requires l.rate >= 0.0 && l.capacity >= 0.0
    requires gain == (calls[n].at - calls[i].at) * l.rate
    ensures Grants(l, start, calls, i, n + 1) as real <= l.capacity + gain
  {
    WindowBound(l, start, calls, i, n);
    GrantsAreSpent(l, start, calls, i, n + 1);
  }

  lemma CountBound(count: nat, perMin: int, gain: real)
    requires count as real <= perMin as real + gain && gain <= perMin as real
    ensures count <= 2 * perMin
  {
  }

  lemma BoundFor(l: Limits, perMin: int, start: Bucket, calls: seq<Call>, i: nat, n: nat)
    requires i <= n < |calls| && Ordered(calls) && UnitCost(calls)
    requires l.rate >= 0.0 && l.capacity == perMin as real >= 0.0
    requires (calls[n].at - calls[i].at) * l.rate <= perMin as real
    ensures Grants(l, start, calls, i, n + 1) <= 2 * perMin
  {
    var gain := (calls[n].at - calls[i].at) * l.rate;
    WindowGrants(l, start, calls, i, n, gain);
    CountBound(Grants(l, start, calls, i, n + 1), perMin, gain);
  }

  /** At most twice the per-minute limit is granted in any window of a minute. */
  lemma MinuteBound(perMin: int, start: Bucket, calls: seq<Call>, i: nat, n: nat)
    requires perMin > 0 && i <= n < |calls| && Ordered(calls) && UnitCost(calls)
    requires calls[n].at - calls[i].at <= MINUTE
    ensures Grants(PerMinute(perMin), start, calls, i, n + 1) <= 2 * perMin
  {
    MinuteGain(perMin, calls[n].at - calls[i].at);
    BoundFor(PerMinute(perMin), perMin, start, calls, i, n);
  }

  /** `perMin` calls at time 0, and as many a minute later. */
  function Burst(perMin: nat): seq<Call> {
    seq(2 * perMin, i => if i < perMin then Call(0.0, 1.0) else Call(MINUTE, 1.0))
  }

  function FullAtZero(perMin: nat): Bucket {
    Bucket(PerMinute(perMin).capacity, 0.0)
  }

  /** A call at the same time as the one before finds nothing refilled, one a minute later finds the limit. */
  lemma BurstRefill(perMin: nat, b: Bucket, now: real)
    requires now == b.last || now == b.last + MINUTE
    ensures Refilled(PerMinute(perMin), b, now) ==
      MinReal(perMin as real, b.tokens + if now == b.last then 0.0 else perMin as real)
  {
    MinuteRefill(perMin);
    assert now - b.last == 0.0 || now - b.last == MINUTE;
  }

  lemma {:induction false} BurstState(perMin: nat, n: nat)
    requires perMin > 0 && n < 2 * perMin
    ensures LevelAt(PerMinute(perMin), FullAtZero(perMin), Burst(perMin), n) ==
      if n < perMin then (perMin - n) as real else (2 * perMin - n) as real
  {
    var l, start, calls := PerMinute(perMin), FullAtZero(perMin), Burst(perMin);
    if n > 0 {
      BurstState(perMin, n - 1);
      StateStep(l, start, calls, n - 1);
    }
    BurstRefill(perMin, StateAt(l, start, calls, n), calls[n].at);
  }

  lemma {:induction false} BurstGrants(perMin: nat, n: nat)
    requires perMin > 0 && n <= 2 * perMin
    ensures Grants(PerMinute(perMin), FullAtZero(perMin), Burst(perMin), 0, n) == n
  {
    if n > 0 {
      BurstGrants(perMin, n - 1);
      BurstState(perMin, n - 1);
    }
  }

  /** The bound is reached: all of twice the limit can be granted within one minute. */
  lemma MinuteBoundIsTight(perMin: nat)
    requires perMin > 0
    ensures |Burst(perMin)| == 2 * perMin && Burst(perMin)[2 * perMin - 1].at - Burst(perMin)[0].at == MINUTE
    ensures Grants(PerMinute(perMin), FullAtZero(perMin), Burst(perMin), 0, 2 * perMin) == 2 * perMin
  {
    BurstGrants(perMin, 2 * perMin);
  }

  class TokenBucket {
    const limits: Limits
    var tokens: real
    var last: real

    /** A bucket given no tokens starts full. */
    constructor (limits: Limits, tokens: real, now: real)
      ensures this.limits == limits
      ensures View() == Bucket(if tokens == 0.0 then limits.capacity else tokens, now)
    {
      this.limits := limits;
      this.tokens := if tokens == 0.0 then limits.capacity else tokens;
      this.last := now;
    }

    function View(): Bucket
      reads this
    {
      Bucket(tokens, last)
    }

    method Allow(now: real, cost: real) returns (ok: bool)
      modifies this
      ensures ok <==> Refilled(limits, old(View()), now) >= cost
      ensures View() == Next(limits, old(View()), Call(now, cost))
    {
      tokens := MinReal(limits.capacity, tokens + (now - last) * limits.rate);
      last := now;
      if tokens >= cost {
        tokens := tokens - cost;
        return true;
      }
      return false;
    }
  }
}
