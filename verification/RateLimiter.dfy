/** One token bucket per key (gateway/shared/rate_limit.py, KeyedRateLimiter). */
module RateLimiter {
  import opened TokenBucket

  datatype Request = Request(key: string, at: real)

  type Buckets = map<string, Bucket>

  /** The bucket a request of `key` meets; a new one is full. */
  function BucketOf(perMin: int, buckets: Buckets, r: Request): Bucket {
    if r.key in buckets then buckets[r.key] else Bucket(PerMinute(perMin).capacity, r.at)
  }

  predicate Allows(perMin: int, buckets: Buckets, r: Request) {
    perMin <= 0 || Refilled(PerMinute(perMin), BucketOf(perMin, buckets, r), r.at) >= 1.0
  }

  function After(perMin: int, buckets: Buckets, r: Request): Buckets {
    if perMin <= 0 then buckets
    else buckets[r.key := Next(PerMinute(perMin), BucketOf(perMin, buckets, r), Call(r.at, 1.0))]
  }

  /** The buckets before request `n`. */
  function BucketsAt(perMin: int, trace: seq<Request>, n: nat): Buckets
    requires n <= |trace|
  {
    if n == 0 then map[] else After(perMin, BucketsAt(perMin, trace, n - 1), trace[n - 1])
  }

  predicate Allowed(perMin: int, trace: seq<Request>, n: nat)
    requires n < |trace|
  {
    Allows(perMin, BucketsAt(perMin, trace, n), trace[n])
  }

  /** The calls of one key among the first `n` requests. */
  function Mine(trace: seq<Request>, key: string, n: nat): seq<Call>
    requires n <= |trace|
  {
    if n == 0 then []
    else
      var rest := Mine(trace, key, n - 1);
      if trace[n - 1].key == key then rest + [Call(trace[n - 1].at, 1.0)] else rest
  }

  lemma {:induction false} StatePrefix(l: Limits, start: Bucket, a: seq<Call>, b: seq<Call>, n: nat)
    requires a <= b && n <= |a|
    ensures StateAt(l, start, a, n) == StateAt(l, start, b, n)
  {
    if n > 0 {
      StatePrefix(l, start, a, b, n - 1);
    }
  }

  lemma {:induction false} MineGrows(trace: seq<Request>, key: string, m: nat, n: nat)
    requires m <= n <= |trace|
    ensures Mine(trace, key, m) <= Mine(trace, key, n)
    decreases n
  {
    if m < n {
      MineGrows(trace, key, m, n - 1);
    }
  }

  /** A key's bucket is made, full, by its first call. */
  function StartOf(l: Limits, calls: seq<Call>): Bucket {
    Bucket(l.capacity, if calls == [] then 0.0 else calls[0].at)
  }

  /** A key's bucket is what its own calls alone would have made of it. */
  lemma {:induction false} BucketsAreOwn(perMin: int, trace: seq<Request>, key: string, n: nat)
    requires perMin > 0 && n <= |trace|
    ensures var calls := Mine(trace, key, n);
      && (key in BucketsAt(perMin, trace, n) <==> calls != [])
      && (calls != [] ==>
            BucketsAt(perMin, trace, n)[key] == StateAt(PerMinute(perMin), StartOf(PerMinute(perMin), calls), calls, |calls|))
  {
    if n > 0 {
      BucketsAreOwn(perMin, trace, key, n - 1);
      var before, calls := Mine(trace, key, n - 1), Mine(trace, key, n);
      if trace[n - 1].key == key {
        StatePrefix(PerMinute(perMin), StartOf(PerMinute(perMin), calls), before, calls, |before|);
      }
    }
  }

  /** Keys do not affect each other: a request is decided by the requests of its own key. */
  lemma KeysAreIndependent(perMin: int, trace: seq<Request>, n: nat)
    requires perMin > 0 && n < |trace|
    ensures var calls := Mine(trace, trace[n].key, n + 1);
      calls != [] && (Allowed(perMin, trace, n) <==> Granted(PerMinute(perMin), StartOf(PerMinute(perMin), calls), calls, |calls| - 1))
  {
    var key := trace[n].key;
    BucketsAreOwn(perMin, trace, key, n);
    LastCall(PerMinute(perMin), Mine(trace, key, n), trace[n].at);
  }

  lemma LastCall(l: Limits, before: seq<Call>, at: real)
    ensures var calls := before + [Call(at, 1.0)];
      var bucket := if before == [] then Bucket(l.capacity, at) else StateAt(l, StartOf(l, before), before, |before|);
      Granted(l, StartOf(l, calls), calls, |before|) <==> Refilled(l, bucket, at) >= 1.0
  {
    var calls := before + [Call(at, 1.0)];
    StatePrefix(l, StartOf(l, calls), before, calls, |before|);
  }

  /** How many requests of `key` from `i` up to, not including, `n` were let through. */
  function AllowedCount(perMin: int, trace: seq<Request>, key: string, i: nat, n: nat): nat
    requires i <= n <= |trace|
    decreases n
  {
    if i == n then 0
    else
      AllowedCount(perMin, trace, key, i, n - 1) +
      if trace[n - 1].key == key && Allowed(perMin, trace, n - 1) then 1 else 0
  }

  lemma {:induction false} GrantsPrefix(l: Limits, start: Bucket, a: seq<Call>, b: seq<Call>, j: nat, n: nat)
    requires a <= b && j <= n <= |a|
    ensures Grants(l, start, a, j, n) == Grants(l, start, b, j, n)
    decreases n
  {
    if j < n {
      GrantsPrefix(l, start, a, b, j, n - 1);
      StatePrefix(l, start, a, b, n - 1);
    }
  }

  /** What was let through is what the key's own bucket granted to the same calls. */
  lemma {:induction false} AllowedAreGrants(perMin: int, trace: seq<Request>, key: string, i: nat, n: nat)
    requires perMin > 0 && i <= n <= |trace|
    ensures |Mine(trace, key, i)| <= |Mine(trace, key, n)|
    ensures var calls := Mine(trace, key, n);
      AllowedCount(perMin, trace, key, i, n) ==
        Grants(PerMinute(perMin), StartOf(PerMinute(perMin), calls), calls, |Mine(trace, key, i)|, |calls|)
    decreases n
  {
    MineGrows(trace, key, i, n);
    if i < n {
      AllowedAreGrants(perMin, trace, key, i, n - 1);
      var before, calls, first := Mine(trace, key, n - 1), Mine(trace, key, n), |Mine(trace, key, i)|;
      if trace[n - 1].key == key {
        KeysAreIndependent(perMin, trace, n - 1);
        MineGrows(trace, key, i, n - 1);
        GrantsPrefix(PerMinute(perMin), StartOf(PerMinute(perMin), calls), before, calls, first, |before|);
        if before == [] {
          assert first == 0;
        }
      }
    }
  }

  ghost predicate ClockOrdered(trace: seq<Request>) {
    forall i, j :: 0 <= i <= j < |trace| ==> trace[i].at <= trace[j].at
  }

  ghost predicate Between(calls: seq<Call>, from: nat, earliest: real, latest: real) {
    forall k :: from <= k < |calls| ==> earliest <= calls[k].at <= latest
  }

  lemma {:induction false} MineSince(trace: seq<Request>, key: string, i: nat, n: nat)
    requires ClockOrdered(trace) && i < n <= |trace|
    ensures Between(Mine(trace, key, n), |Mine(trace, key, i)|, trace[i].at, trace[n - 1].at)
    decreases n
  {
    MineGrows(trace, key, i, n - 1);
    if i < n - 1 {
      MineSince(trace, key, i, n - 1);
    }
  }

  lemma {:induction false} MineOrdered(trace: seq<Request>, key: string, n: nat)
    requires ClockOrdered(trace) && n <= |trace|
    ensures Ordered(Mine(trace, key, n)) && UnitCost(Mine(trace, key, n))
  {
    if n > 0 {
      MineOrdered(trace, key, n - 1);
      if n > 1 {
        MineSince(trace, key, 0, n - 1);
      }
    }
  }

  /** However keys interleave, each gets at most twice its limit through in any minute. */
  lemma KeyMinuteBound(perMin: int, trace: seq<Request>, key: string, i: nat, n: nat)
    requires perMin > 0 && ClockOrdered(trace) && i < n <= |trace|
    requires trace[n - 1].at - trace[i].at <= MINUTE
    ensures AllowedCount(perMin, trace, key, i, n) <= 2 * perMin
  {
    AllowedAreGrants(perMin, trace, key, i, n);
    MineSince(trace, key, i, n);
    MineOrdered(trace, key, n);
    var calls, first := Mine(trace, key, n), |Mine(trace, key, i)|;
    if first < |calls| {
      MinuteBound(perMin, StartOf(PerMinute(perMin), calls), calls, first, |calls| - 1);
    }
  }

  /** A limit of zero or less lets everything through. */
  lemma {:induction false} NoLimit(perMin: int, trace: seq<Request>, key: string, i: nat, n: nat)
    requires perMin <= 0 && i <= n <= |trace|
    ensures AllowedCount(perMin, trace, key, i, n) == |Mine(trace, key, n)| - |Mine(trace, key, i)|
    decreases n
  {
    if i < n {
      NoLimit(perMin, trace, key, i, n - 1);
    }
  }

  class KeyedRateLimiter {
    const perMin: int
    var buckets: map<string, TokenBucket>

    constructor (perMin: int)
      ensures Valid() && this.perMin == perMin && View() == map[]
    {
      this.perMin := perMin;
      buckets := map[];
    }

    /** Every bucket belongs to one key and has the limiter's limits. */
    ghost predicate Valid()
      reads this, buckets.Values
    {
      && (forall k :: k in buckets ==> buckets[k].limits == PerMinute(perMin))
      && (forall j, k :: j in buckets && k in buckets && j != k ==> buckets[j] != buckets[k])
    }

    ghost function View(): Buckets
      reads this, buckets.Values
    {
      map k | k in buckets :: buckets[k].View()
    }

    method Allow(key: string, now: real) returns (ok: bool)
      requires Valid()
      modifies this, buckets.Values
      ensures Valid() && fresh(buckets.Values - old(buckets.Values))
      ensures ok <==> Allows(perMin, old(View()), Request(key, now))
      ensures View() == After(perMin, old(View()), Request(key, now))
    {
      if perMin <= 0 {
        return true;
      }
      if key !in buckets {
        var bucket := new TokenBucket(PerMinute(perMin), 0.0, now);
        buckets := buckets[key := bucket];
      }
      ok := buckets[key].Allow(now, 1.0);
    }
  }
}
