/** The rotating proxy list that skips failed proxies (claude_ai/transport/proxy/list.py). */
module ProxyRotation {
  import opened Cyclic
  import opened Wrappers

  type Url = string
  type Failures = map<Url, nat>

  function FailureCount(failures: Failures, url: Url): nat {
    if url in failures then failures[url] else 0
  }

  predicate Healthy(failures: Failures, skip: int, url: Url) {
    FailureCount(failures, url) < skip
  }

  /** The position after `pos` in the cycle. */
  function Following(proxies: seq<Url>, pos: nat): (next: nat)
    requires pos < |proxies|
    ensures next < |proxies|
  {
    if pos + 1 == |proxies| then 0 else pos + 1
  }

  /** The first healthy entry among the next `left` entries of the cycle. */
  function Search(proxies: seq<Url>, failures: Failures, skip: int, pos: nat, left: nat): (r: Option<nat>)
    requires pos < |proxies|
    ensures r.Some? ==> r.value < |proxies| && Healthy(failures, skip, proxies[r.value])
    decreases left
  {
    if left == 0 then None
    else if Healthy(failures, skip, proxies[pos]) then Some(pos)
    else Search(proxies, failures, skip, Following(proxies, pos), left - 1)
  }

  /** The positions before `n` of healthy entries, in order. */
  function HealthyBefore(proxies: seq<Url>, failures: Failures, skip: int, n: nat): seq<nat>
    requires n <= |proxies|
  {
    if n == 0 then []
    else
      var rest := HealthyBefore(proxies, failures, skip, n - 1);
      if Healthy(failures, skip, proxies[n - 1]) then rest + [n - 1] else rest
  }

  function HealthyList(proxies: seq<Url>, failures: Failures, skip: int): seq<nat> {
    HealthyBefore(proxies, failures, skip, |proxies|)
  }

  lemma {:induction false} HealthyPrefix(proxies: seq<Url>, failures: Failures, skip: int, m: nat, n: nat)
    requires m <= n <= |proxies|
    ensures HealthyBefore(proxies, failures, skip, m) <= HealthyBefore(proxies, failures, skip, n)
    decreases n
  {
    if m < n {
      HealthyPrefix(proxies, failures, skip, m, n - 1);
    }
  }

  /** The healthy positions, each once, in increasing order. */
  lemma {:induction false} HealthyListIs(proxies: seq<Url>, failures: Failures, skip: int, n: nat)
    requires n <= |proxies|
    ensures var h := HealthyBefore(proxies, failures, skip, n);
      && (forall i, j :: 0 <= i < j < |h| ==> h[i] < h[j])
      && (forall p: nat :: p in h <==> p < n && Healthy(failures, skip, proxies[p]))
  {
    if n > 0 {
      HealthyListIs(proxies, failures, skip, n - 1);
      var rest, h := HealthyBefore(proxies, failures, skip, n - 1), HealthyBefore(proxies, failures, skip, n);
      if Healthy(failures, skip, proxies[n - 1]) {
        assert h[|rest|] == n - 1;
        forall i | 0 <= i < |rest| ensures rest[i] < n - 1 {
          assert rest[i] in rest;
        }
      }
    }
  }

  /** How many healthy entries are before `pos`. */
  function Rank(proxies: seq<Url>, failures: Failures, skip: int, pos: nat): nat
    requires pos <= |proxies|
  {
    |HealthyBefore(proxies, failures, skip, pos)|
  }

  lemma RankAt(proxies: seq<Url>, failures: Failures, skip: int, pos: nat)
    requires pos < |proxies| && Healthy(failures, skip, proxies[pos])
    ensures Rank(proxies, failures, skip, pos) < |HealthyList(proxies, failures, skip)|
    ensures HealthyList(proxies, failures, skip)[Rank(proxies, failures, skip, pos)] == pos
  {
    HealthyPrefix(proxies, failures, skip, pos + 1, |proxies|);
  }

  /** A search that need not wrap around finds the next healthy entry by rank. */
  lemma {:induction false} SearchUp(proxies: seq<Url>, failures: Failures, skip: int, pos: nat, left: nat)
    requires pos < |proxies|
    requires left >= |proxies| - pos
    ensures var h, r := HealthyList(proxies, failures, skip), Rank(proxies, failures, skip, pos);
      && r <= |h|
      && (r < |h| ==> Search(proxies, failures, skip, pos, left) == Some(h[r]))
      && (r == |h| ==> Search(proxies, failures, skip, pos, left) ==
                       Search(proxies, failures, skip, 0, left - (|proxies| - pos)))
    decreases left
  {
    HealthyPrefix(proxies, failures, skip, pos, |proxies|);
    if Healthy(failures, skip, proxies[pos]) {
      RankAt(proxies, failures, skip, pos);
    } else if pos + 1 < |proxies| {
      SearchUp(proxies, failures, skip, pos + 1, left - 1);
    }
  }

  lemma {:induction false} SearchFirst(proxies: seq<Url>, failures: Failures, skip: int, from: nat, left: nat)
    requires HealthyList(proxies, failures, skip) != [] && from < |proxies|
    requires Rank(proxies, failures, skip, from) == 0
    requires from + left > HealthyList(proxies, failures, skip)[0]
    ensures Search(proxies, failures, skip, from, left) == Some(HealthyList(proxies, failures, skip)[0])
    decreases left
  {
    var h := HealthyList(proxies, failures, skip);
    HealthyListIs(proxies, failures, skip, |proxies|);
    assert h[0] in h;
    if Healthy(failures, skip, proxies[from]) {
      RankAt(proxies, failures, skip, from);
    } else {
      NotBefore(proxies, failures, skip, from);
      SearchFirst(proxies, failures, skip, from + 1, left - 1);
    }
  }

  /** With no healthy entry before `from`, and `from` not healthy, the first one is further on. */
  lemma NotBefore(proxies: seq<Url>, failures: Failures, skip: int, from: nat)
    requires HealthyList(proxies, failures, skip) != [] && from < |proxies|
    requires Rank(proxies, failures, skip, from) == 0 && !Healthy(failures, skip, proxies[from])
    ensures from < HealthyList(proxies, failures, skip)[0] < |proxies|
    ensures Rank(proxies, failures, skip, from + 1) == 0
  {
    var h := HealthyList(proxies, failures, skip);
    HealthyListIs(proxies, failures, skip, |proxies|);
    HealthyListIs(proxies, failures, skip, from);
    assert h[0] in h;
    assert h[0] in HealthyBefore(proxies, failures, skip, from) <==> h[0] < from;
  }

  /** A search round the whole cycle finds the healthy entry whose turn it is. */
  lemma SearchByRank(proxies: seq<Url>, failures: Failures, skip: int, pos: nat)
    requires pos < |proxies| && HealthyList(proxies, failures, skip) != []
    ensures var h, r := HealthyList(proxies, failures, skip), Rank(proxies, failures, skip, pos);
      r <= |h| && Search(proxies, failures, skip, pos, |proxies|) == Some(h[if r == |h| then 0 else r])
  {
    var h, r := HealthyList(proxies, failures, skip), Rank(proxies, failures, skip, pos);
    SearchUp(proxies, failures, skip, pos, |proxies|);
    if r == |h| {
      HealthyListIs(proxies, failures, skip, |proxies|);
      HealthyListIs(proxies, failures, skip, pos);
      HealthyPrefix(proxies, failures, skip, pos, |proxies|);
      assert h[0] in HealthyBefore(proxies, failures, skip, pos);
      SearchFirst(proxies, failures, skip, 0, pos);
    }
  }

  lemma {:induction false} SearchNothing(proxies: seq<Url>, failures: Failures, skip: int, pos: nat, left: nat)
    requires pos < |proxies| && forall p :: 0 <= p < |proxies| ==> !Healthy(failures, skip, proxies[p])
    ensures Search(proxies, failures, skip, pos, left) == None
    decreases left
  {
    if left > 0 {
      SearchNothing(proxies, failures, skip, Following(proxies, pos), left - 1);
    }
  }

  // ---- A run of calls with unchanged failure counts ----

  /** The entry whose turn it is, counted among the healthy ones. */
  function Turn(proxies: seq<Url>, failures: Failures, skip: int, pos: nat): nat
    requires pos < |proxies|
  {
    var r := Rank(proxies, failures, skip, pos);
    if r == |HealthyList(proxies, failures, skip)| then 0 else r
  }

  /** The cycle position before the `k`-th call. */
  function PosAt(proxies: seq<Url>, failures: Failures, skip: int, pos: nat, k: nat): (p: nat)
    requires pos < |proxies|
    ensures p < |proxies|
  {
    if k == 0 then pos
    else
      var p := PosAt(proxies, failures, skip, pos, k - 1);
      var found := Search(proxies, failures, skip, p, |proxies|);
      Following(proxies, if found.Some? then found.value else p)
  }

  /** After an entry has been handed out it is the next one's turn. */
  lemma TurnAdvances(proxies: seq<Url>, failures: Failures, skip: int, pos: nat)
    requires pos < |proxies| && HealthyList(proxies, failures, skip) != []
    ensures var h, t := HealthyList(proxies, failures, skip), Turn(proxies, failures, skip, pos);
      && t < |h| && Search(proxies, failures, skip, pos, |proxies|) == Some(h[t])
      && Turn(proxies, failures, skip, Following(proxies, h[t])) == if t + 1 == |h| then 0 else t + 1
  {
    var h, t := HealthyList(proxies, failures, skip), Turn(proxies, failures, skip, pos);
    SearchByRank(proxies, failures, skip, pos);
    HealthyListIs(proxies, failures, skip, |proxies|);
    assert h[t] in h;
    RankAt(proxies, failures, skip, h[t]);
    RankIs(proxies, failures, skip, t);
  }

  lemma RankIs(proxies: seq<Url>, failures: Failures, skip: int, t: nat)
    requires t < |HealthyList(proxies, failures, skip)|
    ensures var p := HealthyList(proxies, failures, skip)[t];
      p < |proxies| && Rank(proxies, failures, skip, p) == t && Rank(proxies, failures, skip, p + 1) == t + 1
  {
    var h := HealthyList(proxies, failures, skip);
    HealthyListIs(proxies, failures, skip, |proxies|);
    assert h[t] in h;
    RankAt(proxies, failures, skip, h[t]);
    var r := Rank(proxies, failures, skip, h[t]);
    assert h[r] == h[t];
  }

  /** Successive calls enumerate the healthy entries cyclically. */
  lemma {:induction false} Rotation(proxies: seq<Url>, failures: Failures, skip: int, pos: nat, k: nat)
    requires pos < |proxies| && HealthyList(proxies, failures, skip) != []
    ensures var h := HealthyList(proxies, failures, skip);
      var p, t := PosAt(proxies, failures, skip, pos, k), Remainder(Turn(proxies, failures, skip, pos) + k, |h|);
      && Turn(proxies, failures, skip, p) == t
      && Search(proxies, failures, skip, p, |proxies|) == Some(h[t])
  {
    var h := HealthyList(proxies, failures, skip);
    var t0 := Turn(proxies, failures, skip, pos);
    TurnAdvances(proxies, failures, skip, PosAt(proxies, failures, skip, pos, k));
    if k > 0 {
      Rotation(proxies, failures, skip, pos, k - 1);
      TurnAdvances(proxies, failures, skip, PosAt(proxies, failures, skip, pos, k - 1));
      if |h| > 1 {
        RemainderPlus(t0 + k - 1, 1, |h|);
      }
    }
  }

  /** What the `k`-th call hands out: a position in the list. */
  function Handed(proxies: seq<Url>, failures: Failures, skip: int, pos: nat, k: nat): Option<nat>
    requires pos < |proxies|
  {
    Search(proxies, failures, skip, PosAt(proxies, failures, skip, pos, k), |proxies|)
  }

  /** Any h consecutive calls, h the number of healthy entries, hand out each healthy entry exactly once. */
  lemma EachOnce(proxies: seq<Url>, failures: Failures, skip: int, pos: nat, m: nat, p: nat) returns (k: nat)
    requires pos < |proxies| && p < |proxies| && Healthy(failures, skip, proxies[p])
    ensures var h := |HealthyList(proxies, failures, skip)|;
      && m <= k < m + h && Handed(proxies, failures, skip, pos, k) == Some(p)
      && forall j: nat :: m <= j < m + h && Handed(proxies, failures, skip, pos, j) == Some(p) ==> j == k
  {
    var list, t0 := HealthyList(proxies, failures, skip), Turn(proxies, failures, skip, pos);
    var h := |list|;
    RankAt(proxies, failures, skip, p);
    var i := Rank(proxies, failures, skip, p);
    var turn := TurnComes(t0 + m, i, h);
    k := turn - t0;
    Rotation(proxies, failures, skip, pos, k);
    forall j: nat | m <= j < m + h && Handed(proxies, failures, skip, pos, j) == Some(p) ensures j == k {
      if j <= k {
        NotTwice(proxies, failures, skip, pos, j, k);
      } else {
        NotTwice(proxies, failures, skip, pos, k, j);
      }
    }
  }

  lemma NotTwice(proxies: seq<Url>, failures: Failures, skip: int, pos: nat, j: nat, k: nat)
    requires pos < |proxies| && HealthyList(proxies, failures, skip) != []
    requires j <= k < j + |HealthyList(proxies, failures, skip)|
    requires Handed(proxies, failures, skip, pos, j) == Handed(proxies, failures, skip, pos, k)
    ensures j == k
  {
    var list, t0 := HealthyList(proxies, failures, skip), Turn(proxies, failures, skip, pos);
    HealthyListIs(proxies, failures, skip, |proxies|);
    Rotation(proxies, failures, skip, pos, j);
    Rotation(proxies, failures, skip, pos, k);
    RemainderOnce(t0 + j, t0 + k, |list|);
  }

  // ---- What makes an entry healthy ----

  datatype Report = Failed(url: Url) | Succeeded(url: Url)

  /** The counts after a series of reports. */
  function Counts(reports: seq<Report>): Failures {
    if reports == [] then map[]
    else
      var before := Counts(reports[..|reports| - 1]);
      match reports[|reports| - 1]
      case Failed(url) => before[url := FailureCount(before, url) + 1]
      case Succeeded(url) => before - {url}
  }

  /** The failures reported for `url` since its last success. */
  function FailuresSince(reports: seq<Report>, url: Url): nat {
    if reports == [] then 0
    else
      var last, before := reports[|reports| - 1], FailuresSince(reports[..|reports| - 1], url);
      if last == Succeeded(url) then 0 else if last == Failed(url) then before + 1 else before
  }

  /** An entry is skipped exactly when it failed at least the configured number of times since its last success. */
  lemma HealthyExactly(reports: seq<Report>, skip: int, url: Url)
    ensures Healthy(Counts(reports), skip, url) <==> FailuresSince(reports, url) < skip
  {
    CountIs(reports, url);
  }

  lemma {:induction false} CountIs(reports: seq<Report>, url: Url)
    ensures FailureCount(Counts(reports), url) == FailuresSince(reports, url)
  {
    if reports != [] {
      CountIs(reports[..|reports| - 1], url);
    }
  }

  class ListProxy {
    const proxies: seq<Url>
    const skip: int
    var pos: nat
    var failures: Failures

    ghost predicate Valid()
      reads this
    {
      pos < |proxies|
    }

    constructor (proxies: seq<Url>, skip: int)
      requires proxies != []
      ensures Valid() && this.proxies == proxies && this.skip == skip && pos == 0 && failures == map[]
    {
      this.proxies, this.skip := proxies, skip;
      pos, failures := 0, map[];
    }

    /** An empty list is refused. */
    static method Create(proxies: seq<Url>, skip: int) returns (r: Option<ListProxy>)
      ensures r.Some? <==> proxies != []
      ensures r.Some? ==> fresh(r.value) && r.value.Valid() && r.value.proxies == proxies && r.value.skip == skip
      ensures r.Some? ==> r.value.pos == 0 && r.value.failures == map[]
    {
      if proxies == [] {
        return None;
      }
      var list := new ListProxy(proxies, skip);
      return Some(list);
    }

    /** The next healthy entry; if there is none, all counts are forgotten and the next entry is handed out. */
    method Get() returns (url: Url)
      requires Valid()
      modifies this
      ensures Valid()
      ensures var found := Search(proxies, old(failures), skip, old(pos), |proxies|);
        && (found.Some? ==> url == proxies[found.value] && pos == Following(proxies, found.value) && failures == old(failures))
        && (found.None? ==> url == proxies[old(pos)] && pos == Following(proxies, old(pos)) && failures == map[])
      ensures (exists p :: 0 <= p < |proxies| && Healthy(old(failures), skip, proxies[p])) ==> Healthy(old(failures), skip, url)
    {
      SearchFinds(proxies, failures, skip, pos);
      var first := pos;
      for i := 0 to |proxies|
        invariant Valid() && failures == old(failures)
        invariant pos == if first + i < |proxies| then first + i else first + i - |proxies|
        invariant Search(proxies, failures, skip, first, |proxies|) == Search(proxies, failures, skip, pos, |proxies| - i)
      {
        var candidate := proxies[pos];
        ghost var here := pos;
        pos := Following(proxies, pos);
        if FailureCount(failures, candidate) < skip {
          return candidate;
        }
      }
      failures := map[];
      url := proxies[pos];
      pos := Following(proxies, pos);
    }

    method ReportFailure(url: Url)
      modifies this
      ensures pos == old(pos) && failures == old(failures)[url := FailureCount(old(failures), url) + 1]
    {
      failures := failures[url := FailureCount(failures, url) + 1];
    }

    method ReportSuccess(url: Url)
      modifies this
      ensures pos == old(pos) && failures == old(failures) - {url} && FailureCount(failures, url) == 0
    {
      failures := failures - {url};
    }
  }

  /** The search fails exactly when no entry is healthy. */
  lemma SearchFinds(proxies: seq<Url>, failures: Failures, skip: int, pos: nat)
    requires pos < |proxies|
    ensures Search(proxies, failures, skip, pos, |proxies|).Some? <==>
      exists p :: 0 <= p < |proxies| && Healthy(failures, skip, proxies[p])
  {
    if p :| 0 <= p < |proxies| && Healthy(failures, skip, proxies[p]) {
      RankAt(proxies, failures, skip, p);
      SearchByRank(proxies, failures, skip, pos);
    } else {
      SearchNothing(proxies, failures, skip, pos, |proxies|);
    }
  }
}
