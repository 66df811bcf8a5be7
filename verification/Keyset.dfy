/**
 * Keyset pagination: newest first, seek strictly past the last key, one extra row tells whether
 * there is more (gateway/features/auth/store/memory.py, gateway/shared/db/repo.py).
 */
module Keyset {
  import opened Wrappers

  /** The order of a listing: creation time first, then id by code point. */
  datatype Key = Key(at: int, id: string)

  predicate TextLess(a: string, b: string) {
    b != "" && (a == "" || a[0] < b[0] || (a[0] == b[0] && TextLess(a[1..], b[1..])))
  }

  predicate Less(a: Key, b: Key) {
    a.at < b.at || (a.at == b.at && TextLess(a.id, b.id))
  }

  lemma {:induction false} TextTotal(a: string, b: string)
    ensures TextLess(a, b) || a == b || TextLess(b, a)
  {
    if a != "" && b != "" && a[0] == b[0] {
      TextTotal(a[1..], b[1..]);
      assert a == [a[0]] + a[1..] && b == [b[0]] + b[1..];
    }
  }

  lemma {:induction false} TextAsymmetric(a: string, b: string)
    requires TextLess(a, b)
    ensures !TextLess(b, a)
  {
    if a != "" && a[0] == b[0] {
      TextAsymmetric(a[1..], b[1..]);
    }
  }

  lemma {:induction false} TextTransitive(a: string, b: string, c: string)
    requires TextLess(a, b) && TextLess(b, c)
    ensures TextLess(a, c)
  {
    if a != "" && a[0] == b[0] == c[0] {
      TextTransitive(a[1..], b[1..], c[1..]);
    }
  }

  /** The keys are strictly and totally ordered. */
  lemma LessOrders()
    ensures forall a, b :: Less(a, b) || a == b || Less(b, a)
    ensures forall a, b :: Less(a, b) ==> !Less(b, a)
    ensures forall a, b, c :: Less(a, b) && Less(b, c) ==> Less(a, c)
  {
    forall a, b ensures Less(a, b) || a == b || Less(b, a) {
      TextTotal(a.id, b.id);
    }
    forall a, b | Less(a, b) ensures !Less(b, a) {
      if a.at == b.at {
        TextAsymmetric(a.id, b.id);
      }
    }
    forall a, b, c | Less(a, b) && Less(b, c) ensures Less(a, c) {
      if a.at == b.at == c.at {
        TextTransitive(a.id, b.id, c.id);
      }
    }
  }

  lemma LessTransitive(a: Key, b: Key, c: Key)
    requires Less(a, b) && (b == c || Less(b, c))
    ensures Less(a, c)
  {
    if b != c && a.at == b.at == c.at {
      TextTransitive(a.id, b.id, c.id);
    }
  }

  lemma LessAsymmetric(a: Key, b: Key)
    requires Less(a, b)
    ensures a != b && !Less(b, a)
  {
    if a.at == b.at {
      TextAsymmetric(a.id, b.id);
    }
  }

  datatype Row<+T> = Row(key: Key, value: T)

  ghost predicate Descending<T>(rows: seq<Row<T>>) {
    forall i, j :: 0 <= i < j < |rows| ==> Less(rows[j].key, rows[i].key)
  }

  ghost predicate SameRows<T(!new)>(a: seq<Row<T>>, b: seq<Row<T>>) {
    forall r :: r in a <==> r in b
  }

  ghost predicate DistinctKeys<T>(rows: seq<Row<T>>) {
    forall i, j :: 0 <= i < j < |rows| ==> rows[i].key != rows[j].key
  }

  // ---- Sorting ----

  /** Put a row into a newest-first listing. */
  function Insert<T>(row: Row<T>, rows: seq<Row<T>>): seq<Row<T>> {
    if rows == [] || Less(rows[0].key, row.key) then [row] + rows else [rows[0]] + Insert(row, rows[1..])
  }

  function Sort<T>(rows: seq<Row<T>>): seq<Row<T>> {
    if rows == [] then [] else Insert(rows[0], Sort(rows[1..]))
  }

  lemma {:induction false} InsertIs<T(!new)>(row: Row<T>, rows: seq<Row<T>>)
    requires Descending(rows) && forall r :: r in rows ==> r.key != row.key
    ensures Descending(Insert(row, rows)) && |Insert(row, rows)| == |rows| + 1
    ensures forall r :: r in Insert(row, rows) <==> r == row || r in rows
  {
    LessOrders();
    if rows != [] && !Less(rows[0].key, row.key) {
      InsertIs(row, rows[1..]);
      var rest := Insert(row, rows[1..]);
      forall i | 0 <= i < |rest| ensures Less(rest[i].key, rows[0].key) {
        assert rest[i] in rest;
      }
    }
  }

  /** Sorting keeps exactly the rows, newest first. */
  lemma {:induction false} SortIs<T(!new)>(rows: seq<Row<T>>)
    requires DistinctKeys(rows)
    ensures Descending(Sort(rows)) && |Sort(rows)| == |rows| && SameRows(Sort(rows), rows)
  {
    if rows != [] {
      SortIs(rows[1..]);
      forall r | r in Sort(rows[1..]) ensures r.key != rows[0].key {
        assert r in rows[1..];
      }
      InsertIs(rows[0], Sort(rows[1..]));
    }
  }

  /** A set of rows has one newest-first listing. */
  lemma {:induction false} DescendingUnique<T(!new)>(a: seq<Row<T>>, b: seq<Row<T>>)
    requires Descending(a) && Descending(b) && SameRows(a, b)
    ensures a == b
  {
    LessOrders();
    assert (a == [] || a[0] in b) && (b == [] || b[0] in a);
    if a != [] {
      assert a[0] == b[0];
      forall r ensures r in a[1..] <==> r in b[1..] {
        assert r in a[1..] ==> r in a && r != a[0];
        assert r in b[1..] ==> r in b && r != b[0];
      }
      DescendingUnique(a[1..], b[1..]);
    }
  }

  /** Ids are compared by code point: at the first difference, and a prefix comes first. */
  lemma {:induction false} ByCodePoint(prefix: string, a: string, b: string)
    requires b != "" && (a == "" || a[0] < b[0])
    ensures TextLess(prefix + a, prefix + b)
  {
    if prefix == "" {
      assert prefix + a == a && prefix + b == b;
    } else {
      ByCodePoint(prefix[1..], a, b);
      assert (prefix + a)[1..] == prefix[1..] + a && (prefix + b)[1..] == prefix[1..] + b;
    }
  }

  /** A listing is newest first; rows made at the same time come by descending id. */
  lemma NewestFirst<T(!new)>(rows: seq<Row<T>>, i: nat, j: nat)
    requires DistinctKeys(rows) && i < j < |rows|
    ensures |Sort(rows)| == |rows|
    ensures var first, second := Sort(rows)[i].key, Sort(rows)[j].key;
      first.at > second.at || (first.at == second.at && TextLess(second.id, first.id))
  {
    SortIs(rows);
  }

  // ---- One page ----

  predicate Passes(key: Key, anchor: Option<Key>) {
    anchor.None? || Less(key, anchor.value)
  }

  function Below<T>(rows: seq<Row<T>>, anchor: Option<Key>): seq<Row<T>> {
    if rows == [] then []
    else if Passes(rows[0].key, anchor) then [rows[0]] + Below(rows[1..], anchor)
    else Below(rows[1..], anchor)
  }

  lemma {:induction false} BelowIs<T(!new)>(rows: seq<Row<T>>, anchor: Option<Key>)
    requires Descending(rows)
    ensures Descending(Below(rows, anchor)) && |Below(rows, anchor)| <= |rows|
    ensures forall r :: r in Below(rows, anchor) <==> r in rows && Passes(r.key, anchor)
  {
    if rows != [] {
      BelowIs(rows[1..], anchor);
      var rest := Below(rows[1..], anchor);
      forall i | 0 <= i < |rest| ensures Less(rest[i].key, rows[0].key) {
        assert rest[i] in rest;
      }
    }
  }

  datatype Page<+T> = Page(data: seq<Row<T>>, hasMore: bool, next: Option<Key>)

  /** Cut a page off the rows at hand. */
  function PageOf<T>(window: seq<Row<T>>, limit: nat): Page<T> {
    if |window| > limit
    then Page(window[..limit], true, if limit > 0 then Some(window[limit - 1].key) else None)
    else Page(window, false, None)
  }

  /** The page after `anchor` in a newest-first listing. */
  function PageAfter<T>(list: seq<Row<T>>, limit: nat, anchor: Option<Key>): Page<T> {
    PageOf(Below(list, anchor), limit)
  }

  /** `_paginate`: sort, seek, slice. */
  function Paginate<T>(rows: seq<Row<T>>, limit: nat, anchor: Option<Key>): Page<T> {
    PageAfter(Sort(rows), limit, anchor)
  }

  // ---- The database pager ----

  /** What `WHERE key < anchor ORDER BY key DESC LIMIT n` may return. */
  ghost predicate IsFetch<T(!new)>(rows: seq<Row<T>>, anchor: Option<Key>, n: nat, out: seq<Row<T>>) {
    && Descending(out) && |out| <= n
    && (forall r :: r in out ==> r in rows && Passes(r.key, anchor))
    && (forall r :: r in rows && Passes(r.key, anchor) && r !in out ==>
          |out| == n && forall o :: o in out ==> Less(r.key, o.key))
  }

  lemma AtMostOnce<T>(rows: seq<Row<T>>, i: nat, j: nat)
    requires Descending(rows) && i < |rows| && j < |rows| && rows[i].key == rows[j].key
    ensures i == j
  {
    if i < j {
      LessAsymmetric(rows[j].key, rows[i].key);
    } else if j < i {
      LessAsymmetric(rows[i].key, rows[j].key);
    }
  }

  /** The rows fetched are the first ones of the window. */
  lemma {:induction false} FetchPrefix<T(!new)>(
      rows: seq<Row<T>>, anchor: Option<Key>, n: nat, out: seq<Row<T>>, w: seq<Row<T>>, i: nat)
    requires IsFetch(rows, anchor, n, out) && Descending(w) && i <= |out|
    requires forall r :: r in w <==> r in rows && Passes(r.key, anchor)
    ensures i <= |w| && forall k :: 0 <= k < i ==> out[k] == w[k]
  {
    if i > 0 {
      FetchPrefix(rows, anchor, n, out, w, i - 1);
      var k := i - 1;
      assert out[k] in out;
      var j :| 0 <= j < |w| && w[j] == out[k];
      if j < k {
        AtMostOnce(out, j, k);
      } else if j > k {
        LessAsymmetric(w[j].key, w[k].key);
        assert w[k] in w;
        assert w[k] in out;
        var m :| 0 <= m < |out| && out[m] == w[k];
        if m < k {
          AtMostOnce(w, m, k);
        }
      }
    }
  }

  lemma FetchIs<T(!new)>(rows: seq<Row<T>>, anchor: Option<Key>, n: nat, out: seq<Row<T>>, w: seq<Row<T>>)
    requires IsFetch(rows, anchor, n, out) && Descending(w)
    requires forall r :: r in w <==> r in rows && Passes(r.key, anchor)
    ensures out == w[..Min(n, |w|)]
  {
    FetchPrefix(rows, anchor, n, out, w, |out|);
    if |out| < |w| {
      var r := w[|out|];
      if r in out {
        var m :| 0 <= m < |out| && out[m] == r;
        AtMostOnce(w, m, |out|);
      }
      assert r in w;
    }
  }

  /** One row more than the page is all it takes to cut the page. */
  lemma PageOfPrefix<T>(w: seq<Row<T>>, limit: nat)
    ensures PageOf(w[..Min(limit + 1, |w|)], limit) == PageOf(w, limit)
  {
    if |w| > limit {
      assert w[..limit + 1][..limit] == w[..limit];
    }
  }

  /** Fetching limit + 1 rows from the database gives the page the in-memory pager gives. */
  lemma SqlPageAgrees<T(!new)>(rows: seq<Row<T>>, limit: nat, anchor: Option<Key>, out: seq<Row<T>>)
    requires DistinctKeys(rows) && IsFetch(rows, anchor, limit + 1, out)
    ensures PageOf(out, limit) == Paginate(rows, limit, anchor)
  {
    var w := Below(Sort(rows), anchor);
    assert out == w[..Min(limit + 1, |w|)] by {
      SortIs(rows);
      BelowIs(Sort(rows), anchor);
      FetchIs(rows, anchor, limit + 1, out, w);
    }
    PageOfPrefix(w, limit);
  }

  // ---- Following cursors ----

  /** The cursor of a page leads to exactly the rows after that page. */
  lemma NextWindow<T(!new)>(list: seq<Row<T>>, limit: nat, anchor: Option<Key>)
    requires Descending(list)
    ensures var w, page := Below(list, anchor), PageAfter(list, limit, anchor);
      page.next.Some? ==> limit > 0 && |w| > limit && Below(list, page.next) == w[limit..]
  {
    var w, next := Below(list, anchor), PageAfter(list, limit, anchor).next;
    if next.Some? {
      BelowIs(list, anchor);
      BelowIs(list, next);
      LessOrders();
      forall r ensures r in Below(list, next) <==> r in w[limit..] {
        if r in w {
          var i :| 0 <= i < |w| && w[i] == r;
          assert r in w[limit..] <==> i >= limit by {
            if i >= limit {
              assert w[limit..][i - limit] == r;
            }
          }
        }
        if r in list && Less(r.key, next.value) {
          assert w[limit - 1] in w;
        }
      }
      DescendingUnique(Below(list, next), w[limit..]);
    }
  }

  /** Every page a client gets by following cursors on an unchanging store. */
  function Walk<T(!new)>(list: seq<Row<T>>, limit: nat, anchor: Option<Key>): seq<Page<T>>
    requires Descending(list)
    decreases |Below(list, anchor)|
  {
    var page := PageAfter(list, limit, anchor);
    NextWindow(list, limit, anchor);
    if page.hasMore && page.next.Some? then [page] + Walk(list, limit, page.next) else [page]
  }

  function Data<T>(pages: seq<Page<T>>): seq<Row<T>> {
    if pages == [] then [] else pages[0].data + Data(pages[1..])
  }

  /** All pages but the last are full and say there is more; the last says there is none. */
  ghost predicate WellCut<T>(pages: seq<Page<T>>, limit: nat) {
    && pages != []
    && !pages[|pages| - 1].hasMore && |pages[|pages| - 1].data| <= limit
    && forall i :: 0 <= i < |pages| - 1 ==> pages[i].hasMore && |pages[i].data| == limit
  }

  lemma FullPageFirst<T>(page: Page<T>, rest: seq<Page<T>>, limit: nat)
    requires WellCut(rest, limit) && page.hasMore && |page.data| == limit
    ensures WellCut([page] + rest, limit) && Data([page] + rest) == page.data + Data(rest)
  {
    assert ([page] + rest)[1..] == rest;
  }

  lemma {:induction false} WalkCovers<T(!new)>(list: seq<Row<T>>, limit: nat, anchor: Option<Key>)
    requires Descending(list) && limit >= 1
    ensures Data(Walk(list, limit, anchor)) == Below(list, anchor)
    ensures WellCut(Walk(list, limit, anchor), limit)
    decreases |Below(list, anchor)|
  {
    var page, w := PageAfter(list, limit, anchor), Below(list, anchor);
    NextWindow(list, limit, anchor);
    if page.hasMore {
      WalkCovers(list, limit, page.next);
      FullPageFirst(page, Walk(list, limit, page.next), limit);
      assert w == w[..limit] + w[limit..];
    } else {
      assert Walk(list, limit, anchor) == [page] && [page][1..] == [];
    }
  }

  lemma {:induction false} BelowNothing<T>(rows: seq<Row<T>>)
    ensures Below(rows, None) == rows
  {
    if rows != [] {
      BelowNothing(rows[1..]);
    }
  }

  const MAX_LIMIT := 200

  /** The page size a request is given. */
  function Clamp(v: int): (limit: nat)
    ensures 1 <= limit <= MAX_LIMIT && (1 <= v <= MAX_LIMIT ==> limit == v)
  {
    Max(1, Min(v, MAX_LIMIT))
  }

  /** Whatever page size is asked for, following cursors ends and delivers every row once, newest first. */
  lemma PagesAreTheListing<T(!new)>(rows: seq<Row<T>>, requested: int)
    requires DistinctKeys(rows)
    ensures Descending(Sort(rows)) && SameRows(Sort(rows), rows)
    ensures Data(Walk(Sort(rows), Clamp(requested), None)) == Sort(rows)
    ensures WellCut(Walk(Sort(rows), Clamp(requested), None), Clamp(requested))
  {
    SortIs(rows);
    BelowNothing(Sort(rows));
    WalkCovers(Sort(rows), Clamp(requested), None);
  }

  // ---- A scan over a store that changes between fetches ----

  /** The page fetched in round `i` is the one after the cursor of the page before. */
  ghost predicate Fetched<T>(lists: seq<seq<Row<T>>>, limit: nat, pages: seq<Page<T>>, i: nat)
    requires i < |pages| == |lists|
  {
    && Descending(lists[i])
    && pages[i] == PageAfter(lists[i], limit, AnchorAt(pages, i))
    && (i > 0 ==> pages[i - 1].next.Some?)
  }

  /** Page by page, each fetched from the listing of that moment. */
  ghost predicate IsScan<T>(lists: seq<seq<Row<T>>>, limit: nat, pages: seq<Page<T>>) {
    |pages| == |lists| && forall i :: 0 <= i < |lists| ==> Fetched(lists, limit, pages, i)
  }

  function AnchorAt<T>(pages: seq<Page<T>>, i: nat): Option<Key>
    requires i <= |pages|
  {
    if i == 0 then None else pages[i - 1].next
  }

  lemma MorePages<T>(lists: seq<seq<Row<T>>>, limit: nat, pages: seq<Page<T>>, list: seq<Row<T>>)
    requires IsScan(lists, limit, pages) && Descending(list)
    requires pages != [] ==> pages[|pages| - 1].next.Some?
    ensures IsScan(lists + [list], limit, pages + [PageAfter(list, limit, AnchorAt(pages, |pages|))])
  {
    var lists', pages' := lists + [list], pages + [PageAfter(list, limit, AnchorAt(pages, |pages|))];
    forall i | 0 <= i < |lists'| ensures Fetched(lists', limit, pages', i) {
      if i < |lists| {
        assert Fetched(lists, limit, pages, i);
      }
      assert AnchorAt(pages', i) == AnchorAt(pages, i);
    }
  }

  /** What the first `n` pages delivered. */
  function Yield<T>(pages: seq<Page<T>>, n: nat): seq<Row<T>>
    requires n <= |pages|
  {
    if n == 0 then [] else Yield(pages, n - 1) + pages[n - 1].data
  }

  ghost predicate AllAbove<T(!new)>(rows: seq<Row<T>>, key: Key) {
    forall r :: r in rows ==> r.key == key || Less(key, r.key)
  }

  lemma PageIs<T(!new)>(list: seq<Row<T>>, limit: nat, anchor: Option<Key>)
    requires Descending(list)
    ensures var page := PageAfter(list, limit, anchor);
      && Descending(page.data)
      && (forall r :: r in page.data ==> r in list && Passes(r.key, anchor))
      && (page.next.Some? ==> page.data != [] && AllAbove(page.data, page.next.value) && Passes(page.next.value, anchor))
  {
    BelowIs(list, anchor);
    var w, page := Below(list, anchor), PageAfter(list, limit, anchor);
    assert forall r :: r in page.data ==> r in w;
    if page.next.Some? {
      assert page.data[limit - 1] in page.data;
    }
  }

  lemma AboveAll<T(!new)>(rows: seq<Row<T>>, key: Key, anchor: Key)
    requires AllAbove(rows, anchor) && Less(key, anchor)
    ensures forall r :: r in rows ==> Less(key, r.key)
  {
    forall r | r in rows ensures Less(key, r.key) {
      LessTransitive(key, anchor, r.key);
    }
  }

  lemma Appended<T(!new)>(before: seq<Row<T>>, data: seq<Row<T>>, anchor: Key)
    requires Descending(before) && Descending(data) && AllAbove(before, anchor)
    requires forall r :: r in data ==> Less(r.key, anchor)
    ensures Descending(before + data)
  {
    var all := before + data;
    forall i, j | 0 <= i < j < |all| ensures Less(all[j].key, all[i].key) {
      if i < |before| <= j {
        assert all[j] in data && all[i] in before;
        LessTransitive(all[j].key, anchor, all[i].key);
      }
    }
  }

  /** However the store changes between fetches, a scan yields strictly descending keys, so no key twice. */
  lemma {:induction false} ScanDescends<T(!new)>(lists: seq<seq<Row<T>>>, limit: nat, pages: seq<Page<T>>, n: nat)
    requires IsScan(lists, limit, pages) && n <= |pages|
    ensures Descending(Yield(pages, n))
    ensures AnchorAt(pages, n).Some? ==> AllAbove(Yield(pages, n), AnchorAt(pages, n).value)
  {
    if n > 0 {
      ScanDescends(lists, limit, pages, n - 1);
      assert Fetched(lists, limit, pages, n - 1);
      PageIs(lists[n - 1], limit, AnchorAt(pages, n - 1));
      if n > 1 {
        var anchor := AnchorAt(pages, n - 1).value;
        Appended(Yield(pages, n - 1), pages[n - 1].data, anchor);
        if pages[n - 1].next.Some? {
          AboveAll(Yield(pages, n - 1), pages[n - 1].next.value, anchor);
        }
      }
    }
  }

  lemma {:induction false} YieldedBy<T(!new)>(pages: seq<Page<T>>, n: nat, r: Row<T>) returns (i: nat)
    requires n <= |pages| && r in Yield(pages, n)
    ensures i < n && r in pages[i].data
  {
    if r in pages[n - 1].data {
      i := n - 1;
    } else {
      i := YieldedBy(pages, n - 1, r);
    }
  }

  /** Every row delivered was listed when it was fetched. */
  lemma ScanSound<T(!new)>(lists: seq<seq<Row<T>>>, limit: nat, pages: seq<Page<T>>, r: Row<T>) returns (i: nat)
    requires IsScan(lists, limit, pages) && r in Yield(pages, |pages|)
    ensures i < |lists| && r in lists[i]
  {
    i := YieldedBy(pages, |pages|, r);
    assert Fetched(lists, limit, pages, i);
    PageIs(lists[i], limit, AnchorAt(pages, i));
  }

  ghost predicate Lists<T(!new)>(rows: seq<Row<T>>, key: Key) {
    exists r :: r in rows && r.key == key
  }

  /** A listed key past the anchor is on the page or past its cursor. */
  lemma PageReaches<T(!new)>(list: seq<Row<T>>, limit: nat, anchor: Option<Key>, key: Key)
    requires Descending(list) && limit >= 1 && Lists(list, key) && Passes(key, anchor)
    ensures var page := PageAfter(list, limit, anchor);
      Lists(page.data, key) || (page.next.Some? && Less(key, page.next.value))
  {
    BelowIs(list, anchor);
    var r :| r in list && r.key == key;
    var w, page := Below(list, anchor), PageAfter(list, limit, anchor);
    var j :| 0 <= j < |w| && w[j] == r;
    if j < |page.data| {
      assert page.data[j] == r;
    }
  }

  lemma {:induction false} ScanReaches<T(!new)>(
      lists: seq<seq<Row<T>>>, limit: nat, pages: seq<Page<T>>, n: nat, key: Key)
    requires IsScan(lists, limit, pages) && limit >= 1 && n <= |pages|
    requires forall i :: 0 <= i < n ==> Lists(lists[i], key)
    ensures Lists(Yield(pages, n), key) || (n > 0 ==> pages[n - 1].next.Some? && Less(key, pages[n - 1].next.value))
  {
    if n > 0 {
      ScanReaches(lists, limit, pages, n - 1, key);
      assert Fetched(lists, limit, pages, n - 1);
      var before, data := Yield(pages, n - 1), pages[n - 1].data;
      if Lists(before, key) {
        var r :| r in before && r.key == key;
        assert r in Yield(pages, n);
      } else {
        PageReaches(lists[n - 1], limit, AnchorAt(pages, n - 1), key);
        if Lists(data, key) {
          var r :| r in data && r.key == key;
          assert r in Yield(pages, n);
        }
      }
    }
  }

  /** A key listed at every fetch of a finished scan is delivered, and exactly once. */
  lemma ScanDelivers<T(!new)>(lists: seq<seq<Row<T>>>, limit: nat, pages: seq<Page<T>>, key: Key) returns (i: nat)
    requires IsScan(lists, limit, pages) && limit >= 1
    requires pages != [] && pages[|pages| - 1].next.None?
    requires forall k :: 0 <= k < |lists| ==> Lists(lists[k], key)
    ensures i < |Yield(pages, |pages|)| && Yield(pages, |pages|)[i].key == key
    ensures forall j :: 0 <= j < |Yield(pages, |pages|)| && Yield(pages, |pages|)[j].key == key ==> j == i
  {
    ScanReaches(lists, limit, pages, |pages|, key);
    ScanDescends(lists, limit, pages, |pages|);
    i := TheOne(Yield(pages, |pages|), key);
  }

  lemma TheOne<T(!new)>(rows: seq<Row<T>>, key: Key) returns (i: nat)
    requires Descending(rows) && Lists(rows, key)
    ensures i < |rows| && rows[i].key == key
    ensures forall j :: 0 <= j < |rows| && rows[j].key == key ==> j == i
  {
    i :| 0 <= i < |rows| && rows[i].key == key;
    forall j | 0 <= j < |rows| && rows[j].key == key ensures j == i {
      AtMostOnce(rows, i, j);
    }
  }
}
