/** The in-memory account store and its full scan (gateway/features/auth/store/memory.py). */
module AccountStore {
  import opened Wrappers
  import opened Keyset
  import opened Cursor

  datatype Account = Account(id: string, createdAt: int, revoked: bool, profile: string)

  type Accounts = map<string, Account>

  const BATCH := 500

  function KeyOf(a: Account): Key {
    Key(a.createdAt, a.id)
  }

  function RowOf(a: Account): Row<Account> {
    Row(KeyOf(a), a)
  }

  ghost predicate Good(accounts: Accounts) {
    forall id :: id in accounts ==> accounts[id].id == id
  }

  predicate Shown(a: Account, includeRevoked: bool) {
    includeRevoked || !a.revoked
  }

  /** Rows in whatever order the dictionary has them: the accounts shown, each once. */
  ghost predicate IsRows(rows: seq<Row<Account>>, accounts: Accounts, includeRevoked: bool) {
    && DistinctKeys(rows)
    && (forall r :: r in rows <==>
          r.value.id in accounts && accounts[r.value.id] == r.value && Shown(r.value, includeRevoked) && r == RowOf(r.value))
  }

  /** A newest-first listing of the accounts shown. */
  ghost predicate IsListing(list: seq<Row<Account>>, accounts: Accounts, includeRevoked: bool) {
    Descending(list) && IsRows(list, accounts, includeRevoked)
  }

  /** There is one listing, whatever order the dictionary has. */
  lemma OneListing(rows: seq<Row<Account>>, list: seq<Row<Account>>, accounts: Accounts, includeRevoked: bool)
    requires IsRows(rows, accounts, includeRevoked) && IsListing(list, accounts, includeRevoked)
    ensures Sort(rows) == list
  {
    SortIs(rows);
    DescendingUnique(Sort(rows), list);
  }

  lemma SortLists(rows: seq<Row<Account>>, accounts: Accounts, includeRevoked: bool)
    requires IsRows(rows, accounts, includeRevoked)
    ensures IsListing(Sort(rows), accounts, includeRevoked)
  {
    SortIs(rows);
    forall i, j | 0 <= i < j < |Sort(rows)| ensures Sort(rows)[i].key != Sort(rows)[j].key {
      LessAsymmetric(Sort(rows)[j].key, Sort(rows)[i].key);
    }
  }

  /** A listing has exactly the stored accounts, the revoked ones only if they are asked for. */
  lemma ListedExactly(list: seq<Row<Account>>, accounts: Accounts, includeRevoked: bool, a: Account)
    requires IsListing(list, accounts, includeRevoked)
    ensures RowOf(a) in list <==> a.id in accounts && accounts[a.id] == a && (includeRevoked || !a.revoked)
    ensures forall r :: r in list ==> r == RowOf(r.value)
  {
  }

  /** So have the pages of a walk taken together, for every page size: no revoked account unless asked for, and every other. */
  lemma WalkListsExactly(list: seq<Row<Account>>, accounts: Accounts, includeRevoked: bool, requested: int, a: Account)
    requires IsListing(list, accounts, includeRevoked)
    ensures a in Values(Data(Walk(list, Clamp(requested), None))) <==>
      a.id in accounts && accounts[a.id] == a && (includeRevoked || !a.revoked)
  {
    BelowNothing(list);
    WalkCovers(list, Clamp(requested), None);
    ListedExactly(list, accounts, includeRevoked, a);
    if RowOf(a) in list {
      var i :| 0 <= i < |list| && list[i] == RowOf(a);
      assert Values(list)[i] == a;
    }
    if a in Values(list) {
      var i :| 0 <= i < |list| && Values(list)[i] == a;
      assert list[i] in list && list[i] == RowOf(a);
    }
  }

  lemma PageShows(list: seq<Row<Account>>, accounts: Accounts, includeRevoked: bool, limit: nat, anchor: Option<Key>)
    requires IsListing(list, accounts, includeRevoked)
    ensures forall a :: a in Values(PageAfter(list, limit, anchor).data) ==>
      a.id in accounts && accounts[a.id] == a && (includeRevoked || !a.revoked)
  {
    BelowIs(list, anchor);
    var rows := PageAfter(list, limit, anchor).data;
    forall a | a in Values(rows) ensures a.id in accounts && accounts[a.id] == a && (includeRevoked || !a.revoked) {
      var i :| 0 <= i < |rows| && Values(rows)[i] == a;
      assert rows[i] in Below(list, anchor);
    }
  }

  datatype TextPage = TextPage(data: seq<Account>, hasMore: bool, cursor: Option<string>)

  function Values(rows: seq<Row<Account>>): seq<Account> {
    seq(|rows|, i requires 0 <= i < |rows| => rows[i].value)
  }

  function ToText(codec: Codec, page: Page<Account>): TextPage {
    TextPage(Values(page.data), page.hasMore, EncodeNext(codec, page.next))
  }

  /** What writes between two fetches may do: accounts stay, with the creation time they have. */
  ghost predicate KeepsCreation(a: Accounts, b: Accounts) {
    forall id :: id in a ==> id in b && b[id].createdAt == a[id].createdAt
  }

  /** The page of a listing after a cursor, or what is wrong with the cursor. */
  function Answer(codec: Codec, list: seq<Row<Account>>, limit: nat, cursor: Option<string>): Result<TextPage, CursorError> {
    match Anchor(codec, cursor)
    case Err(e) => Err(e)
    case Ok(anchor) => Ok(ToText(codec, PageAfter(list, limit, anchor)))
  }

  class MemoryAccountStore {
    var byId: Accounts

    constructor ()
      ensures byId == map[]
    {
      byId := map[];
    }

    method Upsert(account: Account)
      modifies this
      ensures byId == old(byId)[account.id := account]
      ensures Good(old(byId)) ==> Good(byId)
      ensures account.id !in old(byId) || old(byId)[account.id].createdAt == account.createdAt ==> KeepsCreation(old(byId), byId)
    {
      byId := byId[account.id := account];
    }

    method Get(id: string) returns (r: Option<Account>)
      ensures r == if id in byId then Some(byId[id]) else None
    {
      r := if id in byId then Some(byId[id]) else None;
    }

    method Revoke(id: string)
      modifies this
      ensures byId == if id in old(byId) then old(byId)[id := old(byId)[id].(revoked := true)] else old(byId)
      ensures Good(old(byId)) ==> Good(byId)
      ensures KeepsCreation(old(byId), byId)
    {
      if id in byId {
        byId := byId[id := byId[id].(revoked := true)];
      }
    }

    /** The rows to page over, collected account by account. */
    method Collect(includeRevoked: bool) returns (rows: seq<Row<Account>>)
      requires Good(byId)
      ensures IsRows(rows, byId, includeRevoked)
    {
      rows := [];
      var left := byId.Keys;
      while left != {}
        invariant left <= byId.Keys && DistinctKeys(rows)
        invariant forall r :: r in rows <==>
          r.value.id in byId.Keys - left && byId[r.value.id] == r.value && Shown(r.value, includeRevoked) && r == RowOf(r.value)
        decreases |left|
      {
        var id :| id in left;
        if Shown(byId[id], includeRevoked) {
          forall r | r in rows ensures r.key.id != id {
            assert r == RowOf(r.value);
          }
          rows := rows + [RowOf(byId[id])];
        }
        left := left - {id};
      }
    }

    /** `page`: the page after the cursor in the one newest-first listing, or the cursor's error. */
    method Page(codec: Codec, includeRevoked: bool, limit: nat, cursor: Option<string>)
      returns (r: Result<TextPage, CursorError>)
      requires Good(byId)
      ensures exists list :: IsListing(list, byId, includeRevoked) && r == Answer(codec, list, limit, cursor)
      ensures r.Ok? ==> forall a :: a in r.value.data ==>
        a.id in byId && byId[a.id] == a && (includeRevoked || !a.revoked)
    {
      var rows := Collect(includeRevoked);
      SortLists(rows, byId, includeRevoked);
      match Anchor(codec, cursor) {
        case Err(e) => r := Err(e);
        case Ok(anchor) => r := Ok(ToText(codec, Paginate(rows, limit, anchor)));
      }
      assert r == Answer(codec, Sort(rows), limit, cursor);
      if r.Ok? {
        PageShows(Sort(rows), byId, includeRevoked, limit, Anchor(codec, cursor).value);
      }
    }
  }

  ghost predicate AreListings(lists: seq<seq<Row<Account>>>, snapshots: seq<Accounts>, includeRevoked: bool) {
    && |snapshots| == |lists|
    && (forall i :: 0 <= i < |lists| ==> IsListing(lists[i], snapshots[i], includeRevoked))
  }

  lemma MoreListings(
      lists: seq<seq<Row<Account>>>, snapshots: seq<Accounts>, includeRevoked: bool,
      list: seq<Row<Account>>, accounts: Accounts)
    requires AreListings(lists, snapshots, includeRevoked) && IsListing(list, accounts, includeRevoked)
    ensures AreListings(lists + [list], snapshots + [accounts], includeRevoked)
  {
  }

  /** The generator of `iterate_all`: one fetch at a time, with writes in between. */
  class AccountScan {
    const store: MemoryAccountStore
    const includeRevoked: bool
    var cursor: Option<string>
    var finished: bool
    ghost var snapshots: seq<Accounts>
    ghost var lists: seq<seq<Row<Account>>>
    ghost var pages: seq<Page<Account>>

    /** The pages so far form a scan over the listings of the moments they were fetched. */
    ghost predicate Valid(codec: Codec)
      reads this
    {
      && AreListings(lists, snapshots, includeRevoked) && IsScan(lists, BATCH, pages)
      && cursor == EncodeNext(codec, AnchorAt(pages, |pages|))
      && (finished <==> pages != [] && pages[|pages| - 1].next.None?)
    }

    constructor (store: MemoryAccountStore, includeRevoked: bool, ghost codec: Codec)
      ensures Valid(codec) && snapshots == [] && this.store == store && this.includeRevoked == includeRevoked
    {
      this.store, this.includeRevoked := store, includeRevoked;
      cursor, finished, snapshots, lists, pages := None, false, [], [], [];
    }

    /** Fetch the next page from the store as it is now. */
    method Fetch(codec: Codec) returns (data: seq<Account>)
      requires Lawful(codec) && Valid(codec) && !finished && Good(store.byId)
      modifies this
      ensures Valid(codec)
      ensures snapshots == old(snapshots) + [store.byId]
      ensures |pages| == |old(pages)| + 1 && pages[..|old(pages)|] == old(pages)
      ensures data == Values(pages[|old(pages)|].data)
    {
      AnchorRoundTrip(codec, AnchorAt(pages, |pages|));
      var r := store.Page(codec, includeRevoked, BATCH, cursor);
      ghost var list :| IsListing(list, store.byId, includeRevoked) && r == Answer(codec, list, BATCH, cursor);
      data := r.value.data;
      ghost var page := PageAfter(list, BATCH, AnchorAt(pages, |pages|));
      MoreListings(lists, snapshots, includeRevoked, list, store.byId);
      MorePages(lists, BATCH, pages, list);
      snapshots, lists, pages := snapshots + [store.byId], lists + [list], pages + [page];
      finished := !r.value.hasMore || r.value.cursor.None?;
      cursor := r.value.cursor;
    }
  }

  // ---- Scans over writes that keep creation times ----

  ghost predicate IsStoreScan(
      snapshots: seq<Accounts>, lists: seq<seq<Row<Account>>>, pages: seq<Page<Account>>, includeRevoked: bool)
  {
    && AreListings(lists, snapshots, includeRevoked) && IsScan(lists, BATCH, pages)
    && (forall i :: 0 <= i < |snapshots| - 1 ==> KeepsCreation(snapshots[i], snapshots[i + 1]))
  }

  lemma {:induction false} CreationFixed(snapshots: seq<Accounts>, i: nat, j: nat)
    requires i <= j < |snapshots|
    requires forall k :: 0 <= k < |snapshots| - 1 ==> KeepsCreation(snapshots[k], snapshots[k + 1])
    ensures KeepsCreation(snapshots[i], snapshots[j])
    decreases j
  {
    if i < j {
      CreationFixed(snapshots, i, j - 1);
      assert KeepsCreation(snapshots[j - 1], snapshots[j - 1 + 1]);
    }
  }

  /**
   * A scan interleaved with inserts, revokes and upserts that keep the creation time yields
   * strictly descending keys and never the same account twice.
   */
  lemma ScanNeverRepeats(
      snapshots: seq<Accounts>, lists: seq<seq<Row<Account>>>, pages: seq<Page<Account>>, includeRevoked: bool)
    requires IsStoreScan(snapshots, lists, pages, includeRevoked)
    ensures Descending(Yield(pages, |pages|))
    ensures forall i, j :: 0 <= i < j < |Yield(pages, |pages|)| ==>
      Yield(pages, |pages|)[i].value.id != Yield(pages, |pages|)[j].value.id
  {
    ScanDescends(lists, BATCH, pages, |pages|);
    var all := Yield(pages, |pages|);
    forall i, j | 0 <= i < j < |all| ensures all[i].value.id != all[j].value.id {
      if all[i].value.id == all[j].value.id {
        SameKey(snapshots, lists, pages, includeRevoked, all[i], all[j]);
        AtMostOnce(all, i, j);
      }
    }
  }

  lemma SameKey(
      snapshots: seq<Accounts>, lists: seq<seq<Row<Account>>>, pages: seq<Page<Account>>, includeRevoked: bool,
      r: Row<Account>, s: Row<Account>)
    requires IsStoreScan(snapshots, lists, pages, includeRevoked)
    requires r in Yield(pages, |pages|) && s in Yield(pages, |pages|) && r.value.id == s.value.id
    ensures r.key == s.key
  {
    var i := ScanSound(lists, BATCH, pages, r);
    var j := ScanSound(lists, BATCH, pages, s);
    CreationFixed(snapshots, if i <= j then i else j, if i <= j then j else i);
  }

  /** An account present and shown at every fetch of a finished scan is yielded exactly once. */
  lemma ScanFindsAll(
      snapshots: seq<Accounts>, lists: seq<seq<Row<Account>>>, pages: seq<Page<Account>>, includeRevoked: bool, id: string)
    returns (i: nat)
    requires IsStoreScan(snapshots, lists, pages, includeRevoked)
    requires pages != [] && pages[|pages| - 1].next.None?
    requires forall k :: 0 <= k < |snapshots| ==> id in snapshots[k] && (includeRevoked || !snapshots[k][id].revoked)
    requires forall k :: 0 <= k < |snapshots| ==> Good(snapshots[k])
    ensures i < |Yield(pages, |pages|)| && Yield(pages, |pages|)[i].value.id == id
    ensures forall j :: 0 <= j < |Yield(pages, |pages|)| && Yield(pages, |pages|)[j].value.id == id ==> j == i
  {
    var key := KeyOf(snapshots[0][id]);
    forall k | 0 <= k < |lists| ensures Lists(lists[k], key) {
      CreationFixed(snapshots, 0, k);
      assert RowOf(snapshots[k][id]) in lists[k];
    }
    i := ScanDelivers(lists, BATCH, pages, key);
    ScanNeverRepeats(snapshots, lists, pages, includeRevoked);
    var r := Yield(pages, |pages|)[i];
    var k := ScanSound(lists, BATCH, pages, r);
    assert r == RowOf(r.value);
  }
}
