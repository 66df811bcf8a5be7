/**
 * Paging a chat's messages by index (gateway/features/chats/services/chat_service.py,
 * ChatService.messages).
 */
module MessagePaging {
  import opened Wrappers
  import Decimal

  datatype Message = Message(index: int, uuid: string, sender: string, text: string)

  datatype MessageDTO = MessageDTO(id: string, role: string, text: string, index: int)

  datatype Page = Page(data: seq<MessageDTO>, hasMore: bool, cursor: Option<string>)

  ghost predicate Ascending(ms: seq<Message>) {
    forall i, j :: 0 <= i < j < |ms| ==> ms[i].index <= ms[j].index
  }

  // ---- Sorting, stable as Python's `sorted` ----

  function Insert(m: Message, ms: seq<Message>): seq<Message> {
    if ms == [] || m.index <= ms[0].index then [m] + ms else [ms[0]] + Insert(m, ms[1..])
  }

  function Sorted(ms: seq<Message>): seq<Message> {
    if ms == [] then [] else Insert(ms[0], Sorted(ms[1..]))
  }

  lemma {:induction false} InsertIs(m: Message, ms: seq<Message>)
    requires Ascending(ms)
    ensures Ascending(Insert(m, ms)) && forall x :: x in Insert(m, ms) <==> x == m || x in ms
  {
    if ms != [] && m.index > ms[0].index {
      InsertIs(m, ms[1..]);
      var rest := Insert(m, ms[1..]);
      forall i | 0 <= i < |rest| ensures ms[0].index <= rest[i].index {
        assert rest[i] in rest;
      }
    }
  }

  lemma {:induction false} InsertAdds(m: Message, ms: seq<Message>)
    ensures multiset(Insert(m, ms)) == multiset{m} + multiset(ms)
  {
    if ms != [] && m.index > ms[0].index {
      InsertAdds(m, ms[1..]);
      assert ms == [ms[0]] + ms[1..];
    }
  }

  lemma {:induction false} SortedIs(ms: seq<Message>)
    ensures Ascending(Sorted(ms)) && multiset(Sorted(ms)) == multiset(ms)
  {
    if ms != [] {
      SortedIs(ms[1..]);
      InsertIs(ms[0], Sorted(ms[1..]));
      InsertAdds(ms[0], Sorted(ms[1..]));
      assert ms == [ms[0]] + ms[1..];
    }
  }

  // ---- One page ----

  /** A cursor that is not a string of digits, or missing, starts from 0. */
  function Start(cursor: Option<string>): nat {
    if cursor.None? then 0
    else
      var n := Decimal.Parse(cursor.value);
      if n.Some? then n.value else 0
  }

  function Window(ms: seq<Message>, start: int): seq<Message> {
    if ms == [] then []
    else if ms[0].index >= start then [ms[0]] + Window(ms[1..], start)
    else Window(ms[1..], start)
  }

  function Role(sender: string): string {
    if sender == "human" then "user" else sender
  }

  function ToDTO(m: Message): MessageDTO {
    MessageDTO(m.uuid, Role(m.sender), m.text, m.index)
  }

  function ToDTOs(ms: seq<Message>): seq<MessageDTO> {
    seq(|ms|, i requires 0 <= i < |ms| => ToDTO(ms[i]))
  }

  function Take(ms: seq<Message>, n: nat): seq<Message> {
    if n <= |ms| then ms[..n] else ms
  }

  /** Messages of a page cannot have a negative index, so its cursor is a string of digits. */
  lemma {:induction false} WindowFrom(ms: seq<Message>, start: int)
    ensures forall m :: m in Window(ms, start) <==> m in ms && m.index >= start
    ensures |Window(ms, start)| <= |ms|
  {
    if ms != [] {
      WindowFrom(ms[1..], start);
    }
  }

  function NextCursor(window: seq<Message>, limit: nat): Option<string>
    requires forall m :: m in window ==> m.index >= 0
  {
    if 0 < limit < |window| then Some(CursorOf(window[limit - 1])) else None
  }

  /** `messages`, on the messages the chat has. */
  function Messages(ms: seq<Message>, limit: nat, cursor: Option<string>): Page {
    var window := Window(Sorted(ms), Start(cursor));
    WindowFrom(Sorted(ms), Start(cursor));
    Page(ToDTOs(Take(window, limit)), |window| > limit, NextCursor(window, limit))
  }

  function CursorOf(m: Message): string
    requires m.index >= 0
  {
    Decimal.Print(m.index + 1)
  }

  // ---- Following cursors ----

  lemma {:induction false} WindowSuffix(ms: seq<Message>, start: int, k: nat)
    requires Ascending(ms) && k <= |ms|
    requires forall i :: 0 <= i < k ==> ms[i].index < start
    requires forall i :: k <= i < |ms| ==> ms[i].index >= start
    ensures Window(ms, start) == ms[k..]
  {
    if ms != [] {
      WindowSuffix(ms[1..], start, if k > 0 then k - 1 else 0);
    }
  }

  lemma {:induction false} WindowAscending(ms: seq<Message>, start: int)
    requires Ascending(ms)
    ensures Ascending(Window(ms, start))
  {
    if ms != [] {
      WindowAscending(ms[1..], start);
      WindowFrom(ms[1..], start);
      var rest := Window(ms[1..], start);
      forall i | 0 <= i < |rest| ensures ms[0].index <= rest[i].index {
        assert rest[i] in rest;
      }
    }
  }

  /** Seeking further is seeking within the window. */
  lemma {:induction false} WindowTwice(ms: seq<Message>, start: int, start': int)
    requires start <= start'
    ensures Window(Window(ms, start), start') == Window(ms, start')
  {
    if ms != [] {
      WindowTwice(ms[1..], start, start');
    }
  }

  /** All messages a client gets from `cursor` on. */
  function Walk(ms: seq<Message>, limit: nat, cursor: Option<string>): seq<MessageDTO>
    requires limit >= 1
    decreases |Window(Sorted(ms), Start(cursor))|
  {
    var page := Messages(ms, limit, cursor);
    NextStart(ms, limit, cursor);
    if page.cursor.Some? then page.data + Walk(ms, limit, page.cursor) else page.data
  }

  lemma SortedWindow(ms: seq<Message>, start: nat)
    ensures Ascending(Window(Sorted(ms), start))
    ensures forall m :: m in Window(Sorted(ms), start) ==> m.index >= 0
  {
    SortedIs(ms);
    WindowAscending(Sorted(ms), start);
    WindowFrom(Sorted(ms), start);
  }

  /** What the next page starts from: the window beyond the last index delivered. */
  lemma NextStart(ms: seq<Message>, limit: nat, cursor: Option<string>)
    requires limit >= 1
    ensures var w, page := Window(Sorted(ms), Start(cursor)), Messages(ms, limit, cursor);
      && Ascending(w)
      && (page.cursor.Some? <==> |w| > limit)
      && (page.cursor.Some? ==>
            && Window(Sorted(ms), Start(page.cursor)) == Window(w, w[limit - 1].index + 1)
            && |Window(w, w[limit - 1].index + 1)| <= |w| - limit)
  {
    var w, page := Window(Sorted(ms), Start(cursor)), Messages(ms, limit, cursor);
    SortedWindow(ms, Start(cursor));
    if |w| > limit {
      NextWindow(Sorted(ms), w, limit, Start(cursor));
      assert page.cursor == NextCursor(w, limit) == Some(CursorOf(w[limit - 1]));
    }
  }

  lemma NextWindow(all: seq<Message>, w: seq<Message>, limit: nat, start: nat)
    requires w == Window(all, start) && 1 <= limit < |w| && Ascending(w)
    ensures w[limit - 1].index >= start
    ensures Start(Some(CursorOf(w[limit - 1]))) == w[limit - 1].index + 1
    ensures Window(all, w[limit - 1].index + 1) == Window(w, w[limit - 1].index + 1)
    ensures |Window(w, w[limit - 1].index + 1)| <= |w| - limit
  {
    var last := w[limit - 1];
    assert last.index >= start by {
      WindowFrom(all, start);
      assert last in w;
    }
    assert Start(Some(CursorOf(last))) == last.index + 1 by {
      Decimal.ParsePrint(last.index + 1);
    }
    assert Window(w, last.index + 1) == Window(all, last.index + 1) by {
      WindowTwice(all, start, last.index + 1);
    }
    assert |Window(w, last.index + 1)| <= |w| - limit by {
      WindowShrinks(w, limit, last.index + 1);
    }
  }

  lemma {:induction false} WindowShrinks(ms: seq<Message>, k: nat, start: int)
    requires k <= |ms| && forall i :: 0 <= i < k ==> ms[i].index < start
    ensures |Window(ms, start)| <= |ms| - k
  {
    if k > 0 {
      WindowShrinks(ms[1..], k - 1, start);
    } else {
      WindowFrom(ms, start);
    }
  }

  /** No page of `limit` messages ends between two messages with the same index. */
  predicate CutsClean(w: seq<Message>, limit: nat)
    requires limit >= 1
  {
    |w| <= limit || (w[limit - 1].index < w[limit].index && CutsClean(w[limit..], limit))
  }

  /**
   * Following cursors from any start delivers the whole window exactly when no page boundary falls
   * between equal indices; otherwise messages are skipped.
   */
  lemma {:induction false} WalkExactly(ms: seq<Message>, limit: nat, cursor: Option<string>)
    requires limit >= 1
    ensures var w := Window(Sorted(ms), Start(cursor));
      && |Walk(ms, limit, cursor)| <= |w|
      && (CutsClean(w, limit) ==> Walk(ms, limit, cursor) == ToDTOs(w))
      && (!CutsClean(w, limit) ==> |Walk(ms, limit, cursor)| < |w|)
    decreases |Window(Sorted(ms), Start(cursor))|
  {
    var w, page := Window(Sorted(ms), Start(cursor)), Messages(ms, limit, cursor);
    NextStart(ms, limit, cursor);
    if |w| > limit {
      WalkExactly(ms, limit, page.cursor);
      NextCut(w, limit);
    }
  }

  lemma NextCut(w: seq<Message>, limit: nat)
    requires Ascending(w) && 1 <= limit < |w|
    ensures var rest := Window(w, w[limit - 1].index + 1);
      if w[limit - 1].index < w[limit].index
      then rest == w[limit..] && ToDTOs(w) == ToDTOs(w[..limit]) + ToDTOs(rest)
      else |rest| < |w| - limit
  {
    if w[limit - 1].index < w[limit].index {
      WindowSuffix(w, w[limit - 1].index + 1, limit);
    } else {
      WindowShrinks(w, limit + 1, w[limit - 1].index + 1);
    }
  }

  ghost predicate HasIndex(ms: seq<Message>, index: int) {
    exists i :: 0 <= i < |ms| && ms[i].index == index
  }

  /** No index twice, and none negative. */
  ghost predicate GoodIndices(ms: seq<Message>) {
    ms == [] || (ms[0].index >= 0 && !HasIndex(ms[1..], ms[0].index) && GoodIndices(ms[1..]))
  }

  lemma SameIndices(a: seq<Message>, b: seq<Message>, index: int)
    requires forall m :: m in a <==> m in b
    ensures HasIndex(a, index) <==> HasIndex(b, index)
  {
    if HasIndex(a, index) {
      var i :| 0 <= i < |a| && a[i].index == index;
      assert a[i] in b;
    }
    if HasIndex(b, index) {
      var i :| 0 <= i < |b| && b[i].index == index;
      assert b[i] in a;
    }
  }

  lemma HasFirst(ms: seq<Message>, index: int)
    requires ms != []
    ensures HasIndex(ms, index) <==> ms[0].index == index || HasIndex(ms[1..], index)
  {
    if HasIndex(ms[1..], index) {
      var i :| 0 <= i < |ms[1..]| && ms[1..][i].index == index;
      assert ms[i + 1].index == index;
    }
    if HasIndex(ms, index) {
      var i :| 0 <= i < |ms| && ms[i].index == index;
      assert i > 0 ==> ms[1..][i - 1].index == index;
    }
  }

  lemma {:induction false} InsertGood(m: Message, ms: seq<Message>)
    requires Ascending(ms)
    ensures GoodIndices(Insert(m, ms)) <==> m.index >= 0 && !HasIndex(ms, m.index) && GoodIndices(ms)
  {
    if ms == [] || m.index <= ms[0].index {
      assert Insert(m, ms)[1..] == ms;
    } else {
      InsertGood(m, ms[1..]);
      InsertIs(m, ms[1..]);
      var rest := Insert(m, ms[1..]);
      assert Insert(m, ms)[1..] == rest;
      SameIndices(rest, [m] + ms[1..], ms[0].index);
      HasFirst([m] + ms[1..], ms[0].index);
      HasFirst(ms, m.index);
    }
  }

  lemma {:induction false} SortedSame(ms: seq<Message>)
    ensures forall m :: m in Sorted(ms) <==> m in ms
  {
    if ms != [] {
      SortedSame(ms[1..]);
      SortedIs(ms[1..]);
      InsertIs(ms[0], Sorted(ms[1..]));
    }
  }

  /** Sorting does not change whether the indices are good. */
  lemma {:induction false} SortedGood(ms: seq<Message>)
    ensures GoodIndices(Sorted(ms)) <==> GoodIndices(ms)
  {
    if ms != [] {
      SortedGood(ms[1..]);
      SortedIs(ms[1..]);
      InsertGood(ms[0], Sorted(ms[1..]));
      SortedSame(ms[1..]);
      SameIndices(Sorted(ms[1..]), ms[1..], ms[0].index);
    }
  }

  lemma IndexAfterFirst(ms: seq<Message>)
    requires ms != []
    ensures HasIndex(ms[1..], ms[0].index) <==> exists i :: 1 <= i < |ms| && ms[i].index == ms[0].index
  {
    if HasIndex(ms[1..], ms[0].index) {
      var i :| 0 <= i < |ms[1..]| && ms[1..][i].index == ms[0].index;
      assert ms[i + 1].index == ms[0].index;
    }
    forall i | 1 <= i < |ms| && ms[i].index == ms[0].index ensures HasIndex(ms[1..], ms[0].index) {
      assert ms[1..][i - 1] == ms[i];
    }
  }

  lemma {:induction false} GoodAscends(ms: seq<Message>)
    requires Ascending(ms)
    ensures GoodIndices(ms) <==>
      (forall i :: 0 <= i < |ms| ==> ms[i].index >= 0) && forall i, j :: 0 <= i < j < |ms| ==> ms[i].index < ms[j].index
  {
    if ms != [] {
      GoodAscends(ms[1..]);
      forall i, j | 1 <= i < j < |ms| ensures ms[i] == ms[1..][i - 1] && ms[j] == ms[1..][j - 1] {
      }
      assert HasIndex(ms[1..], ms[0].index) <==> exists i :: 1 <= i < |ms| && ms[i].index == ms[0].index by {
        IndexAfterFirst(ms);
      }
    }
  }

  /** With good indices a client gets every message in index order, each with its own id, text and index, and "user" for "human". */
  lemma DeliversMessages(ms: seq<Message>, limit: nat, i: nat)
    requires limit >= 1 && GoodIndices(ms) && i < |ms|
    ensures |Walk(ms, limit, None)| == |Sorted(ms)| == |ms|
    ensures var m, dto := Sorted(ms)[i], Walk(ms, limit, None)[i];
      && dto.id == m.uuid && dto.text == m.text && dto.index == m.index
      && (m.sender == "human" ==> dto.role == "user") && (m.sender != "human" ==> dto.role == m.sender)
  {
    SortedGood(ms);
    GoodIsComplete(ms, limit);
    SortedIs(ms);
    assert |Sorted(ms)| == |multiset(Sorted(ms))| && |ms| == |multiset(ms)|;
  }

  ghost predicate Complete(ms: seq<Message>, limit: nat)
    requires limit >= 1
  {
    Walk(ms, limit, None) == ToDTOs(Sorted(ms))
  }

  lemma {:induction false} StrictCutsClean(w: seq<Message>, limit: nat)
    requires limit >= 1 && forall i, j :: 0 <= i < j < |w| ==> w[i].index < w[j].index
    ensures CutsClean(w, limit)
  {
    if |w| > limit {
      StrictCutsClean(w[limit..], limit);
    }
  }

  lemma {:induction false} SinglesCutClean(w: seq<Message>, i: nat)
    requires CutsClean(w, 1) && i + 1 < |w|
    ensures w[i].index < w[i + 1].index
  {
    if i > 0 {
      SinglesCutClean(w[1..], i - 1);
    }
  }

  lemma {:induction false} SinglesAscend(w: seq<Message>, i: nat, j: nat)
    requires CutsClean(w, 1) && i < j < |w|
    ensures w[i].index < w[j].index
    decreases j
  {
    SinglesCutClean(w, j - 1);
    if i < j - 1 {
      SinglesAscend(w, i, j - 1);
    }
  }

  /**
   * Paging returns every message once, in index order and for every page size, exactly when the
   * indices are distinct and not negative.
   */
  lemma PagesCompleteIffGoodIndices(ms: seq<Message>)
    ensures (forall limit: nat :: limit >= 1 ==> Complete(ms, limit)) <==> GoodIndices(ms)
    ensures Ascending(Sorted(ms)) && multiset(Sorted(ms)) == multiset(ms)
  {
    SortedIs(ms);
    SortedGood(ms);
    if GoodIndices(ms) {
      forall limit: nat | limit >= 1 ensures Complete(ms, limit) {
        GoodIsComplete(ms, limit);
      }
    }
    if Complete(ms, 1) {
      CompleteIsGood(ms);
    }
  }

  lemma GoodIsComplete(ms: seq<Message>, limit: nat)
    requires GoodIndices(Sorted(ms)) && limit >= 1
    ensures Complete(ms, limit)
  {
    var all := Sorted(ms);
    SortedIs(ms);
    GoodAscends(all);
    WindowSuffix(all, 0, 0);
    StrictCutsClean(all, limit);
    WalkExactly(ms, limit, None);
  }

  lemma CompleteIsGood(ms: seq<Message>)
    requires Complete(ms, 1)
    ensures GoodIndices(Sorted(ms))
  {
    var all := Sorted(ms);
    SortedIs(ms);
    WindowFrom(all, 0);
    WalkExactly(ms, 1, None);
    WindowLength(all, 0);
    WindowSuffix(all, 0, 0);
    forall i, j | 0 <= i < j < |all| ensures all[i].index < all[j].index {
      SinglesAscend(all, i, j);
    }
    GoodAscends(all);
  }

  lemma {:induction false} WindowLength(ms: seq<Message>, start: int)
    requires |Window(ms, start)| == |ms|
    ensures forall i :: 0 <= i < |ms| ==> ms[i].index >= start
  {
    if ms != [] {
      WindowFrom(ms[1..], start);
      WindowLength(ms[1..], start);
    }
  }

  /** Two messages with the same index, one a page: the second is never delivered. */
  lemma EqualIndexSkips()
    ensures var ms := [Message(0, "a", "human", "x"), Message(0, "b", "assistant", "y")];
      !Complete(ms, 1) && Walk(ms, 1, None) == [ToDTO(ms[0])]
  {
    var a, b := Message(0, "a", "human", "x"), Message(0, "b", "assistant", "y");
    var ms := [a, b];
    assert ms[1..] == [b] && [b][1..] == [];
    assert Sorted([b]) == Insert(b, Sorted([])) == [b];
    assert Sorted(ms) == Insert(a, [b]) == ms;
    WindowSuffix(ms, 0, 0);
    NextStart(ms, 1, None);
    WindowSuffix(ms, 1, 2);
    var next := Messages(ms, 1, None).cursor;
    assert Window(Sorted(ms), Start(next)) == [];
    assert Messages(ms, 1, None).data == [ToDTO(a)];
    assert Messages(ms, 1, next).data == [];
  }

  /** A message with a negative index is never delivered. */
  lemma NegativeIndexSkips()
    ensures var ms := [Message(-1, "a", "human", "x")];
      !Complete(ms, 1) && Walk(ms, 1, None) == []
  {
    var ms := [Message(-1, "a", "human", "x")];
    assert ms[1..] == [] && Sorted(ms[1..]) == [];
    assert Sorted(ms) == Insert(ms[0], []) == ms;
    assert Window(ms, 0) == [];
  }
}
