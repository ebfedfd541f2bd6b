/**
 * Cursor pages over a fixed table. The list of conversations visits everything;
 * the page of messages drops the newest row of every page but the last.
 */
module ConversationPaging {
  import opened TextOrder
  import opened Wrappers

  /** The parentless conversations, or one conversation's messages, newest first. */
  predicate Descending(rows: seq<Place>) {
    forall i, j {:trigger Before(rows[j], rows[i])} :: 0 <= i < j < |rows| ==> Before(rows[j], rows[i])
  }

  function Clamped(limit: Option<int>): (n: nat)
    ensures 20 <= n <= 200
  {
    var given := limit.UnwrapOr(100);
    if given < 20 then 20 else if given > 200 then 200 else given
  }

  /** The rows strictly before the cursor. */
  function Past(rows: seq<Place>, cursor: Option<Place>): seq<Place>
    decreases |rows|
  {
    if rows == [] then []
    else (if cursor.None? || Before(rows[0], cursor.value) then [rows[0]] else []) + Past(rows[1..], cursor)
  }

  function First(rows: seq<Place>, n: nat): seq<Place> {
    if n < |rows| then rows[..n] else rows
  }

  datatype Page = Page(items: seq<Place>, next: Option<Place>)

  /** Query one row more than the page holds, cut the page, and point the cursor at its last row. */
  function ListPage(rows: seq<Place>, limit: Option<int>, cursor: Option<Place>): Page {
    var n := Clamped(limit);
    var found := First(Past(rows, cursor), n + 1);
    if |found| > n then Page(found[..n], Some(found[n - 1])) else Page(found, None)
  }

  lemma {:induction false} PastNone(rows: seq<Place>)
    ensures Past(rows, None) == rows
  {
    if rows != [] {
      PastNone(rows[1..]);
      assert rows == [rows[0]] + rows[1..];
    }
  }

  lemma {:induction false} PastAllOf(rows: seq<Place>, cursor: Place)
    requires forall i :: 0 <= i < |rows| ==> Before(rows[i], cursor)
    ensures Past(rows, Some(cursor)) == rows
  {
    if rows != [] {
      PastAllOf(rows[1..], cursor);
      assert rows == [rows[0]] + rows[1..];
    }
  }

  /** A cursor at a row leaves what follows it. */
  lemma {:induction false} PastRow(rows: seq<Place>, k: nat)
    requires Descending(rows) && k < |rows|
    ensures Past(rows, Some(rows[k])) == rows[k + 1..]
  {
    if k == 0 {
      Irreflexive(rows[0].time);
      Irreflexive(rows[0].id);
      PastAllOf(rows[1..], rows[0]);
      assert [] + rows[1..] == rows[1..];
    } else {
      BeforeIsStrict(rows[k], rows[0]);
      var rest := rows[1..];
      assert rest[k - 1] == rows[k] && rest[k..] == rows[k + 1..];
      PastRow(rest, k - 1);
      assert [] + rest[k..] == rest[k..];
    }
  }

  function CursorAt(rows: seq<Place>, k: nat): Option<Place>
    requires k <= |rows|
  {
    if k == 0 then None else Some(rows[k - 1])
  }

  lemma PastAt(rows: seq<Place>, k: nat)
    requires Descending(rows) && k <= |rows|
    ensures Past(rows, CursorAt(rows, k)) == rows[k..]
  {
    if k == 0 {
      PastNone(rows);
      assert rows[0..] == rows;
    } else {
      PastRow(rows, k - 1);
    }
  }

  lemma FirstOfRest(rows: seq<Place>, n: nat, k: nat)
    requires k <= |rows|
    ensures First(rows[k..], n + 1) == if |rows| - k > n then rows[k..k + n + 1] else rows[k..]
  {
  }

  /** The rows a query at the k-th row finds: one more than the page holds if there are any more. */
  lemma FoundAt(rows: seq<Place>, n: nat, k: nat)
    requires Descending(rows) && k <= |rows|
    ensures First(Past(rows, CursorAt(rows, k)), n + 1) == if |rows| - k > n then rows[k..k + n + 1] else rows[k..]
  {
    PastAt(rows, k);
    FirstOfRest(rows, n, k);
  }

  /** The page at the k-th row is the next `limit` rows, and its cursor is the last of them while any are left. */
  lemma PageAt(rows: seq<Place>, limit: Option<int>, k: nat)
    requires Descending(rows) && k <= |rows|
    ensures
      var n := Clamped(limit);
      ListPage(rows, limit, CursorAt(rows, k)) ==
        if |rows| - k > n then Page(rows[k..k + n], CursorAt(rows, k + n)) else Page(rows[k..], None)
  {
    var n := Clamped(limit);
    FoundAt(rows, n, k);
    assert |rows| - k > n ==> rows[k..k + n + 1][..n] == rows[k..k + n];
  }

  // ---- Pages of messages ----

  function Reversed(rows: seq<Place>): seq<Place> {
    seq(|rows|, i requires 0 <= i < |rows| => rows[|rows| - 1 - i])
  }

  /** The rows are put in ascending order before the cut, which therefore takes the newest. */
  function MessagesPage(rows: seq<Place>, limit: Option<int>, cursor: Option<Place>): Page {
    var n := Clamped(limit);
    var ascending := Reversed(First(Past(rows, cursor), n + 1));
    var kept := First(ascending, n);
    Page(Reversed(kept), if |ascending| > n then Some(kept[0]) else None)
  }

  lemma ReversedTwice(rows: seq<Place>)
    ensures Reversed(Reversed(rows)) == rows
  {
  }

  /** Cutting the reversed list keeps all but the first. */
  lemma ReversedCut(found: seq<Place>, n: nat)
    requires n > 0 && |found| == n + 1
    ensures Reversed(First(Reversed(found), n)) == found[1..] && First(Reversed(found), n)[0] == found[n]
  {
  }

  lemma FullMessagesPage(rows: seq<Place>, limit: Option<int>, k: nat)
    requires Descending(rows) && k <= |rows| && |rows| - k > Clamped(limit)
    ensures
      var n := Clamped(limit);
      MessagesPage(rows, limit, CursorAt(rows, k)) == Page(rows[k + 1..k + 1 + n], CursorAt(rows, k + n + 1))
  {
    var n := Clamped(limit);
    var found := First(Past(rows, CursorAt(rows, k)), n + 1);
    FoundAt(rows, n, k);
    ReversedCut(found, n);
    FoundTail(rows, found, k, n);
  }

  lemma FoundTail(rows: seq<Place>, found: seq<Place>, k: nat, n: nat)
    requires k + n + 1 <= |rows| && found == rows[k..k + n + 1]
    ensures found[1..] == rows[k + 1..k + 1 + n] && Some(found[n]) == CursorAt(rows, k + n + 1)
  {
  }

  lemma LastMessagesPage(rows: seq<Place>, limit: Option<int>, k: nat)
    requires Descending(rows) && k <= |rows| && |rows| - k <= Clamped(limit)
    ensures MessagesPage(rows, limit, CursorAt(rows, k)) == Page(rows[k..], None)
  {
    FoundAt(rows, Clamped(limit), k);
    ReversedTwice(rows[k..]);
  }

  /**
   * How many rows a page asked for with this limit holds: 100 without one,
   * never fewer than 20 or more than 200 while so many are left. A page of
   * either kind has a cursor exactly if some row is left behind it.
   */
  lemma PageHolds(rows: seq<Place>, limit: Option<int>, k: nat)
    requires Descending(rows) && k <= |rows|
    ensures
      var asked := if limit.None? then 100 else if limit.value < 20 then 20
                   else if limit.value > 200 then 200 else limit.value;
      var page, messages := ListPage(rows, limit, CursorAt(rows, k)), MessagesPage(rows, limit, CursorAt(rows, k));
      && |page.items| == |messages.items| == (if |rows| - k < asked then |rows| - k else asked)
      && (page.next.Some? <==> |rows| - k > asked) && (messages.next.Some? <==> |rows| - k > asked)
  {
    PageAt(rows, limit, k);
    if |rows| - k > Clamped(limit) {
      FullMessagesPage(rows, limit, k);
    } else {
      LastMessagesPage(rows, limit, k);
    }
  }

  // ---- Following the cursors ----

  /** At most so many requests, each with the cursor that the page before it returned. */
  function Walk(query: Option<Place> -> Page, cursor: Option<Place>, pages: nat): seq<Place>
    decreases pages
  {
    if pages == 0 then []
    else
      var page := query(cursor);
      if page.next.None? then page.items else page.items + Walk(query, page.next, pages - 1)
  }

  function Conversations(rows: seq<Place>, limit: Option<int>): Option<Place> -> Page {
    cursor => ListPage(rows, limit, cursor)
  }

  function Messages(rows: seq<Place>, limit: Option<int>): Option<Place> -> Page {
    cursor => MessagesPage(rows, limit, cursor)
  }

  /**
   * The page at the k-th row of a query whose pages, if another comes after
   * them, leave out so many rows at the front; the cursor is the last row.
   */
  function PageOf(rows: seq<Place>, n: nat, skip: nat, k: nat): Page
    requires skip <= 1 && k <= |rows|
  {
    if |rows| - k > n then Page(rows[k + skip..k + skip + n], CursorAt(rows, k + skip + n)) else Page(rows[k..], None)
  }

  ghost predicate Skips(query: Option<Place> -> Page, rows: seq<Place>, n: nat, skip: nat)
    requires skip <= 1
  {
    forall k {:trigger PageOf(rows, n, skip, k)} :: 0 <= k <= |rows| ==>
      query(CursorAt(rows, k)) == PageOf(rows, n, skip, k)
  }

  /** The rows from the k-th on that pages like that show. */
  function Shown(rows: seq<Place>, n: nat, skip: nat, k: nat): seq<Place>
    requires skip <= 1 && n > 0 && k <= |rows|
    decreases |rows| - k
  {
    if |rows| - k > n then rows[k + skip..k + skip + n] + Shown(rows, n, skip, k + skip + n) else rows[k..]
  }

  lemma {:induction false} WalkShows(query: Option<Place> -> Page, rows: seq<Place>, n: nat, skip: nat, k: nat,
                                     pages: nat)
    requires skip <= 1 && n > 0 && k <= |rows| && pages > |rows| - k && Skips(query, rows, n, skip)
    ensures Walk(query, CursorAt(rows, k), pages) == Shown(rows, n, skip, k)
    decreases pages
  {
    assert query(CursorAt(rows, k)) == PageOf(rows, n, skip, k);
    if |rows| - k > n {
      WalkShows(query, rows, n, skip, k + skip + n, pages - 1);
    }
  }

  lemma {:induction false} ShowsAll(rows: seq<Place>, n: nat, k: nat)
    requires n > 0 && k <= |rows|
    ensures Shown(rows, n, 0, k) == rows[k..]
    decreases |rows| - k
  {
    if |rows| - k > n {
      ShowsAll(rows, n, k + n);
      assert rows[k..] == rows[k..k + n] + rows[k + n..];
    }
  }

  lemma {:induction false} ShowsLess(rows: seq<Place>, n: nat, k: nat)
    requires n > 0 && k <= |rows|
    ensures |Shown(rows, n, 1, k)| <= |rows| - k
    ensures |rows| - k > n ==> |Shown(rows, n, 1, k)| < |rows| - k
    decreases |rows| - k
  {
    if |rows| - k > n {
      ShowsLess(rows, n, k + 1 + n);
    }
  }

  lemma ConversationsSkipNone(rows: seq<Place>, limit: Option<int>)
    requires Descending(rows)
    ensures Skips(Conversations(rows, limit), rows, Clamped(limit), 0)
  {
    forall k | 0 <= k <= |rows|
      ensures ListPage(rows, limit, CursorAt(rows, k)) == PageOf(rows, Clamped(limit), 0, k)
    {
      PageAt(rows, limit, k);
    }
  }

  lemma MessagesSkipOne(rows: seq<Place>, limit: Option<int>)
    requires Descending(rows)
    ensures Skips(Messages(rows, limit), rows, Clamped(limit), 1)
  {
    forall k | 0 <= k <= |rows|
      ensures MessagesPage(rows, limit, CursorAt(rows, k)) == PageOf(rows, Clamped(limit), 1, k)
    {
      if |rows| - k > Clamped(limit) {
        FullMessagesPage(rows, limit, k);
      } else {
        LastMessagesPage(rows, limit, k);
      }
    }
  }

  /**
   * Following nextCursor from the first page visits every row exactly once,
   * newest first, and ends within one request a row, for every limit.
   */
  lemma PagesVisitAll(rows: seq<Place>, limit: Option<int>, pages: nat)
    requires Descending(rows) && pages > |rows|
    ensures Walk(Conversations(rows, limit), None, pages) == rows
  {
    ConversationsSkipNone(rows, limit);
    WalkShows(Conversations(rows, limit), rows, Clamped(limit), 0, 0, pages);
    ShowsAll(rows, Clamped(limit), 0);
    assert rows[0..] == rows;
  }

  /** Every page of messages that has another after it has lost its newest row; nothing else is lost. */
  lemma MessagePagesDropTheNewest(rows: seq<Place>, limit: Option<int>, pages: nat)
    requires Descending(rows) && pages > |rows|
    ensures Walk(Messages(rows, limit), None, pages) == Shown(rows, Clamped(limit), 1, 0)
  {
    MessagesSkipOne(rows, limit);
    WalkShows(Messages(rows, limit), rows, Clamped(limit), 1, 0, pages);
  }

  /** So the pages show the whole conversation if and only if it fits in one page. */
  lemma MessagePagesAreCompleteIff(rows: seq<Place>, limit: Option<int>, pages: nat)
    requires Descending(rows) && pages > |rows|
    ensures Walk(Messages(rows, limit), None, pages) == rows <==> |rows| <= Clamped(limit)
  {
    MessagePagesDropTheNewest(rows, limit, pages);
    ShowsLess(rows, Clamped(limit), 0);
    assert rows[0..] == rows;
  }
}
