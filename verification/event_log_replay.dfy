/**
 * Replay from the last seen sequence: a client that polls, disconnects and polls
 * again, while the log keeps growing.
 */
module EventLogReplay {
  import opened Sequences
  import opened Wrappers
  import opened EventLogState
  import opened EventLogTheorems

  ghost predicate Ascending(rows: seq<Row>) {
    forall i, j :: 0 <= i < j < |rows| ==> rows[i].sequence < rows[j].sequence
  }

  lemma ConsIsSorted(row: Row, tail: seq<Row>)
    requires Ascending(tail) && forall r :: r in tail ==> row.sequence < r.sequence
    ensures Ascending([row] + tail)
  {
    forall i, j | 0 <= i < j < |[row] + tail| ensures ([row] + tail)[i].sequence < ([row] + tail)[j].sequence {
      if i == 0 { assert tail[j - 1] in tail; }
    }
  }

  lemma {:induction false} InOrderWithIsSorted(sorted: seq<Row>, row: Row)
    requires Ascending(sorted) && forall r :: r in sorted ==> r.sequence != row.sequence
    ensures Ascending(InOrderWith(sorted, row))
    ensures forall r :: r in InOrderWith(sorted, row) <==> r in sorted || r == row
  {
    if sorted != [] {
      assert sorted == [sorted[0]] + sorted[1..];
      if row.sequence > sorted[0].sequence {
        InOrderWithIsSorted(sorted[1..], row);
        ConsIsSorted(sorted[0], InOrderWith(sorted[1..], row));
      }
    }
  }

  /** A replay lists exactly the run's later events, each once, in sequence order. */
  lemma {:induction false} ReplayIsExact(rows: seq<Row>, runId: string, last: nat)
    requires WellKept(rows)
    ensures Ascending(ReplayAfter(rows, runId, last))
    ensures forall r :: r in ReplayAfter(rows, runId, last) <==> r in rows && r.runId == runId && r.sequence > last
  {
    if rows != [] {
      var earlier, row := rows[..|rows| - 1], rows[|rows| - 1];
      assert rows == earlier + [row];
      ReplayIsExact(earlier, runId, last);
      var sorted := ReplayAfter(earlier, runId, last);
      forall r | r in sorted ensures row.runId == runId ==> r.sequence != row.sequence {
        var i :| 0 <= i < |earlier| && earlier[i] == r;
        assert rows[i] == r;
      }
      if row.runId == runId && row.sequence > last { InOrderWithIsSorted(sorted, row); }
    }
  }

  /** A client of one run: where it started, the last sequence it saw, and all it was given. */
  datatype Client = Client(runId: string, start: nat, cursor: nat, seen: seq<Row>)

  /** What it was given and what it would be given next are, together, the whole replay. */
  ghost predicate MissesNothing(rows: seq<Row>, c: Client) {
    && c.start <= c.cursor
    && (forall r :: r in c.seen ==> r.sequence <= c.cursor)
    && c.seen + ReplayAfter(rows, c.runId, c.cursor) == ReplayAfter(rows, c.runId, c.start)
  }

  function Poll(rows: seq<Row>, c: Client): Client {
    var page := ReplayAfter(rows, c.runId, c.cursor);
    if page == [] then c
    else c.(cursor := page[|page| - 1].sequence, seen := c.seen + page)
  }

  lemma {:induction false} NothingAbove(rows: seq<Row>, runId: string, last: nat)
    requires forall i :: 0 <= i < |rows| && rows[i].runId == runId ==> rows[i].sequence <= last
    ensures ReplayAfter(rows, runId, last) == []
  {
    if rows != [] { NothingAbove(rows[..|rows| - 1], runId, last); }
  }

  /** After a poll the client holds the whole replay, in order and without repeats. */
  lemma PollDeliversEverything(rows: seq<Row>, c: Client)
    requires WellKept(rows) && MissesNothing(rows, c)
    ensures var c' := Poll(rows, c);
      && MissesNothing(rows, c')
      && c'.seen == ReplayAfter(rows, c.runId, c.start)
      && Ascending(c'.seen)
  {
    var page := ReplayAfter(rows, c.runId, c.cursor);
    ReplayIsExact(rows, c.runId, c.cursor);
    ReplayIsExact(rows, c.runId, c.start);
    if page != [] {
      LastIsHighest(page);
      NothingAfterThePage(rows, c.runId, c.cursor);
      assert page[0] in page;
    }
  }

  lemma LastIsHighest(page: seq<Row>)
    requires Ascending(page) && page != []
    ensures forall r :: r in page ==> r.sequence <= page[|page| - 1].sequence
  {
  }

  lemma NothingAfterThePage(rows: seq<Row>, runId: string, cursor: nat)
    requires WellKept(rows) && ReplayAfter(rows, runId, cursor) != []
    ensures
      var page := ReplayAfter(rows, runId, cursor);
      ReplayAfter(rows, runId, page[|page| - 1].sequence) == []
  {
    var page := ReplayAfter(rows, runId, cursor);
    var last := page[|page| - 1].sequence;
    ReplayIsExact(rows, runId, cursor);
    LastIsHighest(page);
    assert page[0].sequence > cursor by { assert page[0] in page; }
    forall i | 0 <= i < |rows| && rows[i].runId == runId ensures rows[i].sequence <= last {
      if rows[i].sequence > cursor { assert rows[i] in page; }
    }
    NothingAbove(rows, runId, last);
  }

  lemma {:induction false} InsertsAfter(front: seq<Row>, back: seq<Row>, row: Row)
    requires forall r :: r in front ==> r.sequence < row.sequence
    ensures InOrderWith(front + back, row) == front + InOrderWith(back, row)
  {
    if front == [] {
      assert front + back == back;
    } else {
      assert front[0] in front;
      assert (front + back)[1..] == front[1..] + back;
      InsertsAfter(front[1..], back, row);
    }
  }

  lemma {:induction false} InOrderWithGrows(sorted: seq<Row>, row: Row)
    ensures |InOrderWith(sorted, row)| == |sorted| + 1
  {
    if sorted != [] && row.sequence >= sorted[0].sequence { InOrderWithGrows(sorted[1..], row); }
  }

  /**
   * An append is never lost to a client exactly when it comes past the client's
   * cursor (or is none of its business): in-order appends interleave with polls
   * and reconnects freely, a late sequence number is missed for good.
   */
  lemma AppendIsMissedIffLate(rows: seq<Row>, row: Row, c: Client)
    requires WellKept(rows + [row]) && MissesNothing(rows, c)
    ensures MissesNothing(rows + [row], c) <==>
      row.runId != c.runId || row.sequence > c.cursor || row.sequence <= c.start
  {
    var rows' := rows + [row];
    assert rows'[..|rows'| - 1] == rows;
    var pending, whole := ReplayAfter(rows, c.runId, c.cursor), ReplayAfter(rows, c.runId, c.start);
    if row.runId == c.runId && row.sequence > c.cursor {
      InsertsAfter(c.seen, pending, row);
    } else if row.runId == c.runId && row.sequence > c.start {
      InOrderWithGrows(whole, row);
      assert |c.seen + pending| == |whole|;
    }
  }

  /** One moment of a session: the log takes a step, or the client polls. */
  datatype Moment = Log(op: Op) | PollNow

  function Live(st: Store, c: Client, moments: seq<Moment>): (Store, Client)
    decreases |moments|
  {
    if moments == [] then (st, c)
    else
      match moments[0]
      case Log(op) => Live(Step(st, op), c, moments[1..])
      case PollNow => Live(st, Poll(st.rows, c), moments[1..])
  }

  /** Events of the run are appended with increasing sequence numbers. */
  predicate InSequence(st: Store, runId: string, op: Op) {
    var rows := Step(st, op).rows;
    |rows| > |st.rows| && rows[|st.rows|].runId == runId ==> rows[|st.rows|].sequence > MaxSequence(st.rows, runId)
  }

  predicate AllInSequence(st: Store, runId: string, moments: seq<Moment>)
    decreases |moments|
  {
    moments != [] ==>
      match moments[0]
      case Log(op) => InSequence(st, runId, op) && AllInSequence(Step(st, op), runId, moments[1..])
      case PollNow => AllInSequence(st, runId, moments[1..])
  }

  ghost predicate Following(st: Store, c: Client) {
    WellKept(st.rows) && MissesNothing(st.rows, c) && c.cursor <= Max(c.start, MaxSequence(st.rows, c.runId))
  }

  lemma StepKeepsFollowing(st: Store, c: Client, op: Op)
    requires Following(st, c) && InSequence(st, c.runId, op)
    ensures Following(Step(st, op), c)
  {
    StepKeepsRows(st, op);
    if Step(st, op).rows != st.rows {
      var row := StepAddsOne(st, op);
      RowKeepsFollowing(st.rows, row, c);
    }
  }

  lemma StepAddsOne(st: Store, op: Op) returns (row: Row)
    requires Step(st, op).rows != st.rows
    ensures Step(st, op).rows == st.rows + [row]
  {
    var eventId, runId, sequence, payload := StepInserts(st, op);
    row := InsertRow(st.rows, eventId, runId, sequence, payload).value;
  }

  lemma RowKeepsFollowing(rows: seq<Row>, row: Row, c: Client)
    requires WellKept(rows + [row]) && MissesNothing(rows, c) && c.cursor <= Max(c.start, MaxSequence(rows, c.runId))
    requires row.runId == c.runId ==> row.sequence > MaxSequence(rows, c.runId)
    ensures MissesNothing(rows + [row], c) && c.cursor <= Max(c.start, MaxSequence(rows + [row], c.runId))
  {
    AppendIsMissedIffLate(rows, row, c);
    assert (rows + [row])[..|rows|] == rows;
  }

  lemma PollKeepsFollowing(st: Store, c: Client)
    requires Following(st, c)
    ensures Following(st, Poll(st.rows, c))
  {
    PollDeliversEverything(st.rows, c);
    var page := ReplayAfter(st.rows, c.runId, c.cursor);
    ReplayIsExact(st.rows, c.runId, c.cursor);
    if page != [] { assert page[|page| - 1] in page; }
  }

  /**
   * Over any interleaving of in-order appends (and everything else the log does)
   * with polls and reconnects, the client has seen each event at most once, in
   * order, and together with what is pending it has all of them.
   */
  lemma {:induction false} FollowingMissesNothing(st: Store, c: Client, moments: seq<Moment>)
    requires Following(st, c) && AllInSequence(st, c.runId, moments)
    ensures var (st', c') := Live(st, c, moments); Following(st', c') && c'.start == c.start && c'.runId == c.runId
    decreases |moments|
  {
    if moments != [] {
      match moments[0]
      case Log(op) =>
        StepKeepsFollowing(st, c, op);
        FollowingMissesNothing(Step(st, op), c, moments[1..]);
      case PollNow =>
        PollKeepsFollowing(st, c);
        FollowingMissesNothing(st, Poll(st.rows, c), moments[1..]);
    }
  }

  // ---- The global log ----

  ghost predicate GlobalAscending(rows: seq<Row>) {
    forall i, j :: 0 <= i < j < |rows| ==> rows[i].global < rows[j].global
  }

  lemma {:induction false} GlobalAfterAll(rows: seq<Row>, after: nat)
    requires forall i :: 0 <= i < |rows| ==> rows[i].global > after
    ensures GlobalAfter(rows, after) == rows
  {
    if rows != [] { GlobalAfterAll(rows[1..], after); }
  }

  lemma {:induction false} GlobalAfterIsSuffix(rows: seq<Row>, after: nat, k: nat)
    requires GlobalAscending(rows) && k <= |rows|
    requires k > 0 ==> rows[k - 1].global <= after
    requires k < |rows| ==> rows[k].global > after
    ensures GlobalAfter(rows, after) == rows[k..]
  {
    if k == 0 {
      GlobalAfterAll(rows, after);
    } else {
      assert rows[0].global <= after;
      GlobalAfterIsSuffix(rows[1..], after, k - 1);
    }
  }

  function FirstAfter(rows: seq<Row>, after: nat): (k: nat)
    ensures k <= |rows|
    ensures k > 0 ==> rows[k - 1].global <= after
    ensures k < |rows| ==> rows[k].global > after
  {
    if rows == [] || rows[0].global > after then 0 else 1 + FirstAfter(rows[1..], after)
  }

  /** Following pages from a global sequence, each from the last event of the one before. */
  function FollowPages(rows: seq<Row>, after: nat, limit: nat, pages: nat): seq<Row>
    decreases pages
  {
    var page := GlobalPage(rows, after, limit);
    if page == [] || pages == 0 then []
    else page + FollowPages(rows, page[|page| - 1].global, limit, pages - 1)
  }

  lemma PastTheLast(rows: seq<Row>, k: nat)
    requires GlobalAscending(rows) && 0 < k <= |rows|
    ensures GlobalAfter(rows, rows[k - 1].global) == rows[k..]
  {
    assert k < |rows| ==> rows[k].global > rows[k - 1].global;
    GlobalAfterIsSuffix(rows, rows[k - 1].global, k);
  }

  /** A page is a piece of the log, and what is past its last event is the rest. */
  lemma PageIsASlice(rows: seq<Row>, after: nat, limit: nat) returns (k: nat, n: nat)
    requires GlobalAscending(rows)
    ensures k + n <= |rows| && GlobalPage(rows, after, limit) == rows[k..k + n] && GlobalAfter(rows, after) == rows[k..]
  {
    k := FirstAfter(rows, after);
    GlobalAfterIsSuffix(rows, after, k);
    n := |GlobalPage(rows, after, limit)|;
    SplitTail(rows, k, n);
  }

  lemma PageThenRest(rows: seq<Row>, after: nat, limit: nat)
    requires GlobalAscending(rows) && GlobalPage(rows, after, limit) != []
    ensures var page := GlobalPage(rows, after, limit);
      GlobalAfter(rows, after) == page + GlobalAfter(rows, page[|page| - 1].global)
  {
    var k, n := PageIsASlice(rows, after, limit);
    PastTheLast(rows, k + n);
    SliceThenRest(rows, after, GlobalPage(rows, after, limit), k, n);
  }

  lemma SliceThenRest(rows: seq<Row>, after: nat, page: seq<Row>, k: nat, n: nat)
    requires 0 < n && k + n <= |rows| && page == rows[k..k + n] && GlobalAfter(rows, after) == rows[k..]
    requires GlobalAfter(rows, rows[k + n - 1].global) == rows[k + n..]
    ensures GlobalAfter(rows, after) == page + GlobalAfter(rows, page[|page| - 1].global)
  {
    SplitTail(rows, k, n);
    assert page[|page| - 1] == rows[k + n - 1];
  }

  /** Pages of any size concatenate to the log, and one page per event is always enough. */
  lemma {:induction false} PagesConcatenate(rows: seq<Row>, after: nat, limit: nat, pages: nat)
    requires GlobalAscending(rows) && pages >= |GlobalAfter(rows, after)|
    ensures FollowPages(rows, after, limit, pages) == GlobalAfter(rows, after)
    decreases pages
  {
    var page := GlobalPage(rows, after, limit);
    if page != [] {
      PageThenRest(rows, after, limit);
      PagesConcatenate(rows, page[|page| - 1].global, limit, pages - 1);
    }
  }
}
