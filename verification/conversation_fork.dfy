/** A fork's transcript: every message of the source copied under a new id, in one transaction. */
module ConversationFork {
  import opened ConversationBlocks
  import opened TextOrder
  import opened Wrappers

  /** The columns that are copied as they are. */
  datatype Copied = Copied(
    role: Role, status: string, inputTokens: Option<int>, outputTokens: Option<int>, reasoningTokens: Option<int>,
    cost: Option<real>, createdAt: string, stopReason: Option<string>, legacyMarker: Option<string>, truncated: bool)

  datatype Row = Row(
    id: string, conversation: string, parent: Option<string>, columns: Copied,
    turnId: Option<string>, runId: Option<string>, blocks: seq<StoredBlock>)

  type Table = map<string, Row>

  function PlaceOf(row: Row): Place {
    Place(row.columns.createdAt, row.id)
  }

  predicate Ascending(rows: seq<Row>) {
    forall i, j {:trigger Before(PlaceOf(rows[i]), PlaceOf(rows[j]))} :: 0 <= i < j < |rows| ==>
      Before(PlaceOf(rows[i]), PlaceOf(rows[j]))
  }

  /** The rows of a conversation in (created_at, id) order. */
  predicate IsTranscript(rows: seq<Row>, table: Table, conversation: string) {
    && (forall i :: 0 <= i < |rows| ==>
          rows[i].id in table && table[rows[i].id] == rows[i] && rows[i].conversation == conversation)
    && (forall id :: id in table && table[id].conversation == conversation ==> table[id] in rows)
    && Ascending(rows)
  }

  function ForkId(fork: string, id: string): string {
    "fork:" + fork + ":" + id
  }

  predicate HasRow(rows: seq<Row>, id: string) {
    exists i :: 0 <= i < |rows| && rows[i].id == id
  }

  /** Parents are renamed with their message, and dropped when they are not copied. */
  function Forked(row: Row, rows: seq<Row>, fork: string): Row {
    Row(ForkId(fork, row.id), fork,
        if row.parent.Some? && HasRow(rows, row.parent.value) then Some(ForkId(fork, row.parent.value)) else None,
        row.columns, None, None, row.blocks)
  }

  function ForkedAll(rows: seq<Row>, fork: string): seq<Row> {
    seq(|rows|, i requires 0 <= i < |rows| => Forked(rows[i], rows, fork))
  }

  /** The foreign key of a message's parent: an earlier message, or the message itself. */
  predicate ParentFound(table: Table, row: Row) {
    row.parent.None? || row.parent.value in table || row.parent.value == row.id
  }

  /** Inserts in order; an id that is taken or a parent that is not there fails the transaction. */
  function Inserted(table: Table, rows: seq<Row>): Option<Table> {
    if rows == [] then Some(table)
    else
      var before := Inserted(table, rows[..|rows| - 1]);
      var row := rows[|rows| - 1];
      if before.None? || row.id in before.value || !ParentFound(before.value, row) then None
      else Some(before.value[row.id := row])
  }

  function CopyTranscript(table: Table, rows: seq<Row>, fork: string): Option<Table> {
    Inserted(table, ForkedAll(rows, fork))
  }

  lemma ForkIdIsInjective(fork: string, a: string, b: string)
    ensures ForkId(fork, a) == ForkId(fork, b) <==> a == b
  {
    var prefix := "fork:" + fork + ":";
    assert ForkId(fork, a)[|prefix|..] == a && ForkId(fork, b)[|prefix|..] == b;
  }

  lemma ForkKeepsOrder(fork: string, rows: seq<Row>, a: Row, b: Row)
    ensures Before(PlaceOf(Forked(a, rows, fork)), PlaceOf(Forked(b, rows, fork))) == Before(PlaceOf(a), PlaceOf(b))
  {
    PrefixKeepsOrder("fork:" + fork + ":", a.id, b.id);
  }

  /** Every parent named is that of a row no later. */
  predicate ParentsInTurn(rows: seq<Row>) {
    forall i :: 0 <= i < |rows| && rows[i].parent.Some? ==> HasRow(rows[..i + 1], rows[i].parent.value)
  }

  lemma ShorterInTurn(rows: seq<Row>)
    requires rows != [] && ParentsInTurn(rows)
    ensures ParentsInTurn(rows[..|rows| - 1])
  {
    var shorter := rows[..|rows| - 1];
    forall i | 0 <= i < |shorter| && shorter[i].parent.Some?
      ensures HasRow(shorter[..i + 1], shorter[i].parent.value)
    {
      assert shorter[..i + 1] == rows[..i + 1];
      assert rows[i].parent.Some?;
    }
  }

  /** The last row's parent is there by the time it is inserted. */
  lemma LastParentFound(before: Table, rows: seq<Row>)
    requires rows != [] && ParentsInTurn(rows)
    requires forall i :: 0 <= i < |rows| - 1 ==> rows[i].id in before
    ensures ParentFound(before, rows[|rows| - 1])
  {
    var row := rows[|rows| - 1];
    if row.parent.Some? {
      assert rows[..|rows|] == rows;
      assert HasRow(rows, row.parent.value);
    }
  }

  lemma {:induction false} InsertedAll(table: Table, rows: seq<Row>)
    requires forall i :: 0 <= i < |rows| ==> rows[i].id !in table
    requires forall i, j :: 0 <= i < j < |rows| ==> rows[i].id != rows[j].id
    requires ParentsInTurn(rows)
    ensures Inserted(table, rows).Some?
    ensures forall i :: 0 <= i < |rows| ==>
      rows[i].id in Inserted(table, rows).value && Inserted(table, rows).value[rows[i].id] == rows[i]
    ensures forall id :: id in table ==>
      id in Inserted(table, rows).value && Inserted(table, rows).value[id] == table[id]
    ensures forall id :: id in Inserted(table, rows).value ==> id in table || HasRow(rows, id)
  {
    if rows != [] {
      var shorter := rows[..|rows| - 1];
      ShorterInTurn(rows);
      InsertedAll(table, shorter);
      assert forall i :: 0 <= i < |shorter| ==> shorter[i] == rows[i];
      LastParentFound(Inserted(table, shorter).value, rows);
      assert !HasRow(shorter, rows[|rows| - 1].id);
      forall id | id in Inserted(table, rows).value ensures id in table || HasRow(rows, id) {
        assert HasRow(shorter, id) ==> HasRow(rows, id);
        assert rows[|rows| - 1].id == id ==> HasRow(rows, id);
      }
    }
  }

  lemma {:induction false} TakenIdFails(table: Table, rows: seq<Row>, i: nat)
    requires i < |rows| && rows[i].id in table
    ensures Inserted(table, rows).None?
  {
    InsertedKeeps(table, rows[..|rows| - 1]);
    if i < |rows| - 1 {
      TakenIdFails(table, rows[..|rows| - 1], i);
    }
  }

  lemma RowsOfShorter(rows: seq<Row>, id: string)
    requires rows != []
    ensures HasRow(rows, id) <==> HasRow(rows[..|rows| - 1], id) || rows[|rows| - 1].id == id
  {
    var shorter := rows[..|rows| - 1];
    assert forall i :: 0 <= i < |shorter| ==> shorter[i] == rows[i];
  }

  lemma {:induction false} InsertedIds(table: Table, rows: seq<Row>, id: string)
    ensures Inserted(table, rows).Some? && id in Inserted(table, rows).value ==> id in table || HasRow(rows, id)
  {
    if rows != [] {
      InsertedIds(table, rows[..|rows| - 1], id);
      RowsOfShorter(rows, id);
    }
  }

  lemma {:induction false} LateParentFails(table: Table, rows: seq<Row>, i: nat)
    requires i < |rows| && rows[i].parent.Some? && rows[i].parent.value !in table
    requires !HasRow(rows[..i + 1], rows[i].parent.value)
    ensures Inserted(table, rows).None?
  {
    var shorter := rows[..|rows| - 1];
    if i < |rows| - 1 {
      assert shorter[..i + 1] == rows[..i + 1];
      LateParentFails(table, shorter, i);
    } else {
      assert rows[..i + 1] == rows;
      RowsOfShorter(rows, rows[i].parent.value);
      InsertedIds(table, shorter, rows[i].parent.value);
    }
  }

  lemma {:induction false} InsertedKeeps(table: Table, rows: seq<Row>)
    ensures Inserted(table, rows).Some? ==>
      forall id :: id in table ==> id in Inserted(table, rows).value && Inserted(table, rows).value[id] == table[id]
  {
    if rows != [] {
      InsertedKeeps(table, rows[..|rows| - 1]);
    }
  }

  lemma TranscriptIdsDiffer(rows: seq<Row>, table: Table, conversation: string)
    requires IsTranscript(rows, table, conversation)
    ensures forall i, j :: 0 <= i < j < |rows| ==> rows[i].id != rows[j].id
  {
    forall i, j | 0 <= i < j < |rows| ensures rows[i].id != rows[j].id {
      BeforeIsStrict(PlaceOf(rows[i]), PlaceOf(rows[j]));
    }
  }

  /** No new id is taken. */
  predicate IdsFree(table: Table, rows: seq<Row>, fork: string) {
    forall i :: 0 <= i < |rows| ==> ForkId(fork, rows[i].id) !in table
  }

  /** A parent inside the transcript is at or before its child. */
  predicate ParentsFirst(rows: seq<Row>) {
    forall i, j :: 0 <= i < |rows| && 0 <= j < |rows| && rows[i].parent == Some(rows[j].id) ==> j <= i
  }

  lemma CopiesInTurn(rows: seq<Row>, fork: string)
    requires ParentsFirst(rows)
    ensures ParentsInTurn(ForkedAll(rows, fork)) && ParentsFirst(ForkedAll(rows, fork))
  {
    var copies := ForkedAll(rows, fork);
    forall i | 0 <= i < |copies| && copies[i].parent.Some? ensures HasRow(copies[..i + 1], copies[i].parent.value) {
      var j :| 0 <= j < |rows| && rows[j].id == rows[i].parent.value;
      assert j <= i && copies[..i + 1][j].id == copies[i].parent.value;
    }
    forall i, j | 0 <= i < |copies| && 0 <= j < |copies| && copies[i].parent == Some(copies[j].id) ensures j <= i {
      LinksAreKept(rows, fork, i, j);
    }
  }

  /** A copy whose parent comes after it finds no parent. */
  lemma LaterParentFails(table: Table, rows: seq<Row>, fork: string, i: nat, j: nat)
    requires IdsFree(table, rows, fork) && i < j < |rows| && rows[i].parent == Some(rows[j].id)
    requires forall k, m :: 0 <= k < m < |rows| ==> rows[k].id != rows[m].id
    ensures CopyTranscript(table, rows, fork).None?
  {
    var copies := ForkedAll(rows, fork);
    assert HasRow(rows, rows[j].id);
    assert copies[i].parent == Some(ForkId(fork, rows[j].id));
    var front, wanted := copies[..i + 1], ForkId(fork, rows[j].id);
    forall k | 0 <= k < |front| ensures front[k].id != wanted {
      ForkIdIsInjective(fork, rows[k].id, rows[j].id);
    }
    LateParentFails(table, copies, i);
  }

  /**
   * A fork is an isomorphic copy. The copy succeeds exactly when no new id is
   * taken and no message comes before its parent, and then the fork's
   * transcript, in its own (created_at, id) order, is the source's row by row
   * under injectively renamed ids, and the source's is unchanged. The source may
   * itself be a fork, and the fork's messages come after their parents again.
   */
  lemma ForkIsACopy(table: Table, rows: seq<Row>, source: string, fork: string)
    requires IsTranscript(rows, table, source) && source != fork
    requires forall id :: id in table ==> table[id].conversation != fork
    ensures CopyTranscript(table, rows, fork).Some? <==> IdsFree(table, rows, fork) && ParentsFirst(rows)
    ensures CopyTranscript(table, rows, fork).Some? ==>
      var after := CopyTranscript(table, rows, fork).value;
      && IsTranscript(ForkedAll(rows, fork), after, fork) && ParentsFirst(ForkedAll(rows, fork))
      && IsTranscript(rows, after, source)
      && (forall id :: id in table ==> id in after && after[id] == table[id])
  {
    var copies := ForkedAll(rows, fork);
    TranscriptIdsDiffer(rows, table, source);
    if !IdsFree(table, rows, fork) {
      var i :| 0 <= i < |rows| && ForkId(fork, rows[i].id) in table;
      TakenIdFails(table, copies, i);
    } else if !ParentsFirst(rows) {
      var i, j :| 0 <= i < j < |rows| && rows[i].parent == Some(rows[j].id);
      LaterParentFails(table, rows, fork, i, j);
    } else {
      forall i, j | 0 <= i < j < |rows| ensures copies[i].id != copies[j].id {
        ForkIdIsInjective(fork, rows[i].id, rows[j].id);
      }
      CopiesInTurn(rows, fork);
      InsertedAll(table, copies);
      CopyIsTranscript(table, rows, source, fork);
      SourceStays(table, Inserted(table, copies).value, rows, copies, source, fork);
    }
  }

  /** Two messages of one moment, the first naming the second as its parent: no fork of them can be made. */
  lemma ForwardParentIsRefused(columns: Copied, blocks: seq<StoredBlock>)
    ensures
      var first := Row("a", "source", Some("b"), columns, None, None, blocks);
      var second := Row("b", "source", None, columns, None, None, blocks);
      var table: Table := map["a" := first, "b" := second];
      && IsTranscript([first, second], table, "source") && IdsFree(table, [first, second], "fork")
      && CopyTranscript(table, [first, second], "fork").None?
  {
    var first := Row("a", "source", Some("b"), columns, None, None, blocks);
    var second := Row("b", "source", None, columns, None, None, blocks);
    var table: Table := map["a" := first, "b" := second];
    var rows := [first, second];
    assert Before(PlaceOf(first), PlaceOf(second));
    assert IsTranscript(rows, table, "source") by {
      assert rows[0] == first && rows[1] == second;
    }
    forall i | 0 <= i < |rows| ensures ForkId("fork", rows[i].id) !in table {
      assert |ForkId("fork", rows[i].id)| > 1;
    }
    assert rows[0].parent == Some(rows[1].id);
    ForkIsACopy(table, rows, "source", "fork");
  }

  lemma CopyIsTranscript(table: Table, rows: seq<Row>, source: string, fork: string)
    requires IsTranscript(rows, table, source)
    requires forall id :: id in table ==> table[id].conversation != fork
    requires
      var copies := ForkedAll(rows, fork);
      && (forall i :: 0 <= i < |copies| ==> copies[i].id !in table)
      && (forall i, j :: 0 <= i < j < |copies| ==> copies[i].id != copies[j].id)
      && ParentsInTurn(copies)
    ensures CopyTranscript(table, rows, fork).Some?
    ensures IsTranscript(ForkedAll(rows, fork), CopyTranscript(table, rows, fork).value, fork)
  {
    var copies := ForkedAll(rows, fork);
    InsertedAll(table, copies);
    var after := Inserted(table, copies).value;
    forall i, j | 0 <= i < j < |copies| ensures Before(PlaceOf(copies[i]), PlaceOf(copies[j])) {
      ForkKeepsOrder(fork, rows, rows[i], rows[j]);
    }
    forall id | id in after && after[id].conversation == fork ensures after[id] in copies {
      assert id !in table;
      var i :| 0 <= i < |copies| && copies[i].id == id;
      assert after[id] == copies[i];
    }
  }

  lemma SourceStays(table: Table, after: Table, rows: seq<Row>, copies: seq<Row>, source: string, fork: string)
    requires IsTranscript(rows, table, source) && source != fork
    requires forall id :: id in table ==> id in after && after[id] == table[id]
    requires forall id :: id in after ==> id in table || HasRow(copies, id)
    requires forall i :: 0 <= i < |copies| ==>
      copies[i].conversation == fork && copies[i].id in after && after[copies[i].id] == copies[i]
    ensures IsTranscript(rows, after, source)
  {
  }

  /**
   * A copy has its row's id behind the fork's, and everything of the row but its
   * turn and run, which stay with the source. Links inside the transcript are
   * kept both ways; every other link is null in the fork.
   */
  lemma LinksAreKept(rows: seq<Row>, fork: string, i: nat, j: nat)
    requires i < |rows| && j < |rows|
    ensures
      var copies := ForkedAll(rows, fork);
      && (copies[i].parent == Some(copies[j].id) <==> rows[i].parent == Some(rows[j].id))
      && (copies[i].parent.Some? <==> rows[i].parent.Some? && HasRow(rows, rows[i].parent.value))
      && copies[i].blocks == rows[i].blocks && copies[i].columns == rows[i].columns
      && copies[i].id == "fork:" + fork + ":" + rows[i].id && copies[i].conversation == fork
      && copies[i].turnId == None && copies[i].runId == None
  {
    if rows[i].parent.Some? {
      ForkIdIsInjective(fork, rows[i].parent.value, rows[j].id);
    }
  }

  /** There is only one such list, so the copy is what a query of the fork returns. */
  lemma {:induction false} TranscriptIsUnique(a: seq<Row>, b: seq<Row>)
    requires Ascending(a)
    requires Ascending(b)
    requires forall row :: row in a <==> row in b
    ensures a == b
    decreases |a|
  {
    assert |b| > 0 ==> b[0] in b;
    if a != [] {
      assert a[|a| - 1] in b && b != [];
      LastsAreSame(a, b);
      var fronta, frontb := a[..|a| - 1], b[..|b| - 1];
      forall row ensures row in fronta <==> row in frontb {
        LastIsLast(a, row);
        LastIsLast(b, row);
      }
      FrontIsAscending(a);
      FrontIsAscending(b);
      TranscriptIsUnique(fronta, frontb);
      FrontAndLast(a);
      FrontAndLast(b);
    }
  }

  lemma FrontIsAscending(rows: seq<Row>)
    requires Ascending(rows) && rows != []
    ensures Ascending(rows[..|rows| - 1])
  {
    var front := rows[..|rows| - 1];
    forall i, j | 0 <= i < j < |front| ensures Before(PlaceOf(front[i]), PlaceOf(front[j])) {
      assert Before(PlaceOf(rows[i]), PlaceOf(rows[j]));
    }
  }

  lemma FrontAndLast(rows: seq<Row>)
    requires rows != []
    ensures rows == rows[..|rows| - 1] + [rows[|rows| - 1]]
  {
  }

  lemma LastsAreSame(a: seq<Row>, b: seq<Row>)
    requires a != [] && b != []
    requires Ascending(a)
    requires Ascending(b)
    requires a[|a| - 1] in b && b[|b| - 1] in a
    ensures a[|a| - 1] == b[|b| - 1]
  {
    var i :| 0 <= i < |b| && b[i] == a[|a| - 1];
    var j :| 0 <= j < |a| && a[j] == b[|b| - 1];
    if i < |b| - 1 && j < |a| - 1 {
      assert Before(PlaceOf(a[j]), PlaceOf(a[|a| - 1])) && Before(PlaceOf(b[i]), PlaceOf(b[|b| - 1]));
      BeforeIsStrict(PlaceOf(a[j]), PlaceOf(a[|a| - 1]));
    }
  }

  lemma LastIsLast(a: seq<Row>, row: Row)
    requires a != []
    requires Ascending(a)
    ensures row in a[..|a| - 1] <==> row in a && row != a[|a| - 1]
  {
    if row in a[..|a| - 1] {
      var i :| 0 <= i < |a| - 1 && a[i] == row;
      assert Before(PlaceOf(a[i]), PlaceOf(a[|a| - 1]));
      BeforeIsStrict(PlaceOf(a[i]), PlaceOf(a[|a| - 1]));
    }
  }

  class MessageTable {
    var table: Table

    constructor (table: Table)
      ensures this.table == table
    {
      this.table := table;
    }

    /** The copied id of every row. */
    static method NewIds(rows: seq<Row>, fork: string) returns (ids: map<string, string>)
      ensures forall id :: id in ids <==> HasRow(rows, id)
      ensures forall id :: id in ids ==> ids[id] == ForkId(fork, id)
    {
      ids := map[];
      for i := 0 to |rows|
        invariant forall id :: id in ids <==> HasRow(rows[..i], id)
        invariant forall id :: id in ids ==> ids[id] == ForkId(fork, id)
      {
        ids := ids[rows[i].id := ForkId(fork, rows[i].id)];
        forall id ensures HasRow(rows[..i + 1], id) <==> HasRow(rows[..i], id) || rows[i].id == id {
          HasRowSnoc(rows, i, id);
        }
      }
      assert rows[..|rows|] == rows;
    }

    static lemma HasRowSnoc(rows: seq<Row>, i: nat, id: string)
      requires i < |rows|
      ensures HasRow(rows[..i + 1], id) <==> HasRow(rows[..i], id) || rows[i].id == id
    {
      assert rows[..i + 1][i] == rows[i];
      assert forall k :: 0 <= k < i ==> rows[..i + 1][k] == rows[..i][k];
    }

    /** The rows are those the source's query returned; `fails` says which statement fails. */
    method Copy(rows: seq<Row>, fork: string, fails: nat -> bool) returns (result: Result<(), string>)
      modifies this
      ensures result.Err? ==> table == old(table)
      ensures result.Ok? ==> Some(table) == CopyTranscript(old(table), rows, fork)
      ensures result.Ok? <==>
        CopyTranscript(old(table), rows, fork).Some? && forall n :: 0 <= n <= |rows| ==> !fails(n)
    {
      var copies := ForkedAll(rows, fork);
      var ids := NewIds(rows, fork);
      var shadow := table;
      for i := 0 to |rows|
        invariant Inserted(table, copies[..i]) == Some(shadow)
        invariant table == old(table)
        invariant forall n :: 0 <= n < i ==> !fails(n)
      {
        var row := rows[i];
        if fails(i) { return Err("insert message"); }
        assert HasRow(rows, row.id);
        var parent := if row.parent.Some? && row.parent.value in ids then Some(ids[row.parent.value]) else None;
        var copy := Row(ids[row.id], fork, parent, row.columns, None, None, row.blocks);
        assert copies[i] == copy;
        InsertedNext(table, copies, i, shadow);
        if copy.id in shadow {
          InsertedFails(table, copies, i + 1);
          return Err("UNIQUE constraint failed: message.id");
        }
        if parent.Some? && parent.value !in shadow && parent.value != copy.id {
          InsertedFails(table, copies, i + 1);
          return Err("FOREIGN KEY constraint failed");
        }
        shadow := shadow[copy.id := copy];
      }
      assert copies[..|rows|] == copies;
      if fails(|rows|) { return Err("commit"); }
      table := shadow;
      return Ok(());
    }

    static lemma InsertedNext(table: Table, rows: seq<Row>, i: nat, before: Table)
      requires i < |rows| && Inserted(table, rows[..i]) == Some(before)
      ensures
        var row := rows[i];
        Inserted(table, rows[..i + 1]) ==
          if row.id in before || !ParentFound(before, row) then None else Some(before[row.id := row])
    {
      assert rows[..i + 1][..i] == rows[..i];
    }

    static lemma {:induction false} InsertedFails(table: Table, rows: seq<Row>, i: nat)
      requires i <= |rows| && Inserted(table, rows[..i]).None?
      ensures Inserted(table, rows).None?
      decreases |rows| - i
    {
      if i < |rows| {
        assert rows[..i + 1][..i] == rows[..i];
        InsertedFails(table, rows, i + 1);
      } else {
        assert rows[..i] == rows;
      }
    }
  }
}
