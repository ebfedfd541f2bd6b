/**
 * What an append stores and answers, and what it does to the ledger, with the
 * tool names and page limits written out.
 */
module EventLogRows {
  import opened Sequences
  import opened Texts
  import opened Wrappers
  import opened EventLogReplay
  import opened EventLogState
  import opened EventLogTheorems

  /** One past the last row's global sequence. */
  function NextOf(rows: seq<Row>): nat {
    if rows == [] then 1 else rows[|rows| - 1].global + 1
  }

  /** The row an event is stored as: its own run, payload and id, and its position in the run if it has one. */
  function RowOf(rows: seq<Row>, event: Event, uuid: string): Row {
    Row(NextOf(rows), Some(if IsBlank(event.eventId) then uuid else event.eventId), event.runId,
        if event.runSequence > 0 then event.runSequence else event.sequence, event.payload)
  }

  predicate Known(rows: seq<Row>, eventId: Option<string>) {
    exists i :: 0 <= i < |rows| && rows[i].eventId == eventId
  }

  predicate Taken(rows: seq<Row>, row: Row) {
    exists i :: 0 <= i < |rows| && rows[i].runId == row.runId && rows[i].sequence == row.sequence
  }

  /** A started intent of the call is settled by its fact; only a file written in the workspace may be replayed. */
  predicate SettledBy(row: LedgerRow, row': LedgerRow, event: Event)
    requires event.payload.ToolCallCompleted?
  {
    if row.runId == event.runId && row.callId == event.payload.callId && row.status == Started then
      row' == LedgerRow(row.runId, row.callId, row.category, if event.payload.isError then Failed else Completed,
                        event.payload.tool in ["write_file", "apply_patch", "edit_file"], row.ledgerSequence)
    else row' == row
  }

  predicate LedgerAfter(ledger: seq<LedgerRow>, ledger': seq<LedgerRow>, event: Event) {
    if event.payload.ToolCallCompleted?
    then |ledger'| == |ledger| && forall i :: 0 <= i < |ledger| ==> SettledBy(ledger[i], ledger'[i], event)
    else ledger' == ledger
  }

  /**
   * An append, entirely. An id that is known, and found, answers its global
   * sequence; an id or a place in the run that is taken, or a statement that
   * fails, is an error and changes nothing; any other event is stored as it is
   * at the next global sequence, which is the answer, and settles its intent.
   */
  lemma AppendIs(st: Store, event: Event, uuid: string, faults: Faults)
    ensures
      var (st', result) := AppendV2(st, event, uuid, faults);
      var row := RowOf(st.rows, event, uuid);
      var failing := faults.insert ||
        (event.payload.ToolCallCompleted? && (faults.begin || faults.settle || faults.commit));
      if Known(st.rows, row.eventId) && !faults.lookup then
        && st' == st
        && exists i :: 0 <= i < |st.rows| && st.rows[i].eventId == row.eventId && result == Ok(st.rows[i].global)
      else if Known(st.rows, row.eventId) || Taken(st.rows, row) || failing then st' == st && result.Err?
      else st'.rows == st.rows + [row] && result == Ok(row.global) && LedgerAfter(st.ledger, st'.ledger, event)
  {
    var row := RowOf(st.rows, event, uuid);
    assert HasId(st.rows, row.eventId.value) <==> Known(st.rows, row.eventId);
    assert HasSequence(st.rows, row.runId, row.sequence) <==> Taken(st.rows, row);
  }

  /** And a later replay of the run from before it returns that very row, whatever was done since. */
  lemma AppendedIsReplayed(st: Store, event: Event, uuid: string, faults: Faults, later: seq<Op>, last: nat)
    requires WellKept(st.rows)
    requires AppendV2(st, event, uuid, faults).0.rows != st.rows && RowOf(st.rows, event, uuid).sequence > last
    ensures
      var st' := AppendV2(st, event, uuid, faults).0;
      RowOf(st.rows, event, uuid) in ReplayAfter(Run(st', later).rows, event.runId, last)
  {
    AppendIs(st, event, uuid, faults);
    var op := AppendEvent(event, uuid, faults);
    StepKeepsRows(st, op);
    RunKeepsRows(Step(st, op), later);
    var rows := Run(Step(st, op), later).rows;
    assert rows[|st.rows|] == RowOf(st.rows, event, uuid);
    ReplayIsExact(rows, event.runId, last);
  }

  /** The highest sequence of the run, 0 if it has no row. */
  predicate IsHighest(rows: seq<Row>, runId: string, m: nat) {
    && (forall i :: 0 <= i < |rows| && rows[i].runId == runId ==> rows[i].sequence <= m)
    && (m > 0 ==> exists i :: 0 <= i < |rows| && rows[i].runId == runId && rows[i].sequence == m)
  }

  lemma {:induction false} MaxIsHighest(rows: seq<Row>, runId: string)
    ensures IsHighest(rows, runId, MaxSequence(rows, runId))
  {
    if rows != [] {
      var front := rows[..|rows| - 1];
      MaxIsHighest(front, runId);
      var m := MaxSequence(front, runId);
      if m > 0 {
        var i :| 0 <= i < |front| && front[i].runId == runId && front[i].sequence == m;
        assert rows[i] == front[i];
      }
    }
  }

  /** An untyped append takes the place after the run's highest, without an id, and answers that place. */
  lemma UntypedAppendIs(st: Store, runId: string, kind: string, insertFails: bool, m: nat)
    requires IsHighest(st.rows, runId, m)
    ensures
      var (st', result) := Append(st, runId, kind, insertFails);
      if insertFails then st' == st && result.Err?
      else
        && st' == Store(st.rows + [Row(NextOf(st.rows), None, runId, m + 1, Other(kind))], st.ledger)
        && result == Ok(m + 1)
  {
    MaxIsHighest(st.rows, runId);
  }

  // ---- The ledger ----

  /** A row of the call that may still be moved to the status. */
  predicate Moves(row: LedgerRow, runId: string, callId: string, status: Status) {
    && row.runId == runId && row.callId == callId
    && (status == Uncertain || (row.status != Cancelled && row.status != Uncertain))
  }

  predicate IsHighestPlace(ledger: seq<LedgerRow>, runId: string, m: nat) {
    && (forall i :: 0 <= i < |ledger| && ledger[i].runId == runId ==> ledger[i].ledgerSequence <= m)
    && (m > 0 ==> exists i :: 0 <= i < |ledger| && ledger[i].runId == runId && ledger[i].ledgerSequence == m)
  }

  lemma {:induction false} MaxIsHighestPlace(ledger: seq<LedgerRow>, runId: string)
    ensures IsHighestPlace(ledger, runId, MaxLedgerSequence(ledger, runId))
  {
    if ledger != [] {
      var front := ledger[..|ledger| - 1];
      MaxIsHighestPlace(front, runId);
      var m := MaxLedgerSequence(front, runId);
      if m > 0 {
        var i :| 0 <= i < |front| && front[i].runId == runId && front[i].ledgerSequence == m;
        assert ledger[i] == front[i];
      }
    }
  }

  /**
   * Recording a state, entirely: every row of the call that is not cancelled or
   * uncertain, or any if the state is uncertain itself, takes the new state and
   * keeps its place; if there is none a row takes the place after the run's
   * highest; no other row moves.
   */
  lemma RecordIs(ledger: seq<LedgerRow>, runId: string, callId: string, category: string, status: Status,
                 replaySafe: bool, m: nat)
    requires IsHighestPlace(ledger, runId, m)
    ensures
      var after := Recorded(ledger, runId, callId, category, status, replaySafe);
      if exists i :: 0 <= i < |ledger| && Moves(ledger[i], runId, callId, status) then
        && |after| == |ledger|
        && forall i :: 0 <= i < |ledger| ==>
             after[i] == if Moves(ledger[i], runId, callId, status)
                         then LedgerRow(runId, callId, category, status, replaySafe, ledger[i].ledgerSequence)
                         else ledger[i]
      else after == ledger + [LedgerRow(runId, callId, category, status, replaySafe, m + 1)]
  {
    MaxIsHighestPlace(ledger, runId);
    assert forall i :: 0 <= i < |ledger| ==>
      (Moves(ledger[i], runId, callId, status) <==> Overwritable(ledger[i], runId, callId, status));
  }

  /** The category a tool's effects are recorded under. */
  lemma CategoriesAre(tool: string)
    ensures CategoryForTool(tool) == "workspace_file" <==>
      tool == "write_file" || tool == "apply_patch" || tool == "edit_file"
    ensures CategoryForTool(tool) == "process" <==> tool == "run_terminal" || tool == "bash"
    ensures CategoryForTool(tool) == "network" <==> tool == "web_fetch" || tool == "fetch"
    ensures CategoryForTool(tool) == "mcp" <==> tool == "mcp_call" || exists name :: tool == "mcp__" + name
    ensures CategoryForTool(tool) in ["workspace_file", "process", "network", "mcp", "external"]
  {
    if "mcp__" <= tool {
      assert tool == "mcp__" + tool[5..] && tool[0] == 'm' && tool[4] == '_';
    }
  }

  // ---- Pages ----

  /** A page starts behind the cursor and holds as many of the rows there as were asked for, between 1 and 500. */
  lemma PageIs(rows: seq<Row>, after: nat, limit: nat) returns (k: nat, n: nat)
    requires GlobalAscending(rows)
    ensures k + n <= |rows| && GlobalPage(rows, after, limit) == rows[k..k + n]
    ensures forall i :: 0 <= i < |rows| ==> (rows[i].global > after <==> i >= k)
    ensures
      var asked := if limit == 0 then 1 else if limit > 500 then 500 else limit;
      n == if |rows| - k < asked then |rows| - k else asked
  {
    k := FirstAfter(rows, after);
    BehindCursor(rows, after, k);
    n := |GlobalPage(rows, after, limit)|;
    PageFrom(rows, after, limit, k, n);
  }

  lemma BehindCursor(rows: seq<Row>, after: nat, k: nat)
    requires GlobalAscending(rows) && k == FirstAfter(rows, after)
    ensures forall i :: 0 <= i < |rows| ==> (rows[i].global > after <==> i >= k)
    ensures GlobalAfter(rows, after) == rows[k..]
  {
    GlobalAfterIsSuffix(rows, after, k);
  }

  lemma PageFrom(rows: seq<Row>, after: nat, limit: nat, k: nat, n: nat)
    requires k <= |rows| && GlobalAfter(rows, after) == rows[k..] && n == |GlobalPage(rows, after, limit)|
    ensures k + n <= |rows| && GlobalPage(rows, after, limit) == rows[k..k + n]
    ensures
      var asked := if limit == 0 then 1 else if limit > 500 then 500 else limit;
      n == if |rows| - k < asked then |rows| - k else asked
  {
    SplitTail(rows, k, n);
  }
}
