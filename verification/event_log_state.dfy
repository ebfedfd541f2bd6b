/**
 * The run event table and the side-effect ledger that shares its transactions:
 * the rows, and what each statement sequence does to them. Any statement may
 * fail; a failed transaction leaves the shadow copy behind.
 */
module EventLogState {
  import opened Texts
  import opened Wrappers

  datatype Status = Planned | Started | Completed | Failed | Cancelled | Uncertain

  /** What an event says, as far as storing it is concerned. */
  datatype Payload =
    | ToolCallCompleted(callId: string, tool: string, isError: bool)
    | Other(kind: string)

  datatype Event = Event(eventId: string, runId: string, runSequence: nat, sequence: nat, payload: Payload)

  datatype Row = Row(global: nat, eventId: Option<string>, runId: string, sequence: nat, payload: Payload)

  datatype LedgerRow = LedgerRow(
    runId: string, callId: string, category: string, status: Status, replaySafe: bool, ledgerSequence: nat)

  datatype Store = Store(rows: seq<Row>, ledger: seq<LedgerRow>)

  const EMPTY_STORE := Store([], [])

  /** Which statements of one append fail. */
  datatype Faults = Faults(lookup: bool, begin: bool, insert: bool, settle: bool, commit: bool)

  /** The stable id the event is stored under; a blank one is replaced by a new uuid. */
  function StoredId(event: Event, uuid: string): string {
    if IsBlank(event.eventId) then uuid else event.eventId
  }

  function EffectiveSequence(event: Event): nat {
    if event.runSequence > 0 then event.runSequence else event.sequence
  }

  predicate HasId(rows: seq<Row>, eventId: string) {
    exists i :: 0 <= i < |rows| && rows[i].eventId == Some(eventId)
  }

  predicate HasSequence(rows: seq<Row>, runId: string, sequence: nat) {
    exists i :: 0 <= i < |rows| && rows[i].runId == runId && rows[i].sequence == sequence
  }

  function IdOf(rows: seq<Row>, eventId: string): (global: nat)
    requires HasId(rows, eventId)
    ensures exists i :: 0 <= i < |rows| && rows[i].eventId == Some(eventId) && rows[i].global == global
  {
    if rows[0].eventId == Some(eventId) then rows[0].global
    else
      assert exists i :: 0 <= i < |rows[1..]| && rows[1..][i].eventId == Some(eventId) by {
        var i :| 0 <= i < |rows| && rows[i].eventId == Some(eventId);
        assert rows[1..][i - 1] == rows[i];
      }
      IdOf(rows[1..], eventId)
  }

  /** AUTOINCREMENT: one past the last row. */
  function NextGlobal(rows: seq<Row>): nat {
    if rows == [] then 1 else rows[|rows| - 1].global + 1
  }

  /** The row an INSERT would add, or nothing when a UNIQUE index refuses it. */
  function InsertRow(rows: seq<Row>, eventId: Option<string>, runId: string, sequence: nat,
                     payload: Payload): Option<Row> {
    if (eventId.Some? && HasId(rows, eventId.value)) || HasSequence(rows, runId, sequence) then None
    else Some(Row(NextGlobal(rows), eventId, runId, sequence, payload))
  }

  function CategoryForTool(tool: string): string {
    if tool in ["write_file", "apply_patch", "edit_file"] then "workspace_file"
    else if tool in ["run_terminal", "bash"] then "process"
    else if tool in ["web_fetch", "fetch"] then "network"
    else if tool == "mcp_call" || "mcp__" <= tool then "mcp"
    else "external"
  }

  /** UPDATE ... WHERE run_id, tool_call_id AND status = 'started'. */
  function Settle(ledger: seq<LedgerRow>, runId: string, callId: string, status: Status,
                  replaySafe: bool): seq<LedgerRow> {
    seq(|ledger|, i requires 0 <= i < |ledger| =>
      if ledger[i].runId == runId && ledger[i].callId == callId && ledger[i].status == Started
      then ledger[i].(status := status, replaySafe := replaySafe)
      else ledger[i])
  }

  /** append_event_v2: the new store, and the global sequence or the failure. */
  function AppendV2(st: Store, event: Event, uuid: string, faults: Faults): (Store, Result<nat, string>) {
    var eventId := StoredId(event, uuid);
    if !faults.lookup && HasId(st.rows, eventId) then (st, Ok(IdOf(st.rows, eventId)))
    else
      match event.payload
      case ToolCallCompleted(callId, tool, isError) =>
        if faults.begin then (st, Err("begin tool effect commit"))
        else
          var row := InsertRow(st.rows, Some(eventId), event.runId, EffectiveSequence(event), event.payload);
          if faults.insert || row.None? then (st, Err("insert run_event"))
          else if faults.settle then (st, Err("settle tool effect"))
          else if faults.commit then (st, Err("commit tool effect"))
          else
            var ledger := Settle(st.ledger, event.runId, callId,
              if isError then Failed else Completed, CategoryForTool(tool) == "workspace_file");
            (Store(st.rows + [row.value], ledger), Ok(row.value.global))
      case Other(_) =>
        var row := InsertRow(st.rows, Some(eventId), event.runId, EffectiveSequence(event), event.payload);
        if faults.insert || row.None? then (st, Err("insert run_event"))
        else (st.(rows := st.rows + [row.value]), Ok(row.value.global))
  }

  function MaxSequence(rows: seq<Row>, runId: string): (m: nat)
    ensures forall i :: 0 <= i < |rows| && rows[i].runId == runId ==> rows[i].sequence <= m
  {
    if rows == [] then 0
    else
      var rest := MaxSequence(rows[..|rows| - 1], runId);
      var last := rows[|rows| - 1];
      if last.runId == runId && last.sequence > rest then last.sequence else rest
  }

  /** The untyped append: the next sequence of the run, and no event id. */
  function Append(st: Store, runId: string, kind: string, insertFails: bool): (Store, Result<nat, string>) {
    var next := MaxSequence(st.rows, runId) + 1;
    var row := InsertRow(st.rows, None, runId, next, Other(kind));
    if insertFails || row.None? then (st, Err("insert event"))
    else (st.(rows := st.rows + [row.value]), Ok(next))
  }

  predicate Overwritable(row: LedgerRow, runId: string, callId: string, status: Status) {
    && row.runId == runId && row.callId == callId
    && ((row.status != Cancelled && row.status != Uncertain) || status == Uncertain)
  }

  function MaxLedgerSequence(ledger: seq<LedgerRow>, runId: string): (m: nat)
    ensures forall i :: 0 <= i < |ledger| && ledger[i].runId == runId ==> ledger[i].ledgerSequence <= m
  {
    if ledger == [] then 0
    else
      var rest := MaxLedgerSequence(ledger[..|ledger| - 1], runId);
      var last := ledger[|ledger| - 1];
      if last.runId == runId && last.ledgerSequence > rest then last.ledgerSequence else rest
  }

  /** record_tool_effect_state: update what may be overwritten, insert when that touched nothing. */
  function Recorded(ledger: seq<LedgerRow>, runId: string, callId: string, category: string, status: Status,
                    replaySafe: bool): seq<LedgerRow> {
    if exists i :: 0 <= i < |ledger| && Overwritable(ledger[i], runId, callId, status) then
      seq(|ledger|, i requires 0 <= i < |ledger| =>
        if Overwritable(ledger[i], runId, callId, status)
        then ledger[i].(category := category, status := status, replaySafe := replaySafe)
        else ledger[i])
    else
      ledger + [LedgerRow(runId, callId, category, status, replaySafe, MaxLedgerSequence(ledger, runId) + 1)]
  }

  // ---- Replay ----

  /** Insert by sequence into a list already in sequence order. */
  function InOrderWith(sorted: seq<Row>, row: Row): seq<Row> {
    if sorted == [] then [row]
    else if row.sequence < sorted[0].sequence then [row] + sorted
    else [sorted[0]] + InOrderWith(sorted[1..], row)
  }

  /** WHERE run_id = ? AND sequence > ? ORDER BY sequence ASC. */
  function ReplayAfter(rows: seq<Row>, runId: string, last: nat): seq<Row> {
    if rows == [] then []
    else
      var earlier := ReplayAfter(rows[..|rows| - 1], runId, last);
      var row := rows[|rows| - 1];
      if row.runId == runId && row.sequence > last then InOrderWith(earlier, row) else earlier
  }

  const MAX_GLOBAL_PAGE: nat := 500

  function Clamp(limit: nat): nat {
    if limit < 1 then 1 else if limit > MAX_GLOBAL_PAGE then MAX_GLOBAL_PAGE else limit
  }

  /** Rows past a global sequence, in global order. */
  function GlobalAfter(rows: seq<Row>, after: nat): seq<Row> {
    if rows == [] then []
    else if rows[0].global > after then [rows[0]] + GlobalAfter(rows[1..], after)
    else GlobalAfter(rows[1..], after)
  }

  /** LIMIT clamped to 1..500. */
  function GlobalPage(rows: seq<Row>, after: nat, limit: nat): seq<Row> {
    var all := GlobalAfter(rows, after);
    if |all| <= Clamp(limit) then all else all[..Clamp(limit)]
  }
}
