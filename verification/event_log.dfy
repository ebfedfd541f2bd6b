/** The event log object: appends with their transactions, and replays built row by row. */
module EventLogs {
  import opened Texts
  import opened Wrappers
  import opened EventLogState

  class EventLog {
    var rows: seq<Row>
    var ledger: seq<LedgerRow>

    ghost function State(): Store
      reads this
    {
      Store(rows, ledger)
    }

    constructor ()
      ensures State() == EMPTY_STORE
    {
      rows, ledger := [], [];
    }

    /**
     * Look the id up; on a miss, insert the row, and for a completed tool
     * settle its intent in the same transaction.
     */
    method AppendEventV2(event: Event, uuid: string, faults: Faults) returns (result: Result<nat, string>)
      modifies this
      ensures (State(), result) == AppendV2(old(State()), event, uuid, faults)
    {
      var eventId := if IsBlank(event.eventId) then uuid else event.eventId;
      if !faults.lookup && HasId(rows, eventId) {
        return Ok(IdOf(rows, eventId));
      }
      if event.payload.ToolCallCompleted? {
        if faults.begin { return Err("begin tool effect commit"); }
        var shadowRows, shadowLedger := rows, ledger;
        var row := InsertRow(shadowRows, Some(eventId), event.runId, EffectiveSequence(event), event.payload);
        if faults.insert || row.None? { return Err("insert run_event"); }
        shadowRows := shadowRows + [row.value];
        if faults.settle { return Err("settle tool effect"); }
        shadowLedger := SettleToolEffect(shadowLedger, event.runId, event.payload.callId,
          if event.payload.isError then Failed else Completed,
          CategoryForTool(event.payload.tool) == "workspace_file");
        if faults.commit { return Err("commit tool effect"); }
        rows, ledger := shadowRows, shadowLedger;
        return Ok(row.value.global);
      } else {
        var row := InsertRow(rows, Some(eventId), event.runId, EffectiveSequence(event), event.payload);
        if faults.insert || row.None? { return Err("insert run_event"); }
        rows := rows + [row.value];
        return Ok(row.value.global);
      }
    }

    static method SettleToolEffect(ledger: seq<LedgerRow>, runId: string, callId: string, status: Status,
                                   replaySafe: bool)
      returns (out: seq<LedgerRow>)
      ensures out == Settle(ledger, runId, callId, status, replaySafe)
    {
      out := [];
      for i := 0 to |ledger|
        invariant out == Settle(ledger, runId, callId, status, replaySafe)[..i]
      {
        var row := ledger[i];
        if row.runId == runId && row.callId == callId && row.status == Started {
          row := row.(status := status, replaySafe := replaySafe);
        }
        out := out + [row];
      }
    }

    method AppendUntyped(runId: string, kind: string, insertFails: bool) returns (result: Result<nat, string>)
      modifies this
      ensures (State(), result) == Append(old(State()), runId, kind, insertFails)
    {
      var next := MaxSequence(rows, runId) + 1;
      var row := InsertRow(rows, None, runId, next, Other(kind));
      if insertFails || row.None? { return Err("insert event"); }
      rows := rows + [row.value];
      return Ok(next);
    }

    method RecordToolEffectState(runId: string, callId: string, category: string, status: Status, replaySafe: bool)
      modifies this`ledger
      ensures ledger == Recorded(old(ledger), runId, callId, category, status, replaySafe)
    {
      var updated: seq<LedgerRow> := [];
      var changed := 0;
      for i := 0 to |ledger|
        invariant ledger == old(ledger) && |updated| == i
        invariant changed > 0 <==> exists k :: 0 <= k < i && Overwritable(ledger[k], runId, callId, status)
        invariant forall k :: 0 <= k < i ==>
          updated[k] == if Overwritable(ledger[k], runId, callId, status)
                        then ledger[k].(category := category, status := status, replaySafe := replaySafe)
                        else ledger[k]
      {
        var row := ledger[i];
        if Overwritable(row, runId, callId, status) {
          row := row.(category := category, status := status, replaySafe := replaySafe);
          changed := changed + 1;
        }
        updated := updated + [row];
      }
      if changed > 0 {
        ledger := updated;
      } else {
        ledger := ledger + [LedgerRow(runId, callId, category, status, replaySafe,
                                      MaxLedgerSequence(ledger, runId) + 1)];
      }
    }

    static lemma TakeOne(events: seq<Row>, at: nat, rest: seq<Row>)
      requires at < |events|
      ensures events[..at] + ([events[at]] + rest) == events[..at + 1] + rest
    {
    }

    static method InsertInOrder(events: seq<Row>, row: Row) returns (longer: seq<Row>)
      ensures longer == InOrderWith(events, row)
    {
      var at := 0;
      while at < |events| && events[at].sequence <= row.sequence
        invariant at <= |events|
        invariant InOrderWith(events, row) == events[..at] + InOrderWith(events[at..], row)
      {
        assert events[at..][1..] == events[at + 1..];
        TakeOne(events, at, InOrderWith(events[at + 1..], row));
        at := at + 1;
      }
      longer := events[..at] + [row] + events[at..];
    }

    /** The run's events past a sequence, put in sequence order as the rows come. */
    method ReplayAfterV2(runId: string, last: nat) returns (events: seq<Row>)
      ensures events == ReplayAfter(rows, runId, last)
    {
      events := [];
      for i := 0 to |rows|
        invariant events == ReplayAfter(rows[..i], runId, last)
      {
        assert rows[..i + 1][..i] == rows[..i];
        if rows[i].runId == runId && rows[i].sequence > last {
          events := InsertInOrder(events, rows[i]);
        }
      }
      assert rows[..|rows|] == rows;
    }

    /** One page of the global log. */
    method ReplayGlobalAfter(after: nat, limit: nat) returns (events: seq<Row>)
      ensures events == GlobalPage(rows, after, limit)
    {
      var cap := Clamp(limit);
      events := [];
      var i := 0;
      while i < |rows| && |events| < cap
        invariant i <= |rows| && |events| <= cap
        invariant events + GlobalAfter(rows[i..], after) == GlobalAfter(rows, after)
      {
        AfterOneRow(rows, i, after, events);
        if rows[i].global > after {
          events := events + [rows[i]];
        }
        i := i + 1;
      }
    }

    static lemma AfterOneRow(rows: seq<Row>, i: nat, after: nat, events: seq<Row>)
      requires i < |rows|
      ensures events + GlobalAfter(rows[i..], after) ==
        (if rows[i].global > after then events + [rows[i]] else events) + GlobalAfter(rows[i + 1..], after)
    {
      assert rows[i..][1..] == rows[i + 1..];
    }
  }
}
