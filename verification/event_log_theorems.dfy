/**
 * What the log and the ledger agree on over every run of intents, appends,
 * duplicate appends and failures.
 */
module EventLogTheorems {
  import opened Texts
  import opened Wrappers
  import opened EventLogState

  datatype Op =
    | AppendEvent(event: Event, uuid: string, faults: Faults)
    | AppendUntyped(runId: string, kind: string, insertFails: bool)
    | RecordState(runId: string, callId: string, category: string, status: Status, replaySafe: bool, fails: bool)

  function Step(st: Store, op: Op): Store {
    match op
    case AppendEvent(event, uuid, faults) => AppendV2(st, event, uuid, faults).0
    case AppendUntyped(runId, kind, insertFails) => Append(st, runId, kind, insertFails).0
    case RecordState(runId, callId, category, status, replaySafe, fails) =>
      if fails then st else st.(ledger := Recorded(st.ledger, runId, callId, category, status, replaySafe))
  }

  function Run(st: Store, ops: seq<Op>): Store
    decreases |ops|
  {
    if ops == [] then st else Run(Step(st, ops[0]), ops[1..])
  }

  /** The table's own constraints: ids ascend, event ids and per-run sequences are unique. */
  ghost predicate WellKept(rows: seq<Row>) {
    && (forall i, j :: 0 <= i < j < |rows| ==> 0 < rows[i].global < rows[j].global)
    && (forall i :: 0 <= i < |rows| ==> 0 < rows[i].global)
    && (forall i, j :: 0 <= i < j < |rows| && rows[i].eventId.Some? ==> rows[i].eventId != rows[j].eventId)
    && (forall i, j :: 0 <= i < j < |rows| && rows[i].runId == rows[j].runId ==> rows[i].sequence != rows[j].sequence)
  }

  lemma InsertKeepsRows(rows: seq<Row>, eventId: Option<string>, runId: string, sequence: nat, payload: Payload)
    requires WellKept(rows) && InsertRow(rows, eventId, runId, sequence, payload).Some?
    ensures WellKept(rows + [InsertRow(rows, eventId, runId, sequence, payload).value])
  {
    var row := InsertRow(rows, eventId, runId, sequence, payload).value;
    forall i | 0 <= i < |rows| ensures rows[i].global < row.global {
      if i < |rows| - 1 { assert rows[i].global < rows[|rows| - 1].global; }
    }
  }

  /** A step leaves the rows alone or inserts one. */
  lemma StepInserts(st: Store, op: Op) returns (eventId: Option<string>, runId: string, sequence: nat, payload: Payload)
    requires Step(st, op).rows != st.rows
    ensures InsertRow(st.rows, eventId, runId, sequence, payload).Some?
    ensures Step(st, op).rows == st.rows + [InsertRow(st.rows, eventId, runId, sequence, payload).value]
  {
    var row := Step(st, op).rows[|st.rows|];
    eventId, runId, sequence, payload := row.eventId, row.runId, row.sequence, row.payload;
  }

  lemma StepKeepsRows(st: Store, op: Op)
    requires WellKept(st.rows)
    ensures WellKept(Step(st, op).rows)
    ensures st.rows <= Step(st, op).rows
  {
    if Step(st, op).rows != st.rows {
      var eventId, runId, sequence, payload := StepInserts(st, op);
      InsertKeepsRows(st.rows, eventId, runId, sequence, payload);
    }
  }

  lemma {:induction false} RunKeepsRows(st: Store, ops: seq<Op>)
    requires WellKept(st.rows)
    ensures WellKept(Run(st, ops).rows) && st.rows <= Run(st, ops).rows
    decreases |ops|
  {
    if ops != [] {
      StepKeepsRows(st, ops[0]);
      RunKeepsRows(Step(st, ops[0]), ops[1..]);
    }
  }

  lemma IdIsStable(rows: seq<Row>, later: seq<Row>, eventId: string)
    requires WellKept(later) && rows <= later && HasId(rows, eventId)
    ensures HasId(later, eventId) && IdOf(later, eventId) == IdOf(rows, eventId)
  {
    var i :| 0 <= i < |rows| && rows[i].eventId == Some(eventId) && rows[i].global == IdOf(rows, eventId);
    assert later[i] == rows[i];
    var j :| 0 <= j < |later| && later[j].eventId == Some(eventId) && later[j].global == IdOf(later, eventId);
    assert i == j;
  }

  lemma LastIsFound(rows: seq<Row>, row: Row, eventId: string)
    requires WellKept(rows + [row]) && row.eventId == Some(eventId)
    ensures HasId(rows + [row], eventId) && IdOf(rows + [row], eventId) == row.global
  {
    var longer := rows + [row];
    assert longer[|rows|] == row;
    var i :| 0 <= i < |longer| && longer[i].eventId == Some(eventId) && longer[i].global == IdOf(longer, eventId);
    assert i == |rows|;
  }

  lemma AppendedIsFound(st: Store, event: Event, uuid: string)
    requires WellKept(st.rows) && AppendV2(st, event, uuid, NO_FAULTS).1.Ok?
    ensures var (st', r) := AppendV2(st, event, uuid, NO_FAULTS);
      HasId(st'.rows, StoredId(event, uuid)) && IdOf(st'.rows, StoredId(event, uuid)) == r.value
  {
    var (st', r) := AppendV2(st, event, uuid, NO_FAULTS);
    var eventId := StoredId(event, uuid);
    if !HasId(st.rows, eventId) {
      var row := InsertRow(st.rows, Some(eventId), event.runId, EffectiveSequence(event), event.payload).value;
      assert st'.rows == st.rows + [row];
      InsertKeepsRows(st.rows, Some(eventId), event.runId, EffectiveSequence(event), event.payload);
      LastIsFound(st.rows, row, eventId);
    }
  }

  /**
   * With its id already stored, an event adds nothing; it is told the stored
   * sequence unless the index is unreadable.
   */
  lemma KnownIdAddsNothing(st: Store, event: Event, uuid: string, faults: Faults)
    requires HasId(st.rows, StoredId(event, uuid))
    ensures var (st', r) := AppendV2(st, event, uuid, faults);
      st' == st && (r == Ok(IdOf(st.rows, StoredId(event, uuid))) || (faults.lookup && r.Err?))
  {
  }

  /**
   * Appends are idempotent by event id: once an event is in, appending its id
   * again, however much later, returns the original global sequence and adds
   * nothing. An unreadable index can only turn that into an error.
   */
  lemma ReappendReturnsTheOriginal(st: Store, event: Event, uuid: string, ops: seq<Op>, again: Event, uuid': string,
                                   faults: Faults)
    requires WellKept(st.rows) && !IsBlank(event.eventId) && again.eventId == event.eventId
    requires AppendV2(st, event, uuid, NO_FAULTS).1.Ok?
    ensures var first := AppendV2(st, event, uuid, NO_FAULTS);
      var later := Run(first.0, ops);
      var second := AppendV2(later, again, uuid', faults);
      second.0 == later && (second.1 == first.1 || (faults.lookup && second.1.Err?))
  {
    var first := AppendV2(st, event, uuid, NO_FAULTS);
    AppendedIsFound(st, event, uuid);
    StepKeepsRows(st, AppendEvent(event, uuid, NO_FAULTS));
    RunKeepsRows(first.0, ops);
    IdIsStable(first.0.rows, Run(first.0, ops).rows, event.eventId);
    KnownIdAddsNothing(Run(first.0, ops), again, uuid', faults);
  }

  const NO_FAULTS := Faults(false, false, false, false, false)

  /**
   * The id is what makes it so: appending the same event twice returns its
   * sequence exactly when its id is not blank.
   */
  lemma RetryWorksOnlyWithAnId(st: Store, event: Event, uuid: string, uuid': string)
    requires WellKept(st.rows) && AppendV2(st, event, uuid, NO_FAULTS).1.Ok?
    requires !HasId(AppendV2(st, event, uuid, NO_FAULTS).0.rows, uuid')
    requires IsBlank(event.eventId) ==> !HasId(st.rows, uuid)
    ensures var first := AppendV2(st, event, uuid, NO_FAULTS);
      var retry := AppendV2(first.0, event, uuid', NO_FAULTS);
      && retry.0 == first.0
      && (retry.1 == first.1 <==> !IsBlank(event.eventId))
  {
    var first := AppendV2(st, event, uuid, NO_FAULTS);
    if !IsBlank(event.eventId) {
      ReappendReturnsTheOriginal(st, event, uuid, [], event, uuid', NO_FAULTS);
    } else {
      assert first.0.rows[|st.rows|].runId == event.runId;
      assert HasSequence(first.0.rows, event.runId, EffectiveSequence(event));
    }
  }

  // ---- The fact and the ledger ----

  predicate IsFact(row: Row, runId: string, callId: string) {
    row.runId == runId && row.payload.ToolCallCompleted? && row.payload.callId == callId
  }

  predicate HasFact(rows: seq<Row>, runId: string, callId: string) {
    exists i :: 0 <= i < |rows| && IsFact(rows[i], runId, callId)
  }

  predicate HasStarted(ledger: seq<LedgerRow>, runId: string, callId: string) {
    exists i :: 0 <= i < |ledger| && ledger[i].runId == runId && ledger[i].callId == callId
      && ledger[i].status == Started
  }

  /**
   * The tool-completed fact and the settlement are one transaction: an append
   * that fails anywhere changes nothing; one that adds the fact leaves no
   * started intent of that call, and touches no other ledger row.
   */
  lemma FactAndSettlementAreOne(st: Store, event: Event, uuid: string, faults: Faults)
    requires event.payload.ToolCallCompleted?
    ensures var (st', r) := AppendV2(st, event, uuid, faults);
      && (st'.rows == st.rows ==> st' == st)
      && (r.Err? ==> st' == st)
      && (st'.rows != st.rows ==>
            && HasFact(st'.rows, event.runId, event.payload.callId)
            && !HasStarted(st'.ledger, event.runId, event.payload.callId)
            && |st'.ledger| == |st.ledger|
            && forall i :: 0 <= i < |st.ledger| && st'.ledger[i] != st.ledger[i] ==>
                 && st.ledger[i].status == Started && st.ledger[i].runId == event.runId
                 && st.ledger[i].callId == event.payload.callId
                 && st'.ledger[i].status == if event.payload.isError then Failed else Completed)
  {
    var st' := AppendV2(st, event, uuid, faults).0;
    if st'.rows != st.rows {
      assert IsFact(st'.rows[|st.rows|], event.runId, event.payload.callId);
    }
  }

  predicate IsSettled(status: Status) {
    status == Completed || status == Failed
  }

  ghost predicate SettledByFacts(st: Store) {
    forall i :: 0 <= i < |st.ledger| && IsSettled(st.ledger[i].status) ==>
      HasFact(st.rows, st.ledger[i].runId, st.ledger[i].callId)
  }

  /** The operation records an outcome for a call whose fact is not in the log yet. */
  predicate SettlesEarly(st: Store, op: Op) {
    op.RecordState? && !op.fails && IsSettled(op.status) && !HasFact(st.rows, op.runId, op.callId)
  }

  lemma FactsStay(rows: seq<Row>, later: seq<Row>, runId: string, callId: string)
    requires rows <= later && HasFact(rows, runId, callId)
    ensures HasFact(later, runId, callId)
  {
    var i :| 0 <= i < |rows| && IsFact(rows[i], runId, callId);
    assert later[i] == rows[i];
  }

  /** A recorded state is in the ledger afterwards, on some row of its call. */
  lemma RecordedIsThere(ledger: seq<LedgerRow>, runId: string, callId: string, category: string, status: Status,
                        replaySafe: bool)
    returns (i: nat)
    ensures
      var after := Recorded(ledger, runId, callId, category, status, replaySafe);
      i < |after| && after[i].runId == runId && after[i].callId == callId && after[i].status == status
  {
    if k :| 0 <= k < |ledger| && Overwritable(ledger[k], runId, callId, status) {
      i := k;
    } else {
      i := |ledger|;
    }
  }

  lemma RecordSettlesByFacts(st: Store, op: Op)
    requires SettledByFacts(st) && op.RecordState? && !SettlesEarly(st, op)
    ensures SettledByFacts(Step(st, op))
  {
    var st' := Step(st, op);
    forall i | 0 <= i < |st'.ledger| && IsSettled(st'.ledger[i].status)
      ensures HasFact(st'.rows, st'.ledger[i].runId, st'.ledger[i].callId)
    {
      assert i < |st.ledger| && st.ledger[i] == st'.ledger[i] ==> IsSettled(st.ledger[i].status);
    }
  }

  lemma AppendSettlesByFacts(st: Store, op: Op)
    requires SettledByFacts(st) && !op.RecordState?
    ensures SettledByFacts(Step(st, op))
  {
    var st' := Step(st, op);
    forall i | 0 <= i < |st'.ledger| && IsSettled(st'.ledger[i].status)
      ensures HasFact(st'.rows, st'.ledger[i].runId, st'.ledger[i].callId)
    {
      if i < |st.ledger| && st.ledger[i] == st'.ledger[i] {
        FactsStay(st.rows, st'.rows, st.ledger[i].runId, st.ledger[i].callId);
      } else if op.AppendEvent? {
        FactAndSettlementAreOne(st, op.event, op.uuid, op.faults);
      }
    }
  }

  /** An outcome without its fact appears exactly when one is recorded directly before the fact. */
  lemma SettledWithoutFactIffEarly(st: Store, op: Op)
    requires SettledByFacts(st)
    ensures SettledByFacts(Step(st, op)) <==> !SettlesEarly(st, op)
  {
    if SettlesEarly(st, op) {
      var i := RecordedIsThere(st.ledger, op.runId, op.callId, op.category, op.status, op.replaySafe);
      assert Step(st, op).rows == st.rows && IsSettled(Step(st, op).ledger[i].status);
    } else if op.RecordState? {
      RecordSettlesByFacts(st, op);
    } else {
      AppendSettlesByFacts(st, op);
    }
  }

  predicate NeverSettlesEarly(st: Store, ops: seq<Op>)
    decreases |ops|
  {
    ops == [] || (!SettlesEarly(st, ops[0]) && NeverSettlesEarly(Step(st, ops[0]), ops[1..]))
  }

  /**
   * Every state of a run has a fact for each settled intent if and only if no
   * outcome is recorded ahead of its fact.
   */
  lemma {:induction false} SettledOnlyWithFact(st: Store, ops: seq<Op>)
    requires SettledByFacts(st)
    ensures AlwaysSettledByFacts(st, ops) <==> NeverSettlesEarly(st, ops)
    decreases |ops|
  {
    if ops != [] {
      SettledWithoutFactIffEarly(st, ops[0]);
      if SettledByFacts(Step(st, ops[0])) {
        SettledOnlyWithFact(Step(st, ops[0]), ops[1..]);
      }
    }
  }

  /** In every state the run goes through a settled intent has its fact in the log. */
  ghost predicate AlwaysSettledByFacts(st: Store, ops: seq<Op>)
    decreases |ops|
  {
    SettledByFacts(st) && (ops != [] ==> AlwaysSettledByFacts(Step(st, ops[0]), ops[1..]))
  }

  /** The failing input: an MCP call recorded as started and then as completed, before its event. */
  lemma McpSettlesEarly(runId: string, callId: string)
    ensures
      var begun := Step(EMPTY_STORE, RecordState(runId, callId, "mcp", Started, false, false));
      var st := Step(begun, RecordState(runId, callId, "mcp", Completed, false, false));
      && SettledByFacts(begun) && begun.ledger == [LedgerRow(runId, callId, "mcp", Started, false, 1)]
      && st.rows == [] && st.ledger == [LedgerRow(runId, callId, "mcp", Completed, false, 1)] && !SettledByFacts(st)
  {
    var begun := Step(EMPTY_STORE, RecordState(runId, callId, "mcp", Started, false, false));
    assert begun.ledger == [LedgerRow(runId, callId, "mcp", Started, false, 1)];
    assert Overwritable(begun.ledger[0], runId, callId, Completed);
    SettledWithoutFactIffEarly(begun, RecordState(runId, callId, "mcp", Completed, false, false));
  }

  ghost predicate NoneLeftStarted(st: Store) {
    forall runId, callId :: HasStarted(st.ledger, runId, callId) ==> !HasFact(st.rows, runId, callId)
  }

  /** The operation records a started intent for a call whose fact is already in the log. */
  predicate Reopens(st: Store, op: Op) {
    op.RecordState? && !op.fails && op.status == Started && HasFact(st.rows, op.runId, op.callId)
  }

  /** A fact never leaves its intent started, and only re-recording the intent as started afterwards undoes that. */
  lemma StartedAfterFactIffReopened(st: Store, op: Op)
    requires NoneLeftStarted(st)
    ensures NoneLeftStarted(Step(st, op)) <==> !Reopens(st, op)
  {
    var st' := Step(st, op);
    if Reopens(st, op) {
      if i :| 0 <= i < |st.ledger| && Overwritable(st.ledger[i], op.runId, op.callId, op.status) {
        assert st'.ledger[i].status == Started;
      } else {
        assert st'.ledger[|st.ledger|].status == Started;
      }
      assert HasStarted(st'.ledger, op.runId, op.callId);
    } else {
      forall runId, callId | HasStarted(st'.ledger, runId, callId) ensures !HasFact(st'.rows, runId, callId) {
        var i :| 0 <= i < |st'.ledger| && st'.ledger[i].runId == runId && st'.ledger[i].callId == callId
          && st'.ledger[i].status == Started;
        if i < |st.ledger| && st.ledger[i].status == Started && st.ledger[i].runId == runId
          && st.ledger[i].callId == callId {
          assert HasStarted(st.ledger, runId, callId);
        }
        if j :| 0 <= j < |st'.rows| && IsFact(st'.rows[j], runId, callId) {
          if j < |st.rows| && st.rows == st'.rows[..|st.rows|] { assert IsFact(st.rows[j], runId, callId); }
        }
      }
    }
  }

  predicate NeverReopens(st: Store, ops: seq<Op>)
    decreases |ops|
  {
    ops == [] || (!Reopens(st, ops[0]) && NeverReopens(Step(st, ops[0]), ops[1..]))
  }

  /** In every state the run goes through no intent is left started behind its fact. */
  ghost predicate AlwaysNoneLeftStarted(st: Store, ops: seq<Op>)
    decreases |ops|
  {
    NoneLeftStarted(st) && (ops != [] ==> AlwaysNoneLeftStarted(Step(st, ops[0]), ops[1..]))
  }

  /**
   * No state of a run has an intent left started behind its fact if and only if
   * none is recorded as started again after its fact.
   */
  lemma {:induction false} FactNeverLeavesStarted(st: Store, ops: seq<Op>)
    requires NoneLeftStarted(st)
    ensures AlwaysNoneLeftStarted(st, ops) <==> NeverReopens(st, ops)
    decreases |ops|
  {
    if ops != [] {
      StartedAfterFactIffReopened(st, ops[0]);
      if NoneLeftStarted(Step(st, ops[0])) {
        FactNeverLeavesStarted(Step(st, ops[0]), ops[1..]);
      }
    }
  }

  /** An uncertain effect is never promoted: no operation at all moves the row again. */
  lemma {:induction false} UncertainIsFinal(st: Store, ops: seq<Op>, i: nat)
    requires i < |st.ledger| && st.ledger[i].status == Uncertain
    ensures i < |Run(st, ops).ledger|
    ensures Run(st, ops).ledger[i].status == Uncertain
    ensures Run(st, ops).ledger[i].runId == st.ledger[i].runId && Run(st, ops).ledger[i].callId == st.ledger[i].callId
    decreases |ops|
  {
    if ops != [] {
      UncertainIsFinal(Step(st, ops[0]), ops[1..], i);
    }
  }

  // ---- How many rows a call has ----

  function CallRows(ledger: seq<LedgerRow>, runId: string, callId: string): nat {
    if ledger == [] then 0
    else
      var last := ledger[|ledger| - 1];
      CallRows(ledger[..|ledger| - 1], runId, callId) + (if last.runId == runId && last.callId == callId then 1 else 0)
  }

  lemma {:induction false} SameCallsSameRows(ledger: seq<LedgerRow>, ledger': seq<LedgerRow>, runId: string,
                                             callId: string)
    requires |ledger| == |ledger'|
    requires forall i :: 0 <= i < |ledger| ==>
      ledger'[i].runId == ledger[i].runId && ledger'[i].callId == ledger[i].callId
    ensures CallRows(ledger', runId, callId) == CallRows(ledger, runId, callId)
  {
    if ledger != [] {
      SameCallsSameRows(ledger[..|ledger| - 1], ledger'[..|ledger| - 1], runId, callId);
    }
  }

  lemma {:induction false} SomeRowIfCounted(ledger: seq<LedgerRow>, runId: string, callId: string)
    ensures CallRows(ledger, runId, callId) > 0 <==>
      exists i :: 0 <= i < |ledger| && ledger[i].runId == runId && ledger[i].callId == callId
  {
    if ledger != [] {
      SomeRowIfCounted(ledger[..|ledger| - 1], runId, callId);
    }
  }

  /** No row of the call may be moved to the status: all are cancelled or uncertain, and it is not `uncertain` again. */
  predicate Closed(ledger: seq<LedgerRow>, runId: string, callId: string, status: Status) {
    forall i :: 0 <= i < |ledger| ==> !Overwritable(ledger[i], runId, callId, status)
  }

  /** The operation records another state for a call whose only rows are closed to it. */
  predicate Duplicates(st: Store, op: Op, runId: string, callId: string) {
    && op.RecordState? && !op.fails && op.runId == runId && op.callId == callId
    && CallRows(st.ledger, runId, callId) > 0 && Closed(st.ledger, runId, callId, op.status)
  }

  lemma StepCallRows(st: Store, op: Op, runId: string, callId: string)
    ensures CallRows(Step(st, op).ledger, runId, callId) == CallRows(st.ledger, runId, callId)
      + (if op.RecordState? && !op.fails && op.runId == runId && op.callId == callId
            && Closed(st.ledger, runId, callId, op.status) then 1 else 0)
  {
    var ledger' := Step(st, op).ledger;
    if |ledger'| == |st.ledger| {
      SameCallsSameRows(st.ledger, ledger', runId, callId);
    } else {
      assert ledger'[..|st.ledger|] == st.ledger;
    }
  }

  /**
   * A call keeps at most one row exactly until another state is recorded when
   * its row is cancelled or uncertain: the shared idempotency key does not make
   * that record find the row, a second one is inserted.
   */
  lemma OneRowUnlessDuplicated(st: Store, op: Op, runId: string, callId: string)
    requires CallRows(st.ledger, runId, callId) <= 1
    ensures CallRows(Step(st, op).ledger, runId, callId) <= 1 <==> !Duplicates(st, op, runId, callId)
  {
    StepCallRows(st, op, runId, callId);
  }

  /** An uncertain call recorded as completed has both rows. */
  lemma UncertainCanBeDoubled(st: Store, i: nat, category: string)
    requires i < |st.ledger| && st.ledger[i].status == Uncertain
    requires CallRows(st.ledger, st.ledger[i].runId, st.ledger[i].callId) == 1
    ensures
      var row := st.ledger[i];
      var st' := Step(st, RecordState(row.runId, row.callId, category, Completed, false, false));
      && |st'.ledger| == |st.ledger| + 1 && st'.ledger[i] == row
      && st'.ledger[|st.ledger|].callId == row.callId && st'.ledger[|st.ledger|].status == Completed
  {
    var row := st.ledger[i];
    forall k | 0 <= k < |st.ledger| ensures !Overwritable(st.ledger[k], row.runId, row.callId, Completed) {
      if k != i && st.ledger[k].runId == row.runId && st.ledger[k].callId == row.callId {
        TwoRowsCountTwo(st.ledger, k, i);
      }
    }
  }

  lemma {:induction false} TwoRowsCountTwo(ledger: seq<LedgerRow>, i: nat, j: nat)
    requires i < |ledger| && j < |ledger| && i != j
    requires ledger[i].runId == ledger[j].runId && ledger[i].callId == ledger[j].callId
    ensures CallRows(ledger, ledger[i].runId, ledger[i].callId) >= 2
  {
    var n := |ledger| - 1;
    if i < n && j < n {
      TwoRowsCountTwo(ledger[..n], i, j);
    } else {
      var k := if i < n then i else j;
      assert ledger[..n][k] == ledger[k];
      SomeRowIfCounted(ledger[..n], ledger[i].runId, ledger[i].callId);
    }
  }

  ghost predicate LedgerSequencesUnique(ledger: seq<LedgerRow>) {
    forall i, j :: 0 <= i < j < |ledger| && ledger[i].runId == ledger[j].runId ==>
      ledger[i].ledgerSequence < ledger[j].ledgerSequence
  }

  /** Every recorded effect takes the next place in its run's ledger and keeps it. */
  lemma {:induction false} LedgerSequencesAdvance(st: Store, ops: seq<Op>)
    requires LedgerSequencesUnique(st.ledger)
    ensures LedgerSequencesUnique(Run(st, ops).ledger)
    decreases |ops|
  {
    if ops != [] {
      LedgerSequencesAdvance(Step(st, ops[0]), ops[1..]);
    }
  }
}
