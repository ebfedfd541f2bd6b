/**
 * The conversation projector: turn groups of a run's event log, what a group
 * would write, and the one transaction that writes it. Sequences are a row's
 * effective run sequence; statements after the group scan may fail.
 */
module ProjectorState {
  import opened ConversationBlocks
  import opened Texts
  import opened Wrappers

  /** The committed content of a message, which may fail to decode. */
  datatype Committed = Blocks(content: seq<ContentBlock>) | Corrupt

  datatype Payload =
    | TurnStarted(turnId: string)
    | TurnCompleted(stopReason: string)
    | MessageStarted(messageId: string, assistant: bool)
    | MessageCompleted(content: Option<Committed>)
    | TextDelta(text: string)
    | ReasoningDelta(reasoning: string)
    | ToolCallRequested(callId: string, name: string, arguments: string)
    | ToolCallCompleted(resultCallId: string, tool: string, output: Json, isError: bool, resultId: Option<string>)
    | Other

  datatype Event = Event(sequence: nat, payload: Payload)

  type Group = seq<Event>

  // ---- Grouping ----

  /** The scan of the log: groups closed so far and the one being filled. */
  datatype Scan = Scan(closed: seq<Group>, current: Group)

  function ScanStep(s: Scan, e: Event): Scan {
    var begun := if e.payload.TurnStarted? && s.current != [] then Scan(s.closed + [s.current], []) else s;
    if e.payload.TurnCompleted? then Scan(begun.closed + [begun.current + [e]], [])
    else Scan(begun.closed, begun.current + [e])
  }

  function ScanOf(log: seq<Event>): Scan {
    if log == [] then Scan([], []) else ScanStep(ScanOf(log[..|log| - 1]), log[|log| - 1])
  }

  function Groups(log: seq<Event>): seq<Group> {
    var s := ScanOf(log);
    if s.current == [] then s.closed else s.closed + [s.current]
  }

  // ---- What one group says ----

  predicate HasStart(g: Group) {
    exists i :: 0 <= i < |g| && g[i].payload.TurnStarted?
  }

  predicate HasCompleted(g: Group) {
    exists i :: 0 <= i < |g| && g[i].payload.TurnCompleted?
  }

  function FirstTurnId(g: Group): Option<string> {
    if g == [] then None
    else if g[0].payload.TurnStarted? then Some(g[0].payload.turnId)
    else FirstTurnId(g[1..])
  }

  function StartSequence(g: Group): nat {
    if g == [] then 0 else if g[0].payload.TurnStarted? then g[0].sequence else StartSequence(g[1..])
  }

  function AssistantId(g: Group): Option<string> {
    if g == [] then None
    else if g[0].payload.MessageStarted? && g[0].payload.assistant then Some(g[0].payload.messageId)
    else AssistantId(g[1..])
  }

  function FirstStopReason(g: Group): Option<string> {
    if g == [] then None
    else if g[0].payload.TurnCompleted? then Some(g[0].payload.stopReason)
    else FirstStopReason(g[1..])
  }

  function LastSequence(g: Group): nat {
    if g == [] then 0 else Max(g[0].sequence, LastSequence(g[1..])) as nat
  }

  /** What the events of a group add up to; the last committed content counts. */
  datatype Gathered = Gathered(
    text: string, thinking: string, calls: seq<ContentBlock>, results: seq<Payload>,
    committed: Option<seq<ContentBlock>>, corrupt: bool)

  const NOTHING := Gathered("", "", [], [], None, false)

  /** One event more; nothing is read behind corrupt committed content. */
  function Take(before: Gathered, e: Event): Gathered {
    if before.corrupt then before
    else
      match e.payload
      case TextDelta(text) => before.(text := before.text + text)
      case ReasoningDelta(text) => before.(thinking := before.thinking + text)
      case ToolCallRequested(id, name, arguments) => before.(calls := before.calls + [ToolCall(id, name, arguments)])
      case ToolCallCompleted(_, _, _, _, _) => before.(results := before.results + [e.payload])
      case MessageCompleted(Some(Blocks(content))) => before.(committed := Some(content))
      case MessageCompleted(Some(Corrupt)) => before.(corrupt := true)
      case _ => before
  }

  function Gather(g: Group): Gathered {
    if g == [] then NOTHING else Take(Gather(g[..|g| - 1]), g[|g| - 1])
  }

  function ContentOf(gathered: Gathered): seq<ContentBlock> {
    if gathered.committed.Some? then gathered.committed.value
    else
      (if IsBlank(gathered.thinking) then [] else [Thinking(gathered.thinking, None)])
      + (if IsBlank(gathered.text) then [] else [TextBlock(gathered.text)])
      + gathered.calls
  }

  datatype Verdict = Skip | QuarantineCorrupt | Materialize

  function Classify(g: Group): Verdict {
    if HasStart(g) && !HasCompleted(g) then Skip
    else if Gather(g).corrupt then QuarantineCorrupt
    else if ContentOf(Gather(g)) == [] && Gather(g).results == [] then Skip
    else Materialize
  }

  // ---- The tables ----

  datatype TurnRow = TurnRow(run: string, sequence: nat, stopReason: Option<string>)

  /** The digest covers the ids of the messages the last new turn projected. */
  datatype Watermark = Watermark(sequence: nat, turnCount: nat, digest: seq<Id>, compatHits: nat)

  datatype Reason = CorruptStoredEvent | CorruptMessageCompleted | ContentConflict

  datatype Quarantine = Quarantine(run: string, turn: Option<string>, message: Option<Id>, reason: Reason)

  /** The tables, and how many uuids were drawn. */
  datatype Db = Db(
    turns: map<string, TurnRow>,
    messages: map<Id, StoredMessage>,
    watermarks: map<string, Watermark>,
    quarantined: set<Quarantine>,
    uuids: nat)

  predicate SlotTaken(turns: map<string, TurnRow>, run: string, sequence: nat) {
    exists id :: id in turns && turns[id].run == run && turns[id].sequence == sequence
  }

  const LEGACY_TURN: string := "legacy-turn:"

  predicate IsLegacyTurn(turn: string) {
    LEGACY_TURN <= turn
  }

  function TurnOf(run: string, g: Group): string {
    FirstTurnId(g).UnwrapOr(LEGACY_TURN + run)
  }

  // ---- What a materialized group writes ----

  /** A message to be written under an id. */
  datatype Draft = Draft(id: Id, stopReason: Option<string>, blocks: seq<StoredBlock>)

  function Stored(json: Json): StoredBlock {
    StoredBlock(if json.Obj? then json.kind.UnwrapOr(TextKind) else TextKind, json)
  }

  function StoredAll(blocks: seq<Json>): seq<StoredBlock> {
    seq(|blocks|, i requires 0 <= i < |blocks| => Stored(blocks[i]))
  }

  function AssistantDraft(run: string, g: Group, uuid: nat): Draft {
    var id := AssistantId(g);
    Draft(if id.Some? then Named(id.value) else Uuid(uuid), FirstStopReason(g),
          StoredAll(ContentBlocksToJson(ContentOf(Gather(g))) + [RunReferenceToJson(run)]))
  }

  function ResultMessage(p: Payload, id: Id): AgentMessage
    requires p.ToolCallCompleted?
  {
    ToolResult(id, p.resultCallId, p.tool, ResultBlocksFor(p.output), p.isError, ErrorCodeFor(p.output))
  }

  function ResultDraft(p: Payload, uuid: nat): Draft
    requires p.ToolCallCompleted?
  {
    var id := if p.resultId.Some? then Named(p.resultId.value) else Uuid(uuid);
    Draft(id, None, [Stored(ToolResultToJson(ResultMessage(p, id)))])
  }

  lemma {:induction false} ResultsAreResults(g: Group)
    ensures forall i :: 0 <= i < |Gather(g).results| ==> Gather(g).results[i].ToolCallCompleted?
  {
    if g != [] {
      ResultsAreResults(g[..|g| - 1]);
    }
  }

  /** The assistant message, then the tool results in event order. */
  function Drafts(run: string, g: Group, uuid: nat): (drafts: seq<Draft>)
    ensures |drafts| == 1 + |Gather(g).results| && drafts[0] == AssistantDraft(run, g, uuid)
  {
    ResultsAreResults(g);
    var results := Gather(g).results;
    [AssistantDraft(run, g, uuid)]
    + seq(|results|, i requires 0 <= i < |results| => ResultDraft(results[i], uuid + 1 + i))
  }

  // ---- The transaction ----

  datatype Written = Wrote(messages: map<Id, StoredMessage>) | Conflict(id: Id) | Constraint

  /**
   * Insert a message with its blocks when it has none stored; otherwise the
   * stored blocks must be the same. A row without blocks blocks the insert, and
   * the new row's turn must exist.
   */
  function Upsert(messages: map<Id, StoredMessage>, turns: map<string, TurnRow>,
                  conversation: string, run: string, turn: string, d: Draft): Written {
    if d.id in messages && messages[d.id].blocks != [] then
      if messages[d.id].blocks == d.blocks then Wrote(messages) else Conflict(d.id)
    else if d.id in messages || turn !in turns then Constraint
    else Wrote(messages[d.id := StoredMessage(d.id, conversation, AssistantRole, Some(turn), Some(run), d.stopReason,
                                              IsLegacyTurn(turn), d.blocks, |messages|)])
  }

  function UpsertAll(messages: map<Id, StoredMessage>, turns: map<string, TurnRow>,
                     conversation: string, run: string, turn: string, drafts: seq<Draft>): Written {
    if drafts == [] then Wrote(messages)
    else
      var before := UpsertAll(messages, turns, conversation, run, turn, drafts[..|drafts| - 1]);
      if before.Wrote? then Upsert(before.messages, turns, conversation, run, turn, drafts[|drafts| - 1]) else before
  }

  /** INSERT OR IGNORE against the primary key and the (run, sequence) slot. */
  function WithTurn(turns: map<string, TurnRow>, turn: string, row: TurnRow): map<string, TurnRow> {
    if turn in turns || SlotTaken(turns, row.run, row.sequence) then turns else turns[turn := row]
  }

  function Ids(drafts: seq<Draft>): seq<Id> {
    seq(|drafts|, i requires 0 <= i < |drafts| => drafts[i].id)
  }

  /** A new turn sets the watermark, an old one only ever raises it. */
  function Advanced(watermarks: map<string, Watermark>, run: string, sequence: nat, ids: seq<Id>,
                    newTurn: bool, compat: nat): map<string, Watermark> {
    if run !in watermarks then watermarks[run := Watermark(sequence, 1, ids, if newTurn then compat else 0)]
    else
      var w := watermarks[run];
      watermarks[run := if newTurn then Watermark(sequence, w.turnCount + 1, ids, w.compatHits + compat)
                        else w.(sequence := Max(w.sequence, sequence))]
  }

  datatype Status = Projected | AlreadyProjected | Quarantined | Skipped | Failed

  datatype Outcome = Outcome(db: Db, status: Status)

  function DrawnUuids(g: Group): nat {
    1 + |Gather(g).results|
  }

  function Materialized(db: Db, conversation: string, run: string, g: Group): Outcome {
    var turn := TurnOf(run, g);
    var drafts := Drafts(run, g, db.uuids);
    var turns := WithTurn(db.turns, turn, TurnRow(run, StartSequence(g), FirstStopReason(g)));
    var drawn := db.(uuids := if IdsPresent(g) then db.uuids else db.uuids + DrawnUuids(g));
    match UpsertAll(db.messages, turns, conversation, run, turn, drafts)
    case Wrote(messages) =>
      var newTurn := turns != db.turns;
      Outcome(drawn.(turns := turns, messages := messages,
                     watermarks := Advanced(db.watermarks, run, LastSequence(g), Ids(drafts), newTurn,
                                            if Gather(g).committed.Some? then 0 else 1)),
              if newTurn then Projected else AlreadyProjected)
    case Conflict(id) =>
      Outcome(drawn.(quarantined := db.quarantined + {Quarantine(run, Some(turn), Some(id), ContentConflict)}),
              Quarantined)
    case Constraint => Outcome(drawn, Failed)
  }

  /** Every id the group writes under is its own. */
  predicate IdsPresent(g: Group) {
    && AssistantId(g).Some?
    && forall i :: 0 <= i < |Gather(g).results| ==>
         Gather(g).results[i].ToolCallCompleted? ==> Gather(g).results[i].resultId.Some?
  }

  /** One group, with no statement failing of itself. */
  function ProjectGroup(db: Db, conversation: string, run: string, g: Group): Outcome {
    match Classify(g)
    case Skip => Outcome(db, Skipped)
    case QuarantineCorrupt =>
      var message := AssistantId(g);
      Outcome(db.(quarantined := db.quarantined + {
                Quarantine(run, FirstTurnId(g), if message.Some? then Some(Named(message.value)) else None,
                           CorruptMessageCompleted)}), Quarantined)
    case Materialize => Materialized(db, conversation, run, g)
  }

  // ---- Passes over the log ----

  datatype Pass = Pass(db: Db, ok: bool)

  /** Groups in order; the first failure aborts the run's pass. */
  function ProjectGroups(db: Db, conversation: string, run: string, groups: seq<Group>): Pass
    decreases |groups|
  {
    if groups == [] then Pass(db, true)
    else
      var first := ProjectGroup(db, conversation, run, groups[0]);
      if first.status.Failed? then Pass(first.db, false)
      else ProjectGroups(first.db, conversation, run, groups[1..])
  }

  function ProjectFull(db: Db, conversation: string, run: string, log: seq<Event>): Pass {
    ProjectGroups(db, conversation, run, Groups(log))
  }

  function Base(db: Db, run: string): nat {
    if run in db.watermarks then db.watermarks[run].sequence else 0
  }

  /** The events after the watermark. */
  function EventsAfter(log: seq<Event>, sequence: nat): seq<Event>
    decreases |log|
  {
    if log == [] then []
    else (if log[0].sequence > sequence then [log[0]] else []) + EventsAfter(log[1..], sequence)
  }

  function ProjectIncremental(db: Db, conversation: string, run: string, log: seq<Event>): Pass {
    ProjectGroups(db, conversation, run, Groups(EventsAfter(log, Base(db, run))))
  }
}
