/**
 * What a turn's events say, event by event: which groups there are, what one
 * adds up to, what is done with it, and what its stored messages load as.
 */
module ProjectorContent {
  import opened ConversationBlocks
  import opened ConversationRoundTrip
  import opened ConversationTranscript
  import opened ConversationWriters
  import opened ProjectorGroups
  import opened ProjectorState
  import opened Texts
  import opened Wrappers

  // ---- Where groups begin and end ----

  /** A TurnStarted only opens a group and a TurnCompleted only closes one. */
  predicate OneTurn(g: Group) {
    && g != []
    && (forall k :: 0 < k < |g| ==> !g[k].payload.TurnStarted?)
    && (forall k :: 0 <= k < |g| - 1 ==> !IsCompleted(g[k]))
  }

  /** Between two groups one is completed or the next is started. */
  predicate Parted(g: Group, next: Group) {
    g != [] && next != [] && (IsCompleted(g[|g| - 1]) || next[0].payload.TurnStarted?)
  }

  predicate AllTurns(groups: seq<Group>) {
    && (forall i :: 0 <= i < |groups| ==> OneTurn(groups[i]))
    && (forall i :: 0 < i < |groups| ==> Parted(groups[i - 1], groups[i]))
  }

  /** What the scan keeps: the open group is one turn not completed, parted from the last closed one. */
  predicate Scanned(s: Scan) {
    && AllTurns(s.closed)
    && (s.current == [] ==> s.closed == [] || IsCompleted(s.closed[|s.closed| - 1][|s.closed[|s.closed| - 1]| - 1]))
    && (s.current != [] ==>
          && OneTurn(s.current) && !IsCompleted(s.current[|s.current| - 1])
          && (s.closed != [] ==> Parted(s.closed[|s.closed| - 1], s.current)))
  }

  lemma TurnsSnoc(groups: seq<Group>, g: Group)
    requires AllTurns(groups) && OneTurn(g) && (groups != [] ==> Parted(groups[|groups| - 1], g))
    ensures AllTurns(groups + [g])
  {
  }

  lemma StepScans(s: Scan, e: Event)
    requires Scanned(s)
    ensures Scanned(ScanStep(s, e))
  {
    var begun := if e.payload.TurnStarted? && s.current != [] then Scan(s.closed + [s.current], []) else s;
    if e.payload.TurnStarted? && s.current != [] {
      TurnsSnoc(s.closed, s.current);
    }
    var current := begun.current + [e];
    assert OneTurn(current);
    assert begun.closed != [] ==> Parted(begun.closed[|begun.closed| - 1], current);
    if e.payload.TurnCompleted? {
      TurnsSnoc(begun.closed, current);
    }
  }

  lemma {:induction false} LogScans(log: seq<Event>)
    ensures Scanned(ScanOf(log))
  {
    if log != [] {
      LogScans(log[..|log| - 1]);
      StepScans(ScanOf(log[..|log| - 1]), log[|log| - 1]);
    }
  }

  /**
   * The groups are the log cut exactly before each TurnStarted and after each
   * TurnCompleted: together with `GroupsKeepEvents` there is no other grouping.
   */
  lemma GroupsAreTurns(log: seq<Event>)
    ensures AllTurns(Groups(log))
  {
    LogScans(log);
    var s := ScanOf(log);
    if s.current != [] {
      TurnsSnoc(s.closed, s.current);
    }
  }

  // ---- What a group adds up to ----

  /** Two pieces of a group taken together: everything in order, the later committed content. */
  function Together(a: Gathered, b: Gathered): Gathered {
    Gathered(a.text + b.text, a.thinking + b.thinking, a.calls + b.calls, a.results + b.results,
             if b.committed.Some? then b.committed else a.committed, b.corrupt)
  }

  lemma {:induction false} GatherJoins(a: Group, b: Group)
    requires !Gather(a).corrupt
    ensures Gather(a + b) == Together(Gather(a), Gather(b))
    decreases |b|
  {
    if b == [] {
      assert a + b == a;
      assert Gather(a).text + "" == Gather(a).text && Gather(a).thinking + "" == Gather(a).thinking;
      assert Gather(a).calls + [] == Gather(a).calls && Gather(a).results + [] == Gather(a).results;
    } else {
      var front, e := b[..|b| - 1], b[|b| - 1];
      assert (a + b)[..|a + b| - 1] == a + front;
      GatherJoins(a, front);
      OneMoreJoins(a, front, e);
      assert a + b == a + front + [e] && b == front + [e];
    }
  }

  lemma OneMoreJoins(a: Group, front: Group, e: Event)
    requires Gather(a + front) == Together(Gather(a), Gather(front))
    ensures Gather(a + front + [e]) == Together(Gather(a), Gather(front + [e]))
  {
    assert (a + front + [e])[..|a + front|] == a + front && (front + [e])[..|front|] == front;
    TakeJoins(Gather(a), Gather(front), e);
  }

  lemma TakeJoins(a: Gathered, b: Gathered, e: Event)
    ensures Take(Together(a, b), e) == Together(a, Take(b, e))
  {
    if !b.corrupt {
      match e.payload
      case TextDelta(text) => assert a.text + b.text + text == a.text + (b.text + text);
      case ReasoningDelta(text) => assert a.thinking + b.thinking + text == a.thinking + (b.thinking + text);
      case ToolCallRequested(id, name, arguments) =>
        assert a.calls + b.calls + [ToolCall(id, name, arguments)] ==
               a.calls + (b.calls + [ToolCall(id, name, arguments)]);
      case ToolCallCompleted(_, _, _, _, _) =>
        assert a.results + b.results + [e.payload] == a.results + (b.results + [e.payload]);
      case _ =>
    }
  }

  /** What corrupt content leaves behind it is not read. */
  lemma {:induction false} NothingAfterCorrupt(a: Group, b: Group)
    requires Gather(a).corrupt
    ensures Gather(a + b) == Gather(a)
    decreases |b|
  {
    if b == [] {
      assert a + b == a;
    } else {
      assert (a + b)[..|a + b| - 1] == a + b[..|b| - 1];
      NothingAfterCorrupt(a, b[..|b| - 1]);
    }
  }

  /** What one event alone says. */
  lemma GatherOne(n: nat, text: string, call: string, name: string, output: Json, isError: bool,
                  result: Option<string>, content: seq<ContentBlock>)
    ensures Gather([Event(n, TextDelta(text))]) == Gathered(text, "", [], [], None, false)
    ensures Gather([Event(n, ReasoningDelta(text))]) == Gathered("", text, [], [], None, false)
    ensures Gather([Event(n, ToolCallRequested(call, name, text))]) ==
            Gathered("", "", [ToolCall(call, name, text)], [], None, false)
    ensures Gather([Event(n, ToolCallCompleted(call, name, output, isError, result))]) ==
            Gathered("", "", [], [ToolCallCompleted(call, name, output, isError, result)], None, false)
    ensures Gather([Event(n, MessageCompleted(Some(Blocks(content))))]) ==
            Gathered("", "", [], [], Some(content), false)
    ensures Gather([Event(n, MessageCompleted(Some(Corrupt)))]) == Gathered("", "", [], [], None, true)
    ensures Gather([Event(n, MessageCompleted(None))]) == Gathered("", "", [], [], None, false)
    ensures Gather([Event(n, TurnStarted(text))]) == Gathered("", "", [], [], None, false)
    ensures Gather([Event(n, TurnCompleted(text))]) == Gathered("", "", [], [], None, false)
    ensures Gather([Event(n, MessageStarted(text, isError))]) == Gathered("", "", [], [], None, false)
    ensures Gather([Event(n, Other)]) == Gathered("", "", [], [], None, false)
  {
    AloneGathers(Event(n, TextDelta(text)));
    AloneGathers(Event(n, ReasoningDelta(text)));
    AloneGathers(Event(n, ToolCallRequested(call, name, text)));
    AloneGathers(Event(n, ToolCallCompleted(call, name, output, isError, result)));
    AloneGathers(Event(n, MessageCompleted(Some(Blocks(content)))));
    AloneGathers(Event(n, MessageCompleted(Some(Corrupt))));
    AloneGathers(Event(n, MessageCompleted(None)));
    AloneGathers(Event(n, TurnStarted(text)));
    AloneGathers(Event(n, TurnCompleted(text)));
    AloneGathers(Event(n, MessageStarted(text, isError)));
    AloneGathers(Event(n, Other));
  }

  lemma AloneGathers(e: Event)
    ensures [e][..|[e]| - 1] == [] && Gather([e][..|[e]| - 1]) == NOTHING
    ensures "" + "" == "" && forall s: string :: "" + s == s
  {
  }

  // ---- The same, read from the front ----

  function Spoken(g: Group): string {
    if g == [] then "" else (if g[0].payload.TextDelta? then g[0].payload.text else "") + Spoken(g[1..])
  }

  function Thought(g: Group): string {
    if g == [] then "" else (if g[0].payload.ReasoningDelta? then g[0].payload.reasoning else "") + Thought(g[1..])
  }

  function Called(g: Group): seq<ContentBlock> {
    if g == [] then []
    else
      match g[0].payload
      case ToolCallRequested(id, name, arguments) => [ToolCall(id, name, arguments)] + Called(g[1..])
      case _ => Called(g[1..])
  }

  function Answered(g: Group): (answered: seq<Payload>)
    ensures forall i :: 0 <= i < |answered| ==> answered[i].ToolCallCompleted?
  {
    if g == [] then []
    else (if g[0].payload.ToolCallCompleted? then [g[0].payload] else []) + Answered(g[1..])
  }

  function LastCommitted(g: Group): Option<seq<ContentBlock>> {
    if g == [] then None
    else if LastCommitted(g[1..]).Some? then LastCommitted(g[1..])
    else
      match g[0].payload
      case MessageCompleted(Some(Blocks(content))) => Some(content)
      case _ => None
  }

  /** Every committed content of the group decodes. */
  predicate Decodes(g: Group) {
    forall i :: 0 <= i < |g| ==> g[i].payload != MessageCompleted(Some(Corrupt))
  }

  /** What a group says, read from the front. */
  function Read(g: Group): Gathered {
    Gathered(Spoken(g), Thought(g), Called(g), Answered(g), LastCommitted(g), false)
  }

  /** A group whose contents decode adds up to its parts in event order. */
  lemma {:induction false} GatherIs(g: Group)
    requires Decodes(g)
    ensures Gather(g) == Read(g)
  {
    if g != [] {
      assert forall i :: 0 <= i < |g[1..]| ==> g[1..][i] == g[i + 1];
      GatherIs(g[1..]);
      AloneReads(g[0]);
      GatherJoins([g[0]], g[1..]);
      ReadJoins(g);
      assert [g[0]] + g[1..] == g;
    }
  }

  lemma AloneReads(e: Event)
    requires e.payload != MessageCompleted(Some(Corrupt))
    ensures Gather([e]) == Read([e])
  {
    AloneGathers(e);
    assert [e][1..] == [] && Read([]) == NOTHING;
  }

  lemma ReadJoins(g: Group)
    requires g != []
    ensures Read(g) == Together(Read([g[0]]), Read(g[1..]))
  {
    TextsJoin(g[0], g[1..]);
    CallsJoin(g[0], g[1..]);
    assert [g[0]] + g[1..] == g;
  }

  lemma TextsJoin(e: Event, rest: Group)
    ensures Spoken([e] + rest) == Spoken([e]) + Spoken(rest) && Thought([e] + rest) == Thought([e]) + Thought(rest)
  {
    assert ([e] + rest)[1..] == rest && [e][1..] == [];
  }

  lemma CallsJoin(e: Event, rest: Group)
    ensures Called([e] + rest) == Called([e]) + Called(rest)
    ensures Answered([e] + rest) == Answered([e]) + Answered(rest)
    ensures LastCommitted([e] + rest) == if LastCommitted(rest).Some? then LastCommitted(rest) else LastCommitted([e])
  {
    assert ([e] + rest)[1..] == rest && [e][1..] == [] && Called([]) == [];
    match e.payload
    case ToolCallRequested(id, name, arguments) => assert Called([e]) == [ToolCall(id, name, arguments)];
    case _ => assert Called([e]) == [];
  }

  lemma {:induction false} CorruptIff(g: Group)
    ensures Gather(g).corrupt <==> !Decodes(g)
  {
    if g != [] {
      var front := g[..|g| - 1];
      CorruptIff(front);
      assert forall i :: 0 <= i < |front| ==> front[i] == g[i];
      assert Decodes(g) <==> Decodes(front) && g[|g| - 1].payload != MessageCompleted(Some(Corrupt));
    }
  }

  // ---- What is done with a group ----

  predicate SaysNothing(g: Group) {
    Answered(g) == [] &&
    if LastCommitted(g).Some? then LastCommitted(g) == Some([])
    else Called(g) == [] && IsBlank(Spoken(g)) && IsBlank(Thought(g))
  }

  /**
   * A turn that is started and not completed is skipped, one with content that
   * does not decode quarantined, one that says nothing skipped, and every other
   * projected.
   */
  lemma ClassifyIs(g: Group)
    ensures
      var started := exists i :: 0 <= i < |g| && g[i].payload.TurnStarted?;
      var completed := exists i :: 0 <= i < |g| && g[i].payload.TurnCompleted?;
      Classify(g) ==
        if started && !completed then Skip
        else if !Decodes(g) then QuarantineCorrupt
        else if SaysNothing(g) then Skip else Materialize
  {
    CorruptIff(g);
    if Decodes(g) {
      GatherIs(g);
    }
  }

  /** Content of a completed turn: what was committed, or else its thinking, its text and its calls. */
  function Said(g: Group): seq<ContentBlock> {
    if LastCommitted(g).Some? then LastCommitted(g).value
    else
      (if IsBlank(Thought(g)) then [] else [Thinking(Thought(g), None)])
      + (if IsBlank(Spoken(g)) then [] else [TextBlock(Spoken(g))])
      + Called(g)
  }

  lemma SaidIsContent(g: Group)
    requires Decodes(g)
    ensures ContentOf(Gather(g)) == Said(g)
  {
    GatherIs(g);
  }

  /** The first assistant message the group starts. */
  predicate StartsFirst(g: Group, i: nat, message: string) {
    && i < |g| && g[i].payload == MessageStarted(message, true)
    && forall k :: 0 <= k < i ==> !(g[k].payload.MessageStarted? && g[k].payload.assistant)
  }

  lemma {:induction false} AssistantIs(g: Group, i: nat, message: string)
    requires StartsFirst(g, i, message)
    ensures AssistantId(g) == Some(message)
  {
    if i > 0 {
      assert forall k :: 0 <= k < i - 1 ==> g[1..][k] == g[k + 1];
      AssistantIs(g[1..], i - 1, message);
    }
  }

  lemma {:induction false} StopIs(g: Group)
    requires OneTurn(g) && IsCompleted(g[|g| - 1])
    ensures FirstStopReason(g) == Some(g[|g| - 1].payload.stopReason)
  {
    if |g| > 1 {
      assert forall k :: 0 <= k < |g[1..]| ==> g[1..][k] == g[k + 1];
      StopIs(g[1..]);
    }
  }

  /** A whole turn: started first, completed last, its contents decode and it says something. */
  predicate IsTurn(g: Group, turn: string, stop: string) {
    && OneTurn(g) && g[0].payload == TurnStarted(turn) && g[|g| - 1].payload == TurnCompleted(stop)
    && Decodes(g) && !SaysNothing(g)
  }

  lemma TurnIsMaterialized(g: Group, turn: string, stop: string)
    requires IsTurn(g, turn, stop)
    ensures Classify(g) == Materialize && FirstTurnId(g) == Some(turn) && StartSequence(g) == g[0].sequence
    ensures FirstStopReason(g) == Some(stop)
  {
    ClassifyIs(g);
    StopIs(g);
  }

  /** Nothing is stored yet under the ids of the turn and of its messages. */
  predicate IsNew(db: Db, run: string, g: Group, turn: string)
    requires g != []
  {
    var ids := Ids(Drafts(run, g, db.uuids));
    && turn !in db.turns && !SlotTaken(db.turns, run, g[0].sequence)
    && (forall k :: 0 <= k < |ids| ==> ids[k] !in db.messages)
    && (forall k, j :: 0 <= k < j < |ids| ==> ids[k] != ids[j])
  }

  lemma {:induction false} RowAt(messages: map<Id, StoredMessage>, conversation: string, run: string, turn: string,
                                 drafts: seq<Draft>, k: nat)
    requires k < |drafts| && forall i, j :: 0 <= i < j < |drafts| ==> drafts[i].id != drafts[j].id
    ensures
      var rows := WithRows(messages, conversation, run, turn, drafts);
      drafts[k].id in rows && rows[drafts[k].id] == ProjectorRow(conversation, run, turn, drafts[k], |messages| + k)
  {
    var n := |drafts| - 1;
    if k < n {
      RowAt(messages, conversation, run, turn, drafts[..n], k);
    }
  }

  /** The tables after a new turn: the turn row, and the drafts as rows in order. */
  lemma NewTurnIsStored(db: Db, conversation: string, run: string, g: Group, turn: string, stop: string)
    requires g != [] && IsTurn(g, turn, stop) && IsNew(db, run, g, turn)
    ensures
      var o := ProjectGroup(db, conversation, run, g);
      && o.status == Projected
      && o.db.turns == db.turns[turn := TurnRow(run, g[0].sequence, Some(stop))]
      && o.db.messages == WithRows(db.messages, conversation, run, turn, Drafts(run, g, db.uuids))
  {
    TurnIsMaterialized(g, turn, stop);
    var drafts := Drafts(run, g, db.uuids);
    var turns := WithTurn(db.turns, turn, TurnRow(run, g[0].sequence, Some(stop)));
    NewIdsDiffer(db, run, g, turn);
    DraftsBecomeRows(db.messages, turns, conversation, run, turn, drafts);
    assert turn in turns && turn !in db.turns;
  }

  /**
   * A new turn's assistant message, stored under the id of the first assistant
   * message it started, loads as what the turn said: what was committed, or the
   * text deltas in order as one text behind the reasoning deltas as one
   * thinking block, then its tool calls; and with the turn's stop reason.
   */
  lemma ProjectedTurnLoads(db: Db, conversation: string, run: string, g: Group, turn: string, stop: string,
                           i: nat, message: string, reasoning: ReasoningOf, isJson: string -> bool)
    requires g != [] && IsTurn(g, turn, stop) && IsNew(db, run, g, turn) && StartsFirst(g, i, message)
    requires AllWellFormed(Said(g), isJson) && reasoning(run).Ok?
    ensures
      var o := ProjectGroup(db, conversation, run, g);
      var before := Before(AssistantRole, Some(run), reasoning);
      && o.status == Projected && Named(message) in o.db.messages
      && var row := o.db.messages[Named(message)];
      && row.conversation == conversation && row.turnId == Some(turn) && row.runId == Some(run)
      && row.created == |db.messages| && (row.legacyMarker <==> "legacy-turn:" <= turn)
      && LoadMessage(row, reasoning, isJson) ==
         Ok(Assistant(Named(message), before + Said(g), Some(ParseStopReason(stop))))
  {
    AssistantIsStored(db, conversation, run, g, turn, stop, i, message);
    AssistantRowLoads(conversation, run, g, turn, stop, i, message, |db.messages|, reasoning, isJson);
  }

  lemma AssistantIsStored(db: Db, conversation: string, run: string, g: Group, turn: string, stop: string,
                          i: nat, message: string)
    requires g != [] && IsTurn(g, turn, stop) && IsNew(db, run, g, turn) && StartsFirst(g, i, message)
    ensures
      var o := ProjectGroup(db, conversation, run, g);
      && o.status == Projected && Named(message) in o.db.messages
      && o.db.messages[Named(message)] ==
         ProjectorRow(conversation, run, turn, AssistantDraft(run, g, 0), |db.messages|)
  {
    NewTurnIsStored(db, conversation, run, g, turn, stop);
    AssistantIs(g, i, message);
    NewIdsDiffer(db, run, g, turn);
    RowAt(db.messages, conversation, run, turn, Drafts(run, g, db.uuids), 0);
    assert AssistantDraft(run, g, db.uuids) == AssistantDraft(run, g, 0);
  }

  lemma AssistantRowLoads(conversation: string, run: string, g: Group, turn: string, stop: string, i: nat,
                          message: string, created: nat, reasoning: ReasoningOf, isJson: string -> bool)
    requires IsTurn(g, turn, stop) && StartsFirst(g, i, message)
    requires AllWellFormed(Said(g), isJson) && reasoning(run).Ok?
    ensures
      LoadMessage(ProjectorRow(conversation, run, turn, AssistantDraft(run, g, 0), created), reasoning, isJson) ==
      Ok(Assistant(Named(message), Before(AssistantRole, Some(run), reasoning) + Said(g), Some(ParseStopReason(stop))))
  {
    TurnIsMaterialized(g, turn, stop);
    AssistantIs(g, i, message);
    SaidIsContent(g);
    ProjectorLoads(conversation, run, g, created, reasoning, isJson);
  }

  /** And each tool result, stored under its own id, loads with the call, tool, output and error it reported. */
  lemma ProjectedResultLoads(db: Db, conversation: string, run: string, g: Group, turn: string, stop: string,
                             k: nat, reasoning: ReasoningOf, isJson: string -> bool)
    requires g != [] && IsTurn(g, turn, stop) && IsNew(db, run, g, turn)
    requires k < |Answered(g)| && Answered(g)[k].resultId.Some?
    requires !IsBlank(Answered(g)[k].resultCallId) && !IsBlank(Answered(g)[k].tool)
    requires forall j :: 0 <= j < |ResultBlocksFor(Answered(g)[k].output)| ==>
      WellFormedResult(ResultBlocksFor(Answered(g)[k].output)[j])
    requires reasoning(run).Ok?
    ensures
      var p := Answered(g)[k];
      var messages := ProjectGroup(db, conversation, run, g).db.messages;
      && Named(p.resultId.value) in messages
      && var row := messages[Named(p.resultId.value)];
      && row.conversation == conversation && row.turnId == Some(turn) && row.runId == Some(run)
      && row.created == |db.messages| + k + 1
      && LoadMessage(row, reasoning, isJson) ==
         Ok(ToolResult(Named(p.resultId.value), p.resultCallId, p.tool, ResultBlocksFor(p.output), p.isError,
                       ErrorCodeFor(p.output)))
  {
    ResultIsStored(db, conversation, run, g, turn, stop, k);
    ResultRowLoads(conversation, run, turn, Answered(g)[k], db.uuids + 1 + k, |db.messages| + k + 1, reasoning, isJson);
  }

  lemma ResultIsStored(db: Db, conversation: string, run: string, g: Group, turn: string, stop: string, k: nat)
    requires g != [] && IsTurn(g, turn, stop) && IsNew(db, run, g, turn)
    requires k < |Answered(g)| && Answered(g)[k].resultId.Some?
    ensures
      var messages := ProjectGroup(db, conversation, run, g).db.messages;
      var id := Named(Answered(g)[k].resultId.value);
      && id in messages
      && messages[id] == ProjectorRow(conversation, run, turn, ResultDraft(Answered(g)[k], db.uuids + 1 + k),
                                      |db.messages| + k + 1)
  {
    NewTurnIsStored(db, conversation, run, g, turn, stop);
    ResultDraftAt(db, run, g, k);
    NewIdsDiffer(db, run, g, turn);
    ResultRowAt(db.messages, conversation, run, turn, Drafts(run, g, db.uuids), k, Answered(g)[k], db.uuids + 1 + k);
  }

  lemma ResultRowAt(messages: map<Id, StoredMessage>, conversation: string, run: string, turn: string,
                    drafts: seq<Draft>, k: nat, p: Payload, uuid: nat)
    requires k + 1 < |drafts| && forall i, j :: 0 <= i < j < |drafts| ==> drafts[i].id != drafts[j].id
    requires p.ToolCallCompleted? && p.resultId.Some? && drafts[k + 1] == ResultDraft(p, uuid)
    ensures
      var rows := WithRows(messages, conversation, run, turn, drafts);
      var id := Named(p.resultId.value);
      id in rows && rows[id] == ProjectorRow(conversation, run, turn, ResultDraft(p, uuid), |messages| + k + 1)
  {
    RowAt(messages, conversation, run, turn, drafts, k + 1);
  }

  lemma ResultDraftAt(db: Db, run: string, g: Group, k: nat)
    requires Decodes(g) && k < |Answered(g)|
    ensures |Drafts(run, g, db.uuids)| == 1 + |Answered(g)|
    ensures Drafts(run, g, db.uuids)[k + 1] == ResultDraft(Answered(g)[k], db.uuids + 1 + k)
  {
    GatherIs(g);
    DraftAt(run, g, db.uuids, Answered(g)[k], k);
  }

  lemma DraftAt(run: string, g: Group, uuid: nat, p: Payload, k: nat)
    requires k < |Gather(g).results| && Gather(g).results[k] == p && p.ToolCallCompleted?
    ensures Drafts(run, g, uuid)[k + 1] == ResultDraft(p, uuid + 1 + k)
  {
  }

  lemma NewIdsDiffer(db: Db, run: string, g: Group, turn: string)
    requires g != [] && IsNew(db, run, g, turn)
    ensures
      var drafts := Drafts(run, g, db.uuids);
      && (forall i, j :: 0 <= i < j < |drafts| ==> drafts[i].id != drafts[j].id)
      && (forall i :: 0 <= i < |drafts| ==> drafts[i].id !in db.messages)
  {
    var drafts := Drafts(run, g, db.uuids);
    assert forall k :: 0 <= k < |drafts| ==> Ids(drafts)[k] == drafts[k].id;
  }

  lemma ResultRowLoads(conversation: string, run: string, turn: string, p: Payload, uuid: nat, created: nat,
                       reasoning: ReasoningOf, isJson: string -> bool)
    requires p.ToolCallCompleted? && p.resultId.Some? && !IsBlank(p.resultCallId) && !IsBlank(p.tool)
    requires forall j :: 0 <= j < |ResultBlocksFor(p.output)| ==> WellFormedResult(ResultBlocksFor(p.output)[j])
    ensures
      LoadMessage(ProjectorRow(conversation, run, turn, ResultDraft(p, uuid), created), reasoning, isJson) ==
      Ok(ToolResult(Named(p.resultId.value), p.resultCallId, p.tool, ResultBlocksFor(p.output), p.isError,
                    ErrorCodeFor(p.output)))
  {
    var m := ResultMessage(p, Named(p.resultId.value));
    var block := Stored(ToolResultToJson(m));
    ToolResultRoundTrip(m);
    SpecialView(block, AssistantRole, None, reasoning);
    assert [block] + Tail(AssistantRole, None) == [block];
  }

  /** An output that names an artifact is kept as a reference, any other whole; an error code may have two names. */
  lemma OutputIsKept(artifact: string, preview: string, code: string, other: string, kind: Option<Kind>,
                     fields: map<Key, Json>)
    requires ArtifactId !in fields
    ensures ResultBlocksFor(Obj(kind, map[ArtifactId := Str(artifact), Preview := Str(preview)])) ==
            [ResultArtifact(artifact, Some(preview))]
    ensures ResultBlocksFor(Obj(kind, fields)) == [ResultJson(Obj(kind, fields))]
    ensures ErrorCodeFor(Obj(kind, map[ErrorCode := Str(code), Code := Str(other)])) == Some(code)
    ensures ErrorCodeFor(Obj(kind, map[Code := Str(other)])) == Some(other)
    ensures ErrorCodeFor(Obj(kind, map[Name := Str(other)])) == None
  {
  }
}
