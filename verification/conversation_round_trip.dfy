/** What is loaded is what was appended, and the two writers of a committed turn agree after loading. */
module ConversationRoundTrip {
  import opened ConversationBlocks
  import opened ConversationTranscript
  import opened Texts
  import opened Wrappers

  // ---- The view of appended blocks ----

  predicate PlainKind(kind: Kind) {
    kind != RunReference && kind != ToolResultKind && kind != CustomMessage && kind != ReasoningKind
  }

  predicate AllPlain(blocks: seq<StoredBlock>) {
    forall i :: 0 <= i < |blocks| ==> PlainKind(blocks[i].blockType)
  }

  lemma EncodedIsPlain(content: seq<ContentBlock>, isJson: string -> bool)
    ensures AllPlain(Encoded(content))
  {
    forall i | 0 <= i < |Encoded(content)| ensures PlainKind(Encoded(content)[i].blockType) {
      BlockRoundTrip(content[i], isJson);
    }
  }

  function Reference(run: string): StoredBlock {
    StoredForm(RunReferenceToJson(run))
  }

  lemma {:induction false} FirstRunIsReference(blocks: seq<StoredBlock>, run: string)
    requires forall i :: 0 <= i < |blocks| ==> blocks[i].blockType != RunReference
    ensures FirstRun(blocks + [Reference(run)]) == Some(run)
  {
    if blocks == [] {
      assert blocks + [Reference(run)] == [Reference(run)];
    } else {
      FirstRunIsReference(blocks[1..], run);
      assert (blocks + [Reference(run)])[1..] == blocks[1..] + [Reference(run)];
    }
  }

  lemma {:induction false} NoReferenceNoRun(blocks: seq<StoredBlock>)
    requires forall i :: 0 <= i < |blocks| ==> blocks[i].blockType != RunReference
    ensures FirstRun(blocks) == None
  {
    if blocks != [] {
      NoReferenceNoRun(blocks[1..]);
    }
  }

  lemma {:induction false} NoneOfKind(blocks: seq<StoredBlock>, kind: Kind)
    requires forall i :: 0 <= i < |blocks| ==> blocks[i].blockType != kind
    ensures FirstOfKind(blocks, kind) == None
  {
    if blocks != [] {
      NoneOfKind(blocks[1..], kind);
    }
  }

  function Tail(role: Role, run: Option<string>): seq<StoredBlock> {
    if role == AssistantRole && run.Some? then [Reference(run.value)] else []
  }

  lemma FormsSplit(blocks: seq<Json>, role: Role, run: Option<string>)
    ensures StoredForms(WithReference(blocks, role, run)) == StoredForms(blocks) + Tail(role, run)
  {
  }

  /** What the reasoning of a row's run does to its loading. */
  function Shown(m: AgentMessage, run: Option<string>, reasoning: ReasoningOf): AgentMessage {
    if m.Assistant? && run.Some? && reasoning(run.value).Ok? && reasoning(run.value).value.Some?
    then m.(content := [Thinking(reasoning(run.value).value.value, None)] + m.content)
    else m
  }

  predicate Decodable(role: Role, run: Option<string>, reasoning: ReasoningOf) {
    role == AssistantRole && run.Some? ==> reasoning(run.value).Ok?
  }

  lemma PlainView(content: seq<ContentBlock>, role: Role, run: Option<string>, reasoning: ReasoningOf,
                  isJson: string -> bool)
    requires Decodable(role, run, reasoning)
    ensures
      var blocks := Encoded(content) + Tail(role, run);
      Viewed(blocks, reasoning) ==
        Ok((if role == AssistantRole && run.Some? && reasoning(run.value).value.Some?
            then [ReasoningBlock(reasoning(run.value).value.value)] else []) + blocks)
  {
    EncodedIsPlain(content, isJson);
    var blocks := Encoded(content) + Tail(role, run);
    if role == AssistantRole && run.Some? {
      FirstRunIsReference(Encoded(content), run.value);
    } else {
      assert blocks == Encoded(content);
      NoReferenceNoRun(blocks);
    }
    assert [] + blocks == blocks;
  }

  lemma ReasoningParses(text: string, blocks: seq<StoredBlock>, isJson: string -> bool)
    ensures
      var rest := ParseContent(blocks, isJson);
      ParseContent([ReasoningBlock(text)] + blocks, isJson) ==
        if rest.Err? then rest else Ok([Thinking(text, None)] + rest.value)
  {
    ParseCons(ReasoningBlock(text), blocks, isJson);
  }

  /** The reasoning a row's run puts before its content. */
  function Before(role: Role, run: Option<string>, reasoning: ReasoningOf): seq<ContentBlock>
    requires Decodable(role, run, reasoning)
  {
    if role == AssistantRole && run.Some? && reasoning(run.value).value.Some?
    then [Thinking(reasoning(run.value).value.value, None)] else []
  }

  /** What a row without a tool result or custom block says. */
  function Plain(row: StoredMessage, content: seq<ContentBlock>): AgentMessage {
    match row.role
    case UserRole => User(row.id, content)
    case SystemRole => System(row.id, Joined(TextsOf(content)))
    case AssistantRole =>
      Assistant(row.id, content, if row.stopReason.Some? then Some(ParseStopReason(row.stopReason.value)) else None)
  }

  lemma PlainIsLoaded(row: StoredMessage, viewed: seq<StoredBlock>, reasoning: ReasoningOf, isJson: string -> bool)
    requires Viewed(row.blocks, reasoning) == Ok(viewed)
    requires forall i :: 0 <= i < |viewed| ==>
      viewed[i].blockType != ToolResultKind && viewed[i].blockType != CustomMessage
    ensures
      var content := ParseContent(viewed, isJson);
      LoadMessage(row, reasoning, isJson) == if content.Err? then Err(content.error) else Ok(Plain(row, content.value))
  {
    NoneOfKind(viewed, ToolResultKind);
    NoneOfKind(viewed, CustomMessage);
  }

  lemma PlainParses(content: seq<ContentBlock>, role: Role, run: Option<string>, reasoning: ReasoningOf,
                    isJson: string -> bool)
    requires Decodable(role, run, reasoning)
    ensures
      var viewed := Viewed(Encoded(content) + Tail(role, run), reasoning);
      && viewed.Ok?
      && (forall i :: 0 <= i < |viewed.value| ==>
            viewed.value[i].blockType != ToolResultKind && viewed.value[i].blockType != CustomMessage)
      && var parsed := ParseContent(viewed.value, isJson);
         if AllWellFormed(content, isJson) then parsed == Ok(Before(role, run, reasoning) + content) else parsed.Err?
  {
    var blocks := Encoded(content) + Tail(role, run);
    PlainView(content, role, run, reasoning, isJson);
    ContentRoundTrip(content, Tail(role, run), isJson);
    EncodedIsPlain(content, isJson);
    if Before(role, run, reasoning) == [] {
      assert [] + blocks == blocks && [] + content == content;
    } else {
      ReasoningParses(reasoning(run.value).value.value, blocks, isJson);
    }
  }

  /** The content of a plain message as loaded, reasoning first; an error if any block is malformed. */
  lemma PlainLoads(row: StoredMessage, content: seq<ContentBlock>, run: Option<string>, reasoning: ReasoningOf,
                   isJson: string -> bool)
    requires row.blocks == Encoded(content) + Tail(row.role, run) && Decodable(row.role, run, reasoning)
    ensures
      var loaded := LoadMessage(row, reasoning, isJson);
      if AllWellFormed(content, isJson) then loaded == Ok(Plain(row, Before(row.role, run, reasoning) + content))
      else loaded.Err?
    ensures Before(row.role, run, reasoning) == [] ==> Before(row.role, run, reasoning) + content == content
  {
    PlainParses(content, row.role, run, reasoning, isJson);
    PlainIsLoaded(row, Viewed(row.blocks, reasoning).value, reasoning, isJson);
    assert [] + content == content;
  }

  /** A message of one special block is that block's, whatever is prepended or follows. */
  lemma SpecialView(block: StoredBlock, role: Role, run: Option<string>, reasoning: ReasoningOf)
    requires Decodable(role, run, reasoning) && (block.blockType == ToolResultKind || block.blockType == CustomMessage)
    ensures
      var viewed := Viewed([block] + Tail(role, run), reasoning);
      && viewed.Ok?
      && FirstOfKind(viewed.value, block.blockType) == Some(block.json)
      && (block.blockType == CustomMessage ==> FirstOfKind(viewed.value, ToolResultKind) == None)
  {
    var blocks := [block] + Tail(role, run);
    if role == AssistantRole && run.Some? {
      FirstRunIsReference([block], run.value);
    } else {
      assert blocks == [block];
      NoReferenceNoRun(blocks);
    }
    var viewed := Viewed(blocks, reasoning);
    if viewed.value != blocks {
      assert viewed.value[1..] == blocks;
    }
    if block.blockType == CustomMessage {
      NoneOfKind(viewed.value, ToolResultKind);
    }
  }

  lemma ToolResultRoundTrip(m: AgentMessage)
    requires m.ToolResult?
    ensures
      var loaded := LoadToolResult(m.id, ToolResultToJson(m));
      loaded == Ok(m) <==>
        !IsBlank(m.toolCallId) && !IsBlank(m.toolName)
        && forall i :: 0 <= i < |m.results| ==> WellFormedResult(m.results[i])
  {
    ResultsRoundTrip(m.results);
    assert !IsSpace("legacy-missing-tool-call:"[0]);
    var legacy := "legacy-missing-tool-call:" + IdText(m.id);
    assert legacy[0] == 'l' && !IsBlank(legacy);
    assert "legacy-tool"[0] == 'l' && !IsBlank("legacy-tool");
  }

  /** The message is appended and loads as shown. */
  predicate Returns(conversation: string, run: Option<string>, turn: Option<string>, m: AgentMessage, uuid: nat,
                    created: nat, reasoning: ReasoningOf, isJson: string -> bool) {
    var appended := AppendAgentMessage(conversation, run, turn, m, uuid, created);
    appended.Ok? && LoadMessage(appended.value, reasoning, isJson) == Ok(Shown(m, run, reasoning))
  }

  lemma UserReturns(conversation: string, run: Option<string>, turn: Option<string>, m: AgentMessage, uuid: nat,
                    created: nat, reasoning: ReasoningOf, isJson: string -> bool)
    requires m.User? && m.id != Uuid(uuid)
    ensures Returns(conversation, run, turn, m, uuid, created, reasoning, isJson) <==> WellFormed(m, run, isJson)
  {
    FormsSplit(BlocksOf(m), UserRole, run);
    var appended := AppendAgentMessage(conversation, run, turn, m, uuid, created);
    if appended.Ok? {
      PlainLoads(appended.value, m.content, run, reasoning, isJson);
    }
  }

  lemma SystemReturns(conversation: string, run: Option<string>, turn: Option<string>, m: AgentMessage, uuid: nat,
                      created: nat, reasoning: ReasoningOf, isJson: string -> bool)
    requires m.System? && m.id != Uuid(uuid)
    ensures Returns(conversation, run, turn, m, uuid, created, reasoning, isJson) <==> WellFormed(m, run, isJson)
  {
    var content := [TextBlock(m.text)];
    FormsSplit(BlocksOf(m), SystemRole, run);
    assert BlocksOf(m) == ContentBlocksToJson(content);
    PlainLoads(AppendAgentMessage(conversation, run, turn, m, uuid, created).value, content, run, reasoning, isJson);
    assert TextsOf(content) == [m.text] + TextsOf(content[1..]);
  }

  lemma AssistantReturns(conversation: string, run: Option<string>, turn: Option<string>, m: AgentMessage, uuid: nat,
                         created: nat, reasoning: ReasoningOf, isJson: string -> bool)
    requires m.Assistant? && m.id != Uuid(uuid) && Decodable(AssistantRole, run, reasoning)
    ensures Returns(conversation, run, turn, m, uuid, created, reasoning, isJson) <==> WellFormed(m, run, isJson)
  {
    FormsSplit(BlocksOf(m), AssistantRole, run);
    var appended := AppendAgentMessage(conversation, run, turn, m, uuid, created);
    if appended.Ok? {
      PlainLoads(appended.value, m.content, run, reasoning, isJson);
      if m.stopReason.Some? {
        StopReasonRoundTrip(m.stopReason.value);
      }
    }
  }

  lemma ResultReturns(conversation: string, run: Option<string>, turn: Option<string>, m: AgentMessage, uuid: nat,
                      created: nat, reasoning: ReasoningOf, isJson: string -> bool)
    requires m.ToolResult? && m.id != Uuid(uuid) && Decodable(AssistantRole, run, reasoning)
    ensures Returns(conversation, run, turn, m, uuid, created, reasoning, isJson) <==> WellFormed(m, run, isJson)
  {
    FormsSplit(BlocksOf(m), AssistantRole, run);
    assert StoredForms(BlocksOf(m)) == [StoredForm(ToolResultToJson(m))];
    var row := AppendAgentMessage(conversation, run, turn, m, uuid, created).value;
    SpecialView(StoredForm(ToolResultToJson(m)), row.role, run, reasoning);
    ToolResultRoundTrip(m);
  }

  lemma CustomReturns(conversation: string, run: Option<string>, turn: Option<string>, m: AgentMessage, uuid: nat,
                      created: nat, reasoning: ReasoningOf, isJson: string -> bool)
    requires m.Custom? && m.id != Uuid(uuid) && Decodable(AssistantRole, run, reasoning)
    ensures Returns(conversation, run, turn, m, uuid, created, reasoning, isJson) <==> WellFormed(m, run, isJson)
  {
    FormsSplit(BlocksOf(m), AssistantRole, run);
    var block := StoredForm(BlocksOf(m)[0]);
    assert StoredForms(BlocksOf(m)) == [block];
    SpecialView(block, AssistantRole, run, reasoning);
    assert "custom"[0] == 'c' && !IsBlank("custom");
  }

  /**
   * Append then load, exactly: a message of any kind is stored and comes back
   * as it was, behind its run's reasoning if there is any, if and only if it is
   * well formed.
   */
  lemma AppendLoads(conversation: string, run: Option<string>, turn: Option<string>, m: AgentMessage, uuid: nat,
                    created: nat, reasoning: ReasoningOf, isJson: string -> bool)
    requires Decodable(RoleOf(m), run, reasoning) && m.id != Uuid(uuid)
    ensures Returns(conversation, run, turn, m, uuid, created, reasoning, isJson) <==> WellFormed(m, run, isJson)
  {
    match m
    case User(_, _) => UserReturns(conversation, run, turn, m, uuid, created, reasoning, isJson);
    case Assistant(_, _, _) => AssistantReturns(conversation, run, turn, m, uuid, created, reasoning, isJson);
    case ToolResult(_, _, _, _, _, _) => ResultReturns(conversation, run, turn, m, uuid, created, reasoning, isJson);
    case System(_, _) => SystemReturns(conversation, run, turn, m, uuid, created, reasoning, isJson);
    case Custom(_, _, _) => CustomReturns(conversation, run, turn, m, uuid, created, reasoning, isJson);
  }

  // ---- A whole conversation ----

  /** One append: its run, its turn and the message. */
  datatype Appending = Appending(run: Option<string>, turn: Option<string>, message: AgentMessage)

  function AppendAll(conversation: string, appends: seq<Appending>, uuid: nat): Result<seq<StoredMessage>, string> {
    if appends == [] then Ok([])
    else
      var before := AppendAll(conversation, appends[..|appends| - 1], uuid);
      var a := appends[|appends| - 1];
      var row := AppendAgentMessage(conversation, a.run, a.turn, a.message, uuid + |appends|, |appends| - 1);
      if before.Err? then before else if row.Err? then Err(row.error) else Ok(before.value + [row.value])
  }

  function ShownAll(appends: seq<Appending>, reasoning: ReasoningOf): seq<AgentMessage> {
    if appends == [] then []
    else
      var a := appends[|appends| - 1];
      ShownAll(appends[..|appends| - 1], reasoning) + [Shown(a.message, a.run, reasoning)]
  }

  lemma LoadSnoc(rows: seq<StoredMessage>, row: StoredMessage, reasoning: ReasoningOf, isJson: string -> bool)
    requires LoadAgentMessages(rows, reasoning, isJson).Ok? && LoadMessage(row, reasoning, isJson).Ok?
    ensures LoadAgentMessages(rows + [row], reasoning, isJson)
            == Ok(LoadAgentMessages(rows, reasoning, isJson).value + [LoadMessage(row, reasoning, isJson).value])
  {
    assert (rows + [row])[..|rows|] == rows;
  }

  predicate Loadable(a: Appending, reasoning: ReasoningOf, isJson: string -> bool) {
    WellFormed(a.message, a.run, isJson) && Decodable(RoleOf(a.message), a.run, reasoning) && a.message.id.Named?
  }

  lemma AppendSnoc(conversation: string, appends: seq<Appending>, uuid: nat, reasoning: ReasoningOf,
                   isJson: string -> bool)
    requires appends != [] && Loadable(appends[|appends| - 1], reasoning, isJson)
    requires AppendAll(conversation, appends[..|appends| - 1], uuid).Ok?
    requires LoadAgentMessages(AppendAll(conversation, appends[..|appends| - 1], uuid).value, reasoning, isJson).Ok?
    ensures
      var a := appends[|appends| - 1];
      var rows := AppendAll(conversation, appends[..|appends| - 1], uuid).value;
      var longer := AppendAll(conversation, appends, uuid);
      && longer.Ok? && |longer.value| == |rows| + 1
      && LoadAgentMessages(longer.value, reasoning, isJson)
         == Ok(LoadAgentMessages(rows, reasoning, isJson).value + [Shown(a.message, a.run, reasoning)])
  {
    var n := |appends| - 1;
    var a := appends[n];
    AppendLoads(conversation, a.run, a.turn, a.message, uuid + |appends|, n, reasoning, isJson);
    assert Returns(conversation, a.run, a.turn, a.message, uuid + |appends|, n, reasoning, isJson);
    var row := AppendAgentMessage(conversation, a.run, a.turn, a.message, uuid + |appends|, n).value;
    LoadSnoc(AppendAll(conversation, appends[..n], uuid).value, row, reasoning, isJson);
  }

  /** All appends succeed and load, in order, as shown. */
  predicate AllReturn(conversation: string, appends: seq<Appending>, uuid: nat, reasoning: ReasoningOf,
                      isJson: string -> bool) {
    var rows := AppendAll(conversation, appends, uuid);
    && rows.Ok? && |rows.value| == |appends|
    && LoadAgentMessages(rows.value, reasoning, isJson) == Ok(ShownAll(appends, reasoning))
  }

  predicate AllLoadable(appends: seq<Appending>, reasoning: ReasoningOf, isJson: string -> bool) {
    appends != [] ==>
      Loadable(appends[|appends| - 1], reasoning, isJson) && AllLoadable(appends[..|appends| - 1], reasoning, isJson)
  }

  /** The transcript loads in order, message for message. */
  lemma {:induction false} TranscriptRoundTrip(conversation: string, appends: seq<Appending>, uuid: nat,
                                               reasoning: ReasoningOf, isJson: string -> bool)
    requires AllLoadable(appends, reasoning, isJson)
    ensures AllReturn(conversation, appends, uuid, reasoning, isJson)
  {
    if appends != [] {
      var n := |appends| - 1;
      TranscriptRoundTrip(conversation, appends[..n], uuid, reasoning, isJson);
      AppendSnoc(conversation, appends, uuid, reasoning, isJson);
    }
  }

  predicate EachLoads(rows: seq<StoredMessage>, loaded: Result<seq<AgentMessage>, string>, reasoning: ReasoningOf,
                      isJson: string -> bool) {
    if loaded.Ok? then
      && |loaded.value| == |rows|
      && forall i :: 0 <= i < |rows| ==> LoadMessage(rows[i], reasoning, isJson) == Ok(loaded.value[i])
    else exists i :: 0 <= i < |rows| && LoadMessage(rows[i], reasoning, isJson).Err?
  }

  lemma OneMoreLoads(rows: seq<StoredMessage>, row: StoredMessage, before: Result<seq<AgentMessage>, string>,
                     last: Result<AgentMessage, string>, reasoning: ReasoningOf, isJson: string -> bool)
    requires EachLoads(rows, before, reasoning, isJson) && last == LoadMessage(row, reasoning, isJson)
    ensures EachLoads(rows + [row], if before.Err? then before else if last.Err? then Err(last.error)
                                    else Ok(before.value + [last.value]), reasoning, isJson)
  {
    var longer := rows + [row];
    assert longer[|rows|] == row;
    if before.Err? {
      var i :| 0 <= i < |rows| && LoadMessage(rows[i], reasoning, isJson).Err?;
      assert longer[i] == rows[i];
    }
  }

  /** A conversation loads exactly if each of its rows does, and then each is what its row loads as. */
  lemma {:induction false} LoadsIffEachLoads(rows: seq<StoredMessage>, reasoning: ReasoningOf, isJson: string -> bool)
    ensures EachLoads(rows, LoadAgentMessages(rows, reasoning, isJson), reasoning, isJson)
  {
    if rows != [] {
      var front, row := rows[..|rows| - 1], rows[|rows| - 1];
      LoadsIffEachLoads(front, reasoning, isJson);
      OneMoreLoads(front, row, LoadAgentMessages(front, reasoning, isJson), LoadMessage(row, reasoning, isJson),
                   reasoning, isJson);
      assert rows == front + [row];
    }
  }
}
