/**
 * Appending typed messages and loading them back. The rows of a conversation
 * are in creation order; whether a text is JSON, and what a run's events say of
 * its reasoning, are parameters.
 */
module ConversationTranscript {
  import opened ConversationBlocks
  import opened Texts
  import opened Wrappers

  // ---- Appending ----

  function BlocksOf(m: AgentMessage): seq<Json> {
    match m
    case User(_, content) => ContentBlocksToJson(content)
    case Assistant(_, content, _) => ContentBlocksToJson(content)
    case ToolResult(_, _, _, _, _, _) => [ToolResultToJson(m)]
    case System(_, text) => [Obj(Some(TextKind), map[Text := Str(text)])]
    case Custom(_, kind, payload) => [Obj(Some(CustomMessage), map[CustomKind := Str(kind), Payload := payload])]
  }

  function RoleOf(m: AgentMessage): Role {
    match m
    case User(_, _) => UserRole
    case System(_, _) => SystemRole
    case _ => AssistantRole
  }

  function StopOf(m: AgentMessage): Option<string> {
    if m.Assistant? && m.stopReason.Some? then Some(StopReasonText(m.stopReason.value)) else None
  }

  /** A text block is stored without its type, every other one whole. */
  function StoredForm(block: Json): StoredBlock {
    var kind := if block.Obj? then block.kind.UnwrapOr(TextKind) else TextKind;
    if kind == TextKind then StoredBlock(TextKind, Obj(None, map[Text := Str(AsStr(Get(block, Text)).UnwrapOr(""))]))
    else StoredBlock(kind, block)
  }

  function StoredForms(blocks: seq<Json>): seq<StoredBlock> {
    seq(|blocks|, i requires 0 <= i < |blocks| => StoredForm(blocks[i]))
  }

  function WithReference(blocks: seq<Json>, role: Role, run: Option<string>): seq<Json> {
    if role == AssistantRole && run.Some? then blocks + [RunReferenceToJson(run.value)] else blocks
  }

  predicate IsBlankId(id: Id) {
    id.Named? && IsBlank(id.name)
  }

  /** Ids of symbolic runs and turns are not written to the foreign-key columns. */
  function Durable(id: Option<string>, prefixes: seq<string>): Option<string> {
    if id.Some? && exists i :: 0 <= i < |prefixes| && prefixes[i] <= id.value then None else id
  }

  function AppendAgentMessage(conversation: string, run: Option<string>, turn: Option<string>, m: AgentMessage,
                              uuid: nat, created: nat): Result<StoredMessage, string> {
    var blocks := WithReference(BlocksOf(m), RoleOf(m), run);
    if blocks == [] then Err("content or blocks is required")
    else
      Ok(StoredMessage(if IsBlankId(m.id) then Uuid(uuid) else m.id, conversation, RoleOf(m),
                       Durable(turn, ["turn-", "legacy-turn:"]), Durable(run, ["run-"]), StopOf(m),
                       turn.Some? && "legacy-turn:" <= turn.value, StoredForms(blocks), created))
  }

  // ---- Loading ----

  /** What reading a run's events for reasoning gives: its trimmed text if it has any, or a decoding error. */
  type ReasoningOf = string -> Result<Option<string>, string>

  function FirstRun(blocks: seq<StoredBlock>): Option<string> {
    if blocks == [] then None
    else if blocks[0].blockType == RunReference && AsStr(Get(blocks[0].json, RunId)).Some?
    then AsStr(Get(blocks[0].json, RunId))
    else FirstRun(blocks[1..])
  }

  predicate HasKind(blocks: seq<StoredBlock>, kind: Kind) {
    exists i :: 0 <= i < |blocks| && blocks[i].blockType == kind
  }

  function ReasoningBlock(text: string): StoredBlock {
    StoredBlock(ReasoningKind, Obj(None, map[Reasoning := Str(text)]))
  }

  /** The blocks as read back: the run's reasoning goes first unless a reasoning block is stored. */
  function Viewed(blocks: seq<StoredBlock>, reasoning: ReasoningOf): Result<seq<StoredBlock>, string> {
    var run := FirstRun(blocks);
    if run.None? || HasKind(blocks, ReasoningKind) then Ok(blocks)
    else
      match reasoning(run.value)
      case Err(error) => Err(error)
      case Ok(None) => Ok(blocks)
      case Ok(Some(text)) => Ok([ReasoningBlock(text)] + blocks)
  }

  function FirstOfKind(blocks: seq<StoredBlock>, kind: Kind): Option<Json> {
    if blocks == [] then None
    else if blocks[0].blockType == kind then Some(blocks[0].json)
    else FirstOfKind(blocks[1..], kind)
  }

  function ParseImage(j: Json): Result<ContentBlock, string> {
    var url := AsStr(Get(j, Url));
    var media, detail := Get(j, MediaType), Get(j, Detail);
    if url.None? || !(media.None? || media.value.Null? || media.value.Str?)
       || !(detail.None? || detail.value.Null? || detail.value.Str?) then Err("invalid image source")
    else if IsBlank(url.value) then Err("image source url is empty")
    else Ok(Image(ImageSource(url.value, AsStr(media), AsStr(detail))))
  }

  function ParseContentBlock(block: StoredBlock, isJson: string -> bool): Result<ContentBlock, string> {
    var j := block.json;
    match block.blockType
    case TextKind =>
      var text := AsStr(Get(j, Text));
      if text.Some? then Ok(TextBlock(text.value)) else Err("text block has no text")
    case ThinkingKind => ParseThinking(j)
    case ReasoningKind => ParseThinking(j)
    case ToolCallKind =>
      var name, id, arguments := NonBlank(AsStr(Get(j, Name))), NonBlank(AsStr(Get(j, ToolCallId))),
        NonBlank(AsStr(Get(j, Arguments)));
      if name.None? then Err("tool call has no name")
      else if id.None? then Err("tool call has no tool_call_id")
      else if arguments.None? then Err("tool call has no arguments")
      else if !isJson(arguments.value) then Err("tool call arguments are invalid JSON")
      else Ok(ToolCall(id.value, name.value, arguments.value))
    case ImageKind => ParseImage(Get(j, Source).UnwrapOr(j))
    case FileReferenceKind =>
      var path := NonBlank(AsStr(Get(j, Path)));
      if path.None? then Err("file reference has no path")
      else
        var name := NonBlank(AsStr(Get(j, Name))).UnwrapOr(path.value);
        Ok(TextBlock("[attachment: " + name + " at " + path.value + "]"))
    case _ => Err("unsupported block type")
  }

  function ParseThinking(j: Json): Result<ContentBlock, string> {
    var given := Get(j, Text);
    var text := AsStr(if given.Some? then given else Get(j, Reasoning));
    if text.Some? then Ok(Thinking(text.value, AsStr(Get(j, Signature)))) else Err("thinking block has no text")
  }

  /** The content of a message; its provenance is not part of it. */
  function ParseContent(blocks: seq<StoredBlock>, isJson: string -> bool): Result<seq<ContentBlock>, string> {
    if blocks == [] then Ok([])
    else if blocks[0].blockType == RunReference then ParseContent(blocks[1..], isJson)
    else
      var first := ParseContentBlock(blocks[0], isJson);
      if first.Err? then Err(first.error)
      else
        var rest := ParseContent(blocks[1..], isJson);
        if rest.Err? then rest else Ok([first.value] + rest.value)
  }

  function ParseResultBlock(j: Json): Result<ToolResultBlock, string> {
    if !j.Obj? || j.kind.None? then Err("tool result block type missing")
    else
      match j.kind.value
      case TextKind =>
        var text := AsStr(Get(j, Text));
        if text.Some? then Ok(ResultText(text.value)) else Err("tool result block text missing")
      case JsonKind =>
        var value := Get(j, Value);
        if value.Some? then Ok(ResultJson(value.value)) else Err("tool result block value missing")
      case ArtifactKind =>
        var id := NonBlank(AsStr(Get(j, ArtifactId)));
        if id.Some? then Ok(ResultArtifact(id.value, AsStr(Get(j, Preview))))
        else Err("tool result block artifact_id missing")
      case _ => Err("tool result block type unsupported")
  }

  function ParseResults(items: seq<Json>): Result<seq<ToolResultBlock>, string> {
    if items == [] then Ok([])
    else
      var first := ParseResultBlock(items[0]);
      if first.Err? then Err(first.error)
      else
        var rest := ParseResults(items[1..]);
        if rest.Err? then rest else Ok([first.value] + rest.value)
  }

  /** The text of an id; that of a uuid is known only to differ from other uuids'. */
  function IdText(id: Id): string {
    match id
    case Named(name) => name
    case Uuid(n) => seq(n, _ => '#')
  }

  function LoadToolResult(id: Id, j: Json): Result<AgentMessage, string> {
    var items := Get(j, Content);
    if items.None? || !items.value.Arr? then Err("tool result content blocks missing")
    else
      var results := ParseResults(items.value.items);
      if results.Err? then Err(results.error)
      else
        var isError := Get(j, IsError);
        var code := AsStr(Get(j, ErrorCode));
        Ok(ToolResult(id,
                      NonBlank(AsStr(Get(j, ToolCallId))).UnwrapOr("legacy-missing-tool-call:" + IdText(id)),
                      NonBlank(AsStr(Get(j, Name))).UnwrapOr("legacy-tool"),
                      results.value,
                      (isError.Some? && isError.value.Bool? && isError.value.value) || Get(j, ToolCallId).None?,
                      if code.Some? then code
                      else if Get(j, ToolCallId).None? then Some("LEGACY_TOOL_RESULT_ID_MISSING") else None))
  }

  function LoadCustom(id: Id, j: Json): AgentMessage {
    Custom(id, NonBlank(AsStr(Get(j, CustomKind))).UnwrapOr("custom"), Get(j, Payload).UnwrapOr(Null))
  }

  function TextsOf(content: seq<ContentBlock>): seq<string> {
    if content == [] then []
    else (if content[0].TextBlock? then [content[0].text] else []) + TextsOf(content[1..])
  }

  function Joined(texts: seq<string>): string {
    if texts == [] then "" else if |texts| == 1 then texts[0] else texts[0] + "\n" + Joined(texts[1..])
  }

  function LoadMessage(row: StoredMessage, reasoning: ReasoningOf,
                       isJson: string -> bool): Result<AgentMessage, string> {
    var viewed := Viewed(row.blocks, reasoning);
    if viewed.Err? then Err(viewed.error)
    else
      var result := FirstOfKind(viewed.value, ToolResultKind);
      var custom := FirstOfKind(viewed.value, CustomMessage);
      if result.Some? then LoadToolResult(row.id, result.value)
      else if custom.Some? then Ok(LoadCustom(row.id, custom.value))
      else
        var content := ParseContent(viewed.value, isJson);
        if content.Err? then Err(content.error)
        else
          match row.role
          case UserRole => Ok(User(row.id, content.value))
          case SystemRole => Ok(System(row.id, Joined(TextsOf(content.value))))
          case AssistantRole =>
            Ok(Assistant(row.id, content.value,
                         if row.stopReason.Some? then Some(ParseStopReason(row.stopReason.value)) else None))
  }

  /** A whole conversation; one malformed message fails it. */
  function LoadAgentMessages(rows: seq<StoredMessage>, reasoning: ReasoningOf,
                             isJson: string -> bool): Result<seq<AgentMessage>, string> {
    if rows == [] then Ok([])
    else
      var before := LoadAgentMessages(rows[..|rows| - 1], reasoning, isJson);
      var last := LoadMessage(rows[|rows| - 1], reasoning, isJson);
      if before.Err? then before else if last.Err? then Err(last.error) else Ok(before.value + [last.value])
  }

  // ---- Which messages come back ----

  predicate WellFormedBlock(block: ContentBlock, isJson: string -> bool) {
    match block
    case TextBlock(_) => true
    case Thinking(_, _) => true
    case Image(source) => !IsBlank(source.url)
    case ToolCall(id, name, arguments) => !IsBlank(id) && !IsBlank(name) && !IsBlank(arguments) && isJson(arguments)
  }

  predicate WellFormedResult(block: ToolResultBlock) {
    block.ResultArtifact? ==> !IsBlank(block.artifactId)
  }

  /** Checkable before the append. A reason of the provider's own is what never comes back. */
  predicate WellFormed(m: AgentMessage, run: Option<string>, isJson: string -> bool) {
    && !IsBlankId(m.id)
    && match m
       case User(_, content) => content != [] && forall i :: 0 <= i < |content| ==> WellFormedBlock(content[i], isJson)
       case Assistant(_, content, stop) =>
         && (content != [] || run.Some?)
         && (forall i :: 0 <= i < |content| ==> WellFormedBlock(content[i], isJson))
         && (stop.Some? ==> !stop.value.Provider?)
       case ToolResult(_, callId, name, results, _, _) =>
         !IsBlank(callId) && !IsBlank(name) && forall i :: 0 <= i < |results| ==> WellFormedResult(results[i])
       case System(_, _) => true
       case Custom(_, kind, _) => !IsBlank(kind)
  }

  lemma BlockRoundTrip(block: ContentBlock, isJson: string -> bool)
    ensures
      var parsed := ParseContentBlock(StoredForm(ContentBlockToJson(block)), isJson);
      && (WellFormedBlock(block, isJson) ==> parsed == Ok(block))
      && (!WellFormedBlock(block, isJson) ==> parsed.Err?)
    ensures
      var kind := StoredForm(ContentBlockToJson(block)).blockType;
      kind != RunReference && kind != ToolResultKind && kind != CustomMessage && kind != ReasoningKind
  {
  }

  predicate AllWellFormed(content: seq<ContentBlock>, isJson: string -> bool) {
    forall i :: 0 <= i < |content| ==> WellFormedBlock(content[i], isJson)
  }

  lemma AllWellFormedCons(content: seq<ContentBlock>, isJson: string -> bool)
    requires content != []
    ensures AllWellFormed(content, isJson) <==>
      WellFormedBlock(content[0], isJson) && AllWellFormed(content[1..], isJson)
  {
    assert forall i :: 0 < i < |content| ==> content[i] == content[1..][i - 1];
  }

  function Encoded(content: seq<ContentBlock>): seq<StoredBlock> {
    StoredForms(ContentBlocksToJson(content))
  }

  lemma EncodedCons(content: seq<ContentBlock>, tail: seq<StoredBlock>)
    requires content != []
    ensures Encoded(content) + tail == [StoredForm(ContentBlockToJson(content[0]))] + (Encoded(content[1..]) + tail)
  {
    assert Encoded(content) == [StoredForm(ContentBlockToJson(content[0]))] + Encoded(content[1..]);
  }

  lemma ParseCons(first: StoredBlock, rest: seq<StoredBlock>, isJson: string -> bool)
    requires first.blockType != RunReference
    ensures
      var head := ParseContentBlock(first, isJson);
      var tail := ParseContent(rest, isJson);
      ParseContent([first] + rest, isJson) ==
        if head.Err? then Err(head.error) else if tail.Err? then tail else Ok([head.value] + tail.value)
  {
    assert ([first] + rest)[1..] == rest;
  }

  lemma ParseFirst(content: seq<ContentBlock>, tail: seq<StoredBlock>, isJson: string -> bool)
    requires content != []
    ensures
      var rest := ParseContent(Encoded(content[1..]) + tail, isJson);
      var parsed := ParseContent(Encoded(content) + tail, isJson);
      if !WellFormedBlock(content[0], isJson) then parsed.Err?
      else parsed == if rest.Err? then rest else Ok([content[0]] + rest.value)
  {
    var head := StoredForm(ContentBlockToJson(content[0]));
    BlockRoundTrip(content[0], isJson);
    EncodedCons(content, tail);
    ParseCons(head, Encoded(content[1..]) + tail, isJson);
  }

  /** Content parses back exactly when every block of it is well formed. */
  predicate ParsesBack(content: seq<ContentBlock>, tail: seq<StoredBlock>, isJson: string -> bool) {
    var parsed := ParseContent(Encoded(content) + tail, isJson);
    if AllWellFormed(content, isJson) then parsed == Ok(content) else parsed.Err?
  }

  lemma ParsesBackCons(content: seq<ContentBlock>, tail: seq<StoredBlock>, isJson: string -> bool)
    requires content != [] && ParsesBack(content[1..], tail, isJson)
    ensures ParsesBack(content, tail, isJson)
  {
    ParseFirst(content, tail, isJson);
    AllWellFormedCons(content, isJson);
    FirstAndRest(content);
  }

  lemma FirstAndRest<T>(s: seq<T>)
    requires s != []
    ensures [s[0]] + s[1..] == s
  {
  }

  lemma {:induction false} ContentRoundTrip(content: seq<ContentBlock>, tail: seq<StoredBlock>, isJson: string -> bool)
    requires forall i :: 0 <= i < |tail| ==> tail[i].blockType == RunReference
    ensures ParsesBack(content, tail, isJson)
  {
    if content == [] {
      assert Encoded(content) + tail == tail;
      OnlyReferences(tail, isJson);
    } else {
      ContentRoundTrip(content[1..], tail, isJson);
      ParsesBackCons(content, tail, isJson);
    }
  }

  lemma {:induction false} OnlyReferences(tail: seq<StoredBlock>, isJson: string -> bool)
    requires forall i :: 0 <= i < |tail| ==> tail[i].blockType == RunReference
    ensures ParseContent(tail, isJson) == Ok([])
  {
    if tail != [] {
      OnlyReferences(tail[1..], isJson);
    }
  }

  lemma ResultRoundTrip(result: ToolResultBlock)
    ensures
      var parsed := ParseResultBlock(ResultBlockToJson(result));
      if WellFormedResult(result) then parsed == Ok(result) else parsed.Err?
  {
  }

  lemma AllResultsCons(results: seq<ToolResultBlock>)
    requires results != []
    ensures (forall i :: 0 <= i < |results| ==> WellFormedResult(results[i])) <==>
      WellFormedResult(results[0]) && forall i :: 0 <= i < |results[1..]| ==> WellFormedResult(results[1..][i])
  {
    assert forall i :: 0 < i < |results| ==> results[i] == results[1..][i - 1];
  }

  lemma {:induction false} ResultsRoundTrip(results: seq<ToolResultBlock>)
    ensures
      var parsed := ParseResults(ResultBlocksToJson(results));
      if forall i :: 0 <= i < |results| ==> WellFormedResult(results[i]) then parsed == Ok(results) else parsed.Err?
  {
    if results != [] {
      ResultRoundTrip(results[0]);
      ResultsRoundTrip(results[1..]);
      assert ResultBlocksToJson(results)[1..] == ResultBlocksToJson(results[1..]);
      AllResultsCons(results);
      FirstAndRest(results);
    }
  }

  lemma StopReasonRoundTrip(reason: StopReason)
    ensures ParseStopReason(StopReasonText(reason)) == reason <==> !reason.Provider?
  {
    if reason.Provider? {
      assert StopReasonText(reason)[0] == 'p';
      assert "stop"[0] == 's' && "tool_use"[0] == 't' && "length"[0] == 'l' && "cancelled"[0] == 'c'
        && "error"[0] == 'e';
      assert |StopReasonText(reason)| > |reason.raw|;
    } else {
      assert "stop"[0] == 's' && "tool_use"[0] == 't' && "length"[0] == 'l' && "cancelled"[0] == 'c'
        && "error"[0] == 'e';
    }
  }
}
