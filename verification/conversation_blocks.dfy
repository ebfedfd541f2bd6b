/**
 * Messages as the engine holds them and as the tables store them. The member
 * names of stored JSON objects are the finite set below and any other; an
 * object's `type` member, when it is a string, stands apart as its kind.
 */
module ConversationBlocks {
  import opened Texts
  import opened Wrappers

  datatype Key =
    | Text | Signature | Source | Url | MediaType | Detail | ToolCallId | Name | Arguments | IsError | ErrorCode | Code
    | Content | Value | ArtifactId | Preview | CustomKind | Payload | RunId | Reasoning | Path | OtherKey(name: string)

  datatype Kind =
    | TextKind | ThinkingKind | ReasoningKind | ImageKind | ToolCallKind | FileReferenceKind
    | ToolResultKind | CustomMessage | RunReference | JsonKind | ArtifactKind | OtherKind(name: string)

  datatype Json =
    | Null
    | Bool(value: bool)
    | Number(text: string)
    | Str(text: string)
    | Arr(items: seq<Json>)
    | Obj(kind: Option<Kind>, fields: map<Key, Json>)

  /** A uuid is never the text of a named id. */
  datatype Id = Named(name: string) | Uuid(n: nat)

  datatype ImageSource = ImageSource(url: string, mediaType: Option<string>, detail: Option<string>)

  datatype ContentBlock =
    | TextBlock(text: string)
    | Thinking(text: string, signature: Option<string>)
    | Image(source: ImageSource)
    | ToolCall(toolCallId: string, name: string, arguments: string)

  datatype ToolResultBlock =
    | ResultText(text: string)
    | ResultJson(value: Json)
    | ResultArtifact(artifactId: string, preview: Option<string>)

  datatype StopReason = Stop | ToolUse | Length | Cancelled | Error | Provider(raw: string)

  datatype AgentMessage =
    | User(id: Id, content: seq<ContentBlock>)
    | Assistant(id: Id, content: seq<ContentBlock>, stopReason: Option<StopReason>)
    | ToolResult(id: Id, toolCallId: string, toolName: string, results: seq<ToolResultBlock>, isError: bool,
                 code: Option<string>)
    | System(id: Id, text: string)
    | Custom(id: Id, customKind: string, payload: Json)

  datatype Role = UserRole | AssistantRole | SystemRole

  /** A row of `message_block`, whose `block_type` column need not repeat the JSON's own `type`. */
  datatype StoredBlock = StoredBlock(blockType: Kind, json: Json)

  /** A row of `message` with its blocks in `sort_order`; `created` is its place in creation order. */
  datatype StoredMessage = StoredMessage(
    id: Id,
    conversation: string,
    role: Role,
    turnId: Option<string>,
    runId: Option<string>,
    stopReason: Option<string>,
    legacyMarker: bool,
    blocks: seq<StoredBlock>,
    created: nat)

  // ---- Reading JSON ----

  function Get(j: Json, key: Key): Option<Json> {
    if j.Obj? && key in j.fields then Some(j.fields[key]) else None
  }

  function AsStr(j: Option<Json>): Option<string> {
    if j.Some? && j.value.Str? then Some(j.value.text) else None
  }

  function NonBlank(s: Option<string>): Option<string> {
    if s.Some? && IsBlank(s.value) then None else s
  }

  function OrNull(s: Option<string>): Json {
    if s.Some? then Str(s.value) else Null
  }

  // ---- Writing ----

  function ImageToJson(source: ImageSource): Json {
    Obj(None, map[Url := Str(source.url), MediaType := OrNull(source.mediaType), Detail := OrNull(source.detail)])
  }

  function ContentBlockToJson(block: ContentBlock): Json {
    match block
    case TextBlock(text) => Obj(Some(TextKind), map[Text := Str(text)])
    case Thinking(text, signature) => Obj(Some(ThinkingKind), map[Text := Str(text), Signature := OrNull(signature)])
    case Image(source) => Obj(Some(ImageKind), map[Source := ImageToJson(source)])
    case ToolCall(id, name, arguments) =>
      Obj(Some(ToolCallKind), map[ToolCallId := Str(id), Name := Str(name), Arguments := Str(arguments)])
  }

  function ContentBlocksToJson(blocks: seq<ContentBlock>): seq<Json> {
    seq(|blocks|, i requires 0 <= i < |blocks| => ContentBlockToJson(blocks[i]))
  }

  function ResultBlockToJson(block: ToolResultBlock): Json {
    match block
    case ResultText(text) => Obj(Some(TextKind), map[Text := Str(text)])
    case ResultJson(value) => Obj(Some(JsonKind), map[Value := value])
    case ResultArtifact(id, preview) => Obj(Some(ArtifactKind), map[ArtifactId := Str(id), Preview := OrNull(preview)])
  }

  function ResultBlocksToJson(blocks: seq<ToolResultBlock>): seq<Json> {
    seq(|blocks|, i requires 0 <= i < |blocks| => ResultBlockToJson(blocks[i]))
  }

  function ToolResultToJson(m: AgentMessage): Json
    requires m.ToolResult?
  {
    Obj(Some(ToolResultKind), map[ToolCallId := Str(m.toolCallId), Name := Str(m.toolName), IsError := Bool(m.isError),
                                  ErrorCode := OrNull(m.code), Content := Arr(ResultBlocksToJson(m.results))])
  }

  function RunReferenceToJson(runId: string): Json {
    Obj(Some(RunReference), map[RunId := Str(runId)])
  }

  /** Display of a stop reason, which marks a provider's own reason with a prefix. */
  function StopReasonText(reason: StopReason): string {
    match reason
    case Stop => "stop"
    case ToolUse => "tool_use"
    case Length => "length"
    case Cancelled => "cancelled"
    case Error => "error"
    case Provider(raw) => "provider:" + raw
  }

  function ParseStopReason(text: string): StopReason {
    if text == "stop" then Stop
    else if text == "tool_use" then ToolUse
    else if text == "length" then Length
    else if text == "cancelled" then Cancelled
    else if text == "error" then Error
    else Provider(text)
  }

  // ---- What a tool's output says ----

  /** An output that names an artifact is stored as a reference to it. */
  function ResultBlocksFor(output: Json): seq<ToolResultBlock> {
    var artifact := AsStr(Get(output, ArtifactId));
    if artifact.Some? then [ResultArtifact(artifact.value, AsStr(Get(output, Preview)))] else [ResultJson(output)]
  }

  function ErrorCodeFor(output: Json): Option<string> {
    var code := Get(output, ErrorCode);
    AsStr(if code.Some? then code else Get(output, Code))
  }
}
