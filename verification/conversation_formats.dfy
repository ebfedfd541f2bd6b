/**
 * The stored formats, from the reader's side: which JSON loads as which block,
 * whoever wrote it, and which columns an append fills.
 */
module ConversationFormats {
  import opened ConversationBlocks
  import opened ConversationTranscript
  import opened Texts
  import opened Wrappers

  // ---- Content blocks ----

  /** The member is a string that is not blank. */
  predicate Says(j: Json, key: Key, text: string) {
    Get(j, key) == Some(Str(text)) && !IsBlank(text)
  }

  lemma TextLoadsIff(j: Json, text: string, isJson: string -> bool)
    ensures ParseContentBlock(StoredBlock(TextKind, j), isJson) == Ok(TextBlock(text)) <==>
            Get(j, Text) == Some(Str(text))
  {
  }

  /** A call needs its id, its name and its arguments, none blank, and the arguments must be JSON. */
  lemma ToolCallLoadsIff(j: Json, id: string, name: string, arguments: string, isJson: string -> bool)
    ensures ParseContentBlock(StoredBlock(ToolCallKind, j), isJson) == Ok(ToolCall(id, name, arguments)) <==>
      Says(j, ToolCallId, id) && Says(j, Name, name) && Says(j, Arguments, arguments) && isJson(arguments)
    ensures ParseContentBlock(StoredBlock(ToolCallKind, j), isJson).Ok? ==>
      ParseContentBlock(StoredBlock(ToolCallKind, j), isJson).value.ToolCall?
  {
  }

  /** Thinking and reasoning load alike; the older member is read when the newer is missing. */
  lemma ThinkingLoadsIff(j: Json, text: string, signature: Option<string>, isJson: string -> bool)
    ensures ParseContentBlock(StoredBlock(ThinkingKind, j), isJson) ==
            ParseContentBlock(StoredBlock(ReasoningKind, j), isJson)
    ensures ParseContentBlock(StoredBlock(ThinkingKind, j), isJson) == Ok(Thinking(text, signature)) <==>
      && (Get(j, Text) == Some(Str(text)) || (Get(j, Text).None? && Get(j, Reasoning) == Some(Str(text))))
      && signature == AsStr(Get(j, Signature))
  {
  }

  predicate IsStrOrNone(j: Option<Json>, text: Option<string>) {
    match j
    case None => text == None
    case Some(Null) => text == None
    case Some(Str(s)) => text == Some(s)
    case _ => false
  }

  /** An image names its source by a url that is not blank; its other members are strings or null. */
  lemma ImageLoadsIff(j: Json, url: string, media: Option<string>, detail: Option<string>, isJson: string -> bool)
    ensures
      var source := Get(j, Source).UnwrapOr(j);
      ParseContentBlock(StoredBlock(ImageKind, j), isJson) == Ok(Image(ImageSource(url, media, detail))) <==>
        Says(source, Url, url) && IsStrOrNone(Get(source, MediaType), media) && IsStrOrNone(Get(source, Detail), detail)
  {
  }

  /** A file reference loads as a line of text with its name, or its path for want of one. */
  lemma FileReferenceLoads(j: Json, path: string, name: string, isJson: string -> bool)
    requires Says(j, Path, path)
    ensures
      var loaded := ParseContentBlock(StoredBlock(FileReferenceKind, j), isJson);
      && (Says(j, Name, name) ==> loaded == Ok(TextBlock("[attachment: " + name + " at " + path + "]")))
      && (Get(j, Name).None? ==> loaded == Ok(TextBlock("[attachment: " + path + " at " + path + "]")))
  {
  }

  /** Any other kind of block in a content is an error, but for the reference to the run, which is passed over. */
  lemma OtherBlocks(block: StoredBlock, rest: seq<StoredBlock>, isJson: string -> bool)
    requires block.blockType !in {TextKind, ThinkingKind, ReasoningKind, ToolCallKind, ImageKind, FileReferenceKind}
    ensures
      if block.blockType == RunReference then ParseContent([block] + rest, isJson) == ParseContent(rest, isJson)
      else ParseContent([block] + rest, isJson).Err?
  {
    assert ([block] + rest)[1..] == rest;
  }

  /**
   * A message that names its run and has no reasoning of its own is shown behind
   * the run's, if there is some; reasoning that cannot be read is an error.
   */
  lemma RunReasoningIsShown(row: StoredMessage, run: string, reasoning: ReasoningOf, isJson: string -> bool)
    requires FirstRun(row.blocks) == Some(run) && !HasKind(row.blocks, ReasoningKind)
    ensures reasoning(run).Err? ==> LoadMessage(row, reasoning, isJson).Err?
    ensures reasoning(run) == Ok(None) ==> Viewed(row.blocks, reasoning) == Ok(row.blocks)
    ensures forall text :: reasoning(run) == Ok(Some(text)) ==>
      Viewed(row.blocks, reasoning) ==
      Ok([StoredBlock(ReasoningKind, Obj(None, map[Reasoning := Str(text)]))] + row.blocks)
  {
  }

  // ---- Tool results ----

  lemma ResultBlockLoadsIff(j: Json, result: ToolResultBlock)
    ensures ParseResultBlock(j) == Ok(result) <==>
      j.Obj? &&
      match result
      case ResultText(text) => j.kind == Some(TextKind) && Get(j, Text) == Some(Str(text))
      case ResultJson(value) => j.kind == Some(JsonKind) && Get(j, Value) == Some(value)
      case ResultArtifact(id, preview) =>
        j.kind == Some(ArtifactKind) && Says(j, ArtifactId, id) && preview == AsStr(Get(j, Preview))
  {
  }

  /** A result as it is written now, with its five members. */
  lemma ToolResultLoads(id: Id, call: string, name: string, isError: bool, code: Option<string>, items: seq<Json>)
    requires !IsBlank(call) && !IsBlank(name) && ParseResults(items).Ok?
    ensures LoadToolResult(id, Obj(Some(ToolResultKind), map[
              ToolCallId := Str(call), Name := Str(name), IsError := Bool(isError), ErrorCode := OrNull(code),
              Content := Arr(items)])) ==
            Ok(ToolResult(id, call, name, ParseResults(items).value, isError, code))
  {
  }

  /** An older result without an id for its call is an error under a name made up for it. */
  lemma LegacyToolResultLoads(id: Id, items: seq<Json>)
    requires ParseResults(items).Ok?
    ensures LoadToolResult(id, Obj(Some(ToolResultKind), map[Content := Arr(items)])) ==
            Ok(ToolResult(id, "legacy-missing-tool-call:" + IdText(id), "legacy-tool", ParseResults(items).value, true,
                          Some("LEGACY_TOOL_RESULT_ID_MISSING")))
  {
  }

  lemma CustomLoads(id: Id, kind: string, payload: Json)
    requires !IsBlank(kind)
    ensures LoadCustom(id, Obj(Some(CustomMessage), map[CustomKind := Str(kind), Payload := payload])) ==
            Custom(id, kind, payload)
    ensures LoadCustom(id, Obj(Some(CustomMessage), map[])) == Custom(id, "custom", Null)
  {
  }

  /** The texts of a system message are lines. */
  lemma SystemLines(first: string, more: seq<string>)
    ensures Joined([first]) == first
    ensures more != [] ==> Joined([first] + more) == first + "\n" + Joined(more)
  {
    assert ([first] + more)[1..] == more;
  }

  /** Which text stands for which stop reason; the five cannot be told from a provider's own of that text. */
  lemma StopTextsAre(raw: string)
    ensures ParseStopReason("stop") == Stop && ParseStopReason("tool_use") == ToolUse
    ensures ParseStopReason("length") == Length && ParseStopReason("cancelled") == Cancelled
    ensures ParseStopReason("error") == Error
    ensures raw !in {"stop", "tool_use", "length", "cancelled", "error"} ==> ParseStopReason(raw) == Provider(raw)
    ensures StopReasonText(Provider(raw)) == "provider:" + raw
  {
    assert "stop"[0] == 's' && "tool_use"[0] == 't' && "length"[0] == 'l' && "cancelled"[0] == 'c';
    assert "error"[0] == 'e';
  }

  // ---- Columns ----

  predicate StartsWith(text: Option<string>, prefix: string) {
    text.Some? && prefix <= text.value
  }

  /**
   * The columns of an appended message: the conversation and place given, the
   * role its kind says, its turn and run unless they are names made up for a
   * session, the text of its stop reason, and the mark of a legacy turn.
   */
  lemma AppendedColumns(conversation: string, run: Option<string>, turn: Option<string>, m: AgentMessage,
                        uuid: nat, created: nat)
    requires AppendAgentMessage(conversation, run, turn, m, uuid, created).Ok?
    ensures
      var row := AppendAgentMessage(conversation, run, turn, m, uuid, created).value;
      && row.conversation == conversation && row.created == created
      && row.role == (match m case User(_, _) => UserRole case System(_, _) => SystemRole case _ => AssistantRole)
      && row.turnId == (if StartsWith(turn, "turn-") || StartsWith(turn, "legacy-turn:") then None else turn)
      && row.runId == (if StartsWith(run, "run-") then None else run)
      && (row.legacyMarker <==> StartsWith(turn, "legacy-turn:"))
      && row.stopReason ==
         (if m.Assistant? && m.stopReason.Some? then Some(StopReasonText(m.stopReason.value)) else None)
      && row.id == (if m.id.Named? && IsBlank(m.id.name) then Uuid(uuid) else m.id)
  {
    DurableIs(turn, "turn-", "legacy-turn:");
    DurableIs(run, "run-", "run-");
    assert ["run-"][0] == "run-";
  }

  lemma DurableIs(id: Option<string>, a: string, b: string)
    ensures Durable(id, [a, b]) == if StartsWith(id, a) || StartsWith(id, b) then None else id
    ensures Durable(id, [a]) == if StartsWith(id, a) then None else id
  {
    assert [a, b][0] == a && [a, b][1] == b && [a][0] == a;
  }
}
