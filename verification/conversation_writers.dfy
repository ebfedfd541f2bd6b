/**
 * A committed turn written by the projector and by the compatibility writer:
 * the stored text blocks differ, the loaded messages agree.
 */
module ConversationWriters {
  import opened ConversationBlocks
  import opened ConversationRoundTrip
  import opened ConversationTranscript
  import opened ProjectorState
  import opened Texts
  import opened Wrappers

  // ---- Rows ----

  /** The row the projector inserts for a draft. */
  function ProjectorRow(conversation: string, run: string, turn: string, d: Draft, created: nat): StoredMessage {
    StoredMessage(d.id, conversation, AssistantRole, Some(turn), Some(run), d.stopReason, IsLegacyTurn(turn),
                  d.blocks, created)
  }

  function AssistantOf(g: Group, id: Id): AgentMessage {
    var stop := FirstStopReason(g);
    Assistant(id, ContentOf(Gather(g)), if stop.Some? then Some(ParseStopReason(stop.value)) else None)
  }

  /** The compatibility row: without committed content the turn's own reasoning is stored in front. */
  function CompatAssistant(conversation: string, run: string, g: Group, id: Id, uuid: nat,
                           created: nat): Result<StoredMessage, string> {
    var row := AppendAgentMessage(conversation, Some(run), Some(TurnOf(run, g)), AssistantOf(g, id), uuid, created);
    var thinking := Trimmed(Gather(g).thinking);
    if row.Err? || Gather(g).committed.Some? || thinking == "" then row
    else Ok(row.value.(blocks := [ReasoningBlock(thinking)] + row.value.blocks))
  }

  function CompatResult(conversation: string, run: string, g: Group, p: Payload, id: Id, uuid: nat,
                        created: nat): Result<StoredMessage, string>
    requires p.ToolCallCompleted?
  {
    AppendAgentMessage(conversation, Some(run), Some(TurnOf(run, g)), ResultMessage(p, id), uuid, created)
  }

  // ---- Blocks that differ in the table only ----

  /** Of a text block only the text counts; other blocks are the same. */
  predicate Alike(a: StoredBlock, b: StoredBlock) {
    && a.blockType == b.blockType
    && (a.json == b.json || (a.blockType == TextKind && AsStr(Get(a.json, Text)) == AsStr(Get(b.json, Text))))
  }

  predicate AllAlike(a: seq<StoredBlock>, b: seq<StoredBlock>) {
    |a| == |b| && forall i :: 0 <= i < |a| ==> Alike(a[i], b[i])
  }

  lemma {:induction false} AlikeRun(a: seq<StoredBlock>, b: seq<StoredBlock>)
    requires AllAlike(a, b)
    ensures FirstRun(a) == FirstRun(b)
  {
    if a != [] {
      assert Alike(a[0], b[0]);
      AlikeRun(a[1..], b[1..]);
    }
  }

  lemma {:induction false} AlikeOfKind(a: seq<StoredBlock>, b: seq<StoredBlock>, kind: Kind)
    requires AllAlike(a, b) && kind != TextKind
    ensures FirstOfKind(a, kind) == FirstOfKind(b, kind)
  {
    if a != [] {
      assert Alike(a[0], b[0]);
      AlikeOfKind(a[1..], b[1..], kind);
    }
  }

  lemma {:induction false} AlikeContent(a: seq<StoredBlock>, b: seq<StoredBlock>, isJson: string -> bool)
    requires AllAlike(a, b)
    ensures ParseContent(a, isJson) == ParseContent(b, isJson)
  {
    if a != [] {
      assert Alike(a[0], b[0]);
      AlikeContent(a[1..], b[1..], isJson);
    }
  }

  lemma AlikeView(a: seq<StoredBlock>, b: seq<StoredBlock>, reasoning: ReasoningOf)
    requires AllAlike(a, b)
    ensures
      var va, vb := Viewed(a, reasoning), Viewed(b, reasoning);
      if va.Ok? then vb.Ok? && AllAlike(va.value, vb.value) else va == vb
  {
    AlikeRun(a, b);
    assert HasKind(a, ReasoningKind) <==> HasKind(b, ReasoningKind);
  }

  lemma AlikeLoads(a: StoredMessage, b: StoredMessage, reasoning: ReasoningOf, isJson: string -> bool)
    requires AllAlike(a.blocks, b.blocks) && a.id == b.id && a.role == b.role && a.stopReason == b.stopReason
    ensures LoadMessage(a, reasoning, isJson) == LoadMessage(b, reasoning, isJson)
  {
    AlikeView(a.blocks, b.blocks, reasoning);
    var va, vb := Viewed(a.blocks, reasoning), Viewed(b.blocks, reasoning);
    if va.Ok? {
      AlikeOfKind(va.value, vb.value, ToolResultKind);
      AlikeOfKind(va.value, vb.value, CustomMessage);
      AlikeContent(va.value, vb.value, isJson);
    }
  }

  /** What the projector stores of a content is alike to what an append stores of it. */
  lemma ProjectedIsAlike(content: seq<ContentBlock>, run: string)
    ensures AllAlike(StoredAll(ContentBlocksToJson(content) + [RunReferenceToJson(run)]),
                     Encoded(content) + Tail(AssistantRole, Some(run)))
  {
    var projected := StoredAll(ContentBlocksToJson(content) + [RunReferenceToJson(run)]);
    var appended := Encoded(content) + Tail(AssistantRole, Some(run));
    forall i | 0 <= i < |projected| ensures Alike(projected[i], appended[i]) {
      if i < |content| {
        assert projected[i] == Stored(ContentBlockToJson(content[i]));
        assert appended[i] == StoredForm(ContentBlockToJson(content[i]));
      }
    }
  }

  // ---- The writers agree ----

  lemma {:induction false} TrimmedIsEmpty(s: string)
    ensures Trimmed(s) == "" <==> IsBlank(s)
    decreases |s|
  {
    if s != [] {
      if IsSpace(s[0]) {
        TrimmedIsEmpty(s[1..]);
        assert forall i :: 0 < i < |s| ==> s[i] == s[1..][i - 1];
        assert forall i :: 0 <= i < |s[1..]| ==> s[1..][i] == s[i + 1];
      } else if IsSpace(s[|s| - 1]) {
        TrimmedIsEmpty(s[..|s| - 1]);
        assert s[..|s| - 1][0] == s[0];
      }
    }
  }

  /** The stop reason of a group as both writers load it, or nothing. */
  predicate StandardStop(stop: Option<string>) {
    stop.Some? ==> !ParseStopReason(stop.value).Provider?
  }

  /** Loading the projector's assistant row. */
  lemma ProjectorLoads(conversation: string, run: string, g: Group, created: nat, reasoning: ReasoningOf,
                       isJson: string -> bool)
    requires AllWellFormed(ContentOf(Gather(g)), isJson) && reasoning(run).Ok?
    ensures
      var row := ProjectorRow(conversation, run, TurnOf(run, g), AssistantDraft(run, g, 0), created);
      LoadMessage(row, reasoning, isJson) ==
        Ok(Plain(row, Before(AssistantRole, Some(run), reasoning) + ContentOf(Gather(g))))
  {
    var content := ContentOf(Gather(g));
    var row := ProjectorRow(conversation, run, TurnOf(run, g), AssistantDraft(run, g, 0), created);
    var twin := row.(blocks := Encoded(content) + Tail(AssistantRole, Some(run)));
    ProjectedIsAlike(content, run);
    AlikeLoads(row, twin, reasoning, isJson);
    PlainLoads(twin, content, Some(run), reasoning, isJson);
  }

  /** The reasoning the compatibility row shows before its content. */
  function CompatBefore(run: string, g: Group, reasoning: ReasoningOf): seq<ContentBlock>
    requires reasoning(run).Ok?
  {
    var thinking := Trimmed(Gather(g).thinking);
    if Gather(g).committed.None? && thinking != "" then [Thinking(thinking, None)]
    else Before(AssistantRole, Some(run), reasoning)
  }

  /** What the append stores of the assistant message, before any reasoning is put in front. */
  lemma CompatBase(conversation: string, run: string, g: Group, id: Id, uuid: nat, created: nat)
    requires !IsBlankId(id)
    ensures
      var m := AssistantOf(g, id);
      var row := AppendAgentMessage(conversation, Some(run), Some(TurnOf(run, g)), m, uuid, created);
      && row.Ok? && row.value.id == id && row.value.stopReason == StopOf(m) && row.value.role == AssistantRole
      && row.value.blocks == Encoded(ContentOf(Gather(g))) + Tail(AssistantRole, Some(run))
  {
    FormsSplit(BlocksOf(AssistantOf(g, id)), AssistantRole, Some(run));
  }

  /** A row with its own reasoning block in front shows that and not the run's. */
  lemma OwnReasoningLoads(row: StoredMessage, content: seq<ContentBlock>, run: string, text: string,
                          reasoning: ReasoningOf, isJson: string -> bool)
    requires row.blocks == [ReasoningBlock(text)] + (Encoded(content) + Tail(AssistantRole, Some(run)))
    requires AllWellFormed(content, isJson)
    ensures LoadMessage(row, reasoning, isJson) == Ok(Plain(row, [Thinking(text, None)] + content))
  {
    assert row.blocks[0].blockType == ReasoningKind;
    EncodedIsPlain(content, isJson);
    ContentRoundTrip(content, Tail(AssistantRole, Some(run)), isJson);
    ReasoningParses(text, Encoded(content) + Tail(AssistantRole, Some(run)), isJson);
    PlainIsLoaded(row, row.blocks, reasoning, isJson);
  }

  lemma CompatLoads(conversation: string, run: string, g: Group, id: Id, uuid: nat, created: nat,
                    reasoning: ReasoningOf, isJson: string -> bool)
    requires AllWellFormed(ContentOf(Gather(g)), isJson) && reasoning(run).Ok? && !IsBlankId(id)
    ensures
      var row := CompatAssistant(conversation, run, g, id, uuid, created);
      && row.Ok? && row.value.id == id && row.value.stopReason == StopOf(AssistantOf(g, id))
        && row.value.role == AssistantRole
      && LoadMessage(row.value, reasoning, isJson) ==
         Ok(Plain(row.value, CompatBefore(run, g, reasoning) + ContentOf(Gather(g))))
  {
    CompatBase(conversation, run, g, id, uuid, created);
    var row := CompatAssistant(conversation, run, g, id, uuid, created).value;
    var thinking := Trimmed(Gather(g).thinking);
    if Gather(g).committed.Some? || thinking == "" {
      PlainLoads(row, ContentOf(Gather(g)), Some(run), reasoning, isJson);
    } else {
      OwnReasoningLoads(row, ContentOf(Gather(g)), run, thinking, reasoning, isJson);
    }
  }

  /**
   * The two writers agree, exactly: the assistant message loads the same from
   * either row if and only if the stop reason is one of the standard five or
   * absent, and either the content was committed, or the turn has no reasoning,
   * or its reasoning is all there is in the run.
   */
  lemma WritersAgree(conversation: string, run: string, g: Group, uuid: nat, created: nat,
                     reasoning: ReasoningOf, isJson: string -> bool)
    requires AllWellFormed(ContentOf(Gather(g)), isJson) && reasoning(run).Ok?
    requires AssistantId(g).Some? && !IsBlank(AssistantId(g).value)
    ensures
      var thinking := Gather(g).thinking;
      var id := Named(AssistantId(g).value);
      var projected := ProjectorRow(conversation, run, TurnOf(run, g), AssistantDraft(run, g, 0), created);
      var compat := CompatAssistant(conversation, run, g, id, uuid, created);
      && compat.Ok?
      && (LoadMessage(projected, reasoning, isJson) == LoadMessage(compat.value, reasoning, isJson) <==>
          StandardStop(FirstStopReason(g))
          && (Gather(g).committed.Some? || IsBlank(thinking) || reasoning(run) == Ok(Some(Trimmed(thinking)))))
  {
    var id := Named(AssistantId(g).value);
    var content := ContentOf(Gather(g));
    ProjectorLoads(conversation, run, g, created, reasoning, isJson);
    CompatLoads(conversation, run, g, id, uuid, created, reasoning, isJson);
    TrimmedIsEmpty(Gather(g).thinking);
    SamePrefix(Before(AssistantRole, Some(run), reasoning), CompatBefore(run, g, reasoning), content);
    StopAgrees(FirstStopReason(g));
  }

  lemma SamePrefix(a: seq<ContentBlock>, b: seq<ContentBlock>, content: seq<ContentBlock>)
    requires |a| <= 1 && |b| <= 1
    ensures a + content == b + content <==> a == b
  {
    if a + content == b + content {
      assert |a| == |b|;
      assert a == (a + content)[..|a|] && b == (b + content)[..|b|];
    }
  }

  lemma StopAgrees(stop: Option<string>)
    ensures stop.Some? ==>
      (ParseStopReason(StopReasonText(ParseStopReason(stop.value))) == ParseStopReason(stop.value) <==>
       StandardStop(stop))
  {
    if stop.Some? {
      StopReasonRoundTrip(ParseStopReason(stop.value));
    }
  }

  /** A tool result loads the same from either writer's row, well formed or not. */
  lemma ResultsAgree(conversation: string, run: string, g: Group, p: Payload, uuid: nat, created: nat,
                     reasoning: ReasoningOf, isJson: string -> bool)
    requires p.ToolCallCompleted? && p.resultId.Some? && !IsBlank(p.resultId.value) && reasoning(run).Ok?
    ensures
      var projected := ProjectorRow(conversation, run, TurnOf(run, g), ResultDraft(p, 0), created);
      var compat := CompatResult(conversation, run, g, p, Named(p.resultId.value), uuid, created);
      compat.Ok? && LoadMessage(projected, reasoning, isJson) == LoadMessage(compat.value, reasoning, isJson)
  {
    var m := ResultMessage(p, Named(p.resultId.value));
    var block := StoredForm(ToolResultToJson(m));
    FormsSplit(BlocksOf(m), AssistantRole, Some(run));
    assert StoredForms(BlocksOf(m)) == [block];
    SpecialView(block, AssistantRole, Some(run), reasoning);
    SpecialView(block, AssistantRole, None, reasoning);
    assert [block] + Tail(AssistantRole, None) == [block];
  }

  /** On ids not stored before, the projector inserts exactly these rows, in draft order. */
  lemma {:induction false} DraftsBecomeRows(messages: map<Id, StoredMessage>, turns: map<string, TurnRow>,
                                            conversation: string, run: string, turn: string, drafts: seq<Draft>)
    requires turn in turns
    requires forall i :: 0 <= i < |drafts| ==> drafts[i].id !in messages
    requires forall i, j :: 0 <= i < j < |drafts| ==> drafts[i].id != drafts[j].id
    ensures UpsertAll(messages, turns, conversation, run, turn, drafts)
            == Wrote(WithRows(messages, conversation, run, turn, drafts))
    ensures |WithRows(messages, conversation, run, turn, drafts)| == |messages| + |drafts|
  {
    if drafts != [] {
      var shorter := drafts[..|drafts| - 1];
      DraftsBecomeRows(messages, turns, conversation, run, turn, shorter);
      NotAmongRows(messages, conversation, run, turn, shorter, drafts[|drafts| - 1].id);
    }
  }

  function WithRows(messages: map<Id, StoredMessage>, conversation: string, run: string, turn: string,
                    drafts: seq<Draft>): map<Id, StoredMessage> {
    if drafts == [] then messages
    else
      var n := |drafts| - 1;
      WithRows(messages, conversation, run, turn, drafts[..n])[
        drafts[n].id := ProjectorRow(conversation, run, turn, drafts[n], |messages| + n)]
  }

  lemma {:induction false} NotAmongRows(messages: map<Id, StoredMessage>, conversation: string, run: string,
                                        turn: string, drafts: seq<Draft>, id: Id)
    requires id !in messages && forall i :: 0 <= i < |drafts| ==> drafts[i].id != id
    ensures id !in WithRows(messages, conversation, run, turn, drafts)
  {
    if drafts != [] {
      NotAmongRows(messages, conversation, run, turn, drafts[..|drafts| - 1], id);
    }
  }
}
