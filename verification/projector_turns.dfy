/** What projecting does to the turn rows and the watermark: a new turn, a known one, one whose place is taken. */
module ProjectorTurns {
  import opened ConversationBlocks
  import opened ProjectorContent
  import opened ProjectorGroups
  import opened ProjectorSafety
  import opened ProjectorState
  import opened Wrappers

  /** Events outside any turn belong to one made up for their run. */
  lemma {:induction false} OutsideAnyTurn(run: string, g: Group)
    requires forall i :: 0 <= i < |g| ==> !g[i].payload.TurnStarted?
    ensures TurnOf(run, g) == "legacy-turn:" + run && StartSequence(g) == 0
  {
    if g != [] {
      assert forall i :: 0 <= i < |g[1..]| ==> g[1..][i] == g[i + 1];
      OutsideAnyTurn(run, g[1..]);
    }
  }

  // ---- A new turn ----

  /**
   * A new turn puts the watermark at its last event, counts one turn, names the
   * messages it stored, assistant first, and counts a fallback when no content
   * was committed.
   */
  lemma NewTurnMovesWatermark(db: Db, conversation: string, run: string, g: Group, turn: string, stop: string,
                              i: nat, message: string)
    requires g != [] && IsTurn(g, turn, stop) && IsNew(db, run, g, turn) && StartsFirst(g, i, message)
    requires forall k :: 0 <= k < |Answered(g)| ==> Answered(g)[k].resultId.Some?
    ensures
      var marks := ProjectGroup(db, conversation, run, g).db.watermarks;
      && marks.Keys == db.watermarks.Keys + {run}
      && (forall other :: other in db.watermarks && other != run ==> marks[other] == db.watermarks[other])
      && AtEnd(g, marks[run].sequence)
      && marks[run].turnCount == (if run in db.watermarks then db.watermarks[run].turnCount else 0) + 1
      && marks[run].compatHits == (if run in db.watermarks then db.watermarks[run].compatHits else 0)
                                  + (if LastCommitted(g).Some? then 0 else 1)
      && |marks[run].digest| == 1 + |Answered(g)| && marks[run].digest[0] == Named(message)
      && forall k :: 0 <= k < |Answered(g)| ==> marks[run].digest[k + 1] == Named(Answered(g)[k].resultId.value)
  {
    NewTurnIsAdvanced(db, conversation, run, g, turn, stop);
    LastSequenceBounds(g);
    DraftIds(db, run, g, i, message);
  }

  lemma DraftIds(db: Db, run: string, g: Group, i: nat, message: string)
    requires Decodes(g) && StartsFirst(g, i, message)
    requires forall k :: 0 <= k < |Answered(g)| ==> Answered(g)[k].resultId.Some?
    ensures
      var ids := Ids(Drafts(run, g, db.uuids));
      && |ids| == 1 + |Answered(g)| && ids[0] == Named(message)
      && forall k :: 0 <= k < |Answered(g)| ==> ids[k + 1] == Named(Answered(g)[k].resultId.value)
  {
    AssistantIs(g, i, message);
    GatherIs(g);
    var ids := Ids(Drafts(run, g, db.uuids));
    forall k | 0 <= k < |Answered(g)| ensures ids[k + 1] == Named(Answered(g)[k].resultId.value) {
      ResultDraftAt(db, run, g, k);
    }
  }

  /** The highest sequence of the group. */
  predicate AtEnd(g: Group, sequence: nat) {
    (forall k :: 0 <= k < |g| ==> g[k].sequence <= sequence) && exists k :: 0 <= k < |g| && g[k].sequence == sequence
  }

  lemma NewTurnIsAdvanced(db: Db, conversation: string, run: string, g: Group, turn: string, stop: string)
    requires g != [] && IsTurn(g, turn, stop) && IsNew(db, run, g, turn)
    ensures ProjectGroup(db, conversation, run, g).db.watermarks ==
            Advanced(db.watermarks, run, LastSequence(g), Ids(Drafts(run, g, db.uuids)), true,
                     if LastCommitted(g).Some? then 0 else 1)
  {
    NewTurnIsStored(db, conversation, run, g, turn, stop);
    TurnIsMaterialized(g, turn, stop);
    GatherIs(g);
  }

  // ---- A known turn ----

  /**
   * A turn that is stored with its messages changes no row; it only moves the
   * watermark on to its last event, or makes the run's first one.
   */
  lemma KnownTurnMovesOn(db: Db, conversation: string, run: string, g: Group)
    requires Classify(g) == Materialize && TurnOf(run, g) in db.turns
    requires AllStored(db.messages, Drafts(run, g, db.uuids))
    ensures
      var o := ProjectGroup(db, conversation, run, g);
      && o.status == AlreadyProjected && o.db.turns == db.turns && o.db.messages == db.messages
      && o.db.quarantined == db.quarantined
      && o.db.watermarks == db.watermarks[
           run := if run !in db.watermarks then Watermark(LastSequence(g), 1, Ids(Drafts(run, g, db.uuids)), 0)
                  else if LastSequence(g) <= db.watermarks[run].sequence then db.watermarks[run]
                  else db.watermarks[run].(sequence := LastSequence(g))]
  {
    DraftsHaveBlocks(run, g, db.uuids);
    StoredUpsertsNothing(db.messages, db.turns, conversation, run, TurnOf(run, g), Drafts(run, g, db.uuids));
  }

  // ---- A taken place ----

  lemma {:induction false} FirstViolates(messages: map<Id, StoredMessage>, turns: map<string, TurnRow>,
                                         conversation: string, run: string, turn: string, drafts: seq<Draft>)
    requires drafts != [] && drafts[0].id !in messages && turn !in turns
    ensures UpsertAll(messages, turns, conversation, run, turn, drafts) == Constraint
    decreases |drafts|
  {
    if |drafts| > 1 {
      FirstViolates(messages, turns, conversation, run, turn, drafts[..|drafts| - 1]);
    } else {
      assert drafts[..0] == [];
    }
  }

  /**
   * A new turn that starts where another turn of its run does gets no row, so
   * its messages have no turn to belong to and nothing of it is stored.
   */
  lemma TakenPlaceIsRefused(db: Db, conversation: string, run: string, g: Group, turn: string, stop: string,
                            i: nat, message: string, other: string)
    requires g != [] && IsTurn(g, turn, stop) && StartsFirst(g, i, message)
    requires turn !in db.turns && Named(message) !in db.messages
    requires other in db.turns && db.turns[other].run == run && db.turns[other].sequence == g[0].sequence
    ensures
      var o := ProjectGroup(db, conversation, run, g);
      o.status == Failed && SameTables(db, o.db) && o.db.quarantined == db.quarantined
  {
    TurnIsMaterialized(g, turn, stop);
    AssistantIs(g, i, message);
    assert SlotTaken(db.turns, run, g[0].sequence);
    FirstViolates(db.messages, db.turns, conversation, run, turn, Drafts(run, g, db.uuids));
  }

  // ---- Quarantines ----

  /** A turn whose content does not decode is put on record under its own turn and message, and nothing is stored. */
  lemma CorruptIsQuarantined(db: Db, conversation: string, run: string, g: Group, turn: string, i: nat, message: string)
    requires OneTurn(g) && g[0].payload == TurnStarted(turn) && IsCompleted(g[|g| - 1]) && !Decodes(g)
    requires StartsFirst(g, i, message)
    ensures ProjectGroup(db, conversation, run, g) == Outcome(
              db.(quarantined := db.quarantined + {
                Quarantine(run, Some(turn), Some(Named(message)), CorruptMessageCompleted)}), Quarantined)
  {
    ClassifyIs(g);
    AssistantIs(g, i, message);
  }

  lemma {:induction false} FirstConflicts(messages: map<Id, StoredMessage>, turns: map<string, TurnRow>,
                                          conversation: string, run: string, turn: string, drafts: seq<Draft>)
    requires drafts != [] && drafts[0].id in messages
    requires messages[drafts[0].id].blocks != [] && messages[drafts[0].id].blocks != drafts[0].blocks
    ensures UpsertAll(messages, turns, conversation, run, turn, drafts) == Conflict(drafts[0].id)
    decreases |drafts|
  {
    if |drafts| > 1 {
      FirstConflicts(messages, turns, conversation, run, turn, drafts[..|drafts| - 1]);
    } else {
      assert drafts[..0] == [];
    }
  }

  /** A message stored with another content is never overwritten: the turn is put on record as a conflict. */
  lemma ConflictIsQuarantined(db: Db, conversation: string, run: string, g: Group, turn: string, stop: string,
                              i: nat, message: string)
    requires g != [] && IsTurn(g, turn, stop) && StartsFirst(g, i, message) && Named(message) in db.messages
    requires
      var blocks := db.messages[Named(message)].blocks;
      blocks != [] && blocks != StoredAll(ContentBlocksToJson(Said(g)) + [RunReferenceToJson(run)])
    ensures
      var o := ProjectGroup(db, conversation, run, g);
      && o.status == Quarantined && SameTables(db, o.db)
      && o.db.quarantined == db.quarantined + {Quarantine(run, Some(turn), Some(Named(message)), ContentConflict)}
  {
    TurnIsMaterialized(g, turn, stop);
    AssistantIs(g, i, message);
    SaidIsContent(g);
    var turns := WithTurn(db.turns, turn, TurnRow(run, g[0].sequence, Some(stop)));
    FirstConflicts(db.messages, turns, conversation, run, turn, Drafts(run, g, db.uuids));
  }
}
