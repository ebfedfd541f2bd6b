/** What a projection pass may and may not do to the tables, and that doing it again does nothing. */
module ProjectorSafety {
  import opened ConversationBlocks
  import opened ProjectorGroups
  import opened ProjectorState

  // ---- Rows are only added ----

  predicate KeepsMessages(messages: map<Id, StoredMessage>, messages': map<Id, StoredMessage>) {
    forall id :: id in messages ==> id in messages' && messages'[id] == messages[id]
  }

  predicate Keeps(db: Db, db': Db) {
    && (forall id :: id in db.turns ==> id in db'.turns && db'.turns[id] == db.turns[id])
    && KeepsMessages(db.messages, db'.messages)
  }

  /** No stored turn, message, block or quarantine is changed or lost. */
  predicate Grows(db: Db, db': Db) {
    Keeps(db, db') && db.quarantined <= db'.quarantined
  }

  predicate SameTables(db: Db, db': Db) {
    db'.turns == db.turns && db'.messages == db.messages && db'.watermarks == db.watermarks
  }

  lemma {:induction false} UpsertAllKeeps(messages: map<Id, StoredMessage>, turns: map<string, TurnRow>,
                                          conversation: string, run: string, turn: string, drafts: seq<Draft>)
    requires UpsertAll(messages, turns, conversation, run, turn, drafts).Wrote?
    ensures KeepsMessages(messages, UpsertAll(messages, turns, conversation, run, turn, drafts).messages)
  {
    if drafts != [] {
      UpsertAllKeeps(messages, turns, conversation, run, turn, drafts[..|drafts| - 1]);
    }
  }

  lemma GroupGrows(db: Db, conversation: string, run: string, g: Group)
    ensures Grows(db, ProjectGroup(db, conversation, run, g).db)
  {
    var turn := TurnOf(run, g);
    var turns := WithTurn(db.turns, turn, TurnRow(run, StartSequence(g), FirstStopReason(g)));
    var drafts := Drafts(run, g, db.uuids);
    if UpsertAll(db.messages, turns, conversation, run, turn, drafts).Wrote? {
      UpsertAllKeeps(db.messages, turns, conversation, run, turn, drafts);
    }
  }

  /** Stored rows, and with them stored blocks, are never overwritten by any pass over any groups. */
  lemma {:induction false} PassGrows(db: Db, conversation: string, run: string, groups: seq<Group>)
    ensures Grows(db, ProjectGroups(db, conversation, run, groups).db)
    decreases |groups|
  {
    if groups != [] {
      GroupGrows(db, conversation, run, groups[0]);
      var first := ProjectGroup(db, conversation, run, groups[0]);
      if !first.status.Failed? {
        PassGrows(first.db, conversation, run, groups[1..]);
      }
    }
  }

  // ---- All of a turn's rows or none ----

  /** Every draft is stored under its id with exactly its blocks. */
  predicate AllStored(messages: map<Id, StoredMessage>, drafts: seq<Draft>) {
    forall i :: 0 <= i < |drafts| ==> drafts[i].id in messages && messages[drafts[i].id].blocks == drafts[i].blocks
  }

  lemma {:induction false} UpsertAllStores(messages: map<Id, StoredMessage>, turns: map<string, TurnRow>,
                                           conversation: string, run: string, turn: string, drafts: seq<Draft>)
    requires UpsertAll(messages, turns, conversation, run, turn, drafts).Wrote?
    ensures AllStored(UpsertAll(messages, turns, conversation, run, turn, drafts).messages, drafts)
    ensures turn !in turns ==> UpsertAll(messages, turns, conversation, run, turn, drafts).messages == messages
  {
    if drafts != [] {
      UpsertAllStores(messages, turns, conversation, run, turn, drafts[..|drafts| - 1]);
      UpsertStores(UpsertAll(messages, turns, conversation, run, turn, drafts[..|drafts| - 1]).messages,
                   turns, conversation, run, turn, drafts);
    }
  }

  lemma UpsertStores(messages: map<Id, StoredMessage>, turns: map<string, TurnRow>,
                     conversation: string, run: string, turn: string, drafts: seq<Draft>)
    requires drafts != [] && AllStored(messages, drafts[..|drafts| - 1])
    requires Upsert(messages, turns, conversation, run, turn, drafts[|drafts| - 1]).Wrote?
    ensures AllStored(Upsert(messages, turns, conversation, run, turn, drafts[|drafts| - 1]).messages, drafts)
  {
    var after := Upsert(messages, turns, conversation, run, turn, drafts[|drafts| - 1]).messages;
    var shorter := drafts[..|drafts| - 1];
    forall i | 0 <= i < |drafts|
      ensures drafts[i].id in after && after[drafts[i].id].blocks == drafts[i].blocks
    {
      assert i < |shorter| ==> drafts[i] == shorter[i];
    }
  }

  lemma {:induction false} NewMessagesAreDrafts(messages: map<Id, StoredMessage>, turns: map<string, TurnRow>,
                                                 conversation: string, run: string, turn: string, drafts: seq<Draft>,
                                                 id: Id)
    requires UpsertAll(messages, turns, conversation, run, turn, drafts).Wrote?
    requires id in UpsertAll(messages, turns, conversation, run, turn, drafts).messages && id !in messages
    ensures id in Ids(drafts)
  {
    var shorter := drafts[..|drafts| - 1];
    if id in UpsertAll(messages, turns, conversation, run, turn, shorter).messages {
      NewMessagesAreDrafts(messages, turns, conversation, run, turn, shorter, id);
      var k :| 0 <= k < |Ids(shorter)| && Ids(shorter)[k] == id;
      assert Ids(drafts)[k] == id;
    } else {
      assert Ids(drafts)[|drafts| - 1] == id;
    }
  }

  /** The group's messages are all stored, its turn too if any of them is new, and the watermark has reached it. */
  predicate Complete(db: Db, db': Db, run: string, g: Group) {
    && AllStored(db'.messages, Drafts(run, g, db.uuids))
    && (TurnOf(run, g) in db'.turns || db'.messages == db.messages)
    && run in db'.watermarks && db'.watermarks[run].sequence >= LastSequence(g)
  }

  /**
   * After a group's transaction its turn, messages, tool results and watermark
   * are all there, or the tables are as they were: there is nothing between.
   */
  lemma AllOrNothing(db: Db, conversation: string, run: string, g: Group)
    ensures
      var o := ProjectGroup(db, conversation, run, g);
      if o.status.Projected? || o.status.AlreadyProjected? then Complete(db, o.db, run, g)
      else SameTables(db, o.db)
    ensures
      var o := ProjectGroup(db, conversation, run, g);
      o.status.Projected? ==> TurnOf(run, g) in o.db.turns && TurnOf(run, g) !in db.turns
                              && o.db.watermarks[run].sequence == LastSequence(g)
  {
    var turn := TurnOf(run, g);
    var turns := WithTurn(db.turns, turn, TurnRow(run, StartSequence(g), FirstStopReason(g)));
    var drafts := Drafts(run, g, db.uuids);
    if UpsertAll(db.messages, turns, conversation, run, turn, drafts).Wrote? {
      UpsertAllStores(db.messages, turns, conversation, run, turn, drafts);
    }
  }

  /** In a typed log only turns with a TurnCompleted put messages into the tables. */
  lemma {:induction false} MessagesComeFromCompletedTurns(db: Db, conversation: string, run: string,
                                                          groups: seq<Group>, id: Id)
    requires forall i :: 0 <= i < |groups| ==> TypedGroup(groups[i])
    requires id in ProjectGroups(db, conversation, run, groups).db.messages && id !in db.messages
    ensures exists i :: 0 <= i < |groups| && HasCompleted(groups[i]) && id in Ids(Drafts(run, groups[i], 0))
    decreases |groups|
  {
    var first := ProjectGroup(db, conversation, run, groups[0]);
    if id in first.db.messages {
      if !HasCompleted(groups[0]) {
        OpenIsSkipped(groups[0]);
      }
      var turn := TurnOf(run, groups[0]);
      var turns := WithTurn(db.turns, turn, TurnRow(run, StartSequence(groups[0]), FirstStopReason(groups[0])));
      NewMessagesAreDrafts(db.messages, turns, conversation, run, turn, Drafts(run, groups[0], db.uuids), id);
      SameDrafts(run, groups[0], db.uuids, 0);
    } else {
      MessagesComeFromCompletedTurns(first.db, conversation, run, groups[1..], id);
      var i :| 0 <= i < |groups[1..]| && HasCompleted(groups[1..][i]) && id in Ids(Drafts(run, groups[1..][i], 0));
      assert groups[i + 1] == groups[1..][i];
    }
  }

  // ---- Projecting again ----

  lemma SameDrafts(run: string, g: Group, uuid: nat, other: nat)
    requires IdsPresent(g)
    ensures Drafts(run, g, uuid) == Drafts(run, g, other)
  {
    ResultsAreResults(g);
  }

  lemma {:induction false} StoredUpsertsNothing(messages: map<Id, StoredMessage>, turns: map<string, TurnRow>,
                                                conversation: string, run: string, turn: string, drafts: seq<Draft>)
    requires AllStored(messages, drafts)
    requires forall i :: 0 <= i < |drafts| ==> drafts[i].blocks != []
    ensures UpsertAll(messages, turns, conversation, run, turn, drafts) == Wrote(messages)
  {
    if drafts != [] {
      StoredUpsertsNothing(messages, turns, conversation, run, turn, drafts[..|drafts| - 1]);
    }
  }

  lemma DraftsHaveBlocks(run: string, g: Group, uuid: nat)
    ensures forall i :: 0 <= i < |Drafts(run, g, uuid)| ==> Drafts(run, g, uuid)[i].blocks != []
  {
    ResultsAreResults(g);
  }

  /** What two attempts at the same drafts agree on. */
  predicate SameBlocks(messages: map<Id, StoredMessage>, messages': map<Id, StoredMessage>) {
    forall id :: id in messages ==> id in messages' && messages'[id].blocks == messages[id].blocks
  }

  lemma OneConflictPersists(messages: map<Id, StoredMessage>, messages': map<Id, StoredMessage>,
                            turns: map<string, TurnRow>, turns': map<string, TurnRow>,
                            conversation: string, run: string, turn: string, d: Draft)
    requires SameBlocks(messages, messages') && d.blocks != []
    ensures
      var once := Upsert(messages, turns, conversation, run, turn, d);
      var again := Upsert(messages', turns', conversation, run, turn, d);
      && (once.Conflict? ==> !again.Wrote?)
      && (once.Wrote? && again.Wrote? ==> SameBlocks(once.messages, again.messages))
  {
  }

  /** A conflict never goes away: what was stored stays, so the same drafts cannot all be written later. */
  lemma {:induction false} ConflictPersists(messages: map<Id, StoredMessage>, messages': map<Id, StoredMessage>,
                                            turns: map<string, TurnRow>, turns': map<string, TurnRow>,
                                            conversation: string, run: string, turn: string, drafts: seq<Draft>)
    requires KeepsMessages(messages, messages')
    requires forall i :: 0 <= i < |drafts| ==> drafts[i].blocks != []
    ensures
      var once := UpsertAll(messages, turns, conversation, run, turn, drafts);
      var again := UpsertAll(messages', turns', conversation, run, turn, drafts);
      && (once.Conflict? ==> !again.Wrote?)
      && (once.Wrote? && again.Wrote? ==> SameBlocks(once.messages, again.messages))
  {
    if drafts != [] {
      var d, rest := drafts[|drafts| - 1], drafts[..|drafts| - 1];
      ConflictPersists(messages, messages', turns, turns', conversation, run, turn, rest);
      var once := UpsertAll(messages, turns, conversation, run, turn, rest);
      var again := UpsertAll(messages', turns', conversation, run, turn, rest);
      if once.Wrote? && again.Wrote? {
        OneConflictPersists(once.messages, again.messages, turns, turns', conversation, run, turn, d);
      }
    }
  }

  /** Projecting the group again would leave the tables as they are. */
  predicate Settled(db: Db, conversation: string, run: string, g: Group) {
    SameTables(db, ProjectGroup(db, conversation, run, g).db)
  }

  /** A group that was handled stays settled in every state that keeps the rows and is past it. */
  lemma HandledStaysSettled(db: Db, conversation: string, run: string, g: Group, later: Db)
    requires Classify(g) == Materialize ==> IdsPresent(g)
    requires !ProjectGroup(db, conversation, run, g).status.Failed?
    requires Keeps(ProjectGroup(db, conversation, run, g).db, later)
    requires Classify(g) == Materialize && !ProjectGroup(db, conversation, run, g).status.Quarantined? ==>
      run in later.watermarks && later.watermarks[run].sequence >= LastSequence(g)
    ensures Settled(later, conversation, run, g)
  {
    if Classify(g) == Materialize {
      var turn := TurnOf(run, g);
      var turns := WithTurn(db.turns, turn, TurnRow(run, StartSequence(g), FirstStopReason(g)));
      SameDrafts(run, g, db.uuids, later.uuids);
      DraftsHaveBlocks(run, g, db.uuids);
      if UpsertAll(db.messages, turns, conversation, run, turn, Drafts(run, g, db.uuids)).Wrote? {
        WrittenStaysSettled(db, conversation, run, g, later);
      } else {
        GroupGrows(db, conversation, run, g);
        ConflictPersists(db.messages, later.messages, turns,
                         WithTurn(later.turns, turn, TurnRow(run, StartSequence(g), FirstStopReason(g))),
                         conversation, run, turn, Drafts(run, g, db.uuids));
      }
    }
  }

  lemma WrittenStaysSettled(db: Db, conversation: string, run: string, g: Group, later: Db)
    requires Classify(g) == Materialize && IdsPresent(g)
    requires !ProjectGroup(db, conversation, run, g).status.Failed?
    requires !ProjectGroup(db, conversation, run, g).status.Quarantined?
    requires Keeps(ProjectGroup(db, conversation, run, g).db, later)
    requires run in later.watermarks && later.watermarks[run].sequence >= LastSequence(g)
    ensures Settled(later, conversation, run, g)
  {
    var turn := TurnOf(run, g);
    var row := TurnRow(run, StartSequence(g), FirstStopReason(g));
    var drafts := Drafts(run, g, db.uuids);
    SameDrafts(run, g, db.uuids, later.uuids);
    DraftsHaveBlocks(run, g, db.uuids);
    AllOrNothing(db, conversation, run, g);
    StoredUpsertsNothing(later.messages, WithTurn(later.turns, turn, row), conversation, run, turn, drafts);
    TurnStays(db, later, turn, row);
    assert later.watermarks[run := later.watermarks[run]] == later.watermarks;
  }

  lemma TurnStays(db: Db, later: Db, turn: string, row: TurnRow)
    requires forall id :: id in WithTurn(db.turns, turn, row) ==>
      id in later.turns && later.turns[id] == WithTurn(db.turns, turn, row)[id]
    ensures WithTurn(later.turns, turn, row) == later.turns
  {
    if turn !in later.turns {
      assert SlotTaken(db.turns, row.run, row.sequence);
      var id :| id in db.turns && db.turns[id].run == row.run && db.turns[id].sequence == row.sequence;
      assert later.turns[id] == db.turns[id];
    }
  }

  // ---- The whole pass again ----

  /** Later groups end later. */
  predicate Rising(groups: seq<Group>) {
    forall i, j :: 0 <= i < j < |groups| ==> LastSequence(groups[i]) < LastSequence(groups[j])
  }

  lemma TypedHasIds(g: Group)
    requires TypedGroup(g) && Classify(g) == Materialize
    ensures IdsPresent(g) && HasCompleted(g) && g != [] && g[0].payload.TurnStarted?
  {
    if !HasCompleted(g) {
      OpenIsSkipped(g);
      assert false;
    }
    if !g[0].payload.TurnStarted? {
      QuietGathersNothing(g);
      assert false;
    }
  }

  /** A group's outcome depends on the tables alone. */
  lemma SameTablesSameStatus(db: Db, db': Db, conversation: string, run: string, g: Group)
    requires SameTables(db, db') && TypedGroup(g)
    ensures ProjectGroup(db, conversation, run, g).status == ProjectGroup(db', conversation, run, g).status
    ensures SameTables(ProjectGroup(db, conversation, run, g).db, ProjectGroup(db', conversation, run, g).db)
  {
    if Classify(g) == Materialize {
      TypedHasIds(g);
      SameDrafts(run, g, db.uuids, db'.uuids);
    }
  }

  /** A watermark at or past `floor` stays so while the groups end past it. */
  lemma {:induction false} PassStaysPast(db: Db, conversation: string, run: string, groups: seq<Group>, floor: nat)
    requires run in db.watermarks && db.watermarks[run].sequence >= floor
    requires forall i :: 0 <= i < |groups| ==> LastSequence(groups[i]) >= floor
    ensures
      var last := ProjectGroups(db, conversation, run, groups).db;
      run in last.watermarks && last.watermarks[run].sequence >= floor
    decreases |groups|
  {
    if groups != [] {
      AllOrNothing(db, conversation, run, groups[0]);
      var first := ProjectGroup(db, conversation, run, groups[0]);
      if !first.status.Failed? {
        PassStaysPast(first.db, conversation, run, groups[1..], floor);
      }
    }
  }

  lemma FirstIsSettled(db: Db, conversation: string, run: string, groups: seq<Group>, later: Db)
    requires groups != [] && AllTyped(groups) && Rising(groups)
    requires SameTables(ProjectGroups(db, conversation, run, groups).db, later)
    requires !ProjectGroup(db, conversation, run, groups[0]).status.Failed?
    ensures Settled(later, conversation, run, groups[0])
  {
    var g := groups[0];
    var first := ProjectGroup(db, conversation, run, g);
    AllOrNothing(db, conversation, run, g);
    PassGrows(first.db, conversation, run, groups[1..]);
    if Classify(g) == Materialize {
      TypedHasIds(g);
      if !first.status.Quarantined? {
        PassStaysPast(first.db, conversation, run, groups[1..], LastSequence(g));
      }
    }
    HandledStaysSettled(db, conversation, run, g, later);
  }

  /**
   * A second pass over the groups, from any state with the tables the first one
   * left, changes no turn, message, block or watermark, also when a pass aborts.
   */
  lemma {:induction false} SecondPassIsIdle(db: Db, conversation: string, run: string, groups: seq<Group>, later: Db)
    requires AllTyped(groups) && Rising(groups)
    requires SameTables(ProjectGroups(db, conversation, run, groups).db, later)
    ensures SameTables(later, ProjectGroups(later, conversation, run, groups).db)
    decreases |groups|
  {
    if groups != [] {
      var g := groups[0];
      var first := ProjectGroup(db, conversation, run, g);
      var again := ProjectGroup(later, conversation, run, g);
      AllOrNothing(db, conversation, run, g);
      if first.status.Failed? {
        SameTablesSameStatus(db, later, conversation, run, g);
        AllOrNothing(later, conversation, run, g);
      } else {
        FirstIsSettled(db, conversation, run, groups, later);
        if !again.status.Failed? {
          SecondPassIsIdle(first.db, conversation, run, groups[1..], again.db);
        }
      }
    }
  }

  lemma ReprojectingIsIdle(db: Db, conversation: string, run: string, log: seq<Event>)
    requires Typed(log) && Ordered(log)
    ensures
      var once := ProjectFull(db, conversation, run, log).db;
      SameTables(once, ProjectFull(once, conversation, run, log).db)
  {
    GroupsRise(log);
    SecondPassIsIdle(db, conversation, run, Groups(log), ProjectFull(db, conversation, run, log).db);
  }

  // ---- The groups of an ordered log ----

  lemma {:induction false} GroupEventsAreLogEvents(log: seq<Event>)
    ensures forall i, k :: 0 <= i < |ScanOf(log).closed| && 0 <= k < |ScanOf(log).closed[i]| ==>
      ScanOf(log).closed[i][k] in log
    ensures forall k :: 0 <= k < |ScanOf(log).current| ==> ScanOf(log).current[k] in log
    ensures forall i :: 0 <= i < |ScanOf(log).closed| ==> ScanOf(log).closed[i] != []
  {
    if log != [] {
      GroupEventsAreLogEvents(log[..|log| - 1]);
    }
  }

  /** Groups end past whatever all events are past. */
  lemma GroupsArePast(log: seq<Event>, floor: nat)
    requires forall i :: 0 <= i < |log| ==> log[i].sequence > floor
    ensures forall i :: 0 <= i < |Groups(log)| ==> LastSequence(Groups(log)[i]) > floor
  {
    GroupEventsAreLogEvents(log);
    forall i | 0 <= i < |Groups(log)| ensures LastSequence(Groups(log)[i]) > floor {
      LastSequenceBounds(Groups(log)[i]);
      assert Groups(log)[i][0] in log;
    }
  }

  predicate Within(g: Group, ceiling: nat) {
    LastSequence(g) <= ceiling
  }

  lemma GroupsAreWithin(log: seq<Event>, ceiling: nat)
    requires forall i :: 0 <= i < |log| ==> log[i].sequence <= ceiling
    ensures forall i :: 0 <= i < |Groups(log)| ==> Within(Groups(log)[i], ceiling)
  {
    GroupEventsAreLogEvents(log);
    forall i | 0 <= i < |Groups(log)| ensures Within(Groups(log)[i], ceiling) {
      LastSequenceBounds(Groups(log)[i]);
    }
  }

  lemma RisingSnoc(groups: seq<Group>, n: nat, g: Group, e: Event)
    requires Rising(groups) && n <= |groups|
    requires forall i :: 0 <= i < |groups| ==> LastSequence(groups[i]) < e.sequence
    requires e in g
    ensures Rising(groups[..n] + [g])
  {
    LastSequenceBounds(g);
  }

  lemma {:induction false} CurrentHasNoCompleted(log: seq<Event>)
    ensures !HasCompleted(ScanOf(log).current)
  {
    if log != [] {
      CurrentHasNoCompleted(log[..|log| - 1]);
    }
  }

  /** The group the next event joins or starts, after groups that were there before. */
  lemma NextGroups(front: seq<Event>, e: Event) returns (n: nat, g: Group)
    ensures n <= |Groups(front)| && e in g
    ensures Groups(front + [e]) == Groups(front)[..n] + [g]
    ensures forall i :: n <= i < |Groups(front)| ==> !HasCompleted(Groups(front)[i])
  {
    CurrentHasNoCompleted(front);
    var before := ScanOf(front);
    assert (front + [e])[..|front|] == front;
    if e.payload.TurnStarted? && before.current != [] {
      var none: Group := [];
      n, g := |Groups(front)|, none + [e];
    } else {
      n, g := |before.closed|, before.current + [e];
      assert Groups(front)[..n] == before.closed;
    }
    assert g[|g| - 1] == e;
  }

  lemma {:induction false} GroupsRise(log: seq<Event>)
    requires Ordered(log)
    ensures Rising(Groups(log))
  {
    if log != [] {
      var front := log[..|log| - 1];
      var e := log[|log| - 1];
      GroupsRise(front);
      GroupsAreWithin(front, e.sequence - 1);
      var n, g := NextGroups(front, e);
      assert log == front + [e];
      assert forall i :: 0 <= i < |Groups(front)| ==> Within(Groups(front)[i], e.sequence - 1);
      RisingSnoc(Groups(front), n, g, e);
    }
  }
}
