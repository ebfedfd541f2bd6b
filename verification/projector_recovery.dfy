/**
 * Projection over whole runs of the daemon: rows are appended, passes stop at
 * any group for any reason, recovery starts over. A row's payload may be
 * unreadable while its type column still says that a turn was completed.
 */
module ProjectorRecovery {
  import opened ConversationBlocks
  import opened ProjectorGroups
  import opened ProjectorIncremental
  import opened ProjectorSafety
  import opened ProjectorState
  import opened Sequences
  import opened Wrappers

  datatype Row = Row(sequence: nat, completed: bool, event: Option<Event>)

  /** One run of one conversation, its log and the tables. */
  datatype World = World(conversation: string, run: string, rows: seq<Row>, db: Db)

  /** `handled` is the number of groups a pass gets through before a statement fails or the daemon dies. */
  datatype Step =
    | Append(row: Row)
    | FullPass(handled: nat)
    | IncrementalPass(handled: nat)
    | Recover(handled: nat)

  function Readable(rows: seq<Row>): seq<Event> {
    if rows == [] || rows[0].event.None? then [] else [rows[0].event.value] + Readable(rows[1..])
  }

  predicate AllReadable(rows: seq<Row>) {
    forall i :: 0 <= i < |rows| ==> rows[i].event.Some?
  }

  predicate WellStored(row: Row) {
    row.event.Some? ==> row.event.value.sequence == row.sequence && row.completed == IsCompleted(row.event.value)
  }

  function LastRow(rows: seq<Row>): nat {
    if rows == [] then 0 else rows[|rows| - 1].sequence
  }

  /** A typed log grows: in order, and no turn takes the id of another run's. */
  predicate Enabled(w: World, step: Step) {
    step.Append? ==>
      && step.row.sequence > LastRow(w.rows) && WellStored(step.row)
      && Typed(Readable(w.rows + [step.row]))
      && (step.row.event.Some? && step.row.event.value.payload.TurnStarted? ==>
            var id := step.row.event.value.payload.turnId;
            id in w.db.turns ==> w.db.turns[id].run == w.run)
  }

  function FirstOf(groups: seq<Group>, n: nat): seq<Group> {
    if n < |groups| then groups[..n] else groups
  }

  function Corrupted(w: World): Pass {
    Pass(w.db.(quarantined := w.db.quarantined + {Quarantine(w.run, None, None, CorruptStoredEvent)}), true)
  }

  /** The groups in order up to the one that is cut short. */
  function PassOver(w: World, groups: seq<Group>, handled: nat): Pass {
    var p := ProjectGroups(w.db, w.conversation, w.run, FirstOf(groups, handled));
    p.(ok := p.ok && handled >= |groups|)
  }

  /** An unreadable row quarantines the run, unless that write fails. */
  function Full(w: World, handled: nat): Pass {
    if AllReadable(w.rows) then PassOver(w, Groups(Readable(w.rows)), handled)
    else if handled > 0 then Corrupted(w)
    else Pass(w.db, false)
  }

  function RowsAfter(rows: seq<Row>, sequence: nat): seq<Row>
    decreases |rows|
  {
    if rows == [] then []
    else (if rows[0].sequence > sequence then [rows[0]] else []) + RowsAfter(rows[1..], sequence)
  }

  function Incremental(w: World, handled: nat): Pass {
    var rows := RowsAfter(w.rows, Base(w.db, w.run));
    if AllReadable(rows) then PassOver(w, Groups(Readable(rows)), handled)
    else if handled > 0 then Corrupted(w)
    else Pass(w.db, false)
  }

  /** Some completed turn lies past the watermark, or there is no watermark. */
  predicate NeedsRecovery(w: World) {
    exists i :: 0 <= i < |w.rows| && w.rows[i].completed &&
      (w.run in w.db.watermarks ==> w.rows[i].sequence > w.db.watermarks[w.run].sequence)
  }

  function Recovery(w: World, handled: nat): Pass {
    if NeedsRecovery(w) then Full(w, handled) else Pass(w.db, true)
  }

  function Next(w: World, step: Step): World {
    match step
    case Append(row) => w.(rows := w.rows + [row])
    case FullPass(handled) => w.(db := Full(w, handled).db)
    case IncrementalPass(handled) => w.(db := Incremental(w, handled).db)
    case Recover(handled) => w.(db := Recovery(w, handled).db)
  }

  predicate IsRun(w: World, steps: seq<Step>)
    decreases |steps|
  {
    steps != [] ==> Enabled(w, steps[0]) && IsRun(Next(w, steps[0]), steps[1..])
  }

  function After(w: World, steps: seq<Step>): World
    requires IsRun(w, steps)
    decreases |steps|
  {
    if steps == [] then w else After(Next(w, steps[0]), steps[1..])
  }

  // ---- A handled turn ----

  predicate ProjectedIn(db: Db, run: string, g: Group) {
    TurnOf(run, g) in db.turns && AllStored(db.messages, Drafts(run, g, 0))
  }

  function RowOf(run: string, g: Group): TurnRow {
    TurnRow(run, StartSequence(g), FirstStopReason(g))
  }

  /** Its messages cannot be stored even with its turn there: another content stands under one of their ids. */
  predicate Clashes(db: Db, conversation: string, run: string, g: Group) {
    !UpsertAll(db.messages, map[TurnOf(run, g) := RowOf(run, g)], conversation, run, TurnOf(run, g),
               Drafts(run, g, 0)).Wrote?
  }

  predicate QuarantinedIn(db: Db, run: string, g: Group, reason: Reason) {
    exists q :: q in db.quarantined && q.run == run && q.turn == FirstTurnId(g) && q.reason == reason
  }

  /** Projected, quarantined or empty. */
  predicate Handled(db: Db, conversation: string, run: string, g: Group) {
    match Classify(g)
    case Skip => true
    case QuarantineCorrupt => QuarantinedIn(db, run, g, CorruptMessageCompleted)
    case Materialize =>
      || ProjectedIn(db, run, g)
      || (QuarantinedIn(db, run, g, ContentConflict) && Clashes(db, conversation, run, g))
  }

  /** Whether an upsert goes through depends on the turn's presence only for new messages. */
  lemma {:induction false} TurnHelpsUpsert(messages: map<Id, StoredMessage>, turns: map<string, TurnRow>, row: TurnRow,
                                           conversation: string, run: string, turn: string, drafts: seq<Draft>)
    ensures
      var bare := UpsertAll(messages, turns, conversation, run, turn, drafts);
      var helped := UpsertAll(messages, map[turn := row], conversation, run, turn, drafts);
      && (bare.Wrote? ==> helped == bare)
      && (bare.Conflict? ==> helped == bare)
  {
    if drafts != [] {
      TurnHelpsUpsert(messages, turns, row, conversation, run, turn, drafts[..|drafts| - 1]);
    }
  }

  lemma {:induction false} ClashPersists(messages: map<Id, StoredMessage>, messages': map<Id, StoredMessage>,
                                         row: TurnRow, conversation: string, run: string, turn: string,
                                         drafts: seq<Draft>)
    requires KeepsMessages(messages, messages')
    requires forall i :: 0 <= i < |drafts| ==> drafts[i].blocks != []
    ensures
      var once := UpsertAll(messages, map[turn := row], conversation, run, turn, drafts);
      var again := UpsertAll(messages', map[turn := row], conversation, run, turn, drafts);
      && (!once.Wrote? ==> !again.Wrote?)
      && (once.Wrote? && again.Wrote? ==> SameBlocks(once.messages, again.messages))
  {
    if drafts != [] {
      ClashPersists(messages, messages', row, conversation, run, turn, drafts[..|drafts| - 1]);
    }
  }

  lemma HandledStays(db: Db, db': Db, conversation: string, run: string, g: Group)
    requires Handled(db, conversation, run, g) && Grows(db, db')
    ensures Handled(db', conversation, run, g)
  {
    if Classify(g) == Materialize {
      DraftsHaveBlocks(run, g, 0);
      ClashPersists(db.messages, db'.messages, RowOf(run, g), conversation, run, TurnOf(run, g), Drafts(run, g, 0));
    }
  }

  // ---- The invariant ----

  /** Every turn row of the run was started by an event of the log. */
  ghost predicate Owned(db: Db, run: string, log: seq<Event>) {
    forall id :: id in db.turns && db.turns[id].run == run ==>
      exists k :: 0 <= k < |log| && log[k].payload == TurnStarted(id) && log[k].sequence == db.turns[id].sequence
  }

  /** No turn of the log is another run's. */
  predicate OwnTurns(db: Db, run: string, log: seq<Event>) {
    forall k :: 0 <= k < |log| && log[k].payload.TurnStarted? && log[k].payload.turnId in db.turns ==>
      db.turns[log[k].payload.turnId].run == run
  }

  function TurnRows(db: Db, run: string): set<string> {
    set id | id in db.turns && db.turns[id].run == run
  }

  function TurnCount(db: Db, run: string): nat {
    if run in db.watermarks then db.watermarks[run].turnCount else 0
  }

  predicate Counted(db: Db, run: string) {
    |TurnRows(db, run)| == TurnCount(db, run)
  }

  predicate Covered(db: Db, conversation: string, run: string, groups: seq<Group>) {
    forall i :: 0 <= i < |groups| && LastSequence(groups[i]) <= Base(db, run) ==>
      Handled(db, conversation, run, groups[i])
  }

  /** The watermark is where some completed turn ends. */
  ghost predicate AtTurn(db: Db, run: string, groups: seq<Group>) {
    run in db.watermarks ==>
      exists i :: 0 <= i < |groups| && HasCompleted(groups[i]) && LastSequence(groups[i]) == Base(db, run)
  }

  ghost predicate Kept(db: Db, conversation: string, run: string, log: seq<Event>) {
    && Owned(db, run, log) && OwnTurns(db, run, log) && Counted(db, run)
    && Covered(db, conversation, run, Groups(log)) && AtTurn(db, run, Groups(log))
  }

  predicate RowsInOrder(rows: seq<Row>) {
    && (forall i :: 0 <= i < |rows| ==> rows[i].sequence >= 1 && WellStored(rows[i]))
    && (forall i, j :: 0 <= i < j < |rows| ==> rows[i].sequence < rows[j].sequence)
  }

  ghost predicate Inv(w: World) {
    RowsInOrder(w.rows) && Typed(Readable(w.rows)) && Kept(w.db, w.conversation, w.run, Readable(w.rows))
  }

  // ---- One group ----

  /** A group that writes starts with its turn's event, which is in the log. */
  lemma WriterStarts(log: seq<Event>, i: nat)
    requires Typed(log) && i < |Groups(log)| && Classify(Groups(log)[i]) == Materialize
    ensures
      var g := Groups(log)[i];
      && g != [] && g[0].payload.TurnStarted? && g[0] in log
      && FirstTurnId(g) == Some(g[0].payload.turnId) && StartSequence(g) == g[0].sequence
      && IdsPresent(g) && HasCompleted(g)
  {
    TypedHasIds(Groups(log)[i]);
    GroupEventsAreLogEvents(log);
  }

  /** Only the turn itself can hold the slot of its start. */
  lemma SlotIsOwn(db: Db, run: string, log: seq<Event>, turn: string, sequence: nat)
    requires Owned(db, run, log) && Ordered(log) && Event(sequence, TurnStarted(turn)) in log
    requires SlotTaken(db.turns, run, sequence)
    ensures turn in db.turns
  {
    var id :| id in db.turns && db.turns[id].run == run && db.turns[id].sequence == sequence;
    var k :| 0 <= k < |log| && log[k].payload == TurnStarted(id) && log[k].sequence == sequence;
    var j :| 0 <= j < |log| && log[j] == Event(sequence, TurnStarted(turn));
    assert !(j < k) && !(k < j);
  }

  lemma HandledNow(db: Db, conversation: string, run: string, log: seq<Event>, i: nat)
    requires Typed(log) && Ordered(log) && Owned(db, run, log) && i < |Groups(log)|
    requires !ProjectGroup(db, conversation, run, Groups(log)[i]).status.Failed?
    ensures Handled(ProjectGroup(db, conversation, run, Groups(log)[i]).db, conversation, run, Groups(log)[i])
  {
    var g := Groups(log)[i];
    var o := ProjectGroup(db, conversation, run, g);
    if Classify(g) == Materialize {
      WriterStarts(log, i);
      SameDrafts(run, g, db.uuids, 0);
      var turns := WithTurn(db.turns, TurnOf(run, g), RowOf(run, g));
      if SlotTaken(db.turns, run, StartSequence(g)) {
        SlotIsOwn(db, run, log, TurnOf(run, g), StartSequence(g));
      }
      var drafts := Drafts(run, g, 0);
      if UpsertAll(db.messages, turns, conversation, run, TurnOf(run, g), drafts).Wrote? {
        UpsertAllStores(db.messages, turns, conversation, run, TurnOf(run, g), drafts);
      } else {
        TurnHelpsUpsert(db.messages, turns, RowOf(run, g), conversation, run, TurnOf(run, g), drafts);
        var id := UpsertAll(db.messages, turns, conversation, run, TurnOf(run, g), drafts).id;
        assert Quarantine(run, FirstTurnId(g), Some(id), ContentConflict) in o.db.quarantined;
      }
    } else if Classify(g) == QuarantineCorrupt {
      var message := AssistantId(g);
      assert Quarantine(run, FirstTurnId(g), if message.Some? then Some(Named(message.value)) else None,
                        CorruptMessageCompleted) in o.db.quarantined;
    }
  }

  /** A handled turn is never projected as new, so the watermark is never set back to it. */
  lemma HandledIsNotNew(db: Db, conversation: string, run: string, g: Group)
    requires Handled(db, conversation, run, g) && (Classify(g) == Materialize ==> IdsPresent(g))
    ensures !ProjectGroup(db, conversation, run, g).status.Projected?
  {
    if Classify(g) == Materialize && Clashes(db, conversation, run, g) {
      SameDrafts(run, g, db.uuids, 0);
      TurnHelpsUpsert(db.messages, WithTurn(db.turns, TurnOf(run, g), RowOf(run, g)), RowOf(run, g),
                      conversation, run, TurnOf(run, g), Drafts(run, g, 0));
    }
  }

  lemma NewRowIsOwned(db: Db, db': Db, run: string, log: seq<Event>, turn: string, row: TurnRow)
    requires Owned(db, run, log) && db'.turns == db.turns[turn := row]
    requires Event(row.sequence, TurnStarted(turn)) in log
    ensures Owned(db', run, log)
  {
    var k :| 0 <= k < |log| && log[k] == Event(row.sequence, TurnStarted(turn));
    forall id | id in db'.turns && db'.turns[id].run == run
      ensures exists k ::
        0 <= k < |log| && log[k].payload == TurnStarted(id) && log[k].sequence == db'.turns[id].sequence
    {
      assert id == turn ==> log[k].payload == TurnStarted(id) && log[k].sequence == db'.turns[id].sequence;
    }
  }

  lemma GroupKeepsOwned(db: Db, conversation: string, run: string, log: seq<Event>, i: nat)
    requires Typed(log) && Ordered(log) && i < |Groups(log)|
    requires Owned(db, run, log) && OwnTurns(db, run, log)
    ensures
      var o := ProjectGroup(db, conversation, run, Groups(log)[i]);
      Owned(o.db, run, log) && OwnTurns(o.db, run, log)
  {
    var g := Groups(log)[i];
    var o := ProjectGroup(db, conversation, run, g);
    GroupCounts(db, conversation, run, g);
    if o.status.Projected? {
      WriterStarts(log, i);
      assert g[0] == Event(StartSequence(g), TurnStarted(TurnOf(run, g)));
      NewRowIsOwned(db, o.db, run, log, TurnOf(run, g), RowOf(run, g));
    }
  }

  /** A writing group's turn, if it is there at all or its slot is taken, is a turn row of the run. */
  lemma WrittenIsCounted(db: Db, run: string, log: seq<Event>, i: nat)
    requires Typed(log) && Ordered(log) && i < |Groups(log)| && Classify(Groups(log)[i]) == Materialize
    requires Owned(db, run, log) && OwnTurns(db, run, log)
    requires WithTurn(db.turns, TurnOf(run, Groups(log)[i]), RowOf(run, Groups(log)[i])) == db.turns
    ensures TurnOf(run, Groups(log)[i]) in TurnRows(db, run)
  {
    var g := Groups(log)[i];
    WriterStarts(log, i);
    if SlotTaken(db.turns, run, StartSequence(g)) {
      SlotIsOwn(db, run, log, TurnOf(run, g), StartSequence(g));
    }
    var k :| 0 <= k < |log| && log[k] == g[0];
    assert log[k].payload.turnId in db.turns;
  }

  /** A new turn is counted; an old one only when there was no watermark to count it. */
  lemma GroupCounts(db: Db, conversation: string, run: string, g: Group)
    ensures
      var o := ProjectGroup(db, conversation, run, g);
      match o.status
      case Projected =>
        && TurnOf(run, g) !in db.turns && o.db.turns == db.turns[TurnOf(run, g) := RowOf(run, g)]
        && TurnCount(o.db, run) == TurnCount(db, run) + 1
      case AlreadyProjected =>
        && o.db.turns == db.turns && WithTurn(db.turns, TurnOf(run, g), RowOf(run, g)) == db.turns
        && (run in db.watermarks ==> TurnCount(o.db, run) == TurnCount(db, run))
      case _ => o.db.turns == db.turns && TurnCount(o.db, run) == TurnCount(db, run)
  {
  }

  lemma NewTurnRow(db: Db, db': Db, run: string, turn: string, row: TurnRow)
    requires turn !in db.turns && row.run == run && db'.turns == db.turns[turn := row]
    ensures |TurnRows(db', run)| == |TurnRows(db, run)| + 1
  {
    assert TurnRows(db', run) == TurnRows(db, run) + {turn};
  }

  lemma GroupKeepsCount(db: Db, conversation: string, run: string, log: seq<Event>, i: nat)
    requires Typed(log) && Ordered(log) && i < |Groups(log)|
    requires Owned(db, run, log) && OwnTurns(db, run, log) && |TurnRows(db, run)| == TurnCount(db, run)
    ensures
      var o := ProjectGroup(db, conversation, run, Groups(log)[i]);
      |TurnRows(o.db, run)| == TurnCount(o.db, run)
  {
    var g := Groups(log)[i];
    var o := ProjectGroup(db, conversation, run, g);
    GroupCounts(db, conversation, run, g);
    if o.status.Projected? {
      NewTurnRow(db, o.db, run, TurnOf(run, g), RowOf(run, g));
    } else {
      assert TurnRows(o.db, run) == TurnRows(db, run);
      if o.status.AlreadyProjected? {
        WrittenIsCounted(db, run, log, i);
      }
    }
  }

  /** The groups up to `n` are handled. */
  predicate HandledTo(db: Db, conversation: string, run: string, groups: seq<Group>, n: nat) {
    forall i :: 0 <= i < n && i < |groups| ==> Handled(db, conversation, run, groups[i])
  }

  lemma WatermarkMoves(db: Db, conversation: string, run: string, log: seq<Event>, i: nat)
    requires Typed(log) && i < |Groups(log)| && Covered(db, conversation, run, Groups(log))
    ensures
      var g := Groups(log)[i];
      var o := ProjectGroup(db, conversation, run, g);
      && (run in db.watermarks ==> run in o.db.watermarks)
      && Base(o.db, run) >= Base(db, run)
      && ((Base(o.db, run) == Base(db, run) && (run in o.db.watermarks ==> run in db.watermarks))
          || (HasCompleted(g) && Base(o.db, run) == LastSequence(g)))
  {
    var g := Groups(log)[i];
    var o := ProjectGroup(db, conversation, run, g);
    AllOrNothing(db, conversation, run, g);
    if Classify(g) == Materialize {
      WriterStarts(log, i);
      if LastSequence(g) <= Base(db, run) {
        HandledIsNotNew(db, conversation, run, g);
      }
    }
  }

  lemma GroupKeeps(db: Db, conversation: string, run: string, log: seq<Event>, i: nat)
    requires Typed(log) && Ordered(log) && Kept(db, conversation, run, log) && i < |Groups(log)|
    requires HandledTo(db, conversation, run, Groups(log), i)
    requires !ProjectGroup(db, conversation, run, Groups(log)[i]).status.Failed?
    ensures
      var o := ProjectGroup(db, conversation, run, Groups(log)[i]);
      && Kept(o.db, conversation, run, log) && HandledTo(o.db, conversation, run, Groups(log), i + 1)
      && Base(o.db, run) >= Base(db, run)
  {
    var groups := Groups(log);
    var o := ProjectGroup(db, conversation, run, groups[i]);
    GroupGrows(db, conversation, run, groups[i]);
    HandledNow(db, conversation, run, log, i);
    GroupKeepsOwned(db, conversation, run, log, i);
    GroupKeepsCount(db, conversation, run, log, i);
    WatermarkMoves(db, conversation, run, log, i);
    GroupsRise(log);
    forall j | 0 <= j < |groups| && (j <= i || LastSequence(groups[j]) <= Base(o.db, run))
      ensures Handled(o.db, conversation, run, groups[j])
    {
      if j != i {
        assert j < i || LastSequence(groups[j]) <= Base(db, run);
        HandledStays(db, o.db, conversation, run, groups[j]);
      }
    }
    if run in o.db.watermarks && Base(o.db, run) == Base(db, run) && run in db.watermarks {
      var j :| 0 <= j < |groups| && HasCompleted(groups[j]) && LastSequence(groups[j]) == Base(db, run);
      assert LastSequence(groups[j]) == Base(o.db, run);
    }
  }

  // ---- Passes ----

  /** A pass over the groups from `i` to `to`, all those before being handled. */
  lemma {:induction false} PassKeeps(db: Db, conversation: string, run: string, log: seq<Event>, i: nat, end: nat)
    requires Typed(log) && Ordered(log) && Kept(db, conversation, run, log) && i <= end <= |Groups(log)|
    requires HandledTo(db, conversation, run, Groups(log), i)
    ensures
      var p := ProjectGroups(db, conversation, run, Groups(log)[i..end]);
      && Kept(p.db, conversation, run, log)
      && (p.ok ==> HandledTo(p.db, conversation, run, Groups(log), end))
      && Base(p.db, run) >= Base(db, run)
    decreases end - i
  {
    if i < end {
      var groups := Groups(log);
      var o := ProjectGroup(db, conversation, run, groups[i]);
      assert groups[i..end][1..] == groups[i + 1..end] && groups[i..end][0] == groups[i];
      if o.status.Failed? {
        WriterStarts(log, i);
        assert o.db == db;
      } else {
        GroupKeeps(db, conversation, run, log, i);
        PassKeeps(o.db, conversation, run, log, i + 1, end);
      }
    }
  }

  // ---- Where the incremental pass starts ----

  /** Where the scan has just closed the i-th group. */
  lemma {:induction false} CutOf(log: seq<Event>, i: nat) returns (cut: nat)
    requires i < |ScanOf(log).closed| && HasCompleted(ScanOf(log).closed[i])
    ensures 0 < cut <= |log| && IsCompleted(log[cut - 1]) && |ScanOf(log[..cut]).closed| == i + 1
  {
    var front := log[..|log| - 1];
    var before := ScanOf(front);
    CurrentHasNoCompleted(front);
    if i < |before.closed| {
      cut := CutOf(front, i);
      assert log[..cut] == front[..cut];
    } else {
      cut := |log|;
      assert log[..cut] == log;
    }
  }

  /** The log after `cut` holds the groups after the i-th, which ends with the event before `cut`. */
  predicate CutsAfter(log: seq<Event>, i: nat, cut: nat) {
    && i < |Groups(log)| && 0 < |Groups(log)[i]| <= cut <= |log| && IsCompleted(log[cut - 1])
    && log[cut - |Groups(log)[i]|..cut] == Groups(log)[i]
    && Groups(log[cut..]) == Groups(log)[i + 1..]
  }

  lemma ClosesWithSuffix(log: seq<Event>)
    requires log != [] && IsCompleted(log[|log| - 1])
    ensures Groups(log) == ScanOf(log).closed && Groups(log) != []
    ensures
      var g := Groups(log)[|Groups(log)| - 1];
      0 < |g| <= |log| && log[|log| - |g|..] == g
  {
    ClosedAtCompleted(log);
    CurrentIsSuffix(log[..|log| - 1]);
    assert log == log[..|log| - 1] + [log[|log| - 1]];
  }

  /** What follows a completed group is grouped on its own. */
  lemma SplitAtGroup(log: seq<Event>, i: nat) returns (cut: nat)
    requires i < |Groups(log)| && HasCompleted(Groups(log)[i])
    ensures CutsAfter(log, i, cut)
  {
    CurrentHasNoCompleted(log);
    cut := CutOf(log, i);
    var front, back := log[..cut], log[cut..];
    SplitAt(log, cut);
    ClosesWithSuffix(front);
    GroupsSplit(front, back);
    assert Groups(log)[i] == Groups(front)[i];
    EndOfPrefix(log, cut - |Groups(log)[i]|, cut);
  }

  lemma CutIsLast(log: seq<Event>, i: nat, cut: nat)
    requires Ordered(log) && CutsAfter(log, i, cut)
    ensures log[cut - 1].sequence == LastSequence(Groups(log)[i])
  {
    var g := Groups(log)[i];
    assert forall k :: 0 <= k < |g| ==> g[k] == log[cut - |g| + k];
    LastSequenceIsLast(g);
  }

  lemma CoveredTo(db: Db, conversation: string, run: string, groups: seq<Group>, i: nat)
    requires Rising(groups) && Covered(db, conversation, run, groups)
    requires i < |groups| && LastSequence(groups[i]) == Base(db, run)
    ensures HandledTo(db, conversation, run, groups, i + 1)
  {
  }

  /** The events past a completed group are the groups after it. */
  lemma AfterTheGroup(log: seq<Event>, i: nat)
    requires Ordered(log) && i < |Groups(log)| && HasCompleted(Groups(log)[i])
    ensures Groups(EventsAfter(log, LastSequence(Groups(log)[i]))) == Groups(log)[i + 1..]
  {
    var cut := SplitAtGroup(log, i);
    CutIsLast(log, i, cut);
    SkipsTo(log, cut);
  }

  /** The incremental pass works on the groups past the watermark's, and all before are handled. */
  lemma IncrementalStart(db: Db, conversation: string, run: string, log: seq<Event>) returns (n: nat)
    requires Typed(log) && Ordered(log) && Kept(db, conversation, run, log)
    ensures n <= |Groups(log)| && Groups(EventsAfter(log, Base(db, run))) == Groups(log)[n..]
    ensures HandledTo(db, conversation, run, Groups(log), n)
  {
    if run in db.watermarks {
      var i :| 0 <= i < |Groups(log)| && HasCompleted(Groups(log)[i]) && LastSequence(Groups(log)[i]) == Base(db, run);
      AfterTheGroup(log, i);
      GroupsRise(log);
      CoveredTo(db, conversation, run, Groups(log), i);
      n := i + 1;
    } else {
      EventsAfterAll(log, 0);
      n := 0;
    }
  }

  lemma SkipsTo(log: seq<Event>, cut: nat)
    requires Ordered(log) && 0 < cut <= |log|
    ensures EventsAfter(log, log[cut - 1].sequence) == log[cut..]
  {
    assert log == log[..cut] + log[cut..];
    EventsAfterSplit(log[..cut], log[cut..], log[cut - 1].sequence);
    EventsAfterAll(log[cut..], log[cut - 1].sequence);
  }

  // ---- Rows ----

  lemma {:induction false} ReadableIsPrefix(rows: seq<Row>)
    ensures |Readable(rows)| <= |rows|
    ensures forall i :: 0 <= i < |Readable(rows)| ==> rows[i].event == Some(Readable(rows)[i])
    ensures |Readable(rows)| < |rows| ==> rows[|Readable(rows)|].event.None?
  {
    if rows != [] && rows[0].event.Some? {
      ReadableIsPrefix(rows[1..]);
    }
  }

  lemma ReadableIsOrdered(rows: seq<Row>)
    requires RowsInOrder(rows)
    ensures Ordered(Readable(rows)) && |Readable(rows)| <= |rows|
    ensures forall i :: 0 <= i < |Readable(rows)| ==> Readable(rows)[i].sequence == rows[i].sequence
    ensures forall i :: 0 <= i < |Readable(rows)| ==> rows[i].event == Some(Readable(rows)[i])
    ensures |Readable(rows)| < |rows| ==> rows[|Readable(rows)|].event.None?
  {
    ReadableIsPrefix(rows);
    assert forall i :: 0 <= i < |rows| ==> WellStored(rows[i]);
  }

  lemma {:induction false} RowsAfterReads(rows: seq<Row>, sequence: nat)
    requires AllReadable(rows) && forall i :: 0 <= i < |rows| ==> WellStored(rows[i])
    ensures AllReadable(RowsAfter(rows, sequence))
    ensures Readable(RowsAfter(rows, sequence)) == EventsAfter(Readable(rows), sequence)
  {
    if rows != [] {
      RowsAfterReads(rows[1..], sequence);
      assert ([rows[0]] + RowsAfter(rows[1..], sequence))[1..] == RowsAfter(rows[1..], sequence);
      assert [] + RowsAfter(rows[1..], sequence) == RowsAfter(rows[1..], sequence);
      assert [] + EventsAfter(Readable(rows[1..]), sequence) == EventsAfter(Readable(rows[1..]), sequence);
    }
  }

  lemma {:induction false} RowsAfterHas(rows: seq<Row>, sequence: nat, i: nat)
    requires i < |rows| && rows[i].sequence > sequence
    ensures rows[i] in RowsAfter(rows, sequence)
  {
    if i > 0 {
      RowsAfterHas(rows[1..], sequence, i - 1);
    }
  }

  /** The watermark is the sequence of a readable row. */
  lemma BaseIsReadable(db: Db, run: string, log: seq<Event>)
    requires AtTurn(db, run, Groups(log)) && run in db.watermarks
    ensures exists k :: 0 <= k < |log| && log[k].sequence == Base(db, run)
  {
    var i :| 0 <= i < |Groups(log)| && HasCompleted(Groups(log)[i]) && LastSequence(Groups(log)[i]) == Base(db, run);
    GroupEventsAreLogEvents(log);
    LastSequenceBounds(Groups(log)[i]);
    var k :| 0 <= k < |Groups(log)[i]| && Groups(log)[i][k].sequence == Base(db, run);
    assert Groups(log)[i][k] in log;
  }

  /** An unreadable row is never behind the watermark, so the incremental pass meets it too. */
  lemma UnreadableIsAhead(w: World)
    requires Inv(w)
    ensures AllReadable(RowsAfter(w.rows, Base(w.db, w.run))) <==> AllReadable(w.rows)
    ensures forall i :: 0 <= i < |w.rows| && w.rows[i].event.None? ==> w.rows[i].sequence > Base(w.db, w.run)
  {
    ReadableIsOrdered(w.rows);
    var log := Readable(w.rows);
    var base := Base(w.db, w.run);
    if w.run in w.db.watermarks {
      BaseIsReadable(w.db, w.run, log);
    }
    forall i | 0 <= i < |w.rows| && w.rows[i].event.None?
      ensures w.rows[i].sequence > base && w.rows[i] in RowsAfter(w.rows, base)
    {
      assert i >= |log|;
      assert forall k :: 0 <= k < |log| ==> w.rows[k].sequence < w.rows[i].sequence;
      RowsAfterHas(w.rows, base, i);
    }
    if AllReadable(w.rows) {
      RowsAfterReads(w.rows, base);
    }
  }

  // ---- Steps ----

  lemma FullKeeps(w: World, handled: nat)
    requires Inv(w)
    ensures
      var p := Full(w, handled);
      && Kept(p.db, w.conversation, w.run, Readable(w.rows)) && Base(p.db, w.run) >= Base(w.db, w.run)
      && (p.ok && AllReadable(w.rows) ==>
            HandledTo(p.db, w.conversation, w.run, Groups(Readable(w.rows)), |Groups(Readable(w.rows))|))
  {
    if AllReadable(w.rows) {
      ReadableIsOrdered(w.rows);
      PassFrom(w, Readable(w.rows), 0, handled);
      assert Groups(Readable(w.rows))[0..] == Groups(Readable(w.rows));
    } else {
      CorruptedKeeps(w);
    }
  }

  lemma CorruptedKeeps(w: World)
    requires Inv(w)
    ensures Kept(Corrupted(w).db, w.conversation, w.run, Readable(w.rows))
    ensures Base(Corrupted(w).db, w.run) == Base(w.db, w.run)
  {
    var db := Corrupted(w).db;
    var groups := Groups(Readable(w.rows));
    assert TurnRows(db, w.run) == TurnRows(w.db, w.run);
    forall i | 0 <= i < |groups| && LastSequence(groups[i]) <= Base(db, w.run)
      ensures Handled(db, w.conversation, w.run, groups[i])
    {
      HandledStays(w.db, db, w.conversation, w.run, groups[i]);
    }
  }

  /** A pass that starts where all before is handled, cut short or not. */
  lemma PassFrom(w: World, log: seq<Event>, n: nat, handled: nat)
    requires Typed(log) && Ordered(log) && Kept(w.db, w.conversation, w.run, log)
    requires n <= |Groups(log)| && HandledTo(w.db, w.conversation, w.run, Groups(log), n)
    ensures
      var p := PassOver(w, Groups(log)[n..], handled);
      && Kept(p.db, w.conversation, w.run, log) && Base(p.db, w.run) >= Base(w.db, w.run)
      && (p.ok ==> HandledTo(p.db, w.conversation, w.run, Groups(log), |Groups(log)|))
  {
    var groups := Groups(log);
    var end := if handled < |groups| - n then n + handled else |groups|;
    PassKeeps(w.db, w.conversation, w.run, log, n, end);
    assert groups[n..end] == FirstOf(groups[n..], handled);
  }

  lemma ReadableIncrementalKeeps(w: World, handled: nat)
    requires Inv(w) && AllReadable(w.rows)
    ensures
      var groups := Groups(Readable(w.rows));
      var p := PassOver(w, Groups(EventsAfter(Readable(w.rows), Base(w.db, w.run))), handled);
      && Kept(p.db, w.conversation, w.run, Readable(w.rows)) && Base(p.db, w.run) >= Base(w.db, w.run)
      && (p.ok ==> HandledTo(p.db, w.conversation, w.run, groups, |groups|))
  {
    ReadableIsOrdered(w.rows);
    var n := IncrementalStart(w.db, w.conversation, w.run, Readable(w.rows));
    PassFrom(w, Readable(w.rows), n, handled);
  }

  lemma IncrementalKeeps(w: World, handled: nat)
    requires Inv(w)
    ensures
      var p := Incremental(w, handled);
      && Kept(p.db, w.conversation, w.run, Readable(w.rows)) && Base(p.db, w.run) >= Base(w.db, w.run)
      && (p.ok && AllReadable(w.rows) ==>
            HandledTo(p.db, w.conversation, w.run, Groups(Readable(w.rows)), |Groups(Readable(w.rows))|))
  {
    UnreadableIsAhead(w);
    if AllReadable(w.rows) {
      RowsAfterReads(w.rows, Base(w.db, w.run));
      ReadableIncrementalKeeps(w, handled);
    } else {
      CorruptedKeeps(w);
    }
  }

  lemma {:induction false} ReadableSnoc(rows: seq<Row>, row: Row)
    ensures Readable(rows + [row]) ==
      if AllReadable(rows) && row.event.Some? then Readable(rows) + [row.event.value] else Readable(rows)
  {
    if rows == [] {
      assert rows + [row] == [row];
    } else {
      ReadableSnoc(rows[1..], row);
      assert (rows + [row])[1..] == rows[1..] + [row];
      assert rows[0].event.Some? ==> (AllReadable(rows) <==> AllReadable(rows[1..]));
    }
  }

  lemma AppendKeeps(db: Db, conversation: string, run: string, log: seq<Event>, e: Event)
    requires Kept(db, conversation, run, log) && Ordered(log + [e]) && Typed(log + [e])
    requires e.payload.TurnStarted? && e.payload.turnId in db.turns ==> db.turns[e.payload.turnId].run == run
    ensures Kept(db, conversation, run, log + [e])
  {
    var longer := log + [e];
    assert forall k :: 0 <= k < |log| ==> longer[k] == log[k];
    var n, g := NextGroups(log, e);
    var groups, groups' := Groups(log), Groups(longer);
    LastSequenceBounds(g);
    if run in db.watermarks {
      BaseIsReadable(db, run, log);
      assert longer[|log|] == e;
      var i :| 0 <= i < |groups| && HasCompleted(groups[i]) && LastSequence(groups[i]) == Base(db, run);
      assert groups'[i] == groups[i];
    }
    assert e.sequence > Base(db, run);
    forall i | 0 <= i < |groups'| && LastSequence(groups'[i]) <= Base(db, run)
      ensures Handled(db, conversation, run, groups'[i])
    {
      assert i < n && groups'[i] == groups[i];
    }
    OwnedLonger(db, run, log, e);
  }

  lemma OwnedLonger(db: Db, run: string, log: seq<Event>, e: Event)
    requires Owned(db, run, log)
    ensures Owned(db, run, log + [e])
  {
    forall id | id in db.turns && db.turns[id].run == run
      ensures exists k :: 0 <= k < |log + [e]| && (log + [e])[k].payload == TurnStarted(id)
                          && (log + [e])[k].sequence == db.turns[id].sequence
    {
      var k :| 0 <= k < |log| && log[k].payload == TurnStarted(id) && log[k].sequence == db.turns[id].sequence;
      assert (log + [e])[k] == log[k];
    }
  }

  lemma RowsStayInOrder(rows: seq<Row>, row: Row)
    requires RowsInOrder(rows) && row.sequence > LastRow(rows) && WellStored(row)
    ensures RowsInOrder(rows + [row])
  {
    assert forall i :: 0 <= i < |rows| ==> rows[i].sequence <= LastRow(rows);
  }

  lemma RowKeeps(w: World, row: Row)
    requires Inv(w) && Enabled(w, Append(row))
    ensures Inv(w.(rows := w.rows + [row]))
  {
    ReadableSnoc(w.rows, row);
    RowsStayInOrder(w.rows, row);
    ReadableIsOrdered(w.rows + [row]);
    if AllReadable(w.rows) && row.event.Some? {
      AppendKeeps(w.db, w.conversation, w.run, Readable(w.rows), row.event.value);
    }
  }

  lemma StepKeeps(w: World, step: Step)
    requires Inv(w) && Enabled(w, step)
    ensures Inv(Next(w, step)) && Base(Next(w, step).db, w.run) >= Base(w.db, w.run)
  {
    match step
    case Append(row) => RowKeeps(w, row);
    case FullPass(handled) => FullKeeps(w, handled);
    case IncrementalPass(handled) => IncrementalKeeps(w, handled);
    case Recover(handled) =>
      if NeedsRecovery(w) { FullKeeps(w, handled); }
  }

  // ---- Over whole runs ----

  /** A run with no row, no turn and no watermark yet, beside whatever other runs stored. */
  predicate Fresh(w: World) {
    w.rows == [] && w.run !in w.db.watermarks && TurnRows(w.db, w.run) == {}
  }

  lemma FreshIsKept(w: World)
    requires Fresh(w)
    ensures Inv(w)
  {
    assert forall id :: id in w.db.turns && w.db.turns[id].run == w.run ==> id in TurnRows(w.db, w.run);
  }

  lemma {:induction false} RunKeeps(w: World, steps: seq<Step>)
    requires Inv(w) && IsRun(w, steps)
    ensures Inv(After(w, steps)) && Base(After(w, steps).db, w.run) >= Base(w.db, w.run)
    ensures After(w, steps).run == w.run && After(w, steps).conversation == w.conversation
    decreases |steps|
  {
    if steps != [] {
      StepKeeps(w, steps[0]);
      RunKeeps(Next(w, steps[0]), steps[1..]);
    }
  }

  /**
   * Over every run of appends, passes cut short anywhere and recoveries, every
   * committed turn at or below the watermark is projected, quarantined or
   * empty, the turn count is the number of the run's turn rows, and from any
   * state on the watermark never goes back.
   */
  lemma WatermarkCovers(w: World, past: seq<Step>, future: seq<Step>)
    requires Fresh(w) && IsRun(w, past) && IsRun(After(w, past), future)
    ensures
      var now := After(w, past);
      && Covered(now.db, w.conversation, w.run, Groups(Readable(now.rows)))
      && |TurnRows(now.db, w.run)| == TurnCount(now.db, w.run)
      && Base(After(now, future).db, w.run) >= Base(now.db, w.run)
  {
    FreshIsKept(w);
    RunKeeps(w, past);
    RunKeeps(After(w, past), future);
  }

  /** Some unreadable row of the run is on record. */
  predicate RunQuarantined(db: Db, run: string) {
    Quarantine(run, None, None, CorruptStoredEvent) in db.quarantined
  }

  /**
   * When recovery reports success every committed turn that can be read is
   * projected, quarantined or empty, or the run itself is quarantined for an
   * unreadable row.
   */
  lemma RecoveryLeavesNothing(w: World, past: seq<Step>, handled: nat, i: nat)
    requires Fresh(w) && IsRun(w, past)
    requires Recovery(After(w, past), handled).ok
    requires
      var groups := Groups(Readable(After(w, past).rows));
      i < |groups| && HasCompleted(groups[i])
    ensures
      var now := After(w, past);
      var db := Recovery(now, handled).db;
      Handled(db, w.conversation, w.run, Groups(Readable(now.rows))[i]) || RunQuarantined(db, w.run)
  {
    FreshIsKept(w);
    RunKeeps(w, past);
    var now := After(w, past);
    if NeedsRecovery(now) {
      FullKeeps(now, handled);
    } else {
      CompletedGroupIsARow(now, i);
    }
  }

  /**
   * A committed turn at or behind an unreadable row is in no group; a recovery
   * that succeeds while there is one has put the run on record.
   */
  lemma UnreadableIsOnRecord(w: World, past: seq<Step>, handled: nat, k: nat)
    requires Fresh(w) && IsRun(w, past)
    requires Recovery(After(w, past), handled).ok
    requires
      var rows := After(w, past).rows;
      |Readable(rows)| <= k < |rows| && rows[k].completed
    ensures RunQuarantined(Recovery(After(w, past), handled).db, w.run)
  {
    FreshIsKept(w);
    RunKeeps(w, past);
    RecoveryMeetsUnreadable(After(w, past), handled, k);
  }

  lemma UnreadableNeedsRecovery(now: World, k: nat)
    requires Inv(now) && |Readable(now.rows)| <= k < |now.rows| && now.rows[k].completed
    ensures NeedsRecovery(now) && !AllReadable(now.rows)
  {
    ReadableIsOrdered(now.rows);
    UnreadableIsAhead(now);
    var first := |Readable(now.rows)|;
    assert now.rows[first].event.None? && now.rows[first].sequence <= now.rows[k].sequence;
  }

  lemma RecoveryMeetsUnreadable(now: World, handled: nat, k: nat)
    requires Inv(now) && |Readable(now.rows)| <= k < |now.rows| && now.rows[k].completed
    requires Recovery(now, handled).ok
    ensures RunQuarantined(Recovery(now, handled).db, now.run)
  {
    UnreadableNeedsRecovery(now, k);
  }

  /** A completed turn ends with a row that says so. */
  lemma CompletedGroupIsARow(w: World, i: nat)
    requires Inv(w) && i < |Groups(Readable(w.rows))| && HasCompleted(Groups(Readable(w.rows))[i])
    ensures exists k ::
      0 <= k < |w.rows| && w.rows[k].completed && w.rows[k].sequence == LastSequence(Groups(Readable(w.rows))[i])
  {
    var log := Readable(w.rows);
    ReadableIsOrdered(w.rows);
    var cut := SplitAtGroup(log, i);
    CutIsLast(log, i, cut);
    assert w.rows[cut - 1].event == Some(log[cut - 1]);
    assert WellStored(w.rows[cut - 1]);
  }
}
