/** The projector object: the scans and the per-turn transaction, statement by statement. */
module Projectors {
  import opened ConversationBlocks
  import opened ProjectorIncremental
  import opened ProjectorSafety
  import opened ProjectorState
  import opened Wrappers

  /** The statements of one group's projection, any of which may fail; messages and blocks by index. */
  datatype Statement =
    | Begin | InsertTurn | ReadBlocks(message: nat) | InsertMessage(message: nat)
    | InsertBlock(message: nat, block: nat) | UpsertWatermark | Commit | InsertQuarantine

  /** The statements that upserting the i-th message meets: its row and blocks are inserted if it has none. */
  predicate Upserting(messages: map<Id, StoredMessage>, turns: map<string, TurnRow>, turn: string, d: Draft, i: nat,
                      s: Statement) {
    match s
    case ReadBlocks(k) => k == i
    case InsertMessage(k) => k == i && (d.id in messages ==> messages[d.id].blocks == [])
    case InsertBlock(k, b) => k == i && d.id !in messages && turn in turns && b < |d.blocks|
    case _ => false
  }

  /** The statements of the i-th message, which comes up if those before it are written. */
  predicate Reaches(messages: map<Id, StoredMessage>, turns: map<string, TurnRow>, conversation: string, run: string,
                    turn: string, drafts: seq<Draft>, i: nat, s: Statement) {
    && i < |drafts|
    && var before := UpsertAll(messages, turns, conversation, run, turn, drafts[..i]);
       before.Wrote? && Upserting(before.messages, turns, turn, drafts[i], i, s)
  }

  /** The statements that projecting the group meets. */
  ghost predicate Meets(db: Db, conversation: string, run: string, g: Group, s: Statement) {
    match Classify(g)
    case Skip => false
    case QuarantineCorrupt => s.InsertQuarantine?
    case Materialize => Writing(db, conversation, run, g, s)
  }

  ghost predicate Writing(db: Db, conversation: string, run: string, g: Group, s: Statement) {
    var turn, drafts := TurnOf(run, g), Drafts(run, g, db.uuids);
    var turns := WithTurn(db.turns, turn, TurnRow(run, StartSequence(g), FirstStopReason(g)));
    var written := UpsertAll(db.messages, turns, conversation, run, turn, drafts);
    match s
    case Begin => true
    case InsertTurn => true
    case InsertQuarantine => written.Conflict?
    case UpsertWatermark => written.Wrote?
    case Commit => written.Wrote?
    case _ => exists i: nat :: Reaches(db.messages, turns, conversation, run, turn, drafts, i, s)
  }

  ghost predicate NoneFails(db: Db, conversation: string, run: string, g: Group, fails: Statement -> bool) {
    forall s :: Writing(db, conversation, run, g, s) ==> !fails(s)
  }

  /** The group is projected without an error: no statement it meets fails, and no constraint is violated. */
  ghost predicate GoesThrough(db: Db, conversation: string, run: string, g: Group, fails: Statement -> bool) {
    && !ProjectGroup(db, conversation, run, g).status.Failed?
    && forall s :: Meets(db, conversation, run, g, s) ==> !fails(s)
  }

  /** How many groups of a pass had which outcome. */
  datatype Report = Report(projected: nat, alreadyProjected: nat, quarantined: nat)

  function ReportOf(db: Db, conversation: string, run: string, groups: seq<Group>): Report
    decreases |groups|
  {
    if groups == [] then Report(0, 0, 0)
    else
      var n := |groups| - 1;
      var r := ReportOf(db, conversation, run, groups[..n]);
      match ProjectGroup(ProjectGroups(db, conversation, run, groups[..n]).db, conversation, run, groups[n]).status
      case Projected => r.(projected := r.projected + 1)
      case AlreadyProjected => r.(alreadyProjected := r.alreadyProjected + 1)
      case Quarantined => r.(quarantined := r.quarantined + 1)
      case _ => r
  }

  /** Every group went through on the tables that those before it left. */
  ghost predicate AllGoThrough(db: Db, conversation: string, run: string, groups: seq<Group>,
                               fails: nat -> Statement -> bool)
    decreases |groups|
  {
    groups != [] ==>
      var n := |groups| - 1;
      && AllGoThrough(db, conversation, run, groups[..n], fails)
      && GoesThrough(ProjectGroups(db, conversation, run, groups[..n]).db, conversation, run, groups[n], fails(n))
  }

  method GroupTurns(log: seq<Event>) returns (groups: seq<Group>)
    ensures groups == Groups(log)
  {
    groups := [];
    var current: Group := [];
    for i := 0 to |log|
      invariant ScanOf(log[..i]) == Scan(groups, current)
    {
      assert log[..i + 1][..i] == log[..i];
      if log[i].payload.TurnStarted? && current != [] {
        groups, current := groups + [current], [];
      }
      current := current + [log[i]];
      if log[i].payload.TurnCompleted? {
        groups, current := groups + [current], [];
      }
    }
    assert log[..|log|] == log;
    if current != [] {
      groups := groups + [current];
    }
  }

  lemma {:induction false} CorruptStays(g: Group, i: nat)
    requires i <= |g| && Gather(g[..i]).corrupt
    ensures Gather(g) == Gather(g[..i])
    decreases |g| - i
  {
    if i < |g| {
      assert g[..i + 1][..i] == g[..i];
      CorruptStays(g, i + 1);
    } else {
      assert g[..i] == g;
    }
  }

  method GatherGroup(g: Group) returns (gathered: Gathered)
    ensures gathered == Gather(g)
  {
    var text, thinking := "", "";
    var calls: seq<ContentBlock>, results: seq<Payload> := [], [];
    var committed: Option<seq<ContentBlock>> := None;
    for i := 0 to |g|
      invariant Gather(g[..i]) == Gathered(text, thinking, calls, results, committed, false)
    {
      assert g[..i + 1][..i] == g[..i];
      match g[i].payload
      case TextDelta(delta) => text := text + delta;
      case ReasoningDelta(delta) => thinking := thinking + delta;
      case ToolCallRequested(id, name, arguments) => calls := calls + [ToolCall(id, name, arguments)];
      case ToolCallCompleted(_, _, _, _, _) => results := results + [g[i].payload];
      case MessageCompleted(Some(Blocks(content))) => committed := Some(content);
      case MessageCompleted(Some(Corrupt)) =>
        CorruptStays(g, i + 1);
        return Gathered(text, thinking, calls, results, committed, true);
      case _ =>
    }
    assert g[..|g|] == g;
    return Gathered(text, thinking, calls, results, committed, false);
  }

  /** What one message's statements did to the shadow tables. */
  datatype Upserted = Done | Conflicted | Violated | Broken

  class Projector {
    var db: Db

    constructor (db: Db)
      ensures this.db == db
    {
      this.db := db;
    }

    /** Read the stored blocks; insert the row and its blocks one by one when there are none. */
    static method UpsertMessageBlocks(shadow: map<Id, StoredMessage>, turns: map<string, TurnRow>, conversation: string,
                                      run: string, turn: string, d: Draft, i: nat, fails: Statement -> bool)
      returns (messages: map<Id, StoredMessage>, result: Upserted)
      requires d.blocks != []
      ensures !result.Broken? ==>
        match Upsert(shadow, turns, conversation, run, turn, d)
        case Wrote(written) => result.Done? && messages == written
        case Conflict(_) => result.Conflicted?
        case Constraint => result.Violated?
      ensures result.Broken? <==> exists s :: Upserting(shadow, turns, turn, d, i, s) && fails(s)
    {
      messages := shadow;
      assert Upserting(shadow, turns, turn, d, i, ReadBlocks(i));
      if fails(ReadBlocks(i)) { return messages, Broken; }
      if d.id in messages && messages[d.id].blocks != [] {
        return messages, if messages[d.id].blocks == d.blocks then Done else Conflicted;
      }
      assert Upserting(shadow, turns, turn, d, i, InsertMessage(i));
      if fails(InsertMessage(i)) { return messages, Broken; }
      if d.id in messages || turn !in turns { return messages, Violated; }
      var row := StoredMessage(d.id, conversation, AssistantRole, Some(turn), Some(run), d.stopReason,
                               IsLegacyTurn(turn), [], |messages|);
      messages := messages[d.id := row];
      for k := 0 to |d.blocks|
        invariant messages == shadow[d.id := row.(blocks := d.blocks[..k])]
        invariant forall b: nat :: b < k ==> !fails(InsertBlock(i, b))
      {
        assert Upserting(shadow, turns, turn, d, i, InsertBlock(i, k));
        if fails(InsertBlock(i, k)) { return messages, Broken; }
        messages := messages[d.id := row.(blocks := d.blocks[..k] + [d.blocks[k]])];
        assert d.blocks[..k] + [d.blocks[k]] == d.blocks[..k + 1];
      }
      assert d.blocks[..|d.blocks|] == d.blocks;
      return messages, Done;
    }

    /**
     * One group. On an error the tables are exactly as before, whichever
     * statement failed; otherwise they are what the whole transaction makes of
     * them. It is an error exactly if a statement met on the way fails or
     * violates a constraint.
     */
    method ProjectCommittedTurn(conversation: string, run: string, g: Group, fails: Statement -> bool)
      returns (result: Result<Status, string>)
      modifies this`db
      ensures result.Err? ==> SameTables(old(db), db) && db.quarantined == old(db).quarantined
      ensures result.Ok? ==>
        Outcome(db, result.value) == ProjectGroup(old(db), conversation, run, g) && !result.value.Failed?
      ensures result.Ok? <==> GoesThrough(old(db), conversation, run, g, fails)
    {
      if HasStart(g) && !HasCompleted(g) { return Ok(Skipped); }
      var gathered := GatherGroup(g);
      if gathered.corrupt {
        if fails(InsertQuarantine) { return Err("corrupt turn could not be quarantined"); }
        var message := AssistantId(g);
        db := db.(quarantined := db.quarantined + {
          Quarantine(run, FirstTurnId(g), if message.Some? then Some(Named(message.value)) else None,
                     CorruptMessageCompleted)});
        return Ok(Quarantined);
      }
      if ContentOf(gathered) == [] && gathered.results == [] { return Ok(Skipped); }
      result := WriteTurn(conversation, run, g, fails);
    }

    /** The assistant message and then the tool results, until one of them fails. */
    static method WriteMessages(shadow: map<Id, StoredMessage>, turns: map<string, TurnRow>, conversation: string,
                                run: string, turn: string, drafts: seq<Draft>, fails: Statement -> bool)
      returns (messages: map<Id, StoredMessage>, result: Upserted, id: Option<Id>)
      requires forall i :: 0 <= i < |drafts| ==> drafts[i].blocks != []
      ensures !result.Broken? ==>
        match UpsertAll(shadow, turns, conversation, run, turn, drafts)
        case Wrote(written) => result.Done? && messages == written
        case Conflict(other) => result.Conflicted? && id == Some(other)
        case Constraint => result.Violated?
      ensures result.Broken? <==>
        exists i: nat, s :: Reaches(shadow, turns, conversation, run, turn, drafts, i, s) && fails(s)
    {
      messages := shadow;
      for i := 0 to |drafts|
        invariant UpsertAll(shadow, turns, conversation, run, turn, drafts[..i]) == Wrote(messages)
        invariant forall k: nat, s ::
          k < i && Reaches(shadow, turns, conversation, run, turn, drafts, k, s) ==> !fails(s)
      {
        ReachedNow(shadow, turns, conversation, run, turn, drafts, i, messages);
        messages, result := UpsertMessageBlocks(messages, turns, conversation, run, turn, drafts[i], i, fails);
        if !result.Done? {
          if !result.Broken? {
            FailureStays(shadow, turns, conversation, run, turn, drafts, i + 1);
            NothingReached(shadow, turns, conversation, run, turn, drafts, i + 1);
          }
          return messages, result, Some(drafts[i].id);
        }
      }
      assert drafts[..|drafts|] == drafts;
      return messages, Done, None;
    }

    /** The transaction works on shadow copies of the tables that the commit installs. */
    method WriteTurn(conversation: string, run: string, g: Group, fails: Statement -> bool)
      returns (result: Result<Status, string>)
      modifies this`db
      ensures result.Err? ==> SameTables(old(db), db) && db.quarantined == old(db).quarantined
      ensures result.Ok? ==>
        Outcome(db, result.value) == Materialized(old(db), conversation, run, g) && !result.value.Failed?
      ensures result.Ok? <==>
        !Materialized(old(db), conversation, run, g).status.Failed? && NoneFails(old(db), conversation, run, g, fails)
    {
      var drafts := Drafts(run, g, db.uuids);
      DraftsHaveBlocks(run, g, db.uuids);
      var turn := TurnOf(run, g);
      if !IdsPresent(g) { db := db.(uuids := db.uuids + DrawnUuids(g)); }
      if fails(Begin) || fails(InsertTurn) { return Err("project turn"); }
      var turns := WithTurn(db.turns, turn, TurnRow(run, StartSequence(g), FirstStopReason(g)));
      var messages, written, id := WriteMessages(db.messages, turns, conversation, run, turn, drafts, fails);
      WritingIs(old(db), conversation, run, g, turns, drafts, fails);
      result := EndTurn(run, g, turns, drafts, messages, written, id, fails);
    }

    /** A conflict is put on record behind the rolled back transaction; what is written moves the watermark. */
    method EndTurn(run: string, g: Group, turns: map<string, TurnRow>, drafts: seq<Draft>,
                   messages: map<Id, StoredMessage>, written: Upserted, id: Option<Id>, fails: Statement -> bool)
      returns (result: Result<Status, string>)
      modifies this`db
      ensures result.Err? ==> db == old(db)
      ensures result.Ok? <==>
        (written.Conflicted? && !fails(InsertQuarantine))
        || (written.Done? && !fails(UpsertWatermark) && !fails(Commit))
      ensures result.Ok? && written.Conflicted? ==>
        && result.value == Quarantined
        && db == old(db).(
             quarantined := old(db).quarantined + {Quarantine(run, Some(TurnOf(run, g)), id, ContentConflict)})
      ensures result.Ok? && written.Done? ==>
        var isNew := turns != old(db).turns;
        && result.value == (if isNew then Projected else AlreadyProjected)
        && db == old(db).(turns := turns, messages := messages,
                          watermarks := Advanced(old(db).watermarks, run, LastSequence(g), Ids(drafts), isNew,
                                                 if Gather(g).committed.Some? then 0 else 1))
    {
      match written
      case Broken => return Err("project message");
      case Violated => return Err("constraint");
      case Conflicted =>
        if fails(InsertQuarantine) { return Err("content conflict could not be quarantined"); }
        db := db.(quarantined := db.quarantined + {Quarantine(run, Some(TurnOf(run, g)), id, ContentConflict)});
        return Ok(Quarantined);
      case Done =>
        if fails(UpsertWatermark) || fails(Commit) { return Err("project watermark"); }
        var isNew := turns != db.turns;
        var compat := if Gather(g).committed.Some? then 0 else 1;
        db := db.(turns := turns, messages := messages,
                  watermarks := Advanced(db.watermarks, run, LastSequence(g), Ids(drafts), isNew, compat));
        return Ok(if isNew then Projected else AlreadyProjected);
    }

    /** The statements of a turn are those around its messages and those of its messages. */
    static lemma WritingIs(db: Db, conversation: string, run: string, g: Group, turns: map<string, TurnRow>,
                           drafts: seq<Draft>, fails: Statement -> bool)
      requires turns == WithTurn(db.turns, TurnOf(run, g), TurnRow(run, StartSequence(g), FirstStopReason(g)))
      requires drafts == Drafts(run, g, db.uuids)
      ensures
        var written := UpsertAll(db.messages, turns, conversation, run, TurnOf(run, g), drafts);
        NoneFails(db, conversation, run, g, fails) <==>
        && !fails(Begin) && !fails(InsertTurn)
        && (written.Conflict? ==> !fails(InsertQuarantine))
        && (written.Wrote? ==> !fails(UpsertWatermark) && !fails(Commit))
        && !exists i: nat, s :: Reaches(db.messages, turns, conversation, run, TurnOf(run, g), drafts, i, s) && fails(s)
    {
      forall i: nat, s | Reaches(db.messages, turns, conversation, run, TurnOf(run, g), drafts, i, s)
        ensures Writing(db, conversation, run, g, s)
      {
      }
      if NoneFails(db, conversation, run, g, fails) {
        assert Writing(db, conversation, run, g, Begin) && Writing(db, conversation, run, g, InsertTurn);
      }
    }

    static lemma ReachedNow(messages: map<Id, StoredMessage>, turns: map<string, TurnRow>, conversation: string,
                            run: string, turn: string, drafts: seq<Draft>, i: nat, before: map<Id, StoredMessage>)
      requires i < |drafts| && UpsertAll(messages, turns, conversation, run, turn, drafts[..i]) == Wrote(before)
      ensures UpsertAll(messages, turns, conversation, run, turn, drafts[..i + 1]) ==
              Upsert(before, turns, conversation, run, turn, drafts[i])
      ensures forall s ::
        Reaches(messages, turns, conversation, run, turn, drafts, i, s) <==>
        Upserting(before, turns, turn, drafts[i], i, s)
    {
      assert drafts[..i + 1][..i] == drafts[..i];
    }

    /** Behind a message that was not written no statement of a message is met. */
    static lemma NothingReached(messages: map<Id, StoredMessage>, turns: map<string, TurnRow>, conversation: string,
                                run: string, turn: string, drafts: seq<Draft>, i: nat)
      requires i <= |drafts| && !UpsertAll(messages, turns, conversation, run, turn, drafts[..i]).Wrote?
      ensures forall k: nat, s :: k >= i ==> !Reaches(messages, turns, conversation, run, turn, drafts, k, s)
    {
      forall k | i <= k <= |drafts|
        ensures !UpsertAll(messages, turns, conversation, run, turn, drafts[..k]).Wrote?
      {
        assert drafts[..k][..i] == drafts[..i];
        FailureStays(messages, turns, conversation, run, turn, drafts[..k], i);
      }
    }

    static lemma {:induction false} FailureStays(messages: map<Id, StoredMessage>, turns: map<string, TurnRow>,
                                                 conversation: string, run: string, turn: string, drafts: seq<Draft>,
                                                 i: nat)
      requires i <= |drafts| && !UpsertAll(messages, turns, conversation, run, turn, drafts[..i]).Wrote?
      ensures UpsertAll(messages, turns, conversation, run, turn, drafts)
              == UpsertAll(messages, turns, conversation, run, turn, drafts[..i])
      decreases |drafts| - i
    {
      if i < |drafts| {
        assert drafts[..i + 1][..i] == drafts[..i];
        FailureStays(messages, turns, conversation, run, turn, drafts, i + 1);
      } else {
        assert drafts[..i] == drafts;
      }
    }

    /**
     * The groups after the watermark in order, up to the first one that does not
     * go through; those before it are done for good. The failing statements are
     * the n-th group's. The number reported as projected is that of the turns added.
     */
    method ProjectRunIncremental(conversation: string, run: string, log: seq<Event>, fails: nat -> Statement -> bool)
      returns (result: Result<Report, string>, ghost handled: nat)
      modifies this`db
      ensures
        var groups := Groups(EventsAfter(log, Base(old(db), run)));
        && handled <= |groups|
        && var p := ProjectGroups(old(db), conversation, run, groups[..handled]);
           && p.ok && SameTables(p.db, db) && p.db.quarantined == db.quarantined
           && (result.Ok? ==>
                 && handled == |groups| && db == p.db && result.value == ReportOf(old(db), conversation, run, groups)
                 && |db.turns| == |old(db).turns| + result.value.projected)
           && (result.Err? ==>
                 handled < |groups| && !GoesThrough(p.db, conversation, run, groups[handled], fails(handled)))
           && AllGoThrough(old(db), conversation, run, groups[..handled], fails)
      ensures (forall n, s :: !fails(n)(s)) ==>
        (result.Ok? <==> ProjectIncremental(old(db), conversation, run, log).ok)
    {
      var events := LoadEventsAfter(log, if run in db.watermarks then db.watermarks[run].sequence else 0);
      var groups := GroupTurns(events);
      var report := Report(0, 0, 0);
      for n := 0 to |groups|
        invariant Handled(old(db), db, conversation, run, groups[..n], fails, report)
      {
        handled := n;
        ghost var before := db;
        GroupAt(groups, n);
        PassSplits(old(db), conversation, run, groups[..n], groups[n..]);
        OneGroup(before, conversation, run, groups[n]);
        var status := ProjectCommittedTurn(conversation, run, groups[n], fails(n));
        if status.Err? {
          FirstFails(before, conversation, run, groups[n..]);
          return Err(status.error), handled;
        }
        OneMoreHandled(old(db), before, conversation, run, groups[..n], groups[n], fails, report);
        match status.value
        case Projected => report := report.(projected := report.projected + 1);
        case AlreadyProjected => report := report.(alreadyProjected := report.alreadyProjected + 1);
        case Quarantined => report := report.(quarantined := report.quarantined + 1);
        case _ =>
      }
      assert groups[..|groups|] == groups;
      return Ok(report), |groups|;
    }

    /** All the groups went through, with this report and as many turns added as it says. */
    static ghost predicate Handled(before: Db, after: Db, conversation: string, run: string, groups: seq<Group>,
                                   fails: nat -> Statement -> bool, report: Report) {
      && ProjectGroups(before, conversation, run, groups) == Pass(after, true)
      && report == ReportOf(before, conversation, run, groups)
      && |after.turns| == |before.turns| + report.projected
      && AllGoThrough(before, conversation, run, groups, fails)
    }

    static lemma OneMoreHandled(start: Db, before: Db, conversation: string, run: string, groups: seq<Group>, g: Group,
                                fails: nat -> Statement -> bool, report: Report)
      requires Handled(start, before, conversation, run, groups, fails, report)
      requires GoesThrough(before, conversation, run, g, fails(|groups|))
      ensures
        var o := ProjectGroup(before, conversation, run, g);
        Handled(start, o.db, conversation, run, groups + [g], fails, ReportOf(start, conversation, run, groups + [g]))
      ensures ReportOf(start, conversation, run, groups + [g]) ==
              match ProjectGroup(before, conversation, run, g).status
              case Projected => report.(projected := report.projected + 1)
              case AlreadyProjected => report.(alreadyProjected := report.alreadyProjected + 1)
              case Quarantined => report.(quarantined := report.quarantined + 1)
              case _ => report
    {
      PassSplits(start, conversation, run, groups, [g]);
      OneGroup(before, conversation, run, g);
      assert (groups + [g])[..|groups|] == groups;
    }

    static lemma FirstFails(db: Db, conversation: string, run: string, groups: seq<Group>)
      requires groups != []
      ensures ProjectGroup(db, conversation, run, groups[0]).status.Failed? ==>
        !ProjectGroups(db, conversation, run, groups).ok
    {
    }

    static lemma GroupAt(groups: seq<Group>, n: nat)
      requires n < |groups|
      ensures groups == groups[..n] + groups[n..] && groups[..n + 1] == groups[..n] + [groups[n]]
    {
    }

    static method LoadEventsAfter(log: seq<Event>, sequence: nat) returns (events: seq<Event>)
      ensures events == EventsAfter(log, sequence)
    {
      events := [];
      for i := 0 to |log|
        invariant events + EventsAfter(log[i..], sequence) == EventsAfter(log, sequence)
      {
        assert log[i..][1..] == log[i + 1..];
        if log[i].sequence > sequence { events := events + [log[i]]; }
      }
    }

    static lemma OneGroup(db: Db, conversation: string, run: string, g: Group)
      ensures
        var o := ProjectGroup(db, conversation, run, g);
        ProjectGroups(db, conversation, run, [g]) == Pass(o.db, !o.status.Failed?)
    {
      assert [g][1..] == [];
    }
  }
}
