/** The incremental pass, which starts after the watermark, refines the pass over the whole log. */
module ProjectorIncremental {
  import opened ProjectorGroups
  import opened ProjectorSafety
  import opened ProjectorState

  predicate AllPast(log: seq<Event>, floor: nat) {
    forall i :: 0 <= i < |log| ==> log[i].sequence > floor
  }

  lemma {:induction false} EventsAfterAll(log: seq<Event>, floor: nat)
    requires AllPast(log, floor)
    ensures EventsAfter(log, floor) == log
  {
    if log != [] {
      EventsAfterAll(log[1..], floor);
      assert log == [log[0]] + log[1..];
    }
  }

  lemma {:induction false} EventsAfterSplit(front: seq<Event>, back: seq<Event>, floor: nat)
    requires forall i :: 0 <= i < |front| ==> front[i].sequence <= floor
    ensures EventsAfter(front + back, floor) == EventsAfter(back, floor)
  {
    if front == [] {
      assert front + back == back;
    } else {
      EventsAfterSplit(front[1..], back, floor);
      assert (front + back)[1..] == front[1..] + back;
      assert EventsAfter(front + back, floor) == [] + EventsAfter(front[1..] + back, floor);
    }
  }

  lemma {:induction false} PassSplits(db: Db, conversation: string, run: string, first: seq<Group>, second: seq<Group>)
    ensures
      var p := ProjectGroups(db, conversation, run, first);
      ProjectGroups(db, conversation, run, first + second) ==
        if p.ok then ProjectGroups(p.db, conversation, run, second) else p
    decreases |first|
  {
    if first == [] {
      assert first + second == second;
    } else {
      PassSplits(ProjectGroup(db, conversation, run, first[0]).db, conversation, run, first[1..], second);
      assert (first + second)[1..] == first[1..] + second;
    }
  }

  lemma {:induction false} SkippedPass(db: Db, conversation: string, run: string, groups: seq<Group>)
    requires forall i :: 0 <= i < |groups| ==> Classify(groups[i]) == Skip
    ensures ProjectGroups(db, conversation, run, groups) == Pass(db, true)
    decreases |groups|
  {
    if groups != [] {
      SkippedPass(db, conversation, run, groups[1..]);
    }
  }

  /** Skipped groups and then one: the pass is that one's. */
  lemma LastDecides(db: Db, conversation: string, run: string, groups: seq<Group>)
    requires SkippedButLast(groups)
    ensures
      var o := ProjectGroup(db, conversation, run, groups[|groups| - 1]);
      ProjectGroups(db, conversation, run, groups) == Pass(o.db, !o.status.Failed?)
  {
    var front := groups[..|groups| - 1];
    var last := groups[|groups| - 1];
    SkippedPass(db, conversation, run, front);
    PassSplits(db, conversation, run, front, [last]);
    assert groups == front + [last];
    assert ProjectGroups(db, conversation, run, [last]) ==
      Pass(ProjectGroup(db, conversation, run, last).db, !ProjectGroup(db, conversation, run, last).status.Failed?) by {
      assert [last][1..] == [];
    }
  }

  /** A pass over groups past `floor` moves the watermark past it or leaves the tables alone. */
  lemma {:induction false} AdvancesOrIdle(db: Db, conversation: string, run: string, groups: seq<Group>, floor: nat)
    requires AllTyped(groups)
    requires forall i :: 0 <= i < |groups| ==> LastSequence(groups[i]) > floor
    ensures
      var last := ProjectGroups(db, conversation, run, groups).db;
      && last.uuids == db.uuids && db.quarantined <= last.quarantined
      && (SameTables(db, last) || Base(last, run) > floor)
    decreases |groups|
  {
    if groups != [] {
      var first := ProjectGroup(db, conversation, run, groups[0]);
      AllOrNothing(db, conversation, run, groups[0]);
      GroupGrows(db, conversation, run, groups[0]);
      if Classify(groups[0]) == Materialize {
        TypedHasIds(groups[0]);
      }
      if !first.status.Failed? {
        AdvancesOrIdle(first.db, conversation, run, groups[1..], floor);
        if first.status.Projected? || first.status.AlreadyProjected? {
          PassStaysPast(first.db, conversation, run, groups[1..], floor + 1);
        }
      }
    }
  }

  /** A group that wrote nothing writes nothing again, and its quarantine is already there. */
  lemma RepeatsNothing(db: Db, conversation: string, run: string, g: Group, later: Db)
    requires TypedGroup(g)
    requires var s := ProjectGroup(db, conversation, run, g).status; s.Quarantined? || s.Skipped?
    requires var o := ProjectGroup(db, conversation, run, g);
      SameTables(o.db, later) && o.db.quarantined <= later.quarantined && o.db.uuids == later.uuids
    ensures ProjectGroup(later, conversation, run, g) == Outcome(later, ProjectGroup(db, conversation, run, g).status)
  {
    AllOrNothing(db, conversation, run, g);
    if Classify(g) == Materialize {
      TypedHasIds(g);
      SameDrafts(run, g, db.uuids, later.uuids);
    }
  }

  /** Where the first completed turn of a log ends. */
  function FirstTurnEnd(log: seq<Event>): (end: nat)
    requires exists i :: 0 <= i < |log| && IsCompleted(log[i])
    ensures 0 < end <= |log| && IsCompleted(log[end - 1])
    ensures forall i :: 0 <= i < end - 1 ==> !IsCompleted(log[i])
  {
    if IsCompleted(log[0]) then 1
    else
      assert log[1..] != [] && exists i :: 0 <= i < |log[1..]| && IsCompleted(log[1..][i]) by {
        var i :| 0 <= i < |log| && IsCompleted(log[i]);
        assert log[1..][i - 1] == log[i];
      }
      var rest := FirstTurnEnd(log[1..]);
      assert forall i :: 0 <= i < rest ==> log[1..][i] == log[i + 1];
      assert forall i :: 0 < i < rest ==> log[i] == log[1..][i - 1];
      rest + 1
  }

  function LastGroup(front: seq<Event>): Group {
    if Groups(front) == [] then [] else Groups(front)[|Groups(front)| - 1]
  }

  /** The first completed turn of a typed log, and what follows it. */
  lemma FirstTurnPass(db: Db, conversation: string, run: string, front: seq<Event>, back: seq<Event>)
    requires front != [] && IsCompleted(front[|front| - 1])
    requires forall i :: 0 <= i < |front| - 1 ==> !IsCompleted(front[i])
    requires Typed(front + back) && Ordered(front + back)
    ensures TypedGroup(LastGroup(front)) && LastSequence(LastGroup(front)) == front[|front| - 1].sequence
    ensures
      var o := ProjectGroup(db, conversation, run, LastGroup(front));
      ProjectFull(db, conversation, run, front + back) ==
        if o.status.Failed? then Pass(o.db, false) else ProjectFull(o.db, conversation, run, back)
  {
    TypedSplits(front, back);
    OrderedSplits(front, back);
    GroupsSplit(front, back);
    FirstTurn(front);
    LastSequenceIsLast(LastGroup(front));
    LastDecides(db, conversation, run, Groups(front));
    PassSplits(db, conversation, run, Groups(front), Groups(back));
  }

  /** What a group leaves of the watermark, in a log past it. */
  lemma GroupMoves(db: Db, conversation: string, run: string, g: Group)
    requires TypedGroup(g) && LastSequence(g) > Base(db, run)
    ensures
      var o := ProjectGroup(db, conversation, run, g);
      match o.status
      case Projected => run in o.db.watermarks && Base(o.db, run) == LastSequence(g)
      case AlreadyProjected => run in o.db.watermarks && Base(o.db, run) == LastSequence(g)
      case Failed => o.db == db
      case _ => SameTables(db, o.db)
  {
    if Classify(g) == Materialize {
      TypedHasIds(g);
    }
    AllOrNothing(db, conversation, run, g);
  }

  /**
   * What a pass over a prefix leaves, the incremental pass over the longer log
   * completes: the result, quarantines and failure included, is that of one
   * pass over the whole log.
   */
  lemma {:induction false} Resume(db: Db, conversation: string, run: string, seen: seq<Event>, more: seq<Event>)
    requires Typed(seen) && Typed(seen + more) && Ordered(seen + more) && AllPast(seen + more, Base(db, run))
    ensures ProjectIncremental(ProjectFull(db, conversation, run, seen).db, conversation, run, seen + more)
            == ProjectFull(db, conversation, run, seen + more)
    decreases |seen|, 1
  {
    if exists i :: 0 <= i < |seen| && IsCompleted(seen[i]) {
      var front, rest := CutAtTurn(seen, more);
      ResumeAfterTurn(db, conversation, run, front, rest, more);
    } else {
      NoneCompletedNoneProjected(seen);
      SkippedPass(db, conversation, run, Groups(seen));
      EventsAfterAll(seen + more, Base(db, run));
    }
  }

  lemma CutAtTurn(seen: seq<Event>, more: seq<Event>) returns (front: seq<Event>, rest: seq<Event>)
    requires exists i :: 0 <= i < |seen| && IsCompleted(seen[i])
    ensures front != [] && IsCompleted(front[|front| - 1])
    ensures forall i :: 0 <= i < |front| - 1 ==> !IsCompleted(front[i])
    ensures seen == front + rest && seen + more == front + (rest + more) && |seen| == |front| + |rest|
  {
    var end := FirstTurnEnd(seen);
    front, rest := seen[..end], seen[end..];
  }

  /** How a log splits at its first completed turn, for a longer log too. */
  lemma SplitsAtTurn(front: seq<Event>, rest: seq<Event>, more: seq<Event>)
    requires front != [] && IsCompleted(front[|front| - 1])
    requires Typed(front + rest) && Typed(front + (rest + more)) && Ordered(front + (rest + more))
    ensures Typed(rest) && Typed(rest + more) && Ordered(rest + more) && Ordered(front + rest)
    ensures AllPast(rest + more, front[|front| - 1].sequence) && AllPast(rest, front[|front| - 1].sequence)
    ensures forall i :: 0 <= i < |front| ==> front[i].sequence <= front[|front| - 1].sequence
  {
    TypedSplits(front, rest);
    TypedSplits(front, rest + more);
    OrderedSplits(front, rest + more);
    OrderedPrefix(front, rest, more);
    PastTheFront(front, rest + more);
    PastTheFront(front, rest);
  }

  lemma OrderedPrefix(front: seq<Event>, rest: seq<Event>, more: seq<Event>)
    requires Ordered(front + (rest + more))
    ensures Ordered(front + rest)
  {
    assert front + (rest + more) == (front + rest) + more;
    OrderedSplits(front + rest, more);
  }

  lemma PastTheFront(front: seq<Event>, back: seq<Event>)
    requires front != [] && Ordered(front + back)
    ensures AllPast(back, front[|front| - 1].sequence)
    ensures forall i :: 0 <= i < |front| ==> front[i].sequence <= front[|front| - 1].sequence
  {
    OrderedSplits(front, back);
  }

  /** The turn was written: the incremental pass starts after it. */
  lemma ResumePastTurn(db: Db, conversation: string, run: string, front: seq<Event>, back: seq<Event>, later: Db)
    requires front != [] && Base(later, run) >= front[|front| - 1].sequence
    requires forall i :: 0 <= i < |front| ==> front[i].sequence <= front[|front| - 1].sequence
    ensures ProjectIncremental(later, conversation, run, front + back) ==
      ProjectIncremental(later, conversation, run, back)
  {
    EventsAfterSplit(front, back, Base(later, run));
  }

  /** Nothing was written: the incremental pass starts over and finds the turn as settled as before. */
  lemma ResumeOverTurn(db: Db, conversation: string, run: string, front: seq<Event>, back: seq<Event>, later: Db)
    requires front != [] && IsCompleted(front[|front| - 1])
    requires forall i :: 0 <= i < |front| - 1 ==> !IsCompleted(front[i])
    requires Typed(front + back) && Ordered(front + back)
    requires AllPast(front + back, Base(later, run)) && AllPast(back, Base(later, run))
    requires
      var o := ProjectGroup(db, conversation, run, LastGroup(front));
      && (o.status.Quarantined? || o.status.Skipped?)
      && SameTables(o.db, later) && o.db.quarantined <= later.quarantined && o.db.uuids == later.uuids
    ensures ProjectIncremental(later, conversation, run, front + back) ==
      ProjectIncremental(later, conversation, run, back)
  {
    EventsAfterAll(front + back, Base(later, run));
    EventsAfterAll(back, Base(later, run));
    FirstTurnPass(later, conversation, run, front, back);
    RepeatsNothing(db, conversation, run, LastGroup(front), later);
  }

  lemma {:induction false} ResumeAfterTurn(db: Db, conversation: string, run: string,
                                           front: seq<Event>, rest: seq<Event>, more: seq<Event>)
    requires front != [] && IsCompleted(front[|front| - 1])
    requires forall i :: 0 <= i < |front| - 1 ==> !IsCompleted(front[i])
    requires Typed(front + rest) && Typed(front + (rest + more)) && Ordered(front + (rest + more))
    requires AllPast(front + (rest + more), Base(db, run))
    ensures ProjectIncremental(ProjectFull(db, conversation, run, front + rest).db, conversation, run,
                               front + (rest + more))
            == ProjectFull(db, conversation, run, front + (rest + more))
    decreases |front| + |rest|, 0
  {
    var g := LastGroup(front);
    var o := ProjectGroup(db, conversation, run, g);
    var d := ProjectFull(db, conversation, run, front + rest).db;
    var end := front[|front| - 1].sequence;
    SplitsAtTurn(front, rest, more);
    FirstTurnPass(db, conversation, run, front, rest);
    FirstTurnPass(db, conversation, run, front, rest + more);
    assert (front + (rest + more))[|front| - 1].sequence == end;
    GroupMoves(db, conversation, run, g);
    GroupGrows(db, conversation, run, g);
    if o.status.Failed? {
      EventsAfterAll(front + (rest + more), Base(db, run));
    } else {
      assert AllPast(rest + more, Base(o.db, run));
      Resume(o.db, conversation, run, rest, more);
      GroupsArePast(rest, end);
      if o.status.Projected? || o.status.AlreadyProjected? {
        PassStaysPast(o.db, conversation, run, Groups(rest), end);
      } else {
        AdvancesOrIdle(o.db, conversation, run, Groups(rest), end);
      }
      if Base(d, run) >= end {
        ResumePastTurn(db, conversation, run, front, rest + more, d);
      } else {
        ResumeOverTurn(db, conversation, run, front, rest + more, d);
      }
    }
  }

  // ---- Any number of batches ----

  function Concatenated(batches: seq<seq<Event>>): seq<Event> {
    if batches == [] then [] else Concatenated(batches[..|batches| - 1]) + batches[|batches| - 1]
  }

  /** An incremental pass after each batch, over the log so far; the last one's result counts. */
  function ProjectBatches(db: Db, conversation: string, run: string, batches: seq<seq<Event>>): Pass {
    if batches == [] then Pass(db, true)
    else
      var before := ProjectBatches(db, conversation, run, batches[..|batches| - 1]);
      ProjectIncremental(before.db, conversation, run, Concatenated(batches))
  }

  /** Every prefix of a typed log is typed. */
  lemma {:induction false} PrefixIsTyped(log: seq<Event>, n: nat)
    requires Typed(log) && n <= |log|
    ensures Typed(log[..n])
    decreases |log| - n
  {
    if n < |log| {
      PrefixIsTyped(log, n + 1);
      assert log[..n + 1] == log[..n] + [log[n]];
      TypedLess(log[..n], log[n]);
    } else {
      assert log[..n] == log;
    }
  }

  lemma TypedLess(log: seq<Event>, e: Event)
    requires Typed(log + [e])
    ensures Typed(log)
  {
    assert (log + [e])[..|log|] == log;
    var before := ScanOf(log);
    var after := Groups(log + [e]);
    CurrentHasNoCompleted(log);
    forall i | 0 <= i < |Groups(log)| ensures TypedGroup(Groups(log)[i]) {
      assert TypedGroup(after[i]);
      if i < |before.closed| || e.payload.TurnStarted? {
        assert after[i] == Groups(log)[i];
      } else {
        assert after[i] == before.current + [e] && Groups(log)[i] == before.current;
        assert forall k :: 0 <= k < |before.current| ==> after[i][k] == before.current[k];
      }
    }
  }

  /**
   * Incremental refines full. A typed log cut into batches anywhere, also in
   * the middle of a turn, with an incremental pass after each batch, ends in
   * the same turns, messages, blocks, quarantines and watermark as one pass
   * over the whole log.
   */
  lemma {:induction false} IncrementalRefinesFull(db: Db, conversation: string, run: string, batches: seq<seq<Event>>)
    requires Typed(Concatenated(batches)) && Ordered(Concatenated(batches))
    requires AllPast(Concatenated(batches), Base(db, run))
    ensures ProjectBatches(db, conversation, run, batches) == ProjectFull(db, conversation, run, Concatenated(batches))
  {
    if batches != [] {
      var front := Concatenated(batches[..|batches| - 1]);
      var last := batches[|batches| - 1];
      var log := Concatenated(batches);
      PrefixIsTyped(log, |front|);
      assert log[..|front|] == front;
      OrderedSplits(front, last);
      assert forall i :: 0 <= i < |front| ==> log[i] == front[i];
      IncrementalRefinesFull(db, conversation, run, batches[..|batches| - 1]);
      Resume(db, conversation, run, front, last);
    }
  }
}
