/** How grouping behaves when a log grows, and which logs are typed. */
module ProjectorGroups {
  import opened ProjectorState

  predicate IsCompleted(e: Event) {
    e.payload.TurnCompleted?
  }

  /** After a TurnCompleted the scan starts afresh. */
  lemma ClosedAtCompleted(log: seq<Event>)
    requires log == [] || IsCompleted(log[|log| - 1])
    ensures ScanOf(log).current == [] && Groups(log) == ScanOf(log).closed
  {
  }

  /** Groups closed before do not matter to a step. */
  lemma StepBehind(closed: seq<Group>, s: Scan, e: Event)
    ensures ScanStep(Scan(closed + s.closed, s.current), e) ==
            Scan(closed + ScanStep(s, e).closed, ScanStep(s, e).current)
  {
  }

  /** Grouping distributes over a split where the scan is between groups. */
  lemma {:induction false} ScanSplits(front: seq<Event>, back: seq<Event>)
    requires ScanOf(front).current == []
    ensures ScanOf(front + back) == Scan(ScanOf(front).closed + ScanOf(back).closed, ScanOf(back).current)
  {
    if back == [] {
      assert front + back == front;
    } else {
      ScanSplits(front, back[..|back| - 1]);
      assert (front + back)[..|front + back| - 1] == front + back[..|back| - 1];
      StepBehind(ScanOf(front).closed, ScanOf(back[..|back| - 1]), back[|back| - 1]);
    }
  }

  lemma GroupsSplit(front: seq<Event>, back: seq<Event>)
    requires front == [] || IsCompleted(front[|front| - 1])
    ensures Groups(front + back) == Groups(front) + Groups(back)
  {
    ClosedAtCompleted(front);
    ScanSplits(front, back);
  }

  /** Grouping loses, adds and reorders nothing. */
  function Flattened(groups: seq<Group>): seq<Event> {
    if groups == [] then [] else Flattened(groups[..|groups| - 1]) + groups[|groups| - 1]
  }

  /** All the events a scan holds, in order. */
  function Spread(s: Scan): seq<Event> {
    Flattened(s.closed) + s.current
  }

  lemma OpensNext(s: Scan)
    ensures Spread(Scan(s.closed + [s.current], [])) == Spread(s)
  {
    FlattenedSnoc(s.closed, s.current);
  }

  lemma TakesIn(s: Scan, e: Event)
    ensures Spread(Scan(s.closed, s.current + [e])) == Spread(s) + [e]
  {
  }

  lemma StepKeepsEvents(s: Scan, e: Event)
    ensures Spread(ScanStep(s, e)) == Spread(s) + [e]
  {
    var begun := if e.payload.TurnStarted? && s.current != [] then Scan(s.closed + [s.current], []) else s;
    OpensNext(s);
    TakesIn(begun, e);
    OpensNext(Scan(begun.closed, begun.current + [e]));
  }

  lemma {:induction false} ScanKeepsEvents(log: seq<Event>)
    ensures Spread(ScanOf(log)) == log
  {
    if log != [] {
      var before := ScanOf(log[..|log| - 1]);
      ScanKeepsEvents(log[..|log| - 1]);
      StepKeepsEvents(before, log[|log| - 1]);
      assert log == log[..|log| - 1] + [log[|log| - 1]];
    }
  }

  lemma FlattenedSnoc(groups: seq<Group>, g: Group)
    ensures Flattened(groups + [g]) == Flattened(groups) + g
  {
    assert (groups + [g])[..|groups|] == groups;
  }

  lemma GroupsKeepEvents(log: seq<Event>)
    ensures Flattened(Groups(log)) == log
  {
    ScanKeepsEvents(log);
    OpensNext(ScanOf(log));
  }

  // ---- Typed logs ----

  predicate Quiet(e: Event) {
    e.payload.Other? || e.payload.MessageStarted? || (e.payload.MessageCompleted? && e.payload.content.None?)
  }

  /**
   * All content lies inside a turn, a turn is started once and completed last,
   * and a completed turn names the messages it commits.
   */
  predicate TypedGroup(g: Group) {
    if g != [] && g[0].payload.TurnStarted? then
      && (forall i :: 0 < i < |g| ==> !g[i].payload.TurnStarted?)
      && (HasCompleted(g) ==> IsCompleted(g[|g| - 1]) && IdsPresent(g))
    else forall i :: 0 <= i < |g| ==> Quiet(g[i])
  }

  predicate AllTyped(groups: seq<Group>) {
    forall i :: 0 <= i < |groups| ==> TypedGroup(groups[i])
  }

  predicate Typed(log: seq<Event>) {
    AllTyped(Groups(log))
  }

  /** Sequences start at 1 and grow. */
  predicate Ordered(log: seq<Event>) {
    && (forall i :: 0 <= i < |log| ==> log[i].sequence >= 1)
    && (forall i, j :: 0 <= i < j < |log| ==> log[i].sequence < log[j].sequence)
  }

  lemma TypedSplits(front: seq<Event>, back: seq<Event>)
    requires front == [] || IsCompleted(front[|front| - 1])
    requires Typed(front + back)
    ensures Typed(front) && Typed(back)
  {
    GroupsSplit(front, back);
    PartsAreTyped(Groups(front), Groups(back));
  }

  lemma PartsAreTyped(front: seq<Group>, back: seq<Group>)
    requires AllTyped(front + back)
    ensures AllTyped(front) && AllTyped(back)
  {
    assert forall i :: 0 <= i < |front| ==> (front + back)[i] == front[i];
    assert forall i :: 0 <= i < |back| ==> (front + back)[|front| + i] == back[i];
  }

  lemma OrderedSplits(front: seq<Event>, back: seq<Event>)
    requires Ordered(front + back)
    ensures Ordered(front) && Ordered(back)
    ensures forall i, j :: 0 <= i < |front| && 0 <= j < |back| ==> front[i].sequence < back[j].sequence
  {
    var log := front + back;
    assert forall i :: 0 <= i < |front| ==> log[i] == front[i];
    assert forall j :: 0 <= j < |back| ==> log[|front| + j] == back[j];
  }

  lemma {:induction false} QuietGathersNothing(g: Group)
    requires forall i :: 0 <= i < |g| ==> Quiet(g[i])
    ensures Gather(g) == NOTHING
  {
    if g != [] {
      QuietGathersNothing(g[..|g| - 1]);
      assert Quiet(g[|g| - 1]);
    }
  }

  /** In a typed log only a completed turn is anything but skipped. */
  lemma OpenIsSkipped(g: Group)
    requires TypedGroup(g) && !HasCompleted(g)
    ensures Classify(g) == Skip
  {
    if g == [] || !g[0].payload.TurnStarted? {
      QuietGathersNothing(g);
    } else {
      assert HasStart(g);
    }
  }

  lemma {:induction false} ScanHasNoCompleted(log: seq<Event>)
    requires forall i :: 0 <= i < |log| ==> !IsCompleted(log[i])
    ensures forall i :: 0 <= i < |ScanOf(log).closed| ==> !HasCompleted(ScanOf(log).closed[i])
    ensures !HasCompleted(ScanOf(log).current)
  {
    if log != [] {
      ScanHasNoCompleted(log[..|log| - 1]);
    }
  }

  lemma NoneCompletedNoneProjected(log: seq<Event>)
    requires Typed(log)
    requires forall i :: 0 <= i < |log| ==> !IsCompleted(log[i])
    ensures forall i :: 0 <= i < |Groups(log)| ==> Classify(Groups(log)[i]) == Skip
  {
    ScanHasNoCompleted(log);
    forall i | 0 <= i < |Groups(log)| ensures Classify(Groups(log)[i]) == Skip {
      OpenIsSkipped(Groups(log)[i]);
    }
  }

  lemma {:induction false} CurrentIsSuffix(log: seq<Event>)
    ensures |ScanOf(log).current| <= |log| && ScanOf(log).current == log[|log| - |ScanOf(log).current|..]
  {
    if log != [] {
      CurrentIsSuffix(log[..|log| - 1]);
      SuffixGrows(log, ScanOf(log[..|log| - 1]).current);
    }
  }

  lemma SuffixGrows(log: seq<Event>, current: Group)
    requires log != [] && |current| < |log| && current == log[..|log| - 1][|log| - 1 - |current|..]
    ensures current + [log[|log| - 1]] == log[|log| - 1 - |current|..]
    ensures [log[|log| - 1]] == log[|log| - 1..]
  {
  }

  predicate SkippedButLast(groups: seq<Group>) {
    groups != [] && forall i :: 0 <= i < |groups| - 1 ==> Classify(groups[i]) == Skip
  }

  /** The groups up to the first TurnCompleted: skipped ones, then the one that it closes. */
  lemma FirstTurn(log: seq<Event>)
    requires log != [] && Typed(log) && IsCompleted(log[|log| - 1])
    requires forall i :: 0 <= i < |log| - 1 ==> !IsCompleted(log[i])
    ensures SkippedButLast(Groups(log))
    ensures
      var last := Groups(log)[|Groups(log)| - 1];
      0 < |last| <= |log| && last == log[|log| - |last|..] && HasCompleted(last)
  {
    var open, e := ScanOf(log[..|log| - 1]), log[|log| - 1];
    ScanHasNoCompleted(log[..|log| - 1]);
    ClosesOpen(log);
    CurrentIsSuffix(log[..|log| - 1]);
    SuffixGrows(log, open.current);
    ClosedHasCompleted(open.current, e);
    AllButLastSkipped(open.closed, open.current + [e]);
  }

  lemma ClosedHasCompleted(current: Group, e: Event)
    requires IsCompleted(e)
    ensures HasCompleted(current + [e])
  {
    assert (current + [e])[|current|] == e;
  }

  lemma AllButLastSkipped(closed: seq<Group>, last: Group)
    requires AllTyped(closed + [last]) && forall i :: 0 <= i < |closed| ==> !HasCompleted(closed[i])
    ensures SkippedButLast(closed + [last])
  {
    forall i | 0 <= i < |closed| ensures Classify((closed + [last])[i]) == Skip {
      OpenIsSkipped((closed + [last])[i]);
    }
  }

  /** A TurnCompleted closes the group being filled. */
  lemma ClosesOpen(log: seq<Event>)
    requires log != [] && IsCompleted(log[|log| - 1])
    ensures
      var open := ScanOf(log[..|log| - 1]);
      Groups(log) == open.closed + [open.current + [log[|log| - 1]]]
  {
  }

  // ---- The sequence of a group ----

  lemma {:induction false} LastSequenceBounds(g: Group)
    ensures forall i :: 0 <= i < |g| ==> g[i].sequence <= LastSequence(g)
    ensures g != [] ==> exists i :: 0 <= i < |g| && g[i].sequence == LastSequence(g)
  {
    if |g| > 1 {
      LastSequenceBounds(g[1..]);
      var i :| 0 <= i < |g[1..]| && g[1..][i].sequence == LastSequence(g[1..]);
      assert g[i + 1].sequence == LastSequence(g[1..]);
      assert g[0].sequence == g[0].sequence;
    } else if |g| == 1 {
      assert g[1..] == [];
      assert g[0].sequence == LastSequence(g);
    }
  }

  /** In order, the last event's. */
  lemma LastSequenceIsLast(g: Group)
    requires g != [] && Ordered(g)
    ensures LastSequence(g) == g[|g| - 1].sequence
  {
    LastSequenceBounds(g);
    var i :| 0 <= i < |g| && g[i].sequence == LastSequence(g);
    assert g[i].sequence <= g[|g| - 1].sequence;
  }
}
