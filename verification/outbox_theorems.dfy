/** What the outbox protocol guarantees over whole runs, crashes and recoveries included. */
module OutboxTheorems {
  import opened Wrappers
  import opened OutboxProtocol

  lemma {:induction false} RunKeeps(w: World, events: seq<Event>)
    requires Inv(w) && IsRun(w, events)
    ensures Inv(After(w, events))
    decreases |events|
  {
    if events != [] {
      StepKeeps(w, events[0]);
      RunKeeps(Next(w, events[0]), events[1..]);
    }
  }

  lemma Reached(events: seq<Event>)
    requires IsRun(EMPTY_WORLD, events)
    ensures Inv(After(EMPTY_WORLD, events))
  {
    RunKeeps(EMPTY_WORLD, events);
  }

  lemma ExtendsIsTransitive(a: World, b: World, c: World)
    requires Extends(a, b) && Extends(b, c)
    ensures Extends(a, c)
  {
    forall row | 0 <= row < |a.outbox|
      ensures c.outbox[row] == a.outbox[row] || c.outbox[row] == a.outbox[row].(delivered := true)
    {
      assert b.outbox[row] == a.outbox[row] || b.outbox[row] == a.outbox[row].(delivered := true);
    }
  }

  /**
   * A settled interaction keeps its status and response for ever, a committed
   * row keeps its decision and once delivered stays so, and no event is lost.
   */
  lemma {:induction false} RunExtends(w: World, events: seq<Event>)
    requires IsRun(w, events)
    ensures Extends(w, After(w, events))
    decreases |events|
  {
    if events != [] {
      StepExtends(w, events[0]);
      RunExtends(Next(w, events[0]), events[1..]);
      ExtendsIsTransitive(w, Next(w, events[0]), After(w, events));
    }
  }

  /**
   * However many responders race, two rows of one interaction are the same
   * row, so at most one decision of an interaction ever commits through
   * respond, and the interaction holds that decision in every later state.
   */
  lemma AtMostOneDecision(past: seq<Event>, future: seq<Event>, row: nat, other: nat)
    requires IsRun(EMPTY_WORLD, past) && IsRun(After(EMPTY_WORLD, past), future)
    requires row < |After(EMPTY_WORLD, past).outbox|
    requires other < |After(After(EMPTY_WORLD, past), future).outbox|
    ensures
      var before, later := After(EMPTY_WORLD, past), After(After(EMPTY_WORLD, past), future);
      var id := before.outbox[row].interaction;
      && (later.outbox[other].interaction == id ==> other == row)
      && id in later.interactions
      && later.interactions[id].status == Resolved
      && later.interactions[id].response == Some(before.outbox[row].response)
  {
    var before := After(EMPTY_WORLD, past);
    var later := After(before, future);
    Reached(past);
    RunKeeps(before, future);
    RunExtends(before, future);
    assert Decides(later, later.outbox[row]);
    assert row < other ==> later.outbox[row].interaction != later.outbox[other].interaction;
    assert other < row ==> later.outbox[other].interaction != later.outbox[row].interaction;
  }

  /** The events of one interaction. */
  function EventsOf(events: seq<Responded>, id: string): seq<Responded> {
    if events == [] then []
    else
      EventsOf(events[..|events| - 1], id)
      + (if events[|events| - 1].interaction == id then [events[|events| - 1]] else [])
  }

  lemma {:induction false} EventsOfRow(w: World, row: nat, events: seq<Responded>)
    requires OneDecision(w) && row < |w.outbox|
    requires forall e :: e in events ==> SaysDecision(w, e)
    ensures |EventsOf(events, w.outbox[row].interaction)| == Count(events, row)
    ensures forall e :: e in EventsOf(events, w.outbox[row].interaction) ==> e.response == w.outbox[row].response
  {
    if events != [] {
      EventsOfRow(w, row, events[..|events| - 1]);
      assert SaysDecision(w, events[|events| - 1]);
    }
  }

  /**
   * Every event of a decided interaction says what was decided, and there are
   * at most one more of them than attempts cut off between append and mark:
   * exactly the cut ones, plus one for the attempt that was marked or is past
   * its append now.
   */
  lemma EventsAreBounded(events: seq<Event>, row: nat)
    requires IsRun(EMPTY_WORLD, events)
    requires row < |After(EMPTY_WORLD, events).outbox|
    ensures
      var w := After(EMPTY_WORLD, events);
      var told := EventsOf(w.events, w.outbox[row].interaction);
      && (forall e :: e in told ==> e.response == w.outbox[row].response)
      && |told| <= Cut(w, row) + 1
      && (HasRun(w.outbox[row].runId) ==>
            |told| == Cut(w, row) + (if w.outbox[row].delivered || PastAppend(w, row) then 1 else 0))
      && (!HasRun(w.outbox[row].runId) ==> told == [])
  {
    var w := After(EMPTY_WORLD, events);
    Reached(events);
    EventsOfRow(w, row, w.events);
    assert Balanced(w, row);
    if !HasRun(w.outbox[row].runId) {
      NoEventOf(w, row, w.events);
    }
  }

  lemma {:induction false} NoEventOf(w: World, row: nat, events: seq<Responded>)
    requires row < |w.outbox| && !HasRun(w.outbox[row].runId)
    requires forall e :: e in events ==> SaysDecision(w, e)
    ensures Count(events, row) == 0
  {
    if events != [] {
      NoEventOf(w, row, events[..|events| - 1]);
      assert SaysDecision(w, events[|events| - 1]);
    }
  }

  lemma CountedIsThere(events: seq<Responded>, row: nat)
    requires Count(events, row) > 0
    ensures exists i :: 0 <= i < |events| && events[i].row == row
  {
    if events[|events| - 1].row != row {
      CountedIsThere(events[..|events| - 1], row);
    }
  }

  /**
   * No waiter is woken and no row is marked delivered before the event that
   * says so is in the log, for decisions that belong to a run.
   */
  lemma EventComesFirst(events: seq<Event>, row: nat)
    requires IsRun(EMPTY_WORLD, events)
    requires row < |After(EMPTY_WORLD, events).outbox| && HasRun(After(EMPTY_WORLD, events).outbox[row].runId)
    requires After(EMPTY_WORLD, events).outbox[row].delivered || row in After(EMPTY_WORLD, events).woken
    ensures
      var w := After(EMPTY_WORLD, events);
      exists i :: 0 <= i < |w.events| && w.events[i].row == row
                  && w.events[i].response == w.outbox[row].response
  {
    var w := After(EMPTY_WORLD, events);
    Reached(events);
    assert Balanced(w, row);
    CountedIsThere(w.events, row);
    var i :| 0 <= i < |w.events| && w.events[i].row == row;
    assert SaysDecision(w, w.events[i]);
  }

  // ---- Recovery ----

  predicate FaultFree(e: Event) {
    match e
    case AppendEvent(_, ok) => ok
    case MarkDelivered(_, ok) => ok
    case Crash => false
    case _ => true
  }

  /** While recovery runs, every undelivered row is ahead of it or in its hands. */
  predicate Covered(w: World) {
    && !w.serving && w.replaying.Some?
    && forall row :: 0 <= row < |w.outbox| ==> Undelivered(w, row) ==>
         row in w.replaying.value || row in w.attempts
  }

  lemma StepKeepsCovered(w: World, e: Event)
    requires Inv(w) && Covered(w) && Enabled(w, e) && FaultFree(e) && !e.Serve?
    ensures Covered(Next(w, e))
  {
    var w' := Next(w, e);
    forall row | 0 <= row < |w'.outbox| && Undelivered(w', row)
      ensures row in w'.replaying.value || row in w'.attempts
    {
      assert Undelivered(w, row);
      if e.RecoverNext? && row in w.replaying.value && row != w.replaying.value[0] {
        assert w.replaying.value == [w.replaying.value[0]] + w'.replaying.value;
      }
    }
  }

  lemma {:induction false} RecoveryCovers(w: World, events: seq<Event>)
    requires Inv(w) && Covered(w) && IsRun(w, events)
    requires forall e :: e in events ==> FaultFree(e) && !e.Serve?
    ensures Covered(After(w, events))
    decreases |events|
  {
    if events != [] {
      StepKeepsCovered(w, events[0]);
      StepKeeps(w, events[0]);
      RecoveryCovers(Next(w, events[0]), events[1..]);
    }
  }

  /**
   * A recovery in which no append or mark fails and the daemon does not die
   * leaves no undelivered row when the socket opens, whatever was inserted,
   * resolved or expired beside it.
   */
  lemma RecoveryDeliversAll(past: seq<Event>, rows: seq<nat>, during: seq<Event>)
    requires IsRun(EMPTY_WORLD, past)
    requires Enabled(After(EMPTY_WORLD, past), StartRecovery(rows))
    requires IsRun(Next(After(EMPTY_WORLD, past), StartRecovery(rows)), during)
    requires forall e :: e in during ==> FaultFree(e) && !e.Serve?
    requires Enabled(After(Next(After(EMPTY_WORLD, past), StartRecovery(rows)), during), Serve)
    ensures
      var w := After(Next(After(EMPTY_WORLD, past), StartRecovery(rows)), during);
      forall row :: 0 <= row < |w.outbox| ==> !Undelivered(w, row)
  {
    var start := After(EMPTY_WORLD, past);
    Reached(past);
    StepKeeps(start, StartRecovery(rows));
    RecoveryCovers(Next(start, StartRecovery(rows)), during);
  }

  /** Recovery never takes a row that some attempt is already delivering, and never a delivered one. */
  lemma RecoveryTakesFreeRows(events: seq<Event>)
    requires IsRun(EMPTY_WORLD, events) && Enabled(After(EMPTY_WORLD, events), RecoverNext)
    ensures
      var w := After(EMPTY_WORLD, events);
      Undelivered(w, w.replaying.value[0]) && w.replaying.value[0] !in w.attempts
      && w.replaying.value[0] !in w.replaying.value[1..]
  {
    var w := After(EMPTY_WORLD, events);
    Reached(events);
    assert w.replaying.value[0] in w.replaying.value;
  }

  /** The attempt that appends and dies, and the one that recovery makes of the same row. */
  function AppendThenDie(row: nat): seq<Event> {
    [AppendEvent(row, true), Crash]
  }

  function ReplayOf(row: nat): seq<Event> {
    [StartRecovery([row]), RecoverNext, AppendEvent(row, true), WakeWaiter(row), MarkDelivered(row, true)]
  }

  lemma OneStep(w: World, e: Event, rest: seq<Event>)
    requires Enabled(w, e) && IsRun(Next(w, e), rest)
    ensures IsRun(w, [e] + rest) && After(w, [e] + rest) == After(Next(w, e), rest)
  {
    assert ([e] + rest)[1..] == rest;
  }

  function Told(w: World, row: nat): Responded
    requires row < |w.outbox|
  {
    Responded(row, w.outbox[row].interaction, w.outbox[row].response)
  }

  /** The replay of one row, from the append to the mark. */
  lemma Delivers(w: World, row: nat)
    requires Enabled(w, AppendEvent(row, true)) && HasRun(w.outbox[row].runId)
    ensures
      var steps := [AppendEvent(row, true), WakeWaiter(row), MarkDelivered(row, true)];
      && IsRun(w, steps)
      && var last := After(w, steps);
         && last.events == w.events + [Told(w, row)]
         && last.outbox == w.outbox[row := w.outbox[row].(delivered := true)]
         && last.cutOff == w.cutOff
  {
    var appended := Next(w, AppendEvent(row, true));
    var woken := Next(appended, WakeWaiter(row));
    OneStep(woken, MarkDelivered(row, true), []);
    OneStep(appended, WakeWaiter(row), [MarkDelivered(row, true)]);
    OneStep(w, AppendEvent(row, true), [WakeWaiter(row), MarkDelivered(row, true)]);
  }

  lemma Replays(w: World, row: nat)
    requires Enabled(w, StartRecovery([row])) && w.attempts == map[]
    requires row < |w.outbox| && HasRun(w.outbox[row].runId)
    ensures IsRun(w, ReplayOf(row))
    ensures
      var last := After(w, ReplayOf(row));
      && last.events == w.events + [Told(w, row)]
      && last.outbox == w.outbox[row := w.outbox[row].(delivered := true)]
      && last.cutOff == w.cutOff
  {
    var steps := [AppendEvent(row, true), WakeWaiter(row), MarkDelivered(row, true)];
    var started := Next(w, StartRecovery([row]));
    Delivers(Next(started, RecoverNext), row);
    OneStep(started, RecoverNext, steps);
    OneStep(w, StartRecovery([row]), [RecoverNext] + steps);
    assert ReplayOf(row) == [StartRecovery([row])] + ([RecoverNext] + steps);
  }

  lemma Dies(w: World, row: nat)
    requires Enabled(w, AppendEvent(row, true)) && HasRun(w.outbox[row].runId)
    ensures IsRun(w, AppendThenDie(row))
    ensures
      var dead := After(w, AppendThenDie(row));
      && dead.outbox == w.outbox && dead.events == w.events + [Told(w, row)]
      && !dead.serving && dead.replaying == None && dead.attempts == map[]
      && Cut(dead, row) == Cut(w, row) + 1
  {
    OneStep(Next(w, AppendEvent(row, true)), Crash, []);
    OneStep(w, AppendEvent(row, true), [Crash]);
  }

  /**
   * A crash between append and mark makes one more event, for every decision
   * with a run that is the only undelivered one: the bound above is reached,
   * and "exactly once" holds only of the marked delivery.
   */
  lemma ACrashRepeatsTheEvent(w: World, row: nat)
    requires Attempting(w) && Enabled(w, AppendEvent(row, true)) && HasRun(w.outbox[row].runId)
    requires forall other :: 0 <= other < |w.outbox| ==> Undelivered(w, other) ==> other == row
    ensures IsRun(w, AppendThenDie(row)) && IsRun(After(w, AppendThenDie(row)), ReplayOf(row))
    ensures
      var last := After(After(w, AppendThenDie(row)), ReplayOf(row));
      && Count(last.events, row) == Count(w.events, row) + 2
      && Cut(last, row) == Cut(w, row) + 1
      && |last.outbox| == |w.outbox| && last.outbox[row].delivered
  {
    Dies(w, row);
    RepeatsAfterDeath(w, After(w, AppendThenDie(row)), row);
    CountSnoc(w.events, Told(w, row), row);
    CountSnoc(w.events + [Told(w, row)], Told(w, row), row);
  }

  lemma RepeatsAfterDeath(w: World, dead: World, row: nat)
    requires row < |w.outbox| && HasRun(w.outbox[row].runId) && Undelivered(w, row)
    requires forall other :: 0 <= other < |w.outbox| ==> Undelivered(w, other) ==> other == row
    requires dead.outbox == w.outbox && !dead.serving && dead.replaying == None && dead.attempts == map[]
    ensures IsRun(dead, ReplayOf(row))
    ensures
      var last := After(dead, ReplayOf(row));
      && last.events == dead.events + [Told(w, row)] && last.cutOff == dead.cutOff
      && |last.outbox| == |w.outbox| && last.outbox[row].delivered
  {
    forall other | 0 <= other < |dead.outbox| && Undelivered(dead, other) ensures other in [row] {
      assert Undelivered(w, other);
    }
    Replays(dead, row);
  }
}
