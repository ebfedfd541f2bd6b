/**
 * What a decision carries and whom its delivery tells: the two kinds of
 * interaction that somebody waits for are woken, and no other.
 */
module OutboxWakes {
  import opened InteractionStores
  import opened OutboxProtocol
  import opened OutboxTheorems
  import opened Wrappers

  /** A tool waits for its permission, a batch for its assignment. */
  predicate IsAwaited(row: OutboxRow) {
    row.kind == "tool_permission" || row.kind == "subagent_assignment"
  }

  /**
   * A decision, from the request to the row: a new interaction is pending with
   * the run and kind it came with, and the response committed for it is stored
   * with both, in the interaction and in one new row that is not delivered.
   */
  lemma DecisionIsStored(w: World, id: string, runId: string, kind: string, tid: nat, response: string)
    requires id !in w.interactions && w.serving && tid !in w.responders
    ensures
      var asked := Next(w, InsertPending(id, runId, kind));
      && asked == w.(interactions := w.interactions[id := Interaction(runId, kind, Pending, None)])
      && var read := Next(asked, ReadPending(tid, id, response));
      && Enabled(read, CommitDecision(tid, true))
      && var decided := Next(read, CommitDecision(tid, true));
      && decided.interactions == w.interactions[id := Interaction(runId, kind, Resolved, Some(response))]
      && decided.outbox == w.outbox + [OutboxRow(id, runId, kind, response, false)]
      && decided.attempts == w.attempts[|w.outbox| := ToAppend]
      && decided.events == w.events && decided.woken == w.woken
  {
    var read := Next(Next(w, InsertPending(id, runId, kind)), ReadPending(tid, id, response));
    assert IsPending(read, id) && read.responders[tid] == Responder(id, response);
  }

  /**
   * The two ways to settle without a row change a pending interaction only, and
   * only its status and response; one that is not pending cannot be answered.
   */
  lemma SettlingIs(w: World, id: string, text: string, tid: nat)
    requires w.serving && tid !in w.responders
    ensures
      var resolved, expired := Next(w, MarkResolved(id, text)), Next(w, Expire(id, text));
      if id in w.interactions && w.interactions[id].status == Pending then
        var i := w.interactions[id];
        && resolved == w.(interactions := w.interactions[id := Interaction(i.runId, i.kind, Resolved, Some(text))])
        && expired == w.(interactions := w.interactions[id := Interaction(i.runId, i.kind, Expired, Some(text))])
      else resolved == w && expired == w && Next(w, ReadPending(tid, id, text)) == w
  {
  }

  /**
   * One delivery, entirely: the event carries the row's decision and is
   * appended exactly if there is a run; only past it the row is woken if
   * somebody waits for its kind, and only then it is marked.
   */
  lemma DeliveryTells(w: World, row: nat, appendOk: bool, markOk: bool)
    requires row < |w.outbox|
    ensures
      var r := w.outbox[row];
      var past := appendOk || r.runId == "";
      var w' := Delivery(w, row, appendOk, markOk);
      && (Passes(w, row, appendOk) <==> past)
      && w'.interactions == w.interactions
      && w'.events == w.events + (if r.runId != "" && appendOk then [Responded(row, r.interaction, r.response)] else [])
      && w'.woken == w.woken + (if past && (r.kind == "tool_permission" || r.kind == "subagent_assignment")
                                then [row] else [])
      && w'.outbox == (if past && markOk then w.outbox[row := r.(delivered := true)] else w.outbox)
  {
    AppendTells(w, row, appendOk);
    WakeTells(Appended(w, row, appendOk), row);
  }

  lemma AppendTells(w: World, row: nat, ok: bool)
    requires row < |w.outbox|
    ensures
      var r := w.outbox[row];
      var w' := Appended(w, row, ok);
      && w'.interactions == w.interactions && w'.outbox == w.outbox && w'.woken == w.woken
      && w'.events == w.events + (if r.runId != "" && ok then [Responded(row, r.interaction, r.response)] else [])
  {
    assert w.events + [] == w.events;
  }

  lemma WakeTells(w: World, row: nat)
    requires row < |w.outbox|
    ensures
      var kind := w.outbox[row].kind;
      var w' := Woken(w, row);
      && w'.interactions == w.interactions && w'.outbox == w.outbox && w'.events == w.events
      && w'.woken == w.woken + (if kind == "tool_permission" || kind == "subagent_assignment" then [row] else [])
  {
    assert w.woken + [] == w.woken;
  }

  // ---- Over runs ----

  /** A waiter's row that is past its wake is among the woken, and nobody else's ever is. */
  predicate WokenAt(w: World, row: nat) {
    if row < |w.outbox| && IsAwaited(w.outbox[row])
    then w.outbox[row].delivered || (row in w.attempts && w.attempts[row].ToMark?) ==> row in w.woken
    else row !in w.woken
  }

  lemma StepKeepsWoken(w: World, e: Event, row: nat)
    requires Enabled(w, e) && WokenAt(w, row) && Attempting(w)
    ensures WokenAt(Next(w, e), row)
  {
    match e
    case CommitDecision(tid, ok) => CommitKeepsWoken(w, tid, ok, row);
    case AppendEvent(at, ok) => SameRowsKeepWoken(w, Appended(w, at, ok), row);
    case WakeWaiter(at) => WakeKeepsWoken(w, at, row);
    case MarkDelivered(at, ok) => MarkKeepsWoken(w, at, ok, row);
    case _ => OthersKeepWoken(w, e, row);
  }

  lemma SameRowsKeepWoken(w: World, w': World, row: nat)
    requires WokenAt(w, row) && w'.outbox == w.outbox && w'.woken == w.woken
    requires row in w'.attempts && w'.attempts[row].ToMark? ==> row in w.attempts && w.attempts[row].ToMark?
    ensures WokenAt(w', row)
  {
  }

  lemma CommitKeepsWoken(w: World, tid: nat, ok: bool, row: nat)
    requires tid in w.responders && WokenAt(w, row) && Attempting(w)
    ensures WokenAt(Committed(w, tid, ok), row)
  {
  }

  lemma WakeKeepsWoken(w: World, at: nat, row: nat)
    requires at < |w.outbox| && WokenAt(w, row)
    ensures WokenAt(Woken(w, at), row)
  {
  }

  lemma MarkKeepsWoken(w: World, at: nat, ok: bool, row: nat)
    requires Enabled(w, MarkDelivered(at, ok)) && WokenAt(w, row)
    ensures WokenAt(Marked(w, at, ok), row)
  {
  }

  lemma OthersKeepWoken(w: World, e: Event, row: nat)
    requires Enabled(w, e) && WokenAt(w, row)
    requires !e.CommitDecision? && !e.AppendEvent? && !e.WakeWaiter? && !e.MarkDelivered?
    ensures WokenAt(Next(w, e), row)
  {
    assert Next(w, e).outbox == w.outbox && Next(w, e).woken == w.woken;
    if e.RecoverNext? {
      assert row in Next(w, e).attempts ==> Next(w, e).attempts[row].ToAppend?;
    } else {
      assert Next(w, e).attempts == w.attempts || Next(w, e).attempts == map[];
    }
  }

  lemma {:induction false} RunKeepsWoken(w: World, events: seq<Event>, row: nat)
    requires Inv(w) && IsRun(w, events) && WokenAt(w, row)
    ensures WokenAt(After(w, events), row)
    decreases |events|
  {
    if events != [] {
      StepKeepsWoken(w, events[0], row);
      StepKeeps(w, events[0]);
      RunKeepsWoken(Next(w, events[0]), events[1..], row);
    }
  }

  /**
   * Over any run with crashes and recoveries: whoever waits for a permission or
   * an assignment whose decision is marked delivered was woken, and a decision
   * nobody waits for wakes nobody.
   */
  lemma DeliveredIsWoken(events: seq<Event>, row: nat)
    requires IsRun(EMPTY_WORLD, events) && row < |After(EMPTY_WORLD, events).outbox|
    ensures
      var w := After(EMPTY_WORLD, events);
      var kind := w.outbox[row].kind;
      if kind == "tool_permission" || kind == "subagent_assignment"
      then w.outbox[row].delivered ==> row in w.woken
      else row !in w.woken
  {
    RunKeepsWoken(EMPTY_WORLD, events, row);
  }

  /** A delivered decision of a run has its event, with its interaction and response; one without a run has none. */
  lemma DeliveredIsTold(events: seq<Event>, row: nat)
    requires IsRun(EMPTY_WORLD, events) && row < |After(EMPTY_WORLD, events).outbox|
    ensures
      var w := After(EMPTY_WORLD, events);
      var r := w.outbox[row];
      if r.runId != ""
      then r.delivered ==> Responded(row, r.interaction, r.response) in w.events
      else forall i :: 0 <= i < |w.events| ==> w.events[i].row != row
  {
    var w := After(EMPTY_WORLD, events);
    Reached(events);
    forall i | 0 <= i < |w.events| && w.events[i].row == row
      ensures w.outbox[row].runId != ""
      ensures w.events[i] == Responded(row, w.outbox[row].interaction, w.outbox[row].response)
    {
      assert SaysDecision(w, w.events[i]);
    }
    if w.outbox[row].runId != "" && w.outbox[row].delivered {
      EventComesFirst(events, row);
    }
  }
}
