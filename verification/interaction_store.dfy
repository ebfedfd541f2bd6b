/**
 * The interaction tables as one task sees them between two awaits. Every method
 * is a run of the outbox protocol, which the ghost field follows.
 */
module InteractionStores {
  import opened Wrappers
  import opened OutboxProtocol
  import opened OutboxTheorems
  import opened Texts

  datatype Reply = Decided(alreadyResolved: bool) | IdRequired | Orphaned | Conflict | StorageFailed | NotDurable

  predicate Passes(w: World, row: nat, appendOk: bool)
    requires row < |w.outbox|
  {
    appendOk || !HasRun(w.outbox[row].runId)
  }

  /** One attempt: append, then wake, then mark; a failed append ends it. */
  function DeliverySteps(w: World, row: nat, appendOk: bool, markOk: bool): seq<Event>
    requires row < |w.outbox|
  {
    [AppendEvent(row, appendOk)] +
    (if Passes(w, row, appendOk) then [WakeWaiter(row), MarkDelivered(row, markOk)] else [])
  }

  function Delivery(w: World, row: nat, appendOk: bool, markOk: bool): World
    requires row < |w.outbox|
  {
    var appended := Appended(w, row, appendOk);
    if Passes(w, row, appendOk) then Marked(Woken(appended, row), row, markOk) else appended
  }

  lemma DeliveryIsARun(w: World, row: nat, appendOk: bool, markOk: bool)
    requires Enabled(w, AppendEvent(row, appendOk))
    ensures IsRun(w, DeliverySteps(w, row, appendOk, markOk))
    ensures After(w, DeliverySteps(w, row, appendOk, markOk)) == Delivery(w, row, appendOk, markOk)
  {
    if Passes(w, row, appendOk) {
      PassingIsARun(w, row, appendOk, markOk);
    } else {
      OneStep(w, AppendEvent(row, appendOk), []);
    }
  }

  lemma MarkIsARun(w: World, row: nat, ok: bool)
    requires Enabled(w, MarkDelivered(row, ok))
    ensures IsRun(w, [MarkDelivered(row, ok)]) && After(w, [MarkDelivered(row, ok)]) == Marked(w, row, ok)
  {
    OneStep(w, MarkDelivered(row, ok), []);
  }

  lemma WakeIsARun(w: World, row: nat, ok: bool)
    requires Enabled(w, WakeWaiter(row))
    ensures IsRun(w, [WakeWaiter(row), MarkDelivered(row, ok)])
    ensures After(w, [WakeWaiter(row), MarkDelivered(row, ok)]) == Marked(Woken(w, row), row, ok)
  {
    MarkIsARun(Woken(w, row), row, ok);
    OneStep(w, WakeWaiter(row), [MarkDelivered(row, ok)]);
    assert [WakeWaiter(row)] + [MarkDelivered(row, ok)] == [WakeWaiter(row), MarkDelivered(row, ok)];
  }

  lemma PassingIsARun(w: World, row: nat, appendOk: bool, markOk: bool)
    requires Enabled(w, AppendEvent(row, appendOk)) && Passes(w, row, appendOk)
    ensures IsRun(w, DeliverySteps(w, row, appendOk, markOk))
    ensures After(w, DeliverySteps(w, row, appendOk, markOk)) ==
            Marked(Woken(Appended(w, row, appendOk), row), row, markOk)
  {
    WakeIsARun(Appended(w, row, appendOk), row, markOk);
    OneStep(w, AppendEvent(row, appendOk), [WakeWaiter(row), MarkDelivered(row, markOk)]);
  }

  lemma {:induction false} RunsCompose(w: World, first: seq<Event>, second: seq<Event>)
    requires IsRun(w, first) && IsRun(After(w, first), second)
    ensures IsRun(w, first + second) && After(w, first + second) == After(After(w, first), second)
    decreases |first|
  {
    if first == [] {
      assert first + second == second;
    } else {
      RunsCompose(Next(w, first[0]), first[1..], second);
      assert (first + second)[1..] == first[1..] + second;
    }
  }

  /** Recovery is between rows, with these still to take. */
  predicate Ready(w: World, rows: seq<nat>) {
    !w.serving && w.replaying == Some(rows) && w.attempts == map[]
  }

  /** A pass changes a row only by its mark, and marks it exactly when append and mark both went well. */
  predicate MarksOnly(w: World, w': World, rows: seq<nat>, appendOk: nat -> bool, markOk: nat -> bool) {
    && |w'.outbox| == |w.outbox|
    && forall row :: 0 <= row < |w.outbox| ==>
         w'.outbox[row] == if row in rows && Passes(w, row, appendOk(row)) && markOk(row)
                           then w.outbox[row].(delivered := true) else w.outbox[row]
  }

  lemma MarksCompose(a: World, b: World, c: World, rows: seq<nat>, row: nat, appendOk: nat -> bool, markOk: nat -> bool)
    requires MarksOnly(a, b, rows, appendOk, markOk) && MarksOnly(b, c, [row], appendOk, markOk)
    ensures MarksOnly(a, c, rows + [row], appendOk, markOk)
  {
  }

  function TakeSteps(w: World, row: nat, appendOk: nat -> bool, markOk: nat -> bool): seq<Event>
    requires row < |w.outbox|
  {
    [RecoverNext] + DeliverySteps(w, row, appendOk(row), markOk(row))
  }

  lemma DeliveryMarks(w: World, row: nat, appendOk: nat -> bool, markOk: nat -> bool)
    requires row < |w.outbox|
    ensures MarksOnly(w, Delivery(w, row, appendOk(row), markOk(row)), [row], appendOk, markOk)
  {
    DeliveryOutbox(w, row, appendOk(row), markOk(row));
  }

  /** Delivery touches the outbox only by the mark. */
  lemma DeliveryOutbox(w: World, row: nat, appendOk: bool, markOk: bool)
    requires row < |w.outbox|
    ensures Delivery(w, row, appendOk, markOk).outbox ==
      if Passes(w, row, appendOk) && markOk then w.outbox[row := w.outbox[row].(delivered := true)] else w.outbox
  {
    assert Appended(w, row, appendOk).outbox == w.outbox;
    assert Woken(Appended(w, row, appendOk), row).outbox == w.outbox;
  }

  function Taken(w: World, rows: seq<nat>): World
    requires rows != []
  {
    w.(replaying := Some(rows[1..]), attempts := map[rows[0] := ToAppend])
  }

  lemma TakenIsReady(w: World, rows: seq<nat>, ok: bool, marked: bool)
    requires Ready(w, rows) && rows != [] && rows[0] < |w.outbox|
    ensures Ready(Delivery(Taken(w, rows), rows[0], ok, marked), rows[1..])
  {
  }

  /** One turn of the recovery loop: take the next row and deliver it. */
  lemma TakeIsARun(w: World, rows: seq<nat>, appendOk: nat -> bool, markOk: nat -> bool)
    requires Ready(w, rows) && rows != [] && rows[0] < |w.outbox|
    ensures IsRun(w, TakeSteps(w, rows[0], appendOk, markOk))
    ensures After(w, TakeSteps(w, rows[0], appendOk, markOk))
            == Delivery(Taken(w, rows), rows[0], appendOk(rows[0]), markOk(rows[0]))
  {
    assert Enabled(w, RecoverNext) && Next(w, RecoverNext) == Taken(w, rows);
    TakeThenDeliver(w, Taken(w, rows), rows[0], appendOk(rows[0]), markOk(rows[0]));
  }

  lemma TakeThenDeliver(w: World, taken: World, row: nat, ok: bool, marked: bool)
    requires Enabled(w, RecoverNext) && Next(w, RecoverNext) == taken && taken.outbox == w.outbox
    requires Enabled(taken, AppendEvent(row, ok))
    ensures IsRun(w, [RecoverNext] + DeliverySteps(w, row, ok, marked))
    ensures After(w, [RecoverNext] + DeliverySteps(w, row, ok, marked)) == Delivery(taken, row, ok, marked)
  {
    assert DeliverySteps(w, row, ok, marked) == DeliverySteps(taken, row, ok, marked);
    DeliveryIsARun(taken, row, ok, marked);
    OneStep(w, RecoverNext, DeliverySteps(w, row, ok, marked));
  }

  lemma RowAt(rows: seq<nat>, k: nat)
    requires k < |rows|
    ensures rows[..k + 1] == rows[..k] + [rows[k]]
    ensures rows[k..] != [] && rows[k..][0] == rows[k] && rows[k..][1..] == rows[k + 1..]
  {
  }

  lemma OneRowFurther(start: World, steps: seq<Event>, before: World, after: World, rows: seq<nat>, row: nat,
                      appendOk: nat -> bool, markOk: nat -> bool)
    requires row < |before.outbox| && IsRun(start, steps) && After(start, steps) == before
    requires IsRun(before, TakeSteps(before, row, appendOk, markOk))
    requires After(before, TakeSteps(before, row, appendOk, markOk)) == after
    requires MarksOnly(start, before, rows, appendOk, markOk) && MarksOnly(before, after, [row], appendOk, markOk)
    ensures
      var longer := steps + TakeSteps(before, row, appendOk, markOk);
      IsRun(start, longer) && After(start, longer) == after
    ensures MarksOnly(start, after, rows + [row], appendOk, markOk)
    ensures |Passed(start, rows + [row], appendOk)| ==
      |Passed(start, rows, appendOk)| + (if Passes(before, row, appendOk(row)) then 1 else 0)
  {
    RunsCompose(start, steps, TakeSteps(before, row, appendOk, markOk));
    MarksCompose(start, before, after, rows, row, appendOk, markOk);
    assert (rows + [row])[..|rows|] == rows;
    assert Passes(before, row, appendOk(row)) == Passes(start, row, appendOk(row));
  }

  class InteractionStore {
    var interactions: map<string, Interaction>
    var outbox: seq<OutboxRow>
    var events: seq<Responded>
    var woken: seq<nat>
    ghost var world: World

    ghost predicate Valid()
      reads this
    {
      && world.interactions == interactions && world.outbox == outbox
      && world.events == events && world.woken == woken
    }

    constructor ()
      ensures Valid() && world == EMPTY_WORLD
    {
      interactions, outbox, events, woken := map[], [], [], [];
      world := EMPTY_WORLD;
    }

    /** Ids and kinds are trimmed; a duplicate emit changes nothing. */
    method InsertPendingRow(givenId: string, runId: string, kind: string) returns (result: Result<(), string>)
      requires Valid()
      modifies this
      ensures Valid()
      ensures result.Ok? <==> Trimmed(givenId) != ""
      ensures
        var named := if Trimmed(kind) == "" then "unknown" else Trimmed(kind);
        world == if Trimmed(givenId) == "" then old(world)
                 else Next(old(world), InsertPending(Trimmed(givenId), runId, named))
    {
      var id := Trimmed(givenId);
      if id == "" { return Err("interaction id required"); }
      var named := if Trimmed(kind) == "" then "unknown" else Trimmed(kind);
      if id !in interactions {
        interactions := interactions[id := Interaction(runId, named, Pending, None)];
      }
      world := Next(world, InsertPending(id, runId, named));
      return Ok(());
    }

    /** An already resolved row is left as it is and reported as success, as is a blank id. */
    method MarkResolvedRow(givenId: string, response: string) returns (result: Result<(), string>)
      requires Valid()
      modifies this
      ensures Valid()
      ensures world ==
        if Trimmed(givenId) == "" then old(world)
        else Next(old(world), MarkResolved(Trimmed(givenId), response))
      ensures result.Ok? <==>
        (Trimmed(givenId) == ""
         || (Trimmed(givenId) in interactions && interactions[Trimmed(givenId)].status == Resolved))
    {
      var id := Trimmed(givenId);
      if id == "" { return Ok(()); }
      var changed := id in interactions && interactions[id].status == Pending;
      if changed {
        interactions := interactions[id := interactions[id].(status := Resolved, response := Some(response))];
      }
      world := Next(world, MarkResolved(id, response));
      if !changed {
        if id !in interactions { return Err("interaction not found"); }
        if interactions[id].status != Resolved { return Err("interaction is not pending"); }
      }
      return Ok(());
    }

    /**
     * Answer a pending interaction. The same answer given again is accepted and
     * changes nothing; a different one is refused; a decision is reported only
     * once its event is durable, and stands even when that failed.
     */
    method Respond(tid: nat, givenId: string, response: string, commitOk: bool, appendOk: bool, markOk: bool)
      returns (reply: Reply)
      requires Valid() && tid !in world.responders && |outbox| !in world.attempts
      modifies this
      ensures Valid()
      ensures !IsPending(old(world), Trimmed(givenId)) || Trimmed(givenId) == "" ==>
        var id := Trimmed(givenId);
        && world == old(world)
        && reply == if id == "" then IdRequired
                    else if id !in interactions || interactions[id].status == Expired then Orphaned
                    else if interactions[id].response == Some(response) then Decided(true)
                    else Conflict
      ensures IsPending(old(world), Trimmed(givenId)) && Trimmed(givenId) != "" ==>
        var committed := Committed(Read(old(world), tid, Trimmed(givenId), response), tid, commitOk);
        if commitOk then
          && |committed.outbox| == |old(outbox)| + 1
          && world == Delivery(committed, |old(outbox)|, appendOk, markOk)
          && reply == if Passes(committed, |old(outbox)|, appendOk) then Decided(false) else NotDurable
        else world == committed && reply == StorageFailed
    {
      var id := Trimmed(givenId);
      if id == "" { return IdRequired; }
      if id !in interactions { return Orphaned; }
      var i := interactions[id];
      if i.status == Resolved {
        return if i.response == Some(response) then Decided(true) else Conflict;
      }
      if i.status != Pending { return Orphaned; }
      world := Committed(Read(world, tid, id, response), tid, commitOk);
      if !commitOk { return StorageFailed; }
      interactions := interactions[id := i.(status := Resolved, response := Some(response))];
      outbox := outbox + [OutboxRow(id, i.runId, i.kind, response, false)];
      var delivered := DeliverOutbox(|outbox| - 1, appendOk, markOk);
      return if delivered then Decided(false) else NotDurable;
    }

    /** A failed append leaves the row undelivered and wakes nobody; a failed mark is ignored. */
    method DeliverOutbox(row: nat, appendOk: bool, markOk: bool) returns (ok: bool)
      requires Valid() && row < |outbox|
      modifies this
      ensures Valid() && interactions == old(interactions)
      ensures ok == Passes(old(world), row, appendOk)
      ensures world == Delivery(old(world), row, appendOk, markOk)
    {
      world := Delivery(world, row, appendOk, markOk);
      if HasRun(outbox[row].runId) {
        if !appendOk { return false; }
        events := events + [Responded(row, outbox[row].interaction, outbox[row].response)];
      }
      if WakesWaiter(outbox[row].kind) {
        woken := woken + [row];
      }
      if markOk {
        outbox := outbox[row := outbox[row].(delivered := true)];
      }
      return true;
    }

    method UndeliveredOutboxRows() returns (rows: seq<nat>)
      requires Valid()
      ensures Distinct(rows)
      ensures forall row: nat :: row in rows <==> Undelivered(world, row)
    {
      rows := [];
      for row := 0 to |outbox|
        invariant Distinct(rows)
        invariant forall r: nat :: r in rows <==> r < row && Undelivered(world, r)
        invariant forall i :: 0 <= i < |rows| ==> rows[i] < row
      {
        if !outbox[row].delivered { rows := rows + [row]; }
      }
    }

    /** One turn of the recovery loop: take the next row and deliver it. */
    method RecoverRow(ghost rows: seq<nat>, row: nat, appendOk: nat -> bool, markOk: nat -> bool) returns (ok: bool)
      requires Valid() && Ready(world, rows) && rows != [] && row == rows[0] && row < |outbox|
      modifies this
      ensures Valid() && Ready(world, rows[1..])
      ensures ok == Passes(old(world), row, appendOk(row))
      ensures IsRun(old(world), TakeSteps(old(world), row, appendOk, markOk))
      ensures After(old(world), TakeSteps(old(world), row, appendOk, markOk)) == world
      ensures MarksOnly(old(world), world, [row], appendOk, markOk)
    {
      TakeIsARun(world, rows, appendOk, markOk);
      TakenIsReady(world, rows, appendOk(row), markOk(row));
      world := Taken(world, rows);
      DeliveryMarks(world, row, appendOk, markOk);
      ok := DeliverOutbox(row, appendOk(row), markOk(row));
    }

    /** The loop over the rows: a run of the protocol that ends with every row taken. */
    method RecoverRows(rows: seq<nat>, appendOk: nat -> bool, markOk: nat -> bool)
      returns (delivered: nat, ghost steps: seq<Event>)
      requires Valid() && Ready(world, rows)
      requires forall i :: 0 <= i < |rows| ==> rows[i] < |outbox|
      modifies this
      ensures Valid() && Ready(world, [])
      ensures IsRun(old(world), steps) && After(old(world), steps) == world
      ensures MarksOnly(old(world), world, rows, appendOk, markOk)
      ensures delivered == |Passed(old(world), rows, appendOk)|
    {
      steps, delivered := [], 0;
      for k := 0 to |rows|
        invariant Valid() && Ready(world, rows[k..])
        invariant IsRun(old(world), steps) && After(old(world), steps) == world
        invariant MarksOnly(old(world), world, rows[..k], appendOk, markOk)
        invariant delivered == |Passed(old(world), rows[..k], appendOk)|
      {
        ghost var before := world;
        var row := rows[k];
        RowAt(rows, k);
        var ok := RecoverRow(rows[k..], row, appendOk, markOk);
        if ok { delivered := delivered + 1; }
        OneRowFurther(old(world), steps, before, world, rows[..k], row, appendOk, markOk);
        steps := steps + TakeSteps(before, row, appendOk, markOk);
      }
      assert rows[..|rows|] == rows && rows[|rows|..] == [];
    }

    /**
     * One pass over the undelivered rows. A row is still undelivered after it
     * exactly when its append or its mark failed; the number returned counts
     * the rows past their append, marked or not.
     */
    method RecoverInteractionOutbox(appendOk: nat -> bool, markOk: nat -> bool)
      returns (delivered: nat, rows: seq<nat>, ghost steps: seq<Event>)
      requires Valid() && !world.serving && world.replaying.None? && world.attempts == map[]
      modifies this
      ensures Valid() && Ready(world, [])
      ensures Enabled(old(world), StartRecovery(rows))
      ensures IsRun(Next(old(world), StartRecovery(rows)), steps)
      ensures After(Next(old(world), StartRecovery(rows)), steps) == world
      ensures MarksOnly(old(world), world, rows, appendOk, markOk)
      ensures delivered == |Passed(old(world), rows, appendOk)|
    {
      rows := UndeliveredOutboxRows();
      assert forall i :: 0 <= i < |rows| ==> rows[i] in rows;
      PassedOfSame(Next(world, StartRecovery(rows)), world, rows, appendOk);
      world := Next(world, StartRecovery(rows));
      delivered, steps := RecoverRows(rows, appendOk, markOk);
    }
  }

  function Passed(w: World, rows: seq<nat>, appendOk: nat -> bool): seq<nat> {
    if rows == [] then []
    else
      var last := rows[|rows| - 1];
      Passed(w, rows[..|rows| - 1], appendOk)
      + (if last < |w.outbox| && Passes(w, last, appendOk(last)) then [last] else [])
  }

  lemma PassedOfSame(w: World, w': World, rows: seq<nat>, appendOk: nat -> bool)
    requires w.outbox == w'.outbox
    ensures Passed(w, rows, appendOk) == Passed(w', rows, appendOk)
  {
  }
}
