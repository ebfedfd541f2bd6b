/** A leased steering input becomes a user message and is acknowledged, in one transaction. */
module QueuedInputs {
  import opened Wrappers

  datatype QueueStatus = Queued | Leased(run: string, token: string) | Sent(consumedTurn: Option<string>)

  datatype QueueRow = QueueRow(conversation: string, status: QueueStatus)

  /** The message whose id is derived from the input's; `text` is that of its first block, if it is a text block. */
  datatype InputMessage = InputMessage(
    conversation: string, role: string, status: string, run: Option<string>, turn: Option<string>, text: Option<string>)

  /** Both tables by input id. */
  datatype Tables = Tables(messages: map<string, InputMessage>, queue: map<string, QueueRow>)

  datatype Request = Request(conversation: string, run: string, input: string, content: string,
                             turn: Option<string>, token: Option<string>)

  function MessageOf(r: Request): InputMessage {
    InputMessage(r.conversation, "user", "complete", Some(r.run), r.turn, Some(r.content))
  }

  /** A null token matches no row. */
  predicate HoldsLease(queue: map<string, QueueRow>, r: Request) {
    && r.input in queue && r.token.Some?
    && queue[r.input] == QueueRow(r.conversation, Leased(r.run, r.token.value))
  }

  predicate Collides(messages: map<string, InputMessage>, r: Request) {
    r.input in messages && messages[r.input] != MessageOf(r)
  }

  function Persisted(t: Tables, r: Request): Option<Tables> {
    if Collides(t.messages, r) || !HoldsLease(t.queue, r) then None
    else Some(Tables(t.messages[r.input := MessageOf(r)],
                     t.queue[r.input := QueueRow(r.conversation, Sent(Some(r.turn.UnwrapOr(r.run))))]))
  }

  /**
   * A request goes through exactly if its row is leased to its run under its
   * token, in its conversation, and no other message is stored for the input;
   * then the input's message is the user's, complete, with the request's content,
   * run and turn, and its row is sent, consumed by the turn or else by the run.
   */
  lemma PersistedIs(t: Tables, r: Request)
    ensures
      var message := InputMessage(r.conversation, "user", "complete", Some(r.run), r.turn, Some(r.content));
      && (Persisted(t, r).Some? <==>
            && r.token.Some? && r.input in t.queue
            && t.queue[r.input] == QueueRow(r.conversation, Leased(r.run, r.token.value))
            && (r.input in t.messages ==> t.messages[r.input] == message))
      && (Persisted(t, r).Some? ==>
            Persisted(t, r).value == Tables(
              t.messages[r.input := message],
              t.queue[r.input := QueueRow(r.conversation, Sent(Some(if r.turn.Some? then r.turn.value else r.run)))]))
  {
  }

  class InputStore {
    var tables: Tables

    constructor (tables: Tables)
      ensures this.tables == tables
    {
      this.tables := tables;
    }

    /** `fails` names the statement that fails: 0 begins, 1 to 3 write, 4 commits. */
    method PersistQueuedInputAndAck(r: Request, fails: nat -> bool) returns (result: Result<(), string>)
      modifies this
      ensures result.Err? ==> tables == old(tables)
      ensures result.Ok? ==> Some(tables) == Persisted(old(tables), r)
      ensures result.Ok? <==>
        && Persisted(old(tables), r).Some? && !fails(0) && !fails(3) && !fails(4)
        && (r.input !in old(tables).messages ==> !fails(1) && !fails(2))
    {
      if fails(0) { return Err("begin"); }
      var shadow := tables;
      if r.input in shadow.messages {
        var m := shadow.messages[r.input];
        if m.conversation != r.conversation || m.role != "user" || m.status != "complete"
           || m.run != Some(r.run) || m.turn != r.turn {
          return Err("queue message identity collision");
        }
        if m.text != Some(r.content) { return Err("queue message content collision"); }
        assert shadow.messages[r.input := MessageOf(r)] == shadow.messages;
      } else {
        if fails(1) || fails(2) { return Err("insert queued message"); }
        shadow := shadow.(messages := shadow.messages[r.input := MessageOf(r)]);
      }
      if fails(3) || !HoldsLease(shadow.queue, r) { return Err("queue lease was lost before message commit"); }
      shadow := shadow.(queue := shadow.queue[r.input := QueueRow(r.conversation, Sent(Some(r.turn.UnwrapOr(r.run))))]);
      if fails(4) { return Err("commit"); }
      tables := shadow;
      return Ok(());
    }
  }

  // ---- Over whole runs ----

  /**
   * What happens to the two tables: a lease, a restart that gives every lease
   * up, a persist that fails, dies or goes through, and the two statements of
   * starting a queued prompt as a run of its own, which marks the row and then
   * deletes it; a user's removal is the same delete.
   */
  datatype Step =
    | Enqueue(input: string, conversation: string)
    | Lease(input: string, run: string, token: string)
    | Restart
    | Persist(request: Request, completes: bool)
    | MarkSent(input: string)
    | Remove(input: string)

  /** A new input gets a random id, so never one that is in use. */
  function Next(t: Tables, step: Step): Tables {
    match step
    case Enqueue(input, conversation) =>
      if input in t.queue || input in t.messages then t
      else t.(queue := t.queue[input := QueueRow(conversation, Queued)])
    case Lease(input, run, token) =>
      if input in t.queue && t.queue[input].status.Queued?
      then t.(queue := t.queue[input := t.queue[input].(status := Leased(run, token))]) else t
    case Restart =>
      t.(queue := map input | input in t.queue ::
        if t.queue[input].status.Leased? then t.queue[input].(status := Queued) else t.queue[input])
    case Persist(request, completes) =>
      if completes then Persisted(t, request).UnwrapOr(t) else t
    case MarkSent(input) =>
      if input in t.queue && !t.queue[input].status.Sent?
      then t.(queue := t.queue[input := t.queue[input].(status := Sent(None))]) else t
    case Remove(input) => t.(queue := t.queue - {input})
  }

  function After(t: Tables, steps: seq<Step>): Tables
    decreases |steps|
  {
    if steps == [] then t else After(Next(t, steps[0]), steps[1..])
  }

  const EMPTY := Tables(map[], map[])

  /**
   * Whatever a crash left, an input that waits without a message can go through
   * after a restart: the restart gives its lease up, a new one can be taken, and
   * the request under it stores the message and acknowledges the input.
   */
  lemma RestartedGoesThrough(t: Tables, input: string, run: string, token: string, content: string,
                             turn: Option<string>)
    requires input in t.queue && !t.queue[input].status.Sent? && input !in t.messages
    ensures
      var conversation := t.queue[input].conversation;
      var r := Request(conversation, run, input, content, turn, Some(token));
      var leased := Next(Next(t, Restart), Lease(input, run, token));
      var after := Next(leased, Persist(r, true));
      && (forall other :: other in leased.queue && leased.queue[other].status.Leased? ==> other == input)
      && after.messages == t.messages[
           input := InputMessage(conversation, "user", "complete", Some(run), turn, Some(content))]
      && after.queue[input] == QueueRow(conversation, Sent(Some(if turn.Some? then turn.value else run)))
      && after.queue.Keys == t.queue.Keys
  {
    var r := Request(t.queue[input].conversation, run, input, content, turn, Some(token));
    PersistedIs(Next(Next(t, Restart), Lease(input, run, token)), r);
  }

  /** A lease is taken only of a queued row, and a new input waits. */
  lemma OnlyQueuedIsLeased(t: Tables, input: string, run: string, token: string, conversation: string)
    ensures
      var leased := Next(t, Lease(input, run, token));
      if input in t.queue && t.queue[input].status == Queued
      then leased == t.(queue := t.queue[input := QueueRow(t.queue[input].conversation, Leased(run, token))])
      else leased == t
    ensures input !in t.queue && input !in t.messages ==>
      Next(t, Enqueue(input, conversation)) == t.(queue := t.queue[input := QueueRow(conversation, Queued)])
  {
  }

  /** An input that has its message is done with: gone from the queue or marked sent. */
  ghost predicate StoredIsSent(t: Tables) {
    forall input :: input in t.messages && input in t.queue ==> t.queue[input].status.Sent?
  }

  /** A stored message is never changed or taken away. */
  ghost predicate KeepsMessages(t: Tables, t': Tables) {
    forall input :: input in t.messages ==> input in t'.messages && t'.messages[input] == t.messages[input]
  }

  lemma {:induction false} RunKeepsMessages(t: Tables, steps: seq<Step>)
    requires StoredIsSent(t)
    ensures StoredIsSent(After(t, steps)) && KeepsMessages(t, After(t, steps))
    decreases |steps|
  {
    if steps != [] {
      RunKeepsMessages(Next(t, steps[0]), steps[1..]);
    }
  }

  /** An input that waits, or has its message. */
  predicate Kept(t: Tables, input: string) {
    input in t.queue || input in t.messages
  }

  /** One step loses an input exactly when it deletes its row before there is a message. */
  lemma StepLosesIffRemoved(t: Tables, step: Step, input: string)
    requires Kept(t, input)
    ensures Kept(Next(t, step), input) <==> !(step == Remove(input) && input !in t.messages)
  {
  }

  lemma {:induction false} RunKeepsInputs(t: Tables, steps: seq<Step>, input: string)
    requires Kept(t, input) && Remove(input) !in steps
    ensures Kept(After(t, steps), input)
    decreases |steps|
  {
    if steps != [] {
      StepLosesIffRemoved(t, steps[0], input);
      RunKeepsInputs(Next(t, steps[0]), steps[1..], input);
    }
  }

  /**
   * From empty tables on, through crashes, lost leases and restarts: an input
   * is kept until its row is deleted, one with a message can no longer be
   * leased, and its message never changes.
   */
  lemma NoInputIsLostOrRepeated(past: seq<Step>, future: seq<Step>, input: string)
    requires Kept(After(EMPTY, past), input)
    ensures
      var now := After(EMPTY, past);
      var later := After(now, future);
      && (input in now.messages && input in now.queue ==> now.queue[input].status.Sent?)
      && (input in now.messages ==> input in later.messages && later.messages[input] == now.messages[input])
      && (Remove(input) !in future || input in now.messages ==> Kept(later, input))
  {
    RunKeepsMessages(EMPTY, past);
    RunKeepsMessages(After(EMPTY, past), future);
    if Remove(input) !in future {
      RunKeepsInputs(After(EMPTY, past), future, input);
    }
  }

  // ---- Marked sent without a message ----

  ghost predicate SentIsStored(t: Tables) {
    forall input :: input in t.queue && t.queue[input].status.Sent? ==> input in t.messages
  }

  /** A queued prompt is started as a run before it has a message here. */
  predicate SendsAhead(t: Tables, step: Step) {
    step.MarkSent? && step.input in t.queue && step.input !in t.messages
  }

  /** A sent row has its message, exactly unless a step marks one that has none. */
  lemma SentIsStoredUnlessAhead(t: Tables, step: Step)
    requires SentIsStored(t)
    ensures SentIsStored(Next(t, step)) <==> !SendsAhead(t, step)
  {
    if SendsAhead(t, step) {
      assert step.input in Next(t, step).queue && Next(t, step).queue[step.input].status.Sent?;
    }
  }

  ghost predicate AlwaysStored(t: Tables, steps: seq<Step>)
    decreases |steps|
  {
    SentIsStored(t) && (steps != [] ==> AlwaysStored(Next(t, steps[0]), steps[1..]))
  }

  predicate NeverAhead(t: Tables, steps: seq<Step>)
    decreases |steps|
  {
    steps != [] ==> !SendsAhead(t, steps[0]) && NeverAhead(Next(t, steps[0]), steps[1..])
  }

  lemma {:induction false} AlwaysStoredIffNeverAhead(t: Tables, steps: seq<Step>)
    requires SentIsStored(t)
    ensures AlwaysStored(t, steps) <==> NeverAhead(t, steps)
    decreases |steps|
  {
    if steps != [] {
      SentIsStoredUnlessAhead(t, steps[0]);
      if !SendsAhead(t, steps[0]) {
        AlwaysStoredIffNeverAhead(Next(t, steps[0]), steps[1..]);
      }
    }
  }

  /** A process that dies between the two statements leaves a sent row that has no message. */
  lemma ACrashLeavesSent(input: string, conversation: string)
    ensures
      var t := After(EMPTY, [Enqueue(input, conversation), MarkSent(input)]);
      t.queue == map[input := QueueRow(conversation, Sent(None))] && input !in t.messages && !SentIsStored(t)
  {
    var steps := [Enqueue(input, conversation), MarkSent(input)];
    var queued := Next(EMPTY, steps[0]);
    assert After(EMPTY, steps) == After(queued, steps[1..]);
    assert steps[1..][1..] == [];
    assert After(queued, steps[1..]) == Next(queued, steps[1]);
    assert input in After(EMPTY, steps).queue;
  }

  /** After a success the same request, or any other for the input, no longer goes through. */
  lemma AcknowledgedOnce(t: Tables, r: Request, future: seq<Step>, again: Request)
    requires StoredIsSent(t) && Persisted(t, r).Some? && again.input == r.input
    ensures Persisted(After(Persisted(t, r).value, future), again).None?
  {
    var done := Persisted(t, r).value;
    RunKeepsMessages(done, future);
  }
}
