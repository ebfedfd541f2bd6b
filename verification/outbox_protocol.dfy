/**
 * Interaction decisions and their delivery, between any two steps of which any
 * other task may run and the daemon may die. A response is its serialized text.
 */
module OutboxProtocol {
  import opened Wrappers

  datatype Status = Pending | Resolved | Expired

  /** A run id that is absent is the empty string, as delivery treats it. */
  datatype Interaction = Interaction(runId: string, kind: string, status: Status, response: Option<string>)

  datatype OutboxRow = OutboxRow(interaction: string, runId: string, kind: string, response: string, delivered: bool)

  /** The durable InteractionResponded event, with the outbox row it was appended for. */
  datatype Responded = Responded(row: nat, interaction: string, response: string)

  /** What a delivery attempt does next. */
  datatype Stage = ToAppend | ToWake | ToMark

  /** A responder that has read a pending row and is about to open its transaction. */
  datatype Responder = Responder(interaction: string, response: string)

  /**
   * The first three fields are durable; outbox rows are named by their position.
   * `attempts` holds the deliveries under way, `replaying` the rows recovery has
   * still to take, `woken` the rows whose waiters were woken, and `cutOff`
   * counts, per row, the attempts that appended its event and never marked it.
   */
  datatype World = World(
    interactions: map<string, Interaction>,
    outbox: seq<OutboxRow>,
    events: seq<Responded>,
    serving: bool,
    responders: map<nat, Responder>,
    attempts: map<nat, Stage>,
    replaying: Option<seq<nat>>,
    woken: seq<nat>,
    cutOff: map<nat, nat>)

  const EMPTY_WORLD := World(map[], [], [], false, map[], map[], None, [], map[])

  datatype Event =
    | InsertPending(id: string, runId: string, kind: string)
    | MarkResolved(id: string, response: string)   // the permission path, which writes no outbox row
    | Expire(id: string, reason: string)
    | ReadPending(tid: nat, id: string, response: string)
    | CommitDecision(tid: nat, ok: bool)
    | AppendEvent(row: nat, ok: bool)
    | WakeWaiter(row: nat)
    | MarkDelivered(row: nat, ok: bool)
    | Crash
    | StartRecovery(rows: seq<nat>)
    | RecoverNext
    | Serve

  predicate Undelivered(w: World, row: nat) {
    row < |w.outbox| && !w.outbox[row].delivered
  }

  predicate Distinct(rows: seq<nat>) {
    forall i, j :: 0 <= i < j < |rows| ==> rows[i] != rows[j]
  }

  predicate IsPending(w: World, id: string) {
    id in w.interactions && w.interactions[id].status == Pending
  }

  predicate HasRun(runId: string) {
    runId != ""
  }

  predicate WakesWaiter(kind: string) {
    kind == "tool_permission" || kind == "subagent_assignment"
  }

  function Cut(w: World, row: nat): nat {
    if row in w.cutOff then w.cutOff[row] else 0
  }

  /** An attempt on the row has passed the append and not yet the mark. */
  predicate PastAppend(w: World, row: nat) {
    row in w.attempts && !w.attempts[row].ToAppend?
  }

  /**
   * Recovery is awaited before the socket opens and takes one row at a time, so
   * while it runs the only attempt under way is its own.
   */
  predicate Enabled(w: World, e: Event) {
    match e
    case ReadPending(tid, _, _) => w.serving && tid !in w.responders
    case CommitDecision(tid, _) => tid in w.responders
    case AppendEvent(row, _) => row in w.attempts && w.attempts[row].ToAppend? && row < |w.outbox|
    case WakeWaiter(row) => row in w.attempts && w.attempts[row].ToWake? && row < |w.outbox|
    case MarkDelivered(row, _) => row in w.attempts && w.attempts[row].ToMark? && row < |w.outbox|
    case StartRecovery(rows) =>
      && !w.serving && w.replaying.None?
      && Distinct(rows)
      && (forall row :: row in rows ==> Undelivered(w, row))
      && (forall row :: 0 <= row < |w.outbox| ==> Undelivered(w, row) ==> row in rows)
    case RecoverNext => w.replaying.Some? && w.replaying.value != [] && w.attempts == map[]
    case Serve => !w.serving && w.attempts == map[] && (w.replaying.Some? ==> w.replaying.value == [])
    case _ => true
  }

  function Inserted(w: World, id: string, runId: string, kind: string): World {
    if id in w.interactions then w
    else w.(interactions := w.interactions[id := Interaction(runId, kind, Pending, None)])
  }

  function Settled(w: World, id: string, status: Status, response: Option<string>): World {
    if IsPending(w, id)
    then w.(interactions := w.interactions[id := w.interactions[id].(status := status, response := response)])
    else w
  }

  function Read(w: World, tid: nat, id: string, response: string): World {
    if IsPending(w, id) then w.(responders := w.responders[tid := Responder(id, response)]) else w
  }

  /** The guarded UPDATE, the outbox INSERT and the commit are one transaction. */
  function Committed(w: World, tid: nat, ok: bool): World
    requires tid in w.responders
  {
    var r := w.responders[tid];
    var left := w.(responders := w.responders - {tid});
    if ok && IsPending(w, r.interaction) then
      var i := w.interactions[r.interaction];
      Settled(left, r.interaction, Resolved, Some(r.response)).(
        outbox := w.outbox + [OutboxRow(r.interaction, i.runId, i.kind, r.response, false)],
        attempts := w.attempts[|w.outbox| := ToAppend])
    else left
  }

  function Appended(w: World, row: nat, ok: bool): World
    requires row < |w.outbox|
  {
    var onward := w.(attempts := w.attempts[row := ToWake]);
    if !HasRun(w.outbox[row].runId) then onward
    else if ok then
      onward.(events := w.events + [Responded(row, w.outbox[row].interaction, w.outbox[row].response)])
    else w.(attempts := w.attempts - {row})
  }

  function Woken(w: World, row: nat): World
    requires row < |w.outbox|
  {
    var onward := w.(attempts := w.attempts[row := ToMark]);
    if WakesWaiter(w.outbox[row].kind) then onward.(woken := w.woken + [row]) else onward
  }

  /** A failed UPDATE of the delivered flag is ignored. */
  function Marked(w: World, row: nat, ok: bool): World
    requires row < |w.outbox|
  {
    var done := w.(attempts := w.attempts - {row});
    if ok then done.(outbox := w.outbox[row := w.outbox[row].(delivered := true)])
    else done.(cutOff := w.cutOff[row := Cut(w, row) + 1])
  }

  function Crashed(w: World): World {
    var cut := map row | 0 <= row < |w.outbox| :: Cut(w, row) + (if PastAppend(w, row) then 1 else 0);
    w.(serving := false, responders := map[], attempts := map[], replaying := None, cutOff := cut)
  }

  function Next(w: World, e: Event): World
    requires Enabled(w, e)
  {
    match e
    case InsertPending(id, runId, kind) => Inserted(w, id, runId, kind)
    case MarkResolved(id, response) => Settled(w, id, Resolved, Some(response))
    case Expire(id, reason) => Settled(w, id, Expired, Some(reason))
    case ReadPending(tid, id, response) => Read(w, tid, id, response)
    case CommitDecision(tid, ok) => Committed(w, tid, ok)
    case AppendEvent(row, ok) => Appended(w, row, ok)
    case WakeWaiter(row) => Woken(w, row)
    case MarkDelivered(row, ok) => Marked(w, row, ok)
    case Crash => Crashed(w)
    case StartRecovery(rows) => w.(replaying := Some(rows))
    case RecoverNext =>
      w.(replaying := Some(w.replaying.value[1..]), attempts := map[w.replaying.value[0] := ToAppend])
    case Serve => w.(serving := true, replaying := None)
  }

  predicate IsRun(w: World, events: seq<Event>)
    decreases |events|
  {
    events != [] ==> Enabled(w, events[0]) && IsRun(Next(w, events[0]), events[1..])
  }

  function After(w: World, events: seq<Event>): World
    requires IsRun(w, events)
    decreases |events|
  {
    if events == [] then w else After(Next(w, events[0]), events[1..])
  }

  // ---- The invariant ----

  function Count(events: seq<Responded>, row: nat): nat {
    if events == [] then 0
    else Count(events[..|events| - 1], row) + (if events[|events| - 1].row == row then 1 else 0)
  }

  predicate Decides(w: World, row: OutboxRow) {
    && row.interaction in w.interactions
    && var i := w.interactions[row.interaction];
       i.status == Resolved && i.response == Some(row.response) && i.runId == row.runId && i.kind == row.kind
  }

  /** A row carries its interaction's decision, and no interaction has two rows. */
  predicate OneDecision(w: World) {
    && (forall row :: 0 <= row < |w.outbox| ==> Decides(w, w.outbox[row]))
    && (forall row, other :: 0 <= row < other < |w.outbox| ==>
          w.outbox[row].interaction != w.outbox[other].interaction)
  }

  predicate Attempting(w: World) {
    forall row :: row in w.attempts ==> Undelivered(w, row)
  }

  predicate Phased(w: World) {
    && (!w.serving ==> w.responders == map[])
    && (w.serving ==> w.replaying.None?)
    && (!w.serving && w.replaying.None? ==> w.attempts == map[])
  }

  predicate Replaying(w: World) {
    w.replaying.Some? ==>
      && Distinct(w.replaying.value)
      && forall row :: row in w.replaying.value ==> Undelivered(w, row) && row !in w.attempts
  }

  /** Events come only from decisions, and say what was decided. */
  predicate EventsAreDecisions(w: World) {
    forall i :: 0 <= i < |w.events| ==> SaysDecision(w, w.events[i])
  }

  predicate SaysDecision(w: World, e: Responded) {
    && e.row < |w.outbox| && HasRun(w.outbox[e.row].runId)
    && e.interaction == w.outbox[e.row].interaction
    && e.response == w.outbox[e.row].response
  }

  /** Where the events of a row came from: one marked delivery, and attempts cut off before their mark. */
  predicate Balanced(w: World, row: nat) {
    if row < |w.outbox| then
      HasRun(w.outbox[row].runId) ==>
        Count(w.events, row) == Cut(w, row) + (if w.outbox[row].delivered then 1 else 0)
                                + (if PastAppend(w, row) then 1 else 0)
    else Count(w.events, row) == 0 && Cut(w, row) == 0
  }

  ghost predicate Accounted(w: World) {
    forall row: nat :: Balanced(w, row)
  }

  /** Nobody is woken ahead of the event. */
  predicate EventFirst(w: World) {
    forall i :: 0 <= i < |w.woken| ==> WokenAfterEvent(w, w.woken[i])
  }

  ghost predicate Inv(w: World) {
    && OneDecision(w) && Attempting(w) && Phased(w) && Replaying(w)
    && EventsAreDecisions(w) && Accounted(w) && EventFirst(w)
  }

  // ---- What a step may do to the durable state ----

  /** Interactions leave `pending` at most once; rows keep everything but the flag; events are only added. */
  predicate Extends(w: World, w': World) {
    && (forall id :: id in w.interactions ==>
          id in w'.interactions && (w.interactions[id].status != Pending ==> w'.interactions[id] == w.interactions[id]))
    && |w.outbox| <= |w'.outbox|
    && (forall row :: 0 <= row < |w.outbox| ==>
          || w'.outbox[row] == w.outbox[row]
          || w'.outbox[row] == w.outbox[row].(delivered := true))
    && w.events <= w'.events
  }

  lemma StepExtends(w: World, e: Event)
    requires Enabled(w, e)
    ensures Extends(w, Next(w, e))
  {
    match e
    case InsertPending(id, runId, kind) => InteractionsExtend(w, Next(w, e));
    case MarkResolved(id, response) => InteractionsExtend(w, Next(w, e));
    case Expire(id, reason) => InteractionsExtend(w, Next(w, e));
    case CommitDecision(tid, ok) => CommitExtends(w, tid, ok);
    case _ => OthersExtend(w, e);
  }

  lemma InteractionsExtend(w: World, w': World)
    requires w'.outbox == w.outbox && w'.events == w.events
    requires forall id :: id in w.interactions ==>
      id in w'.interactions && (w.interactions[id].status != Pending ==> w'.interactions[id] == w.interactions[id])
    ensures Extends(w, w')
  {
  }

  lemma CommitExtends(w: World, tid: nat, ok: bool)
    requires tid in w.responders
    ensures Extends(w, Committed(w, tid, ok))
  {
  }

  lemma OthersExtend(w: World, e: Event)
    requires Enabled(w, e)
    requires !e.InsertPending? && !e.MarkResolved? && !e.Expire? && !e.CommitDecision?
    ensures Extends(w, Next(w, e))
  {
    if e.MarkDelivered? {
      MarkExtends(w, e.row, e.ok);
    } else if e.AppendEvent? {
      AppendExtends(w, e.row, e.ok);
    } else if e.WakeWaiter? {
      WakeExtends(w, e.row);
    } else {
      assert Next(w, e).interactions == w.interactions && Next(w, e).outbox == w.outbox;
      assert Next(w, e).events == w.events;
    }
  }

  lemma MarkExtends(w: World, row: nat, ok: bool)
    requires row < |w.outbox|
    ensures Extends(w, Marked(w, row, ok))
  {
  }

  lemma AppendExtends(w: World, row: nat, ok: bool)
    requires row < |w.outbox|
    ensures Extends(w, Appended(w, row, ok))
  {
  }

  lemma WakeExtends(w: World, row: nat)
    requires row < |w.outbox|
    ensures Extends(w, Woken(w, row))
  {
  }

  lemma SettledKeepsDecisions(w: World, id: string, i: Interaction)
    requires OneDecision(w)
    requires id in w.interactions ==> w.interactions[id].status == Pending
    ensures OneDecision(w.(interactions := w.interactions[id := i]))
  {
    var w' := w.(interactions := w.interactions[id := i]);
    forall row | 0 <= row < |w'.outbox| ensures Decides(w', w'.outbox[row]) {
      assert Decides(w, w.outbox[row]);
    }
  }

  lemma CommitKeepsDecisions(w: World, tid: nat, ok: bool)
    requires OneDecision(w) && tid in w.responders
    ensures OneDecision(Committed(w, tid, ok))
  {
    var w' := Committed(w, tid, ok);
    forall row | 0 <= row < |w'.outbox| ensures Decides(w', w'.outbox[row]) {
      if row < |w.outbox| {
        assert Decides(w, w.outbox[row]);
      }
    }
    forall row, other | 0 <= row < other < |w'.outbox|
      ensures w'.outbox[row].interaction != w'.outbox[other].interaction
    {
      assert Decides(w, w.outbox[row]);
    }
  }

  lemma MarkKeepsDecisions(w: World, row: nat, ok: bool)
    requires OneDecision(w) && row < |w.outbox|
    ensures OneDecision(Marked(w, row, ok))
  {
    var w' := Marked(w, row, ok);
    forall r | 0 <= r < |w'.outbox| ensures Decides(w', w'.outbox[r]) {
      assert Decides(w, w.outbox[r]);
    }
  }

  lemma StepKeepsOneDecision(w: World, e: Event)
    requires OneDecision(w) && Enabled(w, e)
    ensures OneDecision(Next(w, e))
  {
    match e
    case InsertPending(id, runId, kind) =>
      if id !in w.interactions {
        SettledKeepsDecisions(w, id, Interaction(runId, kind, Pending, None));
      }
    case MarkResolved(id, response) =>
      if IsPending(w, id) {
        SettledKeepsDecisions(w, id, w.interactions[id].(status := Resolved, response := Some(response)));
      }
    case Expire(id, reason) =>
      if IsPending(w, id) {
        SettledKeepsDecisions(w, id, w.interactions[id].(status := Expired, response := Some(reason)));
      }
    case CommitDecision(tid, ok) => CommitKeepsDecisions(w, tid, ok);
    case MarkDelivered(row, ok) => MarkKeepsDecisions(w, row, ok);
    case _ => assert Next(w, e).outbox == w.outbox && Next(w, e).interactions == w.interactions;
  }

  lemma StepKeepsAttempting(w: World, e: Event)
    requires Attempting(w) && Replaying(w) && Enabled(w, e)
    ensures Attempting(Next(w, e))
  {
    match e
    case CommitDecision(tid, ok) => CommitKeepsAttempting(w, tid, ok);
    case MarkDelivered(row, ok) => MarkKeepsAttempting(w, row, ok);
    case RecoverNext => assert w.replaying.value[0] in w.replaying.value;
    case _ => OthersKeepAttempting(w, e);
  }

  lemma CommitKeepsAttempting(w: World, tid: nat, ok: bool)
    requires Attempting(w) && Enabled(w, CommitDecision(tid, ok))
    ensures Attempting(Committed(w, tid, ok))
  {
  }

  lemma MarkKeepsAttempting(w: World, row: nat, ok: bool)
    requires Attempting(w) && Enabled(w, MarkDelivered(row, ok))
    ensures Attempting(Marked(w, row, ok))
  {
  }

  lemma OthersKeepAttempting(w: World, e: Event)
    requires Attempting(w) && Enabled(w, e) && !e.CommitDecision? && !e.MarkDelivered? && !e.RecoverNext?
    ensures Attempting(Next(w, e))
  {
    if e.AppendEvent? {
      SameRowsKeepAttempting(w, Appended(w, e.row, e.ok));
    } else if e.WakeWaiter? {
      SameRowsKeepAttempting(w, Woken(w, e.row));
    } else {
      assert Next(w, e).outbox == w.outbox;
      assert Next(w, e).attempts == w.attempts || Next(w, e).attempts == map[];
    }
  }

  lemma SameRowsKeepAttempting(w: World, w': World)
    requires Attempting(w) && w'.outbox == w.outbox && forall row :: row in w'.attempts ==> row in w.attempts
    ensures Attempting(w')
  {
  }

  lemma StepKeepsPhased(w: World, e: Event)
    requires Phased(w) && Enabled(w, e)
    ensures Phased(Next(w, e))
  {
  }

  lemma StepKeepsReplaying(w: World, e: Event)
    requires Attempting(w) && Phased(w) && Replaying(w) && Enabled(w, e)
    ensures Replaying(Next(w, e))
  {
    var w' := Next(w, e);
    if w'.replaying.Some? && !e.StartRecovery? {
      assert w.replaying.Some?;
      var k := |w.replaying.value| - |w'.replaying.value|;
      assert w'.replaying.value == w.replaying.value[k..];
      forall row | row in w'.replaying.value ensures Undelivered(w', row) && row !in w'.attempts {
        assert row in w.replaying.value;
      }
    }
  }

  lemma StepKeepsEvents(w: World, e: Event)
    requires EventsAreDecisions(w) && Enabled(w, e)
    ensures EventsAreDecisions(Next(w, e))
  {
    if e.AppendEvent? {
      AppendKeepsEvents(w, e.row, e.ok);
    } else {
      StepExtends(w, e);
      OnlyAppendAdds(w, e);
      SameEventsStay(w, Next(w, e));
    }
  }

  lemma OnlyAppendAdds(w: World, e: Event)
    requires Enabled(w, e) && !e.AppendEvent?
    ensures Next(w, e).events == w.events
  {
  }

  lemma SameEventsStay(w: World, w': World)
    requires EventsAreDecisions(w) && Extends(w, w') && w'.events == w.events
    ensures EventsAreDecisions(w')
  {
    forall i | 0 <= i < |w'.events| ensures SaysDecision(w', w'.events[i]) {
      assert SaysDecision(w, w.events[i]);
    }
  }

  lemma AppendKeepsEvents(w: World, row: nat, ok: bool)
    requires EventsAreDecisions(w) && row < |w.outbox|
    ensures EventsAreDecisions(Appended(w, row, ok))
  {
    var w' := Appended(w, row, ok);
    forall i | 0 <= i < |w'.events| ensures SaysDecision(w', w'.events[i]) {
      if i < |w.events| {
        assert SaysDecision(w, w.events[i]);
      }
    }
  }

  lemma CountSnoc(events: seq<Responded>, e: Responded, row: nat)
    ensures Count(events + [e], row) == Count(events, row) + (if e.row == row then 1 else 0)
  {
    assert (events + [e])[..|events|] == events;
  }

  lemma AppendKeepsBalance(w: World, at: nat, ok: bool, row: nat)
    requires Balanced(w, row) && Enabled(w, AppendEvent(at, ok))
    ensures Balanced(Appended(w, at, ok), row)
  {
    if row != at {
      AppendElsewhere(w, at, ok, row);
    } else if HasRun(w.outbox[at].runId) && ok {
      CountSnoc(w.events, Responded(at, w.outbox[at].interaction, w.outbox[at].response), row);
    }
  }

  lemma AppendElsewhere(w: World, at: nat, ok: bool, row: nat)
    requires Balanced(w, row) && Enabled(w, AppendEvent(at, ok)) && row != at
    ensures Balanced(Appended(w, at, ok), row)
  {
    var w' := Appended(w, at, ok);
    CountSnoc(w.events, Responded(at, w.outbox[at].interaction, w.outbox[at].response), row);
    SameCountsBalance(w, w', row);
  }

  lemma SameCountsBalance(w: World, w': World, row: nat)
    requires Balanced(w, row) && w'.outbox == w.outbox && Count(w'.events, row) == Count(w.events, row)
    requires PastAppend(w', row) == PastAppend(w, row) && Cut(w', row) == Cut(w, row)
    ensures Balanced(w', row)
  {
  }

  lemma CommitKeepsBalance(w: World, tid: nat, ok: bool, row: nat)
    requires Balanced(w, row) && tid in w.responders && Attempting(w)
    ensures Balanced(Committed(w, tid, ok), row)
  {
  }

  lemma MarkKeepsBalance(w: World, at: nat, ok: bool, row: nat)
    requires Balanced(w, row) && Enabled(w, MarkDelivered(at, ok)) && Attempting(w)
    ensures Balanced(Marked(w, at, ok), row)
  {
  }

  lemma CrashKeepsBalance(w: World, row: nat)
    requires Balanced(w, row)
    ensures Balanced(Crashed(w), row)
  {
  }

  lemma WakeKeepsBalance(w: World, at: nat, row: nat)
    requires Balanced(w, row) && Enabled(w, WakeWaiter(at))
    ensures Balanced(Woken(w, at), row)
  {
  }

  lemma TakeKeepsBalance(w: World, row: nat)
    requires Balanced(w, row) && Enabled(w, RecoverNext)
    ensures Balanced(Next(w, RecoverNext), row)
  {
    assert !PastAppend(w, row);
  }

  lemma OthersKeepBalance(w: World, e: Event, row: nat)
    requires Balanced(w, row) && Enabled(w, e)
    requires !e.CommitDecision? && !e.AppendEvent? && !e.MarkDelivered? && !e.Crash? && !e.WakeWaiter?
      && !e.RecoverNext?
    ensures Balanced(Next(w, e), row)
  {
    var w' := Next(w, e);
    assert w'.events == w.events && w'.outbox == w.outbox && w'.cutOff == w.cutOff && w'.attempts == w.attempts;
  }

  lemma StepKeepsBalance(w: World, e: Event, row: nat)
    requires Balanced(w, row) && Attempting(w) && Enabled(w, e)
    ensures Balanced(Next(w, e), row)
  {
    match e
    case CommitDecision(tid, ok) => CommitKeepsBalance(w, tid, ok, row);
    case AppendEvent(at, ok) => AppendKeepsBalance(w, at, ok, row);
    case MarkDelivered(at, ok) => MarkKeepsBalance(w, at, ok, row);
    case Crash => CrashKeepsBalance(w, row);
    case WakeWaiter(at) => WakeKeepsBalance(w, at, row);
    case RecoverNext => TakeKeepsBalance(w, row);
    case _ => OthersKeepBalance(w, e, row);
  }

  lemma StepKeepsAccounted(w: World, e: Event)
    requires Attempting(w) && Accounted(w) && Enabled(w, e)
    ensures Accounted(Next(w, e))
  {
    forall row: nat ensures Balanced(Next(w, e), row) {
      StepKeepsBalance(w, e, row);
    }
  }

  lemma CountGrows(events: seq<Responded>, events': seq<Responded>, row: nat)
    requires events <= events'
    ensures Count(events, row) <= Count(events', row)
    decreases |events'|
  {
    if |events| < |events'| {
      CountGrows(events, events'[..|events'| - 1], row);
    } else {
      assert events == events';
    }
  }

  predicate WokenAfterEvent(w: World, row: nat) {
    row < |w.outbox| && (HasRun(w.outbox[row].runId) ==> Count(w.events, row) > 0)
  }

  lemma EventStays(w: World, w': World, row: nat)
    requires Extends(w, w') && WokenAfterEvent(w, row)
    ensures WokenAfterEvent(w', row)
  {
    CountGrows(w.events, w'.events, row);
  }

  /** A step adds at most the row it wakes. */
  lemma WokenGrows(w: World, e: Event)
    requires Enabled(w, e)
    ensures Next(w, e).woken == w.woken || (e.WakeWaiter? && Next(w, e).woken == w.woken + [e.row])
  {
  }

  lemma StepKeepsEventFirst(w: World, e: Event)
    requires Accounted(w) && EventFirst(w) && Enabled(w, e)
    ensures EventFirst(Next(w, e))
  {
    StepExtends(w, e);
    WokenGrows(w, e);
    var w' := Next(w, e);
    forall i | 0 <= i < |w'.woken| ensures WokenAfterEvent(w', w'.woken[i]) {
      if i < |w.woken| {
        assert WokenAfterEvent(w, w.woken[i]);
      } else {
        assert Balanced(w, e.row) && PastAppend(w, e.row);
      }
      EventStays(w, w', w'.woken[i]);
    }
  }

  lemma StepKeeps(w: World, e: Event)
    requires Inv(w) && Enabled(w, e)
    ensures Inv(Next(w, e))
  {
    StepKeepsOneDecision(w, e);
    StepKeepsAttempting(w, e);
    StepKeepsPhased(w, e);
    StepKeepsReplaying(w, e);
    StepKeepsEvents(w, e);
    StepKeepsAccounted(w, e);
    StepKeepsEventFirst(w, e);
  }
}
