/**
 * All interleavings of `acquire`, `record_rate_limit`, `update_settings` and
 * cancellation. A waiter runs from one lock boundary to the next; between two
 * boundaries any other task may run and time may pass. `Notify` is an epoch
 * counter: a `Notified` created at epoch `e` has fired once the epoch is past
 * `e`, whether or not it had been polled.
 */
module GovernorProtocol {
  import opened Wrappers
  import opened GovernorState

  /** Where one `acquire` call stands, between two of its lock boundaries. */
  datatype Pc =
    | Looping                                // about to create its Notified
    | Armed(seen: nat)                       // Notified created, about to lock
    | Parked(seen: nat, wake: Option<nat>)   // in select!; no timer when wake is None
    | Leaving                                // cancelled, about to lock and leave the queue
    | Announcing                             // settled its ticket, still has to notify_waiters
    | Done
  {
    predicate Holds() {
      Looping? || Armed? || Parked? || Leaving?
    }
  }

  datatype Waiter = Waiter(key: RouteKey, pc: Pc)

  /** What happened, in order. A grant taken while pacing was off is not paced. */
  datatype Entry =
    | Sent(key: RouteKey, ticket: nat, at: nat, interval: nat, paced: bool)
    | Left(key: RouteKey, ticket: nat)
    | Cooldown(key: RouteKey, until: nat)

  /**
   * `waiters` is indexed by ticket; `notifiers` counts the settings changes and
   * cooldowns that have released the lock and not yet called `notify_waiters`.
   */
  datatype System = System(
    gov: Governor,
    now: nat,
    epoch: nat,
    waiters: map<nat, Waiter>,
    notifiers: nat,
    issued: nat,
    log: seq<Entry>)

  datatype Event =
    | Enter(key: RouteKey)
    | RateLimited(key: RouteKey, cooldownMillis: nat)
    | Configure(updated: Settings)
    | NotifierAnnounces
    | Pass(nanos: nat)
    | Resume(ticket: nat)
    | NotifiedFires(ticket: nat)
    | TimerFires(ticket: nat)
    | CancelFires(ticket: nat)

  function Start(initial: Settings, now: nat): System {
    System(Governor(initial, map[], 0), now, 0, map[], 0, 0, [])
  }

  predicate Enabled(s: System, e: Event) {
    match e
    case NotifierAnnounces => s.notifiers > 0
    case Resume(t) => t in s.waiters && !s.waiters[t].pc.Parked? && !s.waiters[t].pc.Done?
    case NotifiedFires(t) => t in s.waiters && s.waiters[t].pc.Parked? && s.waiters[t].pc.seen < s.epoch
    case TimerFires(t) =>
      && t in s.waiters && s.waiters[t].pc.Parked?
      && s.waiters[t].pc.wake.Some? && s.waiters[t].pc.wake.value <= s.now
    case CancelFires(t) => t in s.waiters && s.waiters[t].pc.Parked?
    case _ => true
  }

  function Moved(s: System, t: nat, pc: Pc): System
    requires t in s.waiters
  {
    s.(waiters := s.waiters[t := s.waiters[t].(pc := pc)])
  }

  function Entered(s: System, key: RouteKey): System {
    var gov := WithTicket(s.gov, key);
    s.(gov := gov, issued := s.issued + 1, waiters := s.waiters[gov.nextTicket := Waiter(key, Looping)])
  }

  /** One locked pass of the acquire loop, with the epoch its Notified was created at. */
  function Passed(s: System, t: nat): System
    requires t in s.waiters && s.waiters[t].pc.Armed?
  {
    var key, seen := s.waiters[t].key, s.waiters[t].pc.seen;
    var s' := s.(gov := AfterPass(s.gov, key, t, s.now));
    match Decide(s.gov, key, t, s.now)
    case Granted =>
      Moved(s', t, Announcing).(
        log := s.log + [Sent(key, t, s.now, Interval(s.gov.settings), s.gov.settings.enabled)])
    case SleepUntil(wake) => Moved(s', t, Parked(seen, Some(wake)))
    case AwaitNotify => Moved(s', t, Parked(seen, None))
  }

  function Departed(s: System, t: nat): System
    requires t in s.waiters
  {
    var key := s.waiters[t].key;
    Moved(s, t, Announcing).(gov := WithoutTicket(s.gov, key, t), log := s.log + [Left(key, t)])
  }

  function Next(s: System, e: Event): System
    requires Enabled(s, e)
  {
    match e
    case Enter(key) => Entered(s, key)
    case RateLimited(key, cooldownMillis) =>
      var until := s.now + cooldownMillis * NANOS_PER_MILLI;
      s.(gov := Cooled(s.gov, key, until), notifiers := s.notifiers + 1, log := s.log + [Cooldown(key, until)])
    case Configure(updated) => s.(gov := s.gov.(settings := updated), notifiers := s.notifiers + 1)
    case NotifierAnnounces => s.(notifiers := s.notifiers - 1, epoch := s.epoch + 1)
    case Pass(nanos) => s.(now := s.now + nanos)
    case NotifiedFires(t) => Moved(s, t, Looping)
    case TimerFires(t) => Moved(s, t, Looping)
    case CancelFires(t) => Moved(s, t, Leaving)
    case Resume(t) =>
      match s.waiters[t].pc
      case Looping => Moved(s, t, Armed(s.epoch))
      case Armed(_) => Passed(s, t)
      case Leaving => Departed(s, t)
      case _ => Moved(s, t, Done).(epoch := s.epoch + 1)
  }

  predicate IsRun(s: System, events: seq<Event>)
    decreases |events|
  {
    events != [] ==> Enabled(s, events[0]) && IsRun(Next(s, events[0]), events[1..])
  }

  function After(s: System, events: seq<Event>): System
    requires IsRun(s, events)
    decreases |events|
  {
    if events == [] then s else After(Next(s, events[0]), events[1..])
  }

  // ---- The invariant ----

  function QueueOf(s: System, key: RouteKey): seq<nat> {
    RouteOf(s.gov, key).queue
  }

  /** A ticket is queued on its waiter's route, and nowhere else, exactly while the waiter holds it. */
  ghost predicate Queued(s: System) {
    && (forall t :: t in s.waiters && s.waiters[t].pc.Holds() ==>
          s.waiters[t].key in s.gov.routes && t in s.gov.routes[s.waiters[t].key].queue)
    && (forall key, t :: key in s.gov.routes && t in s.gov.routes[key].queue ==>
          t in s.waiters && s.waiters[t].pc.Holds() && s.waiters[t].key == key)
  }

  ghost predicate InOrder(s: System) {
    && s.gov.nextTicket == s.issued
    && (forall t :: t in s.waiters <==> 1 <= t <= s.issued)
    && (forall key :: key in s.gov.routes ==> Ordered(s.gov.routes[key].queue))
  }

  predicate AnnouncementPending(s: System) {
    s.notifiers > 0 || exists t :: t in s.waiters && s.waiters[t].pc.Announcing?
  }

  /** The decision a waiter parked on is the one it would take now. */
  predicate StillRight(s: System, t: nat)
    requires t in s.waiters && s.waiters[t].pc.Parked?
  {
    var route := RouteOf(s.gov, s.waiters[t].key);
    && s.gov.settings.enabled
    && route.queue != []
    && match s.waiters[t].pc.wake
       case None => route.queue[0] != t
       case Some(wake) => route.queue[0] == t && wake == Earliest(route, s.gov.settings)
  }

  ghost predicate NoneForgotten(s: System) {
    && (forall t :: t in s.waiters && (s.waiters[t].pc.Parked? || s.waiters[t].pc.Armed?) ==>
          s.waiters[t].pc.seen <= s.epoch)
    && (forall t :: t in s.waiters && s.waiters[t].pc.Parked? ==>
          s.waiters[t].pc.seen < s.epoch || AnnouncementPending(s) || StillRight(s, t))
  }

  /** What the state remembers of the log, per route. */
  ghost predicate Remembers(s: System) {
    forall i :: 0 <= i < |s.log| ==>
      match s.log[i]
      case Sent(key, ticket, at, interval, paced) =>
        && key in s.gov.routes && at <= s.now
        && (paced ==>
              && s.gov.routes[key].lastSent.Some? && at <= s.gov.routes[key].lastSent.value <= s.now
              && (forall t :: t in s.gov.routes[key].queue ==> ticket < t)
              && ticket <= s.issued)
      case Left(key, ticket) => true
      case Cooldown(key, until) =>
        && key in s.gov.routes
        && s.gov.routes[key].coolingUntil.Some? && until <= s.gov.routes[key].coolingUntil.value
  }

  /** Pacing, cooldowns and order, over the whole history. */
  ghost predicate Paced(log: seq<Entry>) {
    forall i, j :: 0 <= i < j < |log| && log[j].Sent? && log[j].paced && log[i].key == log[j].key ==>
      && (log[i].Sent? && log[i].paced ==>
            log[i].at + log[j].interval <= log[j].at && log[i].ticket < log[j].ticket)
      && (log[i].Cooldown? ==> log[i].until <= log[j].at)
  }

  /** Where in the log each settled ticket was settled. */
  function SettledAt(log: seq<Entry>): map<nat, nat> {
    if log == [] then map[]
    else
      var earlier := SettledAt(log[..|log| - 1]);
      var entry := log[|log| - 1];
      if entry.Cooldown? then earlier else earlier[entry.ticket := |log| - 1]
  }

  ghost predicate SettledOnce(log: seq<Entry>) {
    forall i :: 0 <= i < |log| && !log[i].Cooldown? ==>
      log[i].ticket in SettledAt(log) && SettledAt(log)[log[i].ticket] == i
  }

  /** Each ticket ever drawn is either still held or was settled, once. */
  ghost predicate Conserved(s: System) {
    && SettledAt(s.log).Keys == (set t | t in s.waiters && !s.waiters[t].pc.Holds())
    && SettledOnce(s.log)
  }

  ghost predicate Inv(s: System) {
    && Queued(s) && InOrder(s) && NoneForgotten(s) && Remembers(s) && Paced(s.log) && Conserved(s)
  }

  // ---- Every step keeps it ----

  /** `s'` differs from `s` in where waiters stand and in time, and parks nobody. */
  ghost predicate SameShared(s: System, s': System) {
    && s'.gov.routes == s.gov.routes && s'.gov.nextTicket == s.gov.nextTicket
    && s'.issued == s.issued && s'.log == s.log && s.now <= s'.now
    && s'.waiters.Keys == s.waiters.Keys
    && (forall t :: t in s.waiters ==>
          s'.waiters[t].key == s.waiters[t].key && s'.waiters[t].pc.Holds() == s.waiters[t].pc.Holds())
  }

  lemma SameSharedKeeps(s: System, s': System)
    requires SameShared(s, s')
    ensures Queued(s) ==> Queued(s')
    ensures InOrder(s) ==> InOrder(s')
    ensures Remembers(s) ==> Remembers(s')
    ensures Conserved(s) ==> Conserved(s')
  {
  }

  lemma EnterKeepsInOrder(s: System, key: RouteKey)
    requires Queued(s) && InOrder(s) && s.issued + 1 < TICKET_MODULUS
    ensures InOrder(Entered(s, key))
  {
    var queue := QueueOf(s, key);
    forall i | 0 <= i < |queue| ensures queue[i] <= s.issued {
      assert queue[i] in queue && queue[i] in s.waiters;
    }
    assert Ordered(queue + [s.issued + 1]);
  }

  lemma EnterKeepsQueued(s: System, key: RouteKey)
    requires Queued(s) && InOrder(s) && s.issued + 1 < TICKET_MODULUS
    ensures Queued(Entered(s, key)) && InOrder(Entered(s, key))
  {
    EnterKeepsInOrder(s, key);
    var s', t, queue := Entered(s, key), s.issued + 1, QueueOf(s, key);
    assert QueueOf(s', key) == queue + [t] && t !in s.waiters;
    forall k, u | k in s'.gov.routes && u in s'.gov.routes[k].queue
      ensures u in s'.waiters && s'.waiters[u].pc.Holds() && s'.waiters[u].key == k
    {
      if k == key {
        assert u in queue || u == t;
        assert u in queue ==> k in s.gov.routes;
      } else {
        assert k in s.gov.routes && u in s.gov.routes[k].queue;
      }
    }
  }

  /** A held ticket leaves its queue and its waiter stops holding it. */
  ghost predicate Settles(s: System, s': System, t: nat) {
    && t in s.waiters && s.waiters[t].pc.Holds() && s.waiters[t].key in s.gov.routes
    && s'.waiters == s.waiters[t := Waiter(s.waiters[t].key, Announcing)]
    && s'.issued == s.issued && s'.now == s.now && s'.gov.nextTicket == s.gov.nextTicket
    && s'.gov.routes.Keys == s.gov.routes.Keys
    && (forall key :: key in s.gov.routes ==>
          && s'.gov.routes[key].coolingUntil == s.gov.routes[key].coolingUntil
          && (key != s.waiters[t].key ==> s'.gov.routes[key] == s.gov.routes[key]))
    && s'.gov.routes[s.waiters[t].key].queue == Without(s.gov.routes[s.waiters[t].key].queue, t)
  }

  lemma SettlesKeepsQueued(s: System, s': System, t: nat)
    requires Queued(s) && InOrder(s) && Settles(s, s', t)
    ensures Queued(s') && InOrder(s')
  {
    WithoutMembers(s.gov.routes[s.waiters[t].key].queue, t);
  }

  /** The three ways a step can touch the queues: not at all, by settling a ticket, by drawing one. */
  lemma StepShape(s: System, e: Event)
    requires Enabled(s, e) && !e.Enter? && !e.RateLimited?
    requires e.Resume? && s.waiters[e.ticket].pc.Holds() ==> s.waiters[e.ticket].key in s.gov.routes
    ensures SameShared(s, Next(s, e)) || (e.Resume? && Settles(s, Next(s, e), e.ticket))
  {
    if e.Resume? {
      var queue := QueueOf(s, s.waiters[e.ticket].key);
      assert queue != [] && queue[0] == e.ticket ==> Without(queue, e.ticket) == queue[1..];
    }
  }

  lemma CooldownKeepsQueued(s: System, e: Event)
    requires Queued(s) && InOrder(s) && e.RateLimited?
    ensures Queued(Next(s, e)) && InOrder(Next(s, e))
  {
    assert forall key :: QueueOf(Next(s, e), key) == QueueOf(s, key);
  }

  lemma StepKeepsQueued(s: System, e: Event)
    requires Queued(s) && InOrder(s) && Enabled(s, e) && Next(s, e).issued < TICKET_MODULUS
    ensures Queued(Next(s, e)) && InOrder(Next(s, e))
  {
    if e.Enter? {
      EnterKeepsQueued(s, e.key);
    } else if e.RateLimited? {
      CooldownKeepsQueued(s, e);
    } else {
      StepShape(s, e);
      var s' := Next(s, e);
      if SameShared(s, s') { SameSharedKeeps(s, s'); } else { SettlesKeepsQueued(s, s', e.ticket); }
    }
  }

  lemma AnnouncementLives(s: System, e: Event)
    requires Enabled(s, e) && AnnouncementPending(s) && InOrder(s)
    requires e.Enter? ==> s.issued + 1 < TICKET_MODULUS
    ensures AnnouncementPending(Next(s, e)) || Next(s, e).epoch > s.epoch
  {
    var s' := Next(s, e);
    if s.notifiers == 0 {
      var a :| a in s.waiters && s.waiters[a].pc.Announcing?;
      assert a in s'.waiters && (s'.waiters[a].pc.Announcing? || s'.epoch > s.epoch);
    }
  }

  lemma ResumeKeepsNoneForgotten(s: System, t: nat)
    requires Queued(s) && InOrder(s) && NoneForgotten(s) && Enabled(s, Resume(t))
    ensures NoneForgotten(Next(s, Resume(t)))
  {
    var s' := Next(s, Resume(t));
    if AnnouncementPending(s) { AnnouncementLives(s, Resume(t)); }
    assert t in s'.waiters;
    forall u | u in s'.waiters && s'.waiters[u].pc.Parked?
      ensures s'.waiters[u].pc.seen < s'.epoch || AnnouncementPending(s') || StillRight(s', u)
    {
      if s.waiters[t].pc.Looping? { assert QueueOf(s', s'.waiters[u].key) == QueueOf(s, s'.waiters[u].key); }
    }
  }

  lemma StepKeepsNoneForgotten(s: System, e: Event)
    requires Queued(s) && InOrder(s) && NoneForgotten(s) && Enabled(s, e) && Next(s, e).issued < TICKET_MODULUS
    ensures NoneForgotten(Next(s, e))
  {
    if e.Resume? {
      ResumeKeepsNoneForgotten(s, e.ticket);
    } else {
      var s' := Next(s, e);
      if AnnouncementPending(s) { AnnouncementLives(s, e); }
      forall t | t in s'.waiters && s'.waiters[t].pc.Parked?
        ensures s'.waiters[t].pc.seen < s'.epoch || AnnouncementPending(s') || StillRight(s', t)
      {
        assert t in s.waiters && s.waiters[t] == s'.waiters[t];
      }
    }
  }

  /** A paced grant stamps the route; any other settlement stamps nothing. */
  lemma SettlesKeepsRemembers(s: System, s': System, t: nat, entry: Entry)
    requires Queued(s) && InOrder(s) && Remembers(s) && Settles(s, s', t)
    requires s'.log == s.log + [entry] && entry.key == s.waiters[t].key && !entry.Cooldown? && entry.ticket == t
    requires (entry.Sent? && entry.at == s.now) || entry.Left?
    requires
      var before, after := s.gov.routes[entry.key], s'.gov.routes[entry.key];
      if entry.Sent? && entry.paced then after.lastSent == Some(s.now) && before.queue[0] == t
      else after.lastSent == before.lastSent
    ensures Remembers(s')
  {
    var queue := s.gov.routes[entry.key].queue;
    WithoutMembers(queue, t);
    assert t in queue;
    forall u | entry.Sent? && entry.paced && u in s'.gov.routes[entry.key].queue ensures t < u {
      var i :| 0 <= i < |queue| && queue[i] == u;
    }
  }

  lemma EnterKeepsRemembers(s: System, key: RouteKey)
    requires InOrder(s) && Remembers(s) && s.issued + 1 < TICKET_MODULUS
    ensures Remembers(Entered(s, key))
  {
  }

  lemma CooldownKeepsRemembers(s: System, e: Event)
    requires Remembers(s) && e.RateLimited?
    ensures Remembers(Next(s, e))
  {
  }

  /** The log entry of a settling step and the stamp that goes with it. */
  predicate Stamps(s: System, s': System, t: nat, entry: Entry)
    requires t in s.waiters && s.waiters[t].key in s.gov.routes && s.waiters[t].key in s'.gov.routes
  {
    var key := s.waiters[t].key;
    var before, after := s.gov.routes[key], s'.gov.routes[key];
    && s'.log == s.log + [entry] && entry.key == key && !entry.Cooldown? && entry.ticket == t
    && ((entry.Sent? && entry.at == s.now) || entry.Left?)
    && (if entry.Sent? && entry.paced then after.lastSent == Some(s.now) && before.queue != [] && before.queue[0] == t
        else after.lastSent == before.lastSent)
  }

  lemma SettlingStamps(s: System, t: nat) returns (entry: Entry)
    requires Enabled(s, Resume(t)) && Settles(s, Next(s, Resume(t)), t) && !SameShared(s, Next(s, Resume(t)))
    ensures Stamps(s, Next(s, Resume(t)), t, entry)
  {
    entry := Next(s, Resume(t)).log[|s.log|];
  }

  lemma SettlingKeepsRemembers(s: System, t: nat)
    requires Queued(s) && InOrder(s) && Remembers(s) && Enabled(s, Resume(t))
    requires Settles(s, Next(s, Resume(t)), t) && !SameShared(s, Next(s, Resume(t)))
    ensures Remembers(Next(s, Resume(t)))
  {
    var entry := SettlingStamps(s, t);
    SettlesKeepsRemembers(s, Next(s, Resume(t)), t, entry);
  }

  lemma StepKeepsRemembers(s: System, e: Event)
    requires Queued(s) && InOrder(s) && Remembers(s) && Enabled(s, e) && Next(s, e).issued < TICKET_MODULUS
    ensures Remembers(Next(s, e))
  {
    if e.Enter? {
      EnterKeepsRemembers(s, e.key);
    } else if e.RateLimited? {
      CooldownKeepsRemembers(s, e);
    } else {
      StepShape(s, e);
      if SameShared(s, Next(s, e)) {
        SameSharedKeeps(s, Next(s, e));
      } else {
        SettlingKeepsRemembers(s, e.ticket);
      }
    }
  }

  lemma StepKeepsPaced(s: System, e: Event)
    requires Queued(s) && Remembers(s) && Paced(s.log) && Enabled(s, e)
    ensures Paced(Next(s, e).log)
  {
  }

  lemma EnterKeepsConserved(s: System, key: RouteKey)
    requires InOrder(s) && Conserved(s) && s.issued + 1 < TICKET_MODULUS
    ensures Conserved(Entered(s, key))
  {
  }

  lemma CooldownKeepsConserved(s: System, e: Event)
    requires Conserved(s) && e.RateLimited?
    ensures Conserved(Next(s, e))
  {
    OneMoreEntry(s.log, Cooldown(e.key, s.now + e.cooldownMillis * NANOS_PER_MILLI));
  }

  lemma SettledAtSnoc(log: seq<Entry>, entry: Entry)
    ensures SettledAt(log + [entry]) ==
      if entry.Cooldown? then SettledAt(log) else SettledAt(log)[entry.ticket := |log|]
  {
    assert (log + [entry])[..|log|] == log;
  }

  /** An entry that settles nothing, or a ticket not settled before. */
  lemma OneMoreEntry(log: seq<Entry>, entry: Entry)
    requires SettledOnce(log) && (entry.Cooldown? || entry.ticket !in SettledAt(log))
    ensures SettledOnce(log + [entry])
    ensures SettledAt(log + [entry]).Keys == SettledAt(log).Keys + (if entry.Cooldown? then {} else {entry.ticket})
  {
    var longer := log + [entry];
    SettledAtSnoc(log, entry);
    forall i | 0 <= i < |longer| && !longer[i].Cooldown?
      ensures longer[i].ticket in SettledAt(longer) && SettledAt(longer)[longer[i].ticket] == i
    {
      if i < |log| {
        assert longer[i] == log[i] && log[i].ticket in SettledAt(log);
      }
    }
  }

  lemma SettlingKeepsConserved(s: System, s': System, t: nat, entry: Entry)
    requires Conserved(s) && t in s.waiters && s.waiters[t].pc.Holds()
    requires s'.waiters == s.waiters[t := Waiter(s.waiters[t].key, Announcing)]
    requires s'.log == s.log + [entry] && !entry.Cooldown? && entry.ticket == t
    ensures Conserved(s')
  {
    assert t !in SettledAt(s.log);
    OneMoreEntry(s.log, entry);
  }

  /** A step that settles a ticket logs it. */
  lemma SettlesLogs(s: System, e: Event)
    requires Enabled(s, e) && e.Resume? && Settles(s, Next(s, e), e.ticket) && !SameShared(s, Next(s, e))
    ensures
      var s' := Next(s, e);
      |s'.log| == |s.log| + 1 && s'.log == s.log + [s'.log[|s.log|]]
      && !s'.log[|s.log|].Cooldown? && s'.log[|s.log|].ticket == e.ticket
  {
  }

  lemma StepKeepsConserved(s: System, e: Event)
    requires Queued(s) && InOrder(s) && Conserved(s) && Enabled(s, e) && Next(s, e).issued < TICKET_MODULUS
    ensures Conserved(Next(s, e))
  {
    if e.Enter? {
      EnterKeepsConserved(s, e.key);
    } else if e.RateLimited? {
      CooldownKeepsConserved(s, e);
    } else {
      StepShape(s, e);
      var s' := Next(s, e);
      if SameShared(s, s') {
        SameSharedKeeps(s, s');
      } else {
        SettlesLogs(s, e);
        SettlingKeepsConserved(s, s', e.ticket, s'.log[|s.log|]);
      }
    }
  }

  /** Every enabled step, of every task, keeps the invariant. */
  lemma StepKeeps(s: System, e: Event)
    requires Inv(s) && Enabled(s, e) && Next(s, e).issued < TICKET_MODULUS
    ensures Inv(Next(s, e))
  {
    StepKeepsQueued(s, e);
    StepKeepsNoneForgotten(s, e);
    StepKeepsRemembers(s, e);
    StepKeepsPaced(s, e);
    StepKeepsConserved(s, e);
  }
}
