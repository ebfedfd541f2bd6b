/**
 * What the governor guarantees over every run, from any settings: no waiter is
 * forgotten, tickets leave in order and are conserved, grants are spaced.
 */
module GovernorTheorems {
  import opened Arithmetic
  import opened Wrappers
  import opened GovernorState
  import opened GovernorProtocol

  lemma {:induction false} RunKeeps(s: System, events: seq<Event>)
    requires Inv(s) && IsRun(s, events) && After(s, events).issued < TICKET_MODULUS
    ensures Inv(After(s, events))
    decreases |events|
  {
    if events != [] {
      var s' := Next(s, events[0]);
      IssuedGrows(s', events[1..]);
      StepKeeps(s, events[0]);
      RunKeeps(s', events[1..]);
    }
  }

  lemma {:induction false} IssuedGrows(s: System, events: seq<Event>)
    requires IsRun(s, events)
    ensures s.issued <= After(s, events).issued
    decreases |events|
  {
    if events != [] { IssuedGrows(Next(s, events[0]), events[1..]); }
  }

  /** A state some run reaches before the ticket counter wraps. */
  ghost predicate Reached(initial: Settings, now: nat, events: seq<Event>, s: System) {
    && IsRun(Start(initial, now), events)
    && s == After(Start(initial, now), events)
    && s.issued < TICKET_MODULUS
  }

  lemma Reachable(initial: Settings, now: nat, events: seq<Event>, s: System)
    requires Reached(initial, now, events, s)
    ensures Inv(s)
  {
    RunKeeps(Start(initial, now), events);
  }

  /**
   * No lost wake-up. A waiter that went to sleep either sleeps for a reason that
   * still holds, or has been notified since, or will be: somebody who changed the
   * state has yet to call notify_waiters. In particular a waiter parked with no
   * timer is not the head of its queue, and a parked head has its timer set to
   * exactly the first instant it can be granted.
   */
  lemma NoLostWakeup(initial: Settings, now: nat, events: seq<Event>, s: System, t: nat)
    requires Reached(initial, now, events, s)
    requires t in s.waiters && s.waiters[t].pc.Parked?
    requires !Enabled(s, NotifiedFires(t)) && !AnnouncementPending(s)
    ensures s.gov.settings.enabled
    ensures t in QueueOf(s, s.waiters[t].key)
    ensures s.waiters[t].pc.wake.None? ==> QueueOf(s, s.waiters[t].key)[0] != t
    ensures s.waiters[t].pc.wake.Some? ==>
      && QueueOf(s, s.waiters[t].key)[0] == t
      && s.waiters[t].pc.wake.value == Earliest(RouteOf(s.gov, s.waiters[t].key), s.gov.settings)
  {
    Reachable(initial, now, events, s);
  }

  predicate FixedSettings(events: seq<Event>) {
    forall i :: 0 <= i < |events| ==> !events[i].Configure?
  }

  lemma {:induction false} SettingsStay(s: System, events: seq<Event>)
    requires IsRun(s, events) && FixedSettings(events)
    ensures After(s, events).gov.settings == s.gov.settings
    decreases |events|
  {
    if events != [] {
      assert !events[0].Configure?;
      assert forall i :: 0 <= i < |events[1..]| ==> events[1..][i] == events[i + 1];
      SettingsStay(Next(s, events[0]), events[1..]);
    }
  }

  /**
   * New settings reach everybody, whatever happens after them: once no
   * announcement and no notification is outstanding nobody sleeps on a decision
   * of the old ones. With pacing off nobody sleeps at all; with it on, a timer
   * is the first admissible instant under the new interval.
   */
  lemma SettingsReachEveryWaiter(s: System, updated: Settings, later: seq<Event>, t: nat)
    requires Inv(s) && IsRun(Next(s, Configure(updated)), later) && FixedSettings(later)
    requires After(Next(s, Configure(updated)), later).issued < TICKET_MODULUS
    requires
      var end := After(Next(s, Configure(updated)), later);
      t in end.waiters && end.waiters[t].pc.Parked? && !Enabled(end, NotifiedFires(t)) && !AnnouncementPending(end)
    ensures
      var end := After(Next(s, Configure(updated)), later);
      && updated.enabled
      && (end.waiters[t].pc.wake.Some? ==>
            end.waiters[t].pc.wake.value == Earliest(RouteOf(end.gov, end.waiters[t].key), updated))
  {
    var changed := Next(s, Configure(updated));
    IssuedGrows(changed, later);
    StepKeeps(s, Configure(updated));
    RunKeeps(changed, later);
    SettingsStay(changed, later);
    assert StillRight(After(changed, later), t);
  }

  /** What can happen next without any new request: a wake-up, a step, or time reaching a timer. */
  ghost predicate CanProceed(s: System, t: nat) {
    || Enabled(s, Resume(t)) || Enabled(s, NotifiedFires(t)) || AnnouncementPending(s)
    || (t in s.waiters && s.waiters[t].pc.Parked? && s.waiters[t].pc.wake.Some?
        && forall nanos :: s.now + nanos >= s.waiters[t].pc.wake.value ==>
             Enabled(Next(s, Pass(nanos)), TimerFires(t)))
  }

  /** No route ever gets stuck: the ticket at the front of any queue can always proceed. */
  lemma FrontCanProceed(initial: Settings, now: nat, events: seq<Event>, s: System, key: RouteKey)
    requires Reached(initial, now, events, s)
    requires QueueOf(s, key) != []
    ensures CanProceed(s, QueueOf(s, key)[0])
  {
    Reachable(initial, now, events, s);
    var t := QueueOf(s, key)[0];
    assert t in s.gov.routes[key].queue;
    if s.waiters[t].pc.Parked? && !Enabled(s, NotifiedFires(t)) && !AnnouncementPending(s) {
      NoLostWakeup(initial, now, events, s, t);
    }
  }

  /** A pending announcement is itself able to run: somebody will call notify_waiters. */
  lemma AnnouncementsRun(s: System)
    requires AnnouncementPending(s)
    ensures exists e: Event :: Enabled(s, e) && Next(s, e).epoch == s.epoch + 1
  {
    if s.notifiers > 0 {
      assert Enabled(s, NotifierAnnounces) && Next(s, NotifierAnnounces).epoch == s.epoch + 1;
    } else {
      var t :| t in s.waiters && s.waiters[t].pc.Announcing?;
      assert Enabled(s, Resume(t)) && Next(s, Resume(t)).epoch == s.epoch + 1;
    }
  }

  /**
   * Pacing and order over the whole history of a route: a paced grant comes at
   * least its interval after every earlier one, never before the end of an
   * earlier cooldown, and grants leave in the order the tickets were drawn.
   */
  lemma GrantsArePaced(initial: Settings, now: nat, events: seq<Event>, s: System, i: nat, j: nat)
    requires Reached(initial, now, events, s)
    requires i < j < |s.log| && s.log[j].Sent? && s.log[j].paced && s.log[i].key == s.log[j].key
    ensures s.log[i].Sent? && s.log[i].paced ==>
      s.log[i].at + s.log[j].interval <= s.log[j].at && s.log[i].ticket < s.log[j].ticket
    ensures s.log[i].Cooldown? ==> s.log[i].until <= s.log[j].at
  {
    Reachable(initial, now, events, s);
  }

  // ---- Conservation ----

  function Settlements(log: seq<Entry>): nat {
    if log == [] then 0
    else Settlements(log[..|log| - 1]) + (if log[|log| - 1].Cooldown? then 0 else 1)
  }

  function HeldTickets(s: System): set<nat> {
    set t | t in s.waiters && s.waiters[t].pc.Holds()
  }

  lemma {:induction false} SettledOnce(log: seq<Entry>)
    requires forall i :: 0 <= i < |log| && !log[i].Cooldown? ==>
      log[i].ticket in SettledAt(log) && SettledAt(log)[log[i].ticket] == i
    ensures |SettledAt(log)| == Settlements(log)
  {
    if log != [] {
      var n := |log| - 1;
      var earlier := log[..n];
      forall i | 0 <= i < n && !earlier[i].Cooldown?
        ensures earlier[i].ticket in SettledAt(earlier) && SettledAt(earlier)[earlier[i].ticket] == i
      {
        assert log[i] == earlier[i];
      }
      SettledOnce(earlier);
      if !log[n].Cooldown? && log[n].ticket in SettledAt(earlier) {
        SettledBefore(earlier, log[n].ticket);
      }
    }
  }

  lemma {:induction false} SettledBefore(log: seq<Entry>, t: nat)
    requires t in SettledAt(log)
    ensures SettledAt(log)[t] < |log| && !log[SettledAt(log)[t]].Cooldown? && log[SettledAt(log)[t]].ticket == t
  {
    var n := |log| - 1;
    if log[n].Cooldown? || log[n].ticket != t {
      SettledBefore(log[..n], t);
    }
  }

  lemma {:induction false} Upto(n: nat, tickets: set<nat>)
    requires forall t :: t in tickets <==> 1 <= t <= n
    ensures |tickets| == n
  {
    if n == 0 {
      assert tickets == {};
    } else {
      Upto(n - 1, tickets - {n});
    }
  }

  /** Every ticket drawn was sent, or left, or is still held: nothing is lost or settled twice. */
  lemma TicketsAreConserved(initial: Settings, now: nat, events: seq<Event>, s: System)
    requires Reached(initial, now, events, s)
    ensures s.issued == Settlements(s.log) + |HeldTickets(s)|
  {
    Reachable(initial, now, events, s);
    ConservedCounts(s);
  }

  lemma ConservedCounts(s: System)
    requires Conserved(s) && InOrder(s)
    ensures s.issued == Settlements(s.log) + |HeldTickets(s)|
  {
    SettledOnce(s.log);
    Upto(s.issued, s.waiters.Keys);
    var settled := SettledAt(s.log).Keys;
    assert settled + HeldTickets(s) == s.waiters.Keys && settled !! HeldTickets(s);
    assert |settled + HeldTickets(s)| == |settled| + |HeldTickets(s)|;
    assert |settled| == |SettledAt(s.log)|;
  }

  /** The held tickets are the queued ones, each in one place: one route, one position. */
  lemma HeldTicketsAreQueued(initial: Settings, now: nat, events: seq<Event>, s: System, t: nat)
    requires Reached(initial, now, events, s)
    ensures t in HeldTickets(s) <==> exists key :: key in s.gov.routes && t in s.gov.routes[key].queue
    ensures forall key, other ::
      (key in s.gov.routes && other in s.gov.routes
       && t in s.gov.routes[key].queue && t in s.gov.routes[other].queue) ==> key == other
    ensures forall key :: key in s.gov.routes ==> Ordered(s.gov.routes[key].queue)
  {
    Reachable(initial, now, events, s);
    if t in HeldTickets(s) {
      assert s.waiters[t].key in s.gov.routes && t in s.gov.routes[s.waiters[t].key].queue;
    }
  }

  lemma {:induction false} SameSize<A, B>(a: set<A>, b: set<B>, f: map<A, B>)
    requires f.Keys == a && f.Values == b
    requires forall x, y :: x in a && y in a && f[x] == f[y] ==> x == y
    ensures |a| == |b|
    decreases a
  {
    if a == {} {
      assert b == {};
    } else {
      var x :| x in a;
      var rest := f - {x};
      forall y | y in b && y != f[x] ensures y in rest.Values {
        var z :| z in f && f[z] == y;
        assert rest[z] == y;
      }
      forall y | y in rest.Values ensures y in b - {f[x]} {
        var z :| z in rest && rest[z] == y;
        assert f[z] == y;
      }
      SameSize(a - {x}, b - {f[x]}, rest);
    }
  }

  /** What the snapshot reports as queued is exactly what was drawn and not yet settled. */
  lemma SnapshotCountsUnsettled(initial: Settings, now: nat, events: seq<Event>, s: System)
    requires Reached(initial, now, events, s)
    ensures |QueuedSlots(s.gov.routes)| == s.issued - Settlements(s.log)
  {
    TicketsAreConserved(initial, now, events, s);
    Reachable(initial, now, events, s);
    SlotsAreHeld(s);
  }

  /** The ticket in a place of a queue. */
  function TicketAt(s: System, slot: (RouteKey, nat)): nat
    requires slot in QueuedSlots(s.gov.routes)
  {
    s.gov.routes[slot.0].queue[slot.1]
  }

  lemma SlotIsHeld(s: System, slot: (RouteKey, nat))
    requires Queued(s) && slot in QueuedSlots(s.gov.routes)
    ensures TicketAt(s, slot) in HeldTickets(s)
  {
    assert TicketAt(s, slot) in s.gov.routes[slot.0].queue;
  }

  lemma HeldHasSlot(s: System, t: nat) returns (slot: (RouteKey, nat))
    requires Queued(s) && t in HeldTickets(s)
    ensures slot in QueuedSlots(s.gov.routes) && TicketAt(s, slot) == t
  {
    var key := s.waiters[t].key;
    var i :| 0 <= i < |s.gov.routes[key].queue| && s.gov.routes[key].queue[i] == t;
    slot := (key, i);
  }

  lemma SlotKey(s: System, slot: (RouteKey, nat))
    requires Queued(s) && slot in QueuedSlots(s.gov.routes)
    ensures TicketAt(s, slot) in s.waiters && s.waiters[TicketAt(s, slot)].key == slot.0
  {
    assert TicketAt(s, slot) in s.gov.routes[slot.0].queue;
  }

  lemma SlotsDiffer(s: System, x: (RouteKey, nat), y: (RouteKey, nat))
    requires Queued(s) && forall key :: key in s.gov.routes ==> Ordered(s.gov.routes[key].queue)
    requires x in QueuedSlots(s.gov.routes) && y in QueuedSlots(s.gov.routes) && TicketAt(s, x) == TicketAt(s, y)
    ensures x == y
  {
    SlotKey(s, x);
    SlotKey(s, y);
    PlaceInOrdered(s.gov.routes[x.0].queue, TicketAt(s, x), x.1);
    PlaceInOrdered(s.gov.routes[y.0].queue, TicketAt(s, y), y.1);
  }

  lemma SlotsAreHeld(s: System)
    requires Queued(s) && forall key :: key in s.gov.routes ==> Ordered(s.gov.routes[key].queue)
    ensures |QueuedSlots(s.gov.routes)| == |HeldTickets(s)|
  {
    var slots := QueuedSlots(s.gov.routes);
    var f := map slot | slot in slots :: TicketAt(s, slot);
    forall t | t in HeldTickets(s) ensures t in f.Values {
      var slot := HeldHasSlot(s, t);
      assert f[slot] == t;
    }
    forall slot | slot in slots ensures f[slot] in HeldTickets(s) {
      SlotIsHeld(s, slot);
    }
    forall x, y | x in slots && y in slots && f[x] == f[y] ensures x == y {
      SlotsDiffer(s, x, y);
    }
    SameSize(slots, HeldTickets(s), f);
  }

  // ---- Bounded wait ----

  /** The first instant the front of the queue may go. */
  function Ready(s: System, key: RouteKey): nat {
    Max(s.now, Earliest(RouteOf(s.gov, key), s.gov.settings))
  }

  function PlaceOf(queue: seq<nat>, t: nat): (i: nat)
    requires t in queue
    ensures i < |queue| && queue[i] == t
  {
    if queue[0] == t then 0 else 1 + PlaceOf(queue[1..], t)
  }

  /** When the ticket can go if everybody ahead of it takes a whole interval. */
  function Deadline(s: System, key: RouteKey, t: nat): nat
    requires t in QueueOf(s, key)
  {
    Ready(s, key) + PlaceOf(QueueOf(s, key), t) * Interval(s.gov.settings)
  }

  /**
   * Settings stay, the route gets no new cooldown, and no time passes beyond
   * the instant its front may go: whoever is in front retries on time. All else
   * is free: arrivals, cancellations anywhere, wake-ups, other routes.
   */
  predicate Undisturbed(s: System, e: Event, key: RouteKey) {
    && !e.Configure? && (e.RateLimited? ==> e.key != key)
    && (e.Pass? && QueueOf(s, key) != [] ==> s.now + e.nanos <= Ready(s, key))
  }

  predicate UndisturbedRun(s: System, events: seq<Event>, key: RouteKey)
    requires IsRun(s, events)
    decreases |events|
  {
    events != [] ==> Undisturbed(s, events[0], key) && UndisturbedRun(Next(s, events[0]), events[1..], key)
  }

  lemma {:induction false} PlaceInOrdered(queue: seq<nat>, t: nat, i: nat)
    requires Ordered(queue) && i < |queue| && queue[i] == t
    ensures PlaceOf(queue, t) == i
  {
    if i > 0 {
      assert queue[0] < queue[i];
      PlaceInOrdered(queue[1..], t, i - 1);
    }
  }

  /** Whoever leaves, those behind move up and nobody moves back; when the front leaves all move up. */
  lemma {:induction false} PlaceAfterWithout(queue: seq<nat>, u: nat, t: nat)
    requires Ordered(queue) && t in queue && u != t
    ensures t in Without(queue, u) && PlaceOf(Without(queue, u), t) <= PlaceOf(queue, t)
    ensures queue[0] == u ==> PlaceOf(Without(queue, u), t) == PlaceOf(queue, t) - 1
  {
    if queue[0] != u {
      if queue[0] != t {
        PlaceAfterWithout(queue[1..], u, t);
      }
    }
  }

  lemma {:induction false} PlaceAfterArrival(queue: seq<nat>, u: nat, t: nat)
    requires t in queue
    ensures t in queue + [u] && PlaceOf(queue + [u], t) == PlaceOf(queue, t)
  {
    if queue[0] != t {
      PlaceAfterArrival(queue[1..], u, t);
      assert (queue + [u])[1..] == queue[1..] + [u];
    }
  }

  lemma IntervalsShrink(n: nat, m: nat, interval: nat)
    requires n <= m
    ensures n * interval <= m * interval
    ensures n + 1 <= m ==> n * interval + interval <= m * interval
  {
    MulMonotone(n, m, interval);
    if n + 1 <= m {
      MulMonotone(n + 1, m, interval);
      assert (n + 1) * interval == n * interval + interval;
    }
  }

  /** The ticket is still queued and due no later. */
  predicate StillDue(s: System, s': System, key: RouteKey, t: nat) {
    t in QueueOf(s, key) && t in QueueOf(s', key) && Deadline(s', key, t) <= Deadline(s, key, t)
  }

  /** Someone else leaves without having been sent. */
  lemma LeavingKeepsDue(s: System, s': System, key: RouteKey, u: nat, t: nat)
    requires Ordered(QueueOf(s, key)) && t in QueueOf(s, key) && u != t
    requires s'.now == s.now && s'.gov.settings == s.gov.settings
    requires RouteOf(s'.gov, key) == RouteOf(s.gov, key).(queue := Without(QueueOf(s, key), u))
    ensures StillDue(s, s', key, t)
  {
    PlaceAfterWithout(QueueOf(s, key), u, t);
    IntervalsShrink(PlaceOf(QueueOf(s', key), t), PlaceOf(QueueOf(s, key), t), Interval(s.gov.settings));
  }

  /** The front is sent now: one interval more, one place less. */
  lemma SendingKeepsDue(s: System, s': System, key: RouteKey, t: nat)
    requires Ordered(QueueOf(s, key)) && t in QueueOf(s, key) && QueueOf(s, key)[0] != t
    requires s'.now == s.now && s'.gov.settings == s.gov.settings
    requires Earliest(RouteOf(s.gov, key), s.gov.settings) <= s.now
    requires RouteOf(s'.gov, key) ==
      RouteOf(s.gov, key).(queue := QueueOf(s, key)[1..], lastSent := Some(s.now))
    ensures StillDue(s, s', key, t)
  {
    var queue := QueueOf(s, key);
    assert Without(queue, queue[0]) == queue[1..];
    PlaceAfterWithout(queue, queue[0], t);
    IntervalsShrink(PlaceOf(queue[1..], t), PlaceOf(queue, t), Interval(s.gov.settings));
  }

  lemma EnteringKeepsDue(s: System, entered: RouteKey, key: RouteKey, t: nat)
    requires t in QueueOf(s, key)
    ensures StillDue(s, Entered(s, entered), key, t)
  {
    if entered == key {
      PlaceAfterArrival(QueueOf(s, key), (s.gov.nextTicket + 1) % TICKET_MODULUS, t);
    }
  }

  /** The ticket just left, no later than it was due. */
  predicate GoneInTime(s: System, s': System, key: RouteKey, t: nat) {
    t in QueueOf(s, key) && t !in QueueOf(s', key) && s.now <= Deadline(s, key, t)
  }

  lemma OthersKeepDue(s: System, e: Event, key: RouteKey, t: nat)
    requires Enabled(s, e) && Undisturbed(s, e, key) && t in QueueOf(s, key) && !e.Enter? && !e.Resume?
    ensures StillDue(s, Next(s, e), key, t)
  {
    assert QueueOf(s, key) != [];
    assert RouteOf(Next(s, e).gov, key) == RouteOf(s.gov, key);
  }

  /** A waiter takes a step: it may park, be sent or leave. */
  lemma ResumeKeepsDue(s: System, u: nat, key: RouteKey, t: nat)
    requires Queued(s) && InOrder(s) && s.gov.settings.enabled && Enabled(s, Resume(u)) && t in QueueOf(s, key)
    ensures StillDue(s, Next(s, Resume(u)), key, t) || (u == t && GoneInTime(s, Next(s, Resume(u)), key, t))
  {
    var s' := Next(s, Resume(u));
    if RouteOf(s'.gov, key) == RouteOf(s.gov, key) {
      SameRouteKeepsDue(s, s', key, t);
    } else {
      OwnRouteChanges(s, u, key);
      if s.waiters[u].pc.Armed? {
        GrantKeepsDue(s, u, key, t);
      } else {
        LeaveKeepsDue(s, u, key, t);
      }
    }
  }

  lemma SameRouteKeepsDue(s: System, s': System, key: RouteKey, t: nat)
    requires RouteOf(s'.gov, key) == RouteOf(s.gov, key) && s'.now == s.now && s'.gov.settings == s.gov.settings
    requires t in QueueOf(s, key)
    ensures StillDue(s, s', key, t)
  {
  }

  lemma OwnRouteChanges(s: System, u: nat, key: RouteKey)
    requires Queued(s) && Enabled(s, Resume(u)) && RouteOf(Next(s, Resume(u)).gov, key) != RouteOf(s.gov, key)
    ensures s.waiters[u].key == key
  {
  }

  lemma LeaveKeepsDue(s: System, u: nat, key: RouteKey, t: nat)
    requires Queued(s) && InOrder(s) && Enabled(s, Resume(u)) && t in QueueOf(s, key)
    requires key in s.gov.routes && s.waiters[u].key == key && !s.waiters[u].pc.Armed?
    requires RouteOf(Next(s, Resume(u)).gov, key) != RouteOf(s.gov, key)
    ensures StillDue(s, Next(s, Resume(u)), key, t) || (u == t && GoneInTime(s, Next(s, Resume(u)), key, t))
  {
    WithoutMembers(QueueOf(s, key), t);
    if u != t { LeavingKeepsDue(s, Next(s, Resume(u)), key, u, t); }
  }

  lemma GrantKeepsDue(s: System, u: nat, key: RouteKey, t: nat)
    requires Queued(s) && InOrder(s) && s.gov.settings.enabled && Enabled(s, Resume(u)) && t in QueueOf(s, key)
    requires key in s.gov.routes && s.waiters[u].key == key && s.waiters[u].pc.Armed?
    requires RouteOf(Next(s, Resume(u)).gov, key) != RouteOf(s.gov, key)
    ensures StillDue(s, Next(s, Resume(u)), key, t) || (u == t && GoneInTime(s, Next(s, Resume(u)), key, t))
  {
    var s' := Next(s, Resume(u));
    var queue := QueueOf(s, key);
    assert Decide(s.gov, key, u, s.now) == Granted;
    if u != t {
      SendingKeepsDue(s, s', key, t);
    } else {
      WithoutMembers(queue, t);
      assert Without(queue, queue[0]) == queue[1..];
    }
  }

  lemma StepKeepsDue(s: System, e: Event, key: RouteKey, t: nat)
    requires Inv(s) && s.gov.settings.enabled && Enabled(s, e) && Undisturbed(s, e, key) && t in QueueOf(s, key)
    ensures Next(s, e).gov.settings == s.gov.settings
    ensures StillDue(s, Next(s, e), key, t) || GoneInTime(s, Next(s, e), key, t)
  {
    match e
    case Enter(entered) => EnteringKeepsDue(s, entered, key, t);
    case Resume(u) => ResumeKeepsDue(s, u, key, t);
    case _ => OthersKeepDue(s, e, key, t);
  }

  /**
   * The ticket's due instant has not passed, and if it is in front an attempt at
   * the route's ready instant is granted, no later than due.
   */
  predicate OnTime(s: System, key: RouteKey, t: nat, due: nat)
    requires t in QueueOf(s, key)
  {
    && s.now <= Deadline(s, key, t) <= due
    && (QueueOf(s, key)[0] == t ==> Ready(s, key) <= due && Decide(s.gov, key, t, Ready(s, key)) == Granted)
  }

  lemma DueIsOnTime(s: System, key: RouteKey, t: nat, due: nat)
    requires s.gov.settings.enabled && t in QueueOf(s, key) && Deadline(s, key, t) <= due
    ensures OnTime(s, key, t, due)
  {
    assert key in s.gov.routes;
  }

  /** So it is in every state of the run until it leaves. */
  predicate WaitsInTime(s: System, events: seq<Event>, key: RouteKey, t: nat, due: nat)
    requires IsRun(s, events)
    decreases |events|
  {
    t in QueueOf(s, key) ==>
      OnTime(s, key, t, due) && (events != [] ==> WaitsInTime(Next(s, events[0]), events[1..], key, t, due))
  }

  lemma StepStaysDue(s: System, e: Event, key: RouteKey, t: nat, due: nat)
    requires Inv(s) && s.gov.settings.enabled && Enabled(s, e) && Next(s, e).issued < TICKET_MODULUS
    requires Undisturbed(s, e, key) && t in QueueOf(s, key) && Deadline(s, key, t) <= due
    ensures Inv(Next(s, e)) && Next(s, e).gov.settings.enabled
    ensures t in QueueOf(Next(s, e), key) ==> Deadline(Next(s, e), key, t) <= due
  {
    StepKeeps(s, e);
    StepKeepsDue(s, e, key, t);
  }

  lemma {:induction false} WaitsWithin(s: System, events: seq<Event>, key: RouteKey, t: nat, due: nat)
    requires Inv(s) && s.gov.settings.enabled && IsRun(s, events) && After(s, events).issued < TICKET_MODULUS
    requires UndisturbedRun(s, events, key) && t in QueueOf(s, key) && Deadline(s, key, t) <= due
    ensures WaitsInTime(s, events, key, t, due)
    decreases |events|
  {
    DueIsOnTime(s, key, t, due);
    if events != [] {
      var s' := Next(s, events[0]);
      IssuedGrows(s', events[1..]);
      StepStaysDue(s, events[0], key, t, due);
      if t in QueueOf(s', key) {
        WaitsWithin(s', events[1..], key, t, due);
      }
    }
  }

  lemma PlacedWaitsWithin(s: System, events: seq<Event>, key: RouteKey, t: nat, k: nat)
    requires Inv(s) && s.gov.settings.enabled && k < |QueueOf(s, key)| && t == QueueOf(s, key)[k]
    requires IsRun(s, events) && UndisturbedRun(s, events, key) && After(s, events).issued < TICKET_MODULUS
    ensures WaitsInTime(s, events, key, t, Ready(s, key) + k * Interval(s.gov.settings))
  {
    DeadlineAt(s, key, t, k);
    WaitsWithin(s, events, key, t, Deadline(s, key, t));
  }

  lemma DeadlineAt(s: System, key: RouteKey, t: nat, k: nat)
    requires InOrder(s) && k < |QueueOf(s, key)| && t == QueueOf(s, key)[k]
    ensures t in QueueOf(s, key) && Deadline(s, key, t) == Ready(s, key) + k * Interval(s.gov.settings)
  {
    assert key in s.gov.routes;
    PlaceInOrdered(QueueOf(s, key), t, k);
  }

  /**
   * Bounded wait. In every run with fixed settings and no new cooldown on the
   * route in which heads retry on time, a ticket with k tickets ahead of it is
   * gone or can go within k intervals of the instant the front can go now:
   * whatever joins, leaves, wakes or is served elsewhere, time does not pass
   * that instant while it waits, and when it gets to the front it is granted by
   * then.
   */
  lemma WaitIsBounded(initial: Settings, now: nat, past: seq<Event>, s: System, events: seq<Event>,
                      key: RouteKey, k: nat)
    requires Reached(initial, now, past, s) && s.gov.settings.enabled && k < |QueueOf(s, key)|
    requires IsRun(s, events) && UndisturbedRun(s, events, key) && After(s, events).issued < TICKET_MODULUS
    ensures WaitsInTime(s, events, key, QueueOf(s, key)[k], Ready(s, key) + k * Interval(s.gov.settings))
  {
    Reachable(initial, now, past, s);
    PlacedWaitsWithin(s, events, key, QueueOf(s, key)[k], k);
  }
}
