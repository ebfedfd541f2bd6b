/**
 * When exactly the front of a queue is granted, told from the history alone: an
 * interval after the last paced grant of its route and after the latest
 * cooldown recorded for it, and not an instant later.
 */
module GovernorCooldowns {
  import opened Wrappers
  import opened GovernorState
  import opened GovernorProtocol
  import opened GovernorTheorems

  predicate IsCooldown(e: Entry, key: RouteKey) {
    e.Cooldown? && e.key == key
  }

  predicate IsPacedGrant(e: Entry, key: RouteKey) {
    e.Sent? && e.paced && e.key == key
  }

  /** The route's two stamps are instants that its history names. */
  predicate Named(log: seq<Entry>, route: Route, key: RouteKey) {
    && (route.coolingUntil.Some? ==>
          exists i :: 0 <= i < |log| && IsCooldown(log[i], key) && log[i].until == route.coolingUntil.value)
    && (route.lastSent.Some? ==>
          exists i :: 0 <= i < |log| && IsPacedGrant(log[i], key) && log[i].at == route.lastSent.value)
  }

  lemma LongerNames(log: seq<Entry>, longer: seq<Entry>, route: Route, key: RouteKey)
    requires log <= longer && Named(log, route, key)
    ensures Named(longer, route, key)
  {
    if route.coolingUntil.Some? {
      var i :| 0 <= i < |log| && IsCooldown(log[i], key) && log[i].until == route.coolingUntil.value;
      assert longer[i] == log[i];
    }
    if route.lastSent.Some? {
      var i :| 0 <= i < |log| && IsPacedGrant(log[i], key) && log[i].at == route.lastSent.value;
      assert longer[i] == log[i];
    }
  }

  lemma CoolingNames(s: System, e: Event, key: RouteKey)
    requires e.RateLimited? && Named(s.log, RouteOf(s.gov, key), key)
    ensures Named(Next(s, e).log, RouteOf(Next(s, e).gov, key), key)
  {
    var s' := Next(s, e);
    LongerNames(s.log, s'.log, RouteOf(s.gov, key), key);
    assert IsCooldown(s'.log[|s.log|], e.key);
  }

  lemma ResumeNames(s: System, t: nat, key: RouteKey)
    requires Enabled(s, Resume(t)) && Named(s.log, RouteOf(s.gov, key), key)
    ensures Named(Next(s, Resume(t)).log, RouteOf(Next(s, Resume(t)).gov, key), key)
  {
    var s' := Next(s, Resume(t));
    LongerNames(s.log, s'.log, RouteOf(s.gov, key), key);
    if RouteOf(s'.gov, key).lastSent != RouteOf(s.gov, key).lastSent {
      assert IsPacedGrant(s'.log[|s.log|], key) && s'.log[|s.log|].at == s.now;
    }
  }

  lemma StepNames(s: System, e: Event, key: RouteKey)
    requires Enabled(s, e) && Named(s.log, RouteOf(s.gov, key), key)
    ensures Named(Next(s, e).log, RouteOf(Next(s, e).gov, key), key)
  {
    match e
    case RateLimited(_, _) => CoolingNames(s, e, key);
    case Resume(t) => ResumeNames(s, t, key);
    case _ =>
  }

  lemma {:induction false} RunNames(s: System, events: seq<Event>, key: RouteKey)
    requires IsRun(s, events) && Named(s.log, RouteOf(s.gov, key), key)
    ensures Named(After(s, events).log, RouteOf(After(s, events).gov, key), key)
    decreases |events|
  {
    if events != [] {
      StepNames(s, events[0], key);
      RunNames(Next(s, events[0]), events[1..], key);
    }
  }

  /** The latest instant that a cooldown of the route names. */
  predicate IsLatest(log: seq<Entry>, key: RouteKey, until: nat) {
    && (exists i :: 0 <= i < |log| && IsCooldown(log[i], key) && log[i].until == until)
    && (forall i :: 0 <= i < |log| && IsCooldown(log[i], key) ==> log[i].until <= until)
  }

  /** Over any run a route cools until the latest instant recorded for it, and not at all if none was. */
  lemma CooldownIsLatest(initial: Settings, now: nat, events: seq<Event>, s: System, key: RouteKey)
    requires Reached(initial, now, events, s)
    ensures
      var until := RouteOf(s.gov, key).coolingUntil;
      if until.Some? then IsLatest(s.log, key, until.value)
      else forall i :: 0 <= i < |s.log| ==> !IsCooldown(s.log[i], key)
  {
    Reachable(initial, now, events, s);
    RunNames(Start(initial, now), events, key);
  }

  /** A rate limit names the instant that many milliseconds from now, an unspecified one any of 60 to 62 seconds. */
  lemma RateLimitIsLogged(s: System, key: RouteKey, millis: nat, retryAfterMillis: Option<nat>, random: nat)
    ensures Next(s, RateLimited(key, millis)).log == s.log + [Cooldown(key, s.now + millis * 1_000_000)]
    ensures
      var asked := CooldownMillis(retryAfterMillis, random);
      if retryAfterMillis.Some? then asked == retryAfterMillis.value else 60_000 <= asked <= 62_000
    ensures random <= 2_000 ==> CooldownMillis(None, random) == 60_000 + random
  {
  }

  /** A route counts as cooling exactly while some cooldown recorded for it lies ahead. */
  lemma CoolingIff(initial: Settings, now: nat, events: seq<Event>, s: System, key: RouteKey)
    requires Reached(initial, now, events, s)
    ensures key in CoolingRoutes(s.gov.routes, s.now) <==>
      exists i :: 0 <= i < |s.log| && IsCooldown(s.log[i], key) && s.log[i].until > s.now
  {
    CooldownIsLatest(initial, now, events, s, key);
    Reachable(initial, now, events, s);
  }

  /** Nothing in the history of the route keeps a request of it from being sent at the instant. */
  predicate MaySend(log: seq<Entry>, key: RouteKey, gap: nat, instant: nat) {
    && (forall i :: 0 <= i < |log| && IsPacedGrant(log[i], key) ==> log[i].at + gap <= instant)
    && (forall i :: 0 <= i < |log| && IsCooldown(log[i], key) ==> log[i].until <= instant)
  }

  lemma EarliestIff(s: System, key: RouteKey, gap: nat, instant: nat)
    requires Remembers(s) && Named(s.log, RouteOf(s.gov, key), key) && gap == Interval(s.gov.settings)
    ensures Earliest(RouteOf(s.gov, key), s.gov.settings) <= instant <==> MaySend(s.log, key, gap, instant)
  {
    var route := RouteOf(s.gov, key);
    if MaySend(s.log, key, gap, instant) {
      if route.coolingUntil.Some? {
        var i :| 0 <= i < |s.log| && IsCooldown(s.log[i], key) && s.log[i].until == route.coolingUntil.value;
      }
      if route.lastSent.Some? {
        var i :| 0 <= i < |s.log| && IsPacedGrant(s.log[i], key) && s.log[i].at == route.lastSent.value;
      }
    }
  }

  /**
   * Whom a pass grants, exactly, in any state a run reaches: with pacing off
   * everybody; with it on the front of the queue and only that, if and only if
   * a minute's worth of milliseconds divided by the limit has gone by since
   * every paced grant of the route and every cooldown of it is over. Otherwise
   * the front sleeps until the first instant when it is, and the others until
   * they are notified.
   */
  lemma GrantedIff(initial: Settings, now: nat, events: seq<Event>, s: System, key: RouteKey, t: nat, instant: nat)
    requires Reached(initial, now, events, s) && t in QueueOf(s, key)
    ensures
      var gap := 60_000 / s.gov.settings.requestsPerMinute * 1_000_000;
      var decision := Decide(s.gov, key, t, instant);
      if !s.gov.settings.enabled then decision == Granted
      else if QueueOf(s, key)[0] != t then decision == AwaitNotify
      else if MaySend(s.log, key, gap, instant) then decision == Granted
      else
        && decision.SleepUntil? && decision.wake > instant
        && MaySend(s.log, key, gap, decision.wake)
        && forall sooner: nat :: sooner < decision.wake ==> !MaySend(s.log, key, gap, sooner)
  {
    Reachable(initial, now, events, s);
    RunNames(Start(initial, now), events, key);
    var gap := Interval(s.gov.settings);
    var due := Earliest(RouteOf(s.gov, key), s.gov.settings);
    EarliestIff(s, key, gap, instant);
    EarliestIff(s, key, gap, due);
    forall sooner: nat | sooner < due ensures !MaySend(s.log, key, gap, sooner) {
      EarliestIff(s, key, gap, sooner);
    }
  }

  /** Tickets are drawn one after another and start again at 0 behind the last of 64 bits. */
  lemma TicketsWrap(g: Governor, key: RouteKey)
    requires g.nextTicket <= 0xFFFF_FFFF_FFFF_FFFF
    ensures
      var next := if g.nextTicket == 0xFFFF_FFFF_FFFF_FFFF then 0 else g.nextTicket + 1;
      WithTicket(g, key).nextTicket == next && RouteOf(WithTicket(g, key), key).queue == RouteOf(g, key).queue + [next]
  {
  }
}
