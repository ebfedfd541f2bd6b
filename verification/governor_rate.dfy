/**
 * The rate the interval buys: how many grants of one route fit in a minute, and
 * exactly when that keeps the configured limit.
 */
module GovernorRate {
  import opened Wrappers
  import opened Arithmetic
  import opened GovernorState
  import opened GovernorProtocol
  import opened GovernorTheorems

  const WINDOW: nat := WINDOW_MILLIS * NANOS_PER_MILLI

  function CeilDiv(a: nat, b: nat): nat
    requires b > 0
  {
    (a + b - 1) / b
  }

  /** The most grants spaced by the interval of `s` that a half-open minute can hold. */
  function WindowCapacity(s: Settings): nat {
    IntervalPositive(s);
    CeilDiv(WINDOW_MILLIS, IntervalMillis(s))
  }

  lemma IntervalPositive(s: Settings)
    ensures IntervalMillis(s) >= 100
  {
    var r := s.requestsPerMinute;
    DivLaw(WINDOW_MILLIS, r);
    assert (WINDOW_MILLIS / r + 1) * r == r * (WINDOW_MILLIS / r) + r;
    LessOfMul(99, WINDOW_MILLIS / r, r);
  }

  /** The paced grants of `key` that fall in the window starting at `from`, as log positions. */
  function InWindow(log: seq<Entry>, key: RouteKey, from: nat): seq<nat> {
    if log == [] then []
    else
      var n := |log| - 1;
      InWindow(log[..n], key, from)
      + (if log[n].Sent? && log[n].paced && log[n].key == key && from <= log[n].at < from + WINDOW then [n] else [])
  }

  ghost predicate ArePositions(log: seq<Entry>, key: RouteKey, from: nat, w: seq<nat>) {
    && (forall a :: 0 <= a < |w| ==> w[a] < |log| && log[w[a]].Sent?)
    && (forall a :: 0 <= a < |w| ==> log[w[a]].paced && log[w[a]].key == key && from <= log[w[a]].at < from + WINDOW)
    && (forall a, b :: 0 <= a < b < |w| ==> w[a] < w[b])
  }

  lemma {:induction false} InWindowMembers(log: seq<Entry>, key: RouteKey, from: nat)
    ensures ArePositions(log, key, from, InWindow(log, key, from))
  {
    if log != [] {
      var earlier := log[..|log| - 1];
      InWindowMembers(earlier, key, from);
      var v, w := InWindow(earlier, key, from), InWindow(log, key, from);
      forall a | 0 <= a < |v| ensures w[a] == v[a] && v[a] < |earlier| && log[v[a]] == earlier[v[a]] {
      }
    }
  }

  /** Grants in the window, each at least `gap` after the one before, are few. */
  lemma {:induction false} SpacedGrants(log: seq<Entry>, key: RouteKey, from: nat, gap: nat, k: nat)
    requires Paced(log) && k < |InWindow(log, key, from)|
    requires forall i :: 0 <= i < |log| && log[i].Sent? && log[i].paced && log[i].key == key ==> log[i].interval >= gap
    ensures var w := InWindow(log, key, from);
      w[k] < |log| && log[w[k]].Sent? && log[w[k]].at >= from + k * gap
  {
    InWindowMembers(log, key, from);
    if k > 0 {
      SpacedGrants(log, key, from, gap, k - 1);
      var w := InWindow(log, key, from);
      assert w[k - 1] < w[k];
      assert (k - 1) * gap + gap == k * gap;
    }
  }

  lemma CapacityCovers(n: nat, gapMillis: nat)
    requires gapMillis > 0 && n > 0
    requires (n - 1) * (gapMillis * NANOS_PER_MILLI) < WINDOW
    ensures n <= CeilDiv(WINDOW_MILLIS, gapMillis)
  {
    var q := CeilDiv(WINDOW_MILLIS, gapMillis);
    assert (n - 1) * (gapMillis * NANOS_PER_MILLI) == (n - 1) * gapMillis * NANOS_PER_MILLI;
    LessOfMul((n - 1) * gapMillis, WINDOW_MILLIS, NANOS_PER_MILLI);
    CeilDivLaw(WINDOW_MILLIS, gapMillis);
    LessOfMul(n - 1, q, gapMillis);
  }

  lemma CeilDivLaw(a: nat, b: nat)
    requires b > 0
    ensures (CeilDiv(a, b) - 1) * b < a <= CeilDiv(a, b) * b || a == 0 == CeilDiv(a, b)
  {
    DivLaw(a + b - 1, b);
    assert CeilDiv(a, b) * b == b * CeilDiv(a, b);
    assert (CeilDiv(a, b) - 1) * b == CeilDiv(a, b) * b - b;
  }

  /** The settings never change along such a run. */
  ghost predicate GrantedUnder(s: System, initial: Settings) {
    && s.gov.settings == initial
    && (forall i :: 0 <= i < |s.log| && s.log[i].Sent? ==>
          s.log[i].interval == Interval(initial) && s.log[i].paced == initial.enabled)
  }

  lemma {:induction false} FixedSettingsStay(s: System, events: seq<Event>, initial: Settings)
    requires IsRun(s, events) && FixedSettings(events) && GrantedUnder(s, initial)
    ensures GrantedUnder(After(s, events), initial)
    decreases |events|
  {
    if events != [] {
      assert !events[0].Configure?;
      assert FixedSettings(events[1..]) by {
        assert forall i :: 0 <= i < |events[1..]| ==> events[1..][i] == events[i + 1];
      }
      FixedSettingsStay(Next(s, events[0]), events[1..], initial);
    }
  }

  /** With settings fixed, any half-open minute holds at most ceil(60000 / interval) grants of a route. */
  lemma WindowIsBounded(initial: Settings, now: nat, events: seq<Event>, s: System, key: RouteKey, from: nat)
    requires Reached(initial, now, events, s) && FixedSettings(events)
    ensures |InWindow(s.log, key, from)| <= WindowCapacity(initial)
  {
    Reachable(initial, now, events, s);
    FixedSettingsStay(Start(initial, now), events, initial);
    IntervalPositive(initial);
    var n := |InWindow(s.log, key, from)|;
    if n > 0 {
      SpacedGrants(s.log, key, from, Interval(initial), n - 1);
      InWindowMembers(s.log, key, from);
      CapacityCovers(n, IntervalMillis(initial));
    }
  }

  /** The slack truncation gives away, in closed form. */
  lemma CapacityBound(s: Settings)
    ensures var r := s.requestsPerMinute;
      WindowCapacity(s) <= r + r * (r - 1) / (WINDOW_MILLIS + 1 - r) + 1
  {
    IntervalPositive(s);
    var r, gap := s.requestsPerMinute, IntervalMillis(s);
    var k, d := WindowCapacity(s) - 1, WINDOW_MILLIS + 1 - r;
    DivLaw(WINDOW_MILLIS, r);
    assert gap * r == r * gap >= d;
    CeilDivLaw(WINDOW_MILLIS, gap);
    assert k * gap <= WINDOW_MILLIS - 1;
    SlackBound(r, gap, k);
  }

  lemma SlackBound(r: nat, gap: nat, k: nat)
    requires 1 <= r <= 600 && gap * r >= WINDOW_MILLIS + 1 - r && k * gap <= WINDOW_MILLIS - 1
    ensures k <= r + r * (r - 1) / (WINDOW_MILLIS + 1 - r)
  {
    var d := WINDOW_MILLIS + 1 - r;
    var q := r * (r - 1) / d;
    MulMonotone(d, gap * r, k);
    MulMonotone(k * gap, WINDOW_MILLIS - 1, r);
    assert k * d == d * k && (gap * r) * k == (k * gap) * r;
    assert (WINDOW_MILLIS - 1) * r == r * d + r * (r - 2);
    assert r * (r - 2) == r * (r - 1) - r;
    DivLaw(r * (r - 1), d);
    assert (r + q + 1) * d == r * d + d * q + d;
    AtMostOfMul(k, r + q, d);
  }

  /** A minute never holds more than the configured limit exactly when the limit divides it evenly. */
  lemma CapacityIsLimit(s: Settings)
    ensures WindowCapacity(s) == s.requestsPerMinute <==> WINDOW_MILLIS % s.requestsPerMinute == 0
    ensures WindowCapacity(s) >= s.requestsPerMinute
  {
    IntervalPositive(s);
    var r, gap := s.requestsPerMinute, IntervalMillis(s);
    var c := WindowCapacity(s);
    DivLaw(WINDOW_MILLIS, r);
    CeilDivLaw(WINDOW_MILLIS, gap);
    assert r * gap == gap * r;
    assert (r - 1) * gap == r * gap - gap;
    LessOfMul(r - 1, c, gap);
    if WINDOW_MILLIS % r == 0 {
      LessOfMul(c - 1, r, gap);
    } else {
      LessOfMul(r, c, gap);
    }
  }

  // ---- The bound is reached ----

  lemma {:induction false} Extend(s: System, events: seq<Event>, e: Event)
    requires IsRun(s, events) && Enabled(After(s, events), e)
    ensures IsRun(s, events + [e]) && After(s, events + [e]) == Next(After(s, events), e)
    decreases |events|
  {
    if events == [] {
      assert events + [e] == [e];
    } else {
      Extend(Next(s, events[0]), events[1..], e);
      assert (events + [e])[1..] == events[1..] + [e];
    }
  }

  /** The ticket drawn from s is alone in its queue, its waiter stands at pc, and nothing else has changed. */
  predicate Acquiring(s: System, s': System, key: RouteKey, pc: Pc) {
    var t := s.issued + 1;
    && s'.gov.settings == s.gov.settings && s'.now == s.now && s'.gov.nextTicket == s'.issued == t
    && RouteOf(s'.gov, key) == RouteOf(s.gov, key).(queue := [t]) && s'.log == s.log
    && t in s'.waiters && s'.waiters[t] == Waiter(key, pc)
  }

  /** That ticket was granted at once. */
  predicate Acquired(s: System, s': System, key: RouteKey) {
    var t := s.issued + 1;
    && s'.gov.settings == s.gov.settings && s'.now == s.now && s'.gov.nextTicket == s'.issued == t
    && RouteOf(s'.gov, key) == RouteOf(s.gov, key).(queue := [], lastSent := Some(s.now))
    && s'.log == s.log + [Sent(key, t, s.now, Interval(s.gov.settings), true)]
  }

  /** A route with nobody queued that may send now. */
  predicate Free(s: System, key: RouteKey) {
    && s.gov.settings.enabled && QueueOf(s, key) == [] && s.gov.nextTicket == s.issued
    && Earliest(RouteOf(s.gov, key), s.gov.settings) <= s.now && s.issued + 1 < TICKET_MODULUS
  }

  lemma EnterAcquires(s: System, key: RouteKey)
    requires Free(s, key)
    ensures Acquiring(s, Next(s, Enter(key)), key, Looping)
  {
  }

  lemma ArmAcquires(s: System, s': System, key: RouteKey)
    requires Acquiring(s, s', key, Looping)
    ensures
      var e := Resume(s.issued + 1);
      Enabled(s', e) && Acquiring(s, Next(s', e), key, Armed(s'.epoch))
  {
  }

  lemma GrantAcquires(s: System, s': System, key: RouteKey, seen: nat)
    requires Free(s, key) && Acquiring(s, s', key, Armed(seen))
    ensures
      var t := s.issued + 1;
      && Enabled(s', Resume(t)) && Acquired(s, Next(s', Resume(t)), key)
      && t in Next(s', Resume(t)).waiters && Next(s', Resume(t)).waiters[t].pc == Announcing
  {
    assert Decide(s'.gov, key, s.issued + 1, s'.now) == Granted;
  }

  lemma AnnounceAcquires(s: System, s': System, key: RouteKey)
    requires Acquired(s, s', key) && s.issued + 1 in s'.waiters && s'.waiters[s.issued + 1].pc == Announcing
    ensures Enabled(s', Resume(s.issued + 1)) && Acquired(s, Next(s', Resume(s.issued + 1)), key)
  {
  }

  /** The instant n intervals after another. */
  function Spaced(now: nat, settings: Settings, n: nat): nat {
    now + n * Interval(settings)
  }

  /** The state after n undisturbed acquires, each exactly one interval after the one before. */
  ghost predicate Steady(initial: Settings, now: nat, key: RouteKey, n: nat, s: System) {
    && s.gov.settings == initial && s.gov.nextTicket == s.issued == n
    && s.now == Spaced(now, initial, n)
    && QueueOf(s, key) == [] && Earliest(RouteOf(s.gov, key), initial) <= s.now
    && RouteOf(s.gov, key).coolingUntil == None
    && |s.log| == n
    && forall i :: 0 <= i < n ==> s.log[i] == Sent(key, i + 1, Spaced(now, initial, i), Interval(initial), true)
  }

  lemma SteadyAfterRound(initial: Settings, now: nat, key: RouteKey, n: nat, s: System, s': System)
    requires initial.enabled && Steady(initial, now, key, n, s) && Acquired(s, s', key)
    ensures Steady(initial, now, key, n + 1, Next(s', Pass(Interval(initial))))
  {
    assert n * Interval(initial) + Interval(initial) == (n + 1) * Interval(initial);
  }

  /** One event more, which is no change of settings. */
  lemma ExtendFixed(start: System, events: seq<Event>, e: Event) returns (longer: seq<Event>)
    requires IsRun(start, events) && FixedSettings(events) && Enabled(After(start, events), e) && !e.Configure?
    ensures IsRun(start, longer) && FixedSettings(longer) && After(start, longer) == Next(After(start, events), e)
  {
    Extend(start, events, e);
    longer := events + [e];
  }

  /** One undisturbed acquire. */
  lemma AcquireRun(start: System, events: seq<Event>, key: RouteKey) returns (longer: seq<Event>)
    requires IsRun(start, events) && FixedSettings(events) && Free(After(start, events), key)
    ensures IsRun(start, longer) && FixedSettings(longer) && Acquired(After(start, events), After(start, longer), key)
  {
    var s := After(start, events);
    EnterAcquires(s, key);
    longer := ExtendFixed(start, events, Enter(key));
    ArmAcquires(s, After(start, longer), key);
    var seen := After(start, longer).epoch;
    longer := ExtendFixed(start, longer, Resume(s.issued + 1));
    GrantAcquires(s, After(start, longer), key, seen);
    longer := ExtendFixed(start, longer, Resume(s.issued + 1));
    AnnounceAcquires(s, After(start, longer), key);
    longer := ExtendFixed(start, longer, Resume(s.issued + 1));
  }

  /** One undisturbed acquire and one interval of waiting. */
  lemma SteadyStep(initial: Settings, now: nat, key: RouteKey, n: nat, start: System, events: seq<Event>)
    returns (longer: seq<Event>)
    requires initial.enabled && n + 1 < TICKET_MODULUS
    requires IsRun(start, events) && FixedSettings(events) && Steady(initial, now, key, n, After(start, events))
    ensures IsRun(start, longer) && FixedSettings(longer) && Steady(initial, now, key, n + 1, After(start, longer))
  {
    var acquired := AcquireRun(start, events, key);
    SteadyAfterRound(initial, now, key, n, After(start, events), After(start, acquired));
    longer := ExtendFixed(start, acquired, Pass(Interval(initial)));
  }

  lemma {:induction false} SteadyRun(initial: Settings, now: nat, key: RouteKey, n: nat) returns (events: seq<Event>)
    requires initial.enabled && n < TICKET_MODULUS
    ensures IsRun(Start(initial, now), events) && FixedSettings(events)
    ensures Steady(initial, now, key, n, After(Start(initial, now), events))
  {
    if n == 0 {
      events := [];
    } else {
      var shorter := SteadyRun(initial, now, key, n - 1);
      events := SteadyStep(initial, now, key, n - 1, Start(initial, now), shorter);
    }
  }

  lemma {:induction false} SteadyWindow(log: seq<Entry>, key: RouteKey, now: nat, gap: nat)
    requires |log| > 0 ==> (|log| - 1) * gap < WINDOW
    requires forall i :: 0 <= i < |log| ==> log[i] == Sent(key, i + 1, now + i * gap, gap, true)
    ensures |InWindow(log, key, now)| == |log|
  {
    if log != [] {
      var n := |log| - 1;
      assert (n - 1) * gap == n * gap - gap;
      SteadyWindow(log[..n], key, now, gap);
      MulMonotone(0, n, gap);
    }
  }

  /**
   * The promise of the setting, and exactly when it holds: with pacing on, no run
   * puts more than requestsPerMinute grants of one route in a minute if and only
   * if requestsPerMinute divides 60000. Otherwise the truncated interval lets a
   * steady caller through once more per window.
   */
  lemma LimitIsHonoured(initial: Settings, key: RouteKey)
    requires initial.enabled
    ensures WINDOW_MILLIS % initial.requestsPerMinute == 0 <==>
      forall events: seq<Event>, now: nat, from: nat ::
        IsRun(Start(initial, now), events) && FixedSettings(events)
        && After(Start(initial, now), events).issued < TICKET_MODULUS ==>
          |InWindow(After(Start(initial, now), events).log, key, from)| <= initial.requestsPerMinute
  {
    CapacityIsLimit(initial);
    IntervalPositive(initial);
    if WINDOW_MILLIS % initial.requestsPerMinute == 0 {
      forall events: seq<Event>, now: nat, from: nat |
        IsRun(Start(initial, now), events) && FixedSettings(events)
        && After(Start(initial, now), events).issued < TICKET_MODULUS
        ensures |InWindow(After(Start(initial, now), events).log, key, from)| <= initial.requestsPerMinute
      {
        WindowIsBounded(initial, now, events, After(Start(initial, now), events), key, from);
      }
    } else {
      var n := WindowCapacity(initial);
      CeilDivLaw(WINDOW_MILLIS, IntervalMillis(initial));
      assert n <= WINDOW_MILLIS by {
        MulMonotone(100, IntervalMillis(initial), n - 1);
      }
      var events := SteadyRun(initial, 0, key, n);
      var s := After(Start(initial, 0), events);
      assert (n - 1) * Interval(initial) == (n - 1) * IntervalMillis(initial) * NANOS_PER_MILLI;
      SteadyWindow(s.log, key, 0, Interval(initial));
      assert |InWindow(After(Start(initial, 0), events).log, key, 0)| > initial.requestsPerMinute;
    }
  }
}
