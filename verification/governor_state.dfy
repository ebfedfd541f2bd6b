/**
 * The provider request governor: its state and what each critical section
 * computes. Every function here is the effect of one `state.lock()` section;
 * instants are nanoseconds.
 */
module GovernorState {
  import opened Wrappers

  const NANOS_PER_MILLI: nat := 1_000_000
  const WINDOW_MILLIS: nat := 60_000
  const MAX_REQUESTS_PER_MINUTE: nat := 600
  /** Tickets are drawn from a wrapping 64-bit counter. */
  const TICKET_MODULUS: nat := 0x1_0000_0000_0000_0000

  datatype RawSettings = Settings(enabled: bool, requestsPerMinute: nat) {
    predicate Validate() {
      1 <= requestsPerMinute <= MAX_REQUESTS_PER_MINUTE
    }
  }

  /** Every caller that installs settings validates them first. */
  type Settings = s: RawSettings | s.Validate() witness Settings(true, 10)

  /** The pacing interval, truncated to whole milliseconds as the source does. */
  function IntervalMillis(s: Settings): nat {
    WINDOW_MILLIS / s.requestsPerMinute
  }

  function Interval(s: Settings): nat {
    IntervalMillis(s) * NANOS_PER_MILLI
  }

  datatype RouteKey = RouteKey(providerId: string, keyId: string)

  datatype Route = Route(lastSent: Option<nat>, coolingUntil: Option<nat>, queue: seq<nat>)

  const IDLE_ROUTE := Route(None, None, [])

  datatype Governor = Governor(settings: Settings, routes: map<RouteKey, Route>, nextTicket: nat)

  function RouteOf(g: Governor, key: RouteKey): Route {
    if key in g.routes then g.routes[key] else IDLE_ROUTE
  }

  /** What one pass of the acquire loop decided. */
  datatype Decision =
    | Granted
    | SleepUntil(wake: nat)
    | AwaitNotify

  function WithTicket(g: Governor, key: RouteKey): Governor {
    var ticket := (g.nextTicket + 1) % TICKET_MODULUS;
    var route := RouteOf(g, key);
    g.(nextTicket := ticket, routes := g.routes[key := route.(queue := route.queue + [ticket])])
  }

  /** `queue` without the first occurrence of `ticket`. */
  function Without(queue: seq<nat>, ticket: nat): seq<nat> {
    if queue == [] then []
    else if queue[0] == ticket then queue[1..]
    else [queue[0]] + Without(queue[1..], ticket)
  }

  function WithoutTicket(g: Governor, key: RouteKey, ticket: nat): Governor {
    if key in g.routes then
      var route := g.routes[key];
      g.(routes := g.routes[key := route.(queue := Without(route.queue, ticket))])
    else g
  }

  /** The first instant at which the head of the queue may be granted. */
  function Earliest(r: Route, s: Settings): nat {
    Max(match r.lastSent { case Some(last) => last + Interval(s) case None => 0 },
        match r.coolingUntil { case Some(cool) => cool case None => 0 })
  }

  /** One pass of the acquire loop at instant `now`, for a ticket queued on `key`. */
  function Decide(g: Governor, key: RouteKey, ticket: nat, now: nat): Decision {
    var route := RouteOf(g, key);
    if !g.settings.enabled then Granted
    else if route.queue == [] || route.queue[0] != ticket then AwaitNotify
    else if Earliest(route, g.settings) <= now then Granted
    else SleepUntil(Earliest(route, g.settings))
  }

  function AfterPass(g: Governor, key: RouteKey, ticket: nat, now: nat): Governor {
    var route := RouteOf(g, key);
    if !g.settings.enabled then WithoutTicket(g, key, ticket)
    else if Decide(g, key, ticket, now) == Granted then
      g.(routes := g.routes[key := route.(queue := route.queue[1..], lastSent := Some(now))])
    else g
  }

  /** What a rate limit asks for, or else a minute and up to two seconds drawn at random. */
  function CooldownMillis(retryAfterMillis: Option<nat>, random: nat): nat {
    retryAfterMillis.UnwrapOr(60_000 + random % 2_001)
  }

  function Cooled(g: Governor, key: RouteKey, until: nat): Governor {
    var route := RouteOf(g, key);
    var later := match route.coolingUntil { case Some(existing) => Max(existing, until) case None => until };
    g.(routes := g.routes[key := route.(coolingUntil := Some(later))])
  }

  /** A queue in ticket order: first come, first served. */
  ghost predicate Ordered(queue: seq<nat>) {
    forall i, j :: 0 <= i < j < |queue| ==> queue[i] < queue[j]
  }

  lemma {:induction false} WithoutMembers(queue: seq<nat>, ticket: nat)
    requires Ordered(queue)
    ensures Ordered(Without(queue, ticket))
    ensures forall t :: t in Without(queue, ticket) <==> t in queue && t != ticket
    ensures |Without(queue, ticket)| == |queue| - (if ticket in queue then 1 else 0)
  {
    if queue != [] {
      var rest := queue[1..];
      WithoutMembers(rest, ticket);
      assert queue == [queue[0]] + rest;
      assert forall t :: t in rest ==> queue[0] < t;
      if queue[0] != ticket {
        var out := Without(rest, ticket);
        forall i, j | 0 <= i < j < |[queue[0]] + out| ensures ([queue[0]] + out)[i] < ([queue[0]] + out)[j] {
          if i == 0 { assert out[j - 1] in out; }
        }
      }
    }
  }

  /** Every place in every queue. */
  function QueuedSlots(routes: map<RouteKey, Route>): set<(RouteKey, nat)> {
    set key, i: nat | key in routes && i < |routes[key].queue| :: (key, i)
  }

  function CoolingRoutes(routes: map<RouteKey, Route>, now: nat): set<RouteKey> {
    set key | key in routes && routes[key].coolingUntil.Some? && routes[key].coolingUntil.value > now
  }

  lemma {:induction false} SlotsOfOneRoute(key: RouteKey, n: nat)
    ensures |set i: nat | i < n :: (key, i)| == n
  {
    if n > 0 {
      SlotsOfOneRoute(key, n - 1);
      assert (set i: nat | i < n :: (key, i)) == (set i: nat | i < n - 1 :: (key, i)) + {(key, n - 1)};
    }
  }

  lemma SlotsWithRoute(routes: map<RouteKey, Route>, key: RouteKey, route: Route)
    requires key !in routes
    ensures |QueuedSlots(routes[key := route])| == |QueuedSlots(routes)| + |route.queue|
  {
    var slots := set i: nat | i < |route.queue| :: (key, i);
    SlotsOfOneRoute(key, |route.queue|);
    assert QueuedSlots(routes[key := route]) == QueuedSlots(routes) + slots;
  }
}
