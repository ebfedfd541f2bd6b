/**
 * The governor object: the fields behind the mutex, and one method per critical
 * section, each tied to the function that specifies it.
 */
module ProviderGovernor {
  import opened Wrappers
  import opened GovernorState

  class ProviderRequestGovernor {
    var settings: Settings
    var routes: map<RouteKey, Route>
    var nextTicket: nat

    ghost function State(): Governor
      reads this
    {
      Governor(settings, routes, nextTicket)
    }

    constructor (initial: Settings)
      ensures State() == Governor(initial, map[], 0)
    {
      settings, routes, nextTicket := initial, map[], 0;
    }

    /** The first critical section of `acquire`: draw a ticket and queue it. */
    method TakeTicket(key: RouteKey) returns (ticket: nat)
      modifies this
      ensures State() == WithTicket(old(State()), key)
      ensures ticket == nextTicket
      ensures key in routes
    {
      nextTicket := (nextTicket + 1) % TICKET_MODULUS;
      ticket := nextTicket;
      if key !in routes {
        routes := routes[key := IDLE_ROUTE];
      }
      var route := routes[key];
      routes := routes[key := route.(queue := route.queue + [ticket])];
      assert routes == old(WithTicket(State(), key).routes);
    }

    /** One pass of the acquire loop, at instant `now`. */
    method TryAcquire(key: RouteKey, ticket: nat, now: nat) returns (decision: Decision)
      requires key in routes
      modifies this
      ensures decision == Decide(old(State()), key, ticket, now)
      ensures State() == AfterPass(old(State()), key, ticket, now)
    {
      var route := routes[key];
      if !settings.enabled {
        var queue := RemoveTicket(route.queue, ticket);
        routes := routes[key := route.(queue := queue)];
        return Granted;
      }
      if route.queue == [] || route.queue[0] != ticket {
        return AwaitNotify;
      }
      var due := now;
      if route.lastSent.Some? { due := route.lastSent.value + Interval(settings); }
      var allowedAt := due;
      if route.coolingUntil.Some? && route.coolingUntil.value > due { allowedAt := route.coolingUntil.value; }
      if allowedAt <= now {
        routes := routes[key := route.(queue := route.queue[1..], lastSent := Some(now))];
        return Granted;
      }
      return SleepUntil(allowedAt);
    }

    /** Find the ticket by position and cut it out. */
    static method RemoveTicket(queue: seq<nat>, ticket: nat) returns (out: seq<nat>)
      ensures out == Without(queue, ticket)
    {
      var pos := 0;
      while pos < |queue| && queue[pos] != ticket
        invariant pos <= |queue|
        invariant Without(queue, ticket) == queue[..pos] + Without(queue[pos..], ticket)
      {
        var tail := queue[pos..];
        assert queue[..pos] + ([tail[0]] + Without(tail[1..], ticket)) ==
          queue[..pos + 1] + Without(queue[pos + 1..], ticket);
        pos := pos + 1;
      }
      if pos < |queue| {
        out := queue[..pos] + queue[pos + 1..];
      } else {
        out := queue;
      }
    }

    /** The cancel branch: leave the queue. */
    method Cancel(key: RouteKey, ticket: nat)
      modifies this
      ensures State() == WithoutTicket(old(State()), key, ticket)
    {
      if key in routes {
        var queue := RemoveTicket(routes[key].queue, ticket);
        routes := routes[key := routes[key].(queue := queue)];
      }
    }

    method RecordRateLimit(key: RouteKey, now: nat, retryAfterMillis: Option<nat>, random: nat)
      modifies this
      ensures State() == Cooled(old(State()), key, now + CooldownMillis(retryAfterMillis, random) * NANOS_PER_MILLI)
    {
      var cooldownMillis := if retryAfterMillis.Some? then retryAfterMillis.value else 60_000 + random % 2_001;
      var candidate := now + cooldownMillis * NANOS_PER_MILLI;
      var route := if key in routes then routes[key] else IDLE_ROUTE;
      if route.coolingUntil.Some? && route.coolingUntil.value > candidate {
        candidate := route.coolingUntil.value;
      }
      routes := routes[key := route.(coolingUntil := Some(candidate))];
    }

    method UpdateSettings(updated: Settings)
      modifies this
      ensures State() == old(State()).(settings := updated)
    {
      settings := updated;
    }

    /** The snapshot's two counts, summed route by route in whatever order the map yields them. */
    method Snapshot(now: nat) returns (queuedRequests: nat, coolingRoutes: nat)
      ensures queuedRequests == |QueuedSlots(routes)|
      ensures coolingRoutes == |CoolingRoutes(routes, now)|
    {
      queuedRequests, coolingRoutes := 0, 0;
      var remaining := routes.Keys;
      ghost var seen: map<RouteKey, Route> := map[];
      while remaining != {}
        invariant remaining <= routes.Keys
        invariant seen == map key | key in routes.Keys - remaining :: routes[key]
        invariant queuedRequests == |QueuedSlots(seen)|
        invariant coolingRoutes == |CoolingRoutes(seen, now)|
        decreases remaining
      {
        var key :| key in remaining;
        SlotsWithRoute(seen, key, routes[key]);
        queuedRequests := queuedRequests + |routes[key].queue|;
        if routes[key].coolingUntil.Some? && routes[key].coolingUntil.value > now {
          coolingRoutes := coolingRoutes + 1;
          assert CoolingRoutes(seen[key := routes[key]], now) == CoolingRoutes(seen, now) + {key};
        } else {
          assert CoolingRoutes(seen[key := routes[key]], now) == CoolingRoutes(seen, now);
        }
        seen := seen[key := routes[key]];
        remaining := remaining - {key};
      }
      assert seen == routes;
    }
  }
}
