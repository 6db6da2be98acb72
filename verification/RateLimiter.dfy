/** The sliding-window limiter, compared with one that forgets nothing. */
module RateLimiter {

  type Client = string

  const CLEANUP_INTERVAL := 60.0

  /** The accepted times after the cutoff. */
  function Recent(times: seq<real>, cutoff: real): seq<real> {
    if times == [] then []
    else
      var early := Recent(times[..|times| - 1], cutoff);
      var last := times[|times| - 1];
      if last > cutoff then early + [last] else early
  }

  /** Times in order, none after `now`. */
  predicate Ordered(times: seq<real>, now: real) {
    times == [] || (times[|times| - 1] <= now && Ordered(times[..|times| - 1], times[|times| - 1]))
  }

  function LogOf(log: map<Client, seq<real>>, client: Client): seq<real> {
    if client in log then log[client] else []
  }

  lemma RecentOne(times: seq<real>, t: real, cutoff: real)
    ensures Recent(times + [t], cutoff) == Recent(times, cutoff) + (if t > cutoff then [t] else [])
  {
  }

  /** Forgetting what an earlier cutoff excludes changes nothing for a later one. */
  lemma {:induction false} RecentTwice(times: seq<real>, early: real, late: real)
    requires early <= late
    ensures Recent(Recent(times, early), late) == Recent(times, late)
  {
    if times == [] {
    } else {
      RecentTwice(times[..|times| - 1], early, late);
      RecentOne(Recent(times[..|times| - 1], early), times[|times| - 1], late);
    }
  }

  lemma {:induction false} RecentOrdered(times: seq<real>, cutoff: real, now: real)
    requires Ordered(times, now)
    ensures Ordered(Recent(times, cutoff), now)
  {
    if times == [] {
    } else {
      var last := times[|times| - 1];
      var early := Recent(times[..|times| - 1], cutoff);
      RecentOrdered(times[..|times| - 1], cutoff, last);
      assert (early + [last])[..|early|] == early;
    }
  }

  lemma {:induction false} RecentEmpty(times: seq<real>, cutoff: real)
    requires Ordered(times, cutoff)
    ensures Recent(times, cutoff) == []
  {
    if times == [] {
    } else {
      RecentEmpty(times[..|times| - 1], cutoff);
    }
  }

  /** Of an ordered list, the last `k` are recent if the first of them is. */
  lemma {:induction false} RecentCount(times: seq<real>, cutoff: real, now: real, k: nat)
    requires Ordered(times, now) && 0 < k <= |times| && times[|times| - k] > cutoff
    ensures |Recent(times, cutoff)| >= k
  {
    LastRecent(times, cutoff, now, k);
    if k <= 1 {
    } else {
      RecentCount(times[..|times| - 1], cutoff, times[|times| - 1], k - 1);
    }
  }

  lemma {:induction false} LastRecent(times: seq<real>, cutoff: real, now: real, k: nat)
    requires Ordered(times, now) && 0 < k <= |times| && times[|times| - k] > cutoff
    ensures times[|times| - 1] > cutoff
  {
    if k <= 1 {
    } else {
      LastRecent(times[..|times| - 1], cutoff, times[|times| - 1], k - 1);
    }
  }

  /** Every `limit` + 1 successive accepted requests span at least the window. */
  predicate Spaced(times: seq<real>, limit: int, window: real) {
    times == [] || (
      var last := |times| - 1;
      && Spaced(times[..last], limit, window)
      && (0 <= last - limit <= last ==> times[last] - times[last - limit] >= window))
  }

  lemma {:induction false} SpacedAt(times: seq<real>, limit: int, window: real, i: nat, j: nat)
    requires Spaced(times, limit, window) && i <= j < |times| && j == i + limit
    ensures times[j] - times[i] >= window
  {
    if j == |times| - 1 {
    } else {
      SpacedAt(times[..|times| - 1], limit, window, i, j);
    }
  }

  lemma AcceptedSpaced(times: seq<real>, now: real, limit: int, window: real)
    requires Ordered(times, now) && Spaced(times, limit, window)
    requires |Recent(times, now - window)| < limit
    ensures Spaced(times + [now], limit, window)
  {
    var all := times + [now];
    var n := |times|;
    assert all[..n] == times;
    if n >= limit && times[n - limit] > now - window {
      RecentCount(times, now - window, now, limit);
    }
  }

  /** `kept` decides as `all` does, now and later. */
  ghost predicate Stands(kept: seq<real>, all: seq<real>, clock: real, limit: int, window: real) {
    && Ordered(all, clock) && Spaced(all, limit, window) && Ordered(kept, clock)
    && Recent(kept, clock - window) == Recent(all, clock - window)
  }

  lemma TimePasses(kept: seq<real>, all: seq<real>, clock: real, now: real, limit: int, window: real)
    requires Stands(kept, all, clock, limit, window) && clock <= now
    ensures Stands(kept, all, now, limit, window)
  {
    RecentTwice(kept, clock - window, now - window);
    RecentTwice(all, clock - window, now - window);
  }

  lemma Forgotten(kept: seq<real>, all: seq<real>, now: real, limit: int, window: real)
    requires Stands(kept, all, now, limit, window)
    requires kept == [] || kept[|kept| - 1] <= now - window
    ensures Stands([], all, now, limit, window)
  {
    RecentEmpty(kept, now - window);
  }

  lemma Pruned(kept: seq<real>, all: seq<real>, now: real, limit: int, window: real)
    requires Stands(kept, all, now, limit, window)
    ensures Stands(Recent(kept, now - window), all, now, limit, window)
    ensures Recent(kept, now - window) == Recent(all, now - window)
  {
    RecentTwice(kept, now - window, now - window);
    RecentOrdered(kept, now - window, now);
  }

  lemma AppendOrdered(times: seq<real>, now: real)
    requires Ordered(times, now)
    ensures Ordered(times + [now], now)
  {
  }

  lemma RecentBoth(a: seq<real>, b: seq<real>, t: real, cutoff: real)
    requires Recent(a, cutoff) == Recent(b, cutoff)
    ensures Recent(a + [t], cutoff) == Recent(b + [t], cutoff)
  {
  }

  lemma Accepted(kept: seq<real>, all: seq<real>, now: real, limit: int, window: real)
    requires Stands(kept, all, now, limit, window) && |Recent(all, now - window)| < limit
    ensures Stands(kept + [now], all + [now], now, limit, window)
  {
    AcceptedSpaced(all, now, limit, window);
    AppendOrdered(all, now);
    AppendOrdered(kept, now);
    RecentBoth(kept, all, now, now - window);
  }

  ghost predicate AllStand(requests: map<Client, seq<real>>, log: map<Client, seq<real>>, clock: real, limit: int,
                           window: real) {
    forall client {:trigger Stands(LogOf(requests, client), LogOf(log, client), clock, limit, window)} ::
      Stands(LogOf(requests, client), LogOf(log, client), clock, limit, window)
  }

  lemma Replaced(requests: map<Client, seq<real>>, log: map<Client, seq<real>>, now: real, limit: int, window: real,
                 client: Client, kept: seq<real>, all: seq<real>)
    requires AllStand(requests, log, now, limit, window) && Stands(kept, all, now, limit, window)
    ensures AllStand(requests[client := kept], log[client := all], now, limit, window)
  {
    var r, l := requests[client := kept], log[client := all];
    forall other ensures Stands(LogOf(r, other), LogOf(l, other), now, limit, window) {
      assert Stands(LogOf(requests, other), LogOf(log, other), now, limit, window);
    }
  }

  lemma Refused(requests: map<Client, seq<real>>, log: map<Client, seq<real>>, now: real, limit: int, window: real,
                client: Client, kept: seq<real>)
    requires AllStand(requests, log, now, limit, window) && Stands(kept, LogOf(log, client), now, limit, window)
    ensures AllStand(requests[client := kept], log, now, limit, window)
  {
    var r := requests[client := kept];
    forall other ensures Stands(LogOf(r, other), LogOf(log, other), now, limit, window) {
      assert Stands(LogOf(requests, other), LogOf(log, other), now, limit, window);
    }
  }

  /** One decision: what is kept for the client, and once more if the request is accepted. */
  lemma Decided(requests: map<Client, seq<real>>, log: map<Client, seq<real>>, now: real, limit: int, window: real,
                client: Client)
    requires AllStand(requests, log, now, limit, window)
    ensures var kept, all := Recent(LogOf(requests, client), now - window), LogOf(log, client);
            && kept == Recent(all, now - window)
            && AllStand(requests[client := kept], log, now, limit, window)
            && (|kept| < limit ==>
                  AllStand(requests[client := kept][client := kept + [now]], log[client := all + [now]], now, limit, window))
  {
    var kept, all := Recent(LogOf(requests, client), now - window), LogOf(log, client);
    Pruned(LogOf(requests, client), all, now, limit, window);
    Refused(requests, log, now, limit, window, client, kept);
    if |kept| < limit {
      Accepted(kept, all, now, limit, window);
      Replaced(requests[client := kept], log, now, limit, window, client, kept + [now], all + [now]);
    }
  }

  class Limiter {
    const maxRequests: int
    const window: real
    var requests: map<Client, seq<real>>
    var lastCleanup: real
    /** Every request ever accepted, and the clock at the last decision. */
    ghost var log: map<Client, seq<real>>
    ghost var clock: real

    ghost predicate Valid()
      reads this
    {
      AllStand(requests, log, clock, maxRequests, window)
    }

    constructor (maxRequests: int, window: real, now: real)
      ensures Valid() && log == map[] && clock == now
      ensures this.maxRequests == maxRequests && this.window == window
    {
      this.maxRequests, this.window := maxRequests, window;
      requests, lastCleanup, log, clock := map[], now, map[], now;
    }

    /** Idle clients are forgotten; this changes no later decision. */
    method CleanUp(now: real)
      requires Valid() && clock <= now
      modifies `requests, `lastCleanup, `clock
      ensures Valid() && clock == now
    {
      var cutoff := now - window;
      ghost var before := requests;
      forall client ensures Stands(LogOf(before, client), LogOf(log, client), now, maxRequests, window) {
        TimePasses(LogOf(before, client), LogOf(log, client), clock, now, maxRequests, window);
      }
      if now - lastCleanup > CLEANUP_INTERVAL {
        requests := map c | c in requests && requests[c] != [] && requests[c][|requests[c]| - 1] > cutoff :: requests[c];
        lastCleanup := now;
        forall client ensures Stands(LogOf(requests, client), LogOf(log, client), now, maxRequests, window) {
          if client !in requests { Forgotten(LogOf(before, client), LogOf(log, client), now, maxRequests, window); }
        }
      }
      clock := now;
    }

    /** With a clock that does not go back, the decision is that of the limiter that forgets nothing. */
    method IsAllowed(client: Client, now: real) returns (allowed: bool)
      requires Valid() && clock <= now
      modifies this
      ensures Valid() && clock == now
      ensures allowed <==> |Recent(LogOf(old(log), client), now - window)| < maxRequests
      ensures log == if allowed then old(log)[client := LogOf(old(log), client) + [now]] else old(log)
    {
      CleanUp(now);
      Decided(requests, log, now, maxRequests, window, client);
      ghost var all := LogOf(log, client);
      var kept := Recent(LogOf(requests, client), now - window);
      requests := requests[client := kept];
      allowed := |kept| < maxRequests;
      if allowed {
        requests := requests[client := kept + [now]];
        log := log[client := all + [now]];
      }
    }
  }

  /** In every state `max_requests` + 1 successive accepted requests of a client span at least the window. */
  lemma AcceptedSpan(limiter: Limiter, client: Client, i: nat, j: nat)
    requires limiter.Valid() && i <= j < |LogOf(limiter.log, client)| && j == i + limiter.maxRequests
    ensures LogOf(limiter.log, client)[j] - LogOf(limiter.log, client)[i] >= limiter.window
  {
    assert Stands(LogOf(limiter.requests, client), LogOf(limiter.log, client), limiter.clock, limiter.maxRequests,
                  limiter.window);
    SpacedAt(LogOf(limiter.log, client), limiter.maxRequests, limiter.window, i, j);
  }
}
