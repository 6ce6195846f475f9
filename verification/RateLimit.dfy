/** The sliding-window rate limiter: the window holds over the whole history, and no schedule is earlier. */
module RateLimit {
  import opened SleeveTypes

  /** Any limit+1 consecutive grants span at least the period. */
  ghost predicate Windowed(grants: seq<real>, limit: nat, period: real) {
    forall i, j | 0 <= i && j == i + limit && j < |grants| :: grants[i] + period <= grants[j]
  }

  ghost predicate Ascending(s: seq<real>) {
    forall i, j | 0 <= i <= j < |s| :: s[i] <= s[j]
  }

  /** The earliest moment the window allows the next grant, for a caller ready at a given time. */
  function NextGrant(grants: seq<real>, ready: real, limit: nat, period: real): real
    requires limit > 0
  {
    if |grants| < limit then ready else Max(ready, grants[|grants| - limit] + period)
  }

  /** A clock that never runs backwards; sleeping lasts at least as asked, or exactly when it is exact. */
  class Clock {
    const exact: bool
    var now: real
    ghost var sleeps: nat

    constructor (exact: bool, now: real)
      ensures this.exact == exact && this.now == now && sleeps == 0
    {
      this.exact, this.now, sleeps := exact, now, 0;
    }

    method Time() returns (t: real)
      modifies this
      ensures t == now && old(now) <= now && (exact ==> now == old(now)) && sleeps == old(sleeps)
    {
      var drift: real := *;
      if !exact && drift > 0.0 {
        now := now + drift;
      }
      t := now;
    }

    method Sleep(wait: real)
      requires wait > 0.0
      modifies this
      ensures old(now) + wait <= now && (exact ==> now == old(now) + wait) && sleeps == old(sleeps) + 1
    {
      var drift: real := *;
      now := now + wait + (if !exact && drift > 0.0 then drift else 0.0);
      sleeps := sleeps + 1;
    }
  }

  /** The calls are the recent end of all grants, which keep the window. */
  ghost predicate Recent(grants: seq<real>, calls: seq<real>, limit: nat, period: real) {
    && |calls| <= limit && |calls| <= |grants|
    && calls == grants[|grants| - |calls|..]
    && Ascending(grants) && Windowed(grants, limit, period)
  }

  /** No grant lies ahead, and every grant that is no longer among the calls has left the window. */
  ghost predicate Past(grants: seq<real>, calls: seq<real>, now: real, period: real) {
    && (grants != [] ==> grants[|grants| - 1] <= now)
    && (forall i | 0 <= i < |grants| - |calls| :: grants[i] + period <= now)
  }

  /** With room among the calls, a grant now keeps the window and the bookkeeping. */
  lemma GrantNow(grants: seq<real>, calls: seq<real>, now: real, limit: nat, period: real)
    requires limit > 0 && period > 0.0 && |calls| < limit
    requires Recent(grants, calls, limit, period) && Past(grants, calls, now, period)
    ensures NextGrant(grants, now, limit, period) == now
    ensures Recent(grants + [now], calls + [now], limit, period)
    ensures Past(grants + [now], calls + [now], now, period)
  {
    GrantKeepsWindow(grants, now, limit, period);
    assert (grants + [now])[|grants| - |calls|..] == calls + [now];
  }

  class RateLimiter {
    const maxCalls: nat
    const period: real
    const clock: Clock
    var calls: seq<real>
    ghost var grants: seq<real>  // every grant ever made; calls is its recent end

    ghost predicate Trimmed()
      reads this
    {
      maxCalls > 0 && period > 0.0 && Recent(grants, calls, maxCalls, period)
    }

    ghost predicate Valid()
      reads this, clock
    {
      Trimmed() && Past(grants, calls, clock.now, period)
    }

    constructor (maxCalls: nat, period: real, clock: Clock)
      requires maxCalls > 0 && period > 0.0
      ensures Valid() && grants == [] && this.maxCalls == maxCalls && this.period == period && this.clock == clock
    {
      this.maxCalls, this.period, this.clock, calls, grants := maxCalls, period, clock, [], [];
    }

    /** Construction refuses a limit or a period that is not positive. */
    static method Create(maxCalls: int, period: real, clock: Clock) returns (r: Option<RateLimiter>)
      ensures r.Some? <==> 0 < maxCalls && 0.0 < period
      ensures r.Some? ==>
                fresh(r.value) && r.value.Valid() && r.value.grants == []
                && r.value.maxCalls == maxCalls && r.value.period == period && r.value.clock == clock
    {
      if maxCalls <= 0 || period <= 0.0 {
        return None;
      }
      var made := new RateLimiter(maxCalls, period, clock);
      r := Some(made);
    }

    /** Drops the calls that have left the window. */
    method Evict(now: real)
      requires Trimmed() && Past(grants, calls, now, period)
      modifies this`calls
      ensures Trimmed() && Past(grants, calls, now, period)
      ensures |calls| <= |old(calls)|
      ensures calls != [] ==> now < calls[0] + period
    {
      var horizon := now - period;
      while calls != [] && calls[0] <= horizon
        invariant Trimmed() && Past(grants, calls, now, period) && |calls| <= |old(calls)|
        decreases |calls|
      {
        calls := calls[1..];
      }
    }

    /** One round of waiting: the oldest call leaves the window, on an exact clock at once. */
    method WaitOnce(before: real) returns (now: real)
      requires Trimmed() && Past(grants, calls, before, period) && before == clock.now
      requires |calls| == maxCalls && before < calls[0] + period
      modifies this`calls, clock
      ensures Trimmed() && Past(grants, calls, now, period) && |calls| < maxCalls
      ensures now == clock.now && before < now && clock.sleeps == old(clock.sleeps) + 1
      ensures clock.exact ==> now == grants[|grants| - maxCalls] + period
    {
      ghost var full := calls;
      var wait := calls[0] + period - before;
      if wait > 0.0 {
        clock.Sleep(wait);
      }
      now := clock.Time();
      assert full[0] + period <= now;
      Evict(now);
      assert |calls| == maxCalls ==> calls == full;
    }

    /** Waits until the window has room, at most once, and says when that is. */
    method WaitForRoom() returns (now: real)
      requires Valid()
      modifies this`calls, clock
      ensures Trimmed() && Past(grants, calls, now, period) && |calls| < maxCalls
      ensures now == clock.now && old(clock.now) <= now && clock.sleeps <= old(clock.sleeps) + 1
      ensures clock.exact ==>
                now == old(clock.now)
                || (|grants| >= maxCalls && old(clock.now) < now == grants[|grants| - maxCalls] + period)
    {
      now := clock.Time();
      Evict(now);
      ghost var asked, slept := now, clock.sleeps;
      while |calls| >= maxCalls
        invariant Trimmed() && Past(grants, calls, now, period) && now == clock.now && asked <= now
        invariant |calls| >= maxCalls ==> now == asked && clock.sleeps == slept && now < calls[0] + period
        invariant clock.sleeps <= slept + 1
        invariant clock.exact ==>
                    now == asked
                    || (|grants| >= maxCalls && asked < now == grants[|grants| - maxCalls] + period)
        decreases |calls|
      {
        now := WaitOnce(now);
      }
    }

    /** Waits for the window and records the grant. */
    method Acquire()
      requires Valid()
      modifies this, clock
      ensures Valid()
      ensures grants == old(grants) + [clock.now]
      ensures old(clock.now) <= clock.now && clock.sleeps <= old(clock.sleeps) + 1
      ensures NextGrant(old(grants), old(clock.now), maxCalls, period) <= clock.now
      ensures clock.exact ==> clock.now == NextGrant(old(grants), old(clock.now), maxCalls, period)
    {
      var now := WaitForRoom();
      GrantNow(grants, calls, now, maxCalls, period);
      calls := calls + [now];
      grants := grants + [now];
    }
  }

  lemma GrantKeepsWindow(grants: seq<real>, at: real, limit: nat, period: real)
    requires limit > 0 && Ascending(grants) && Windowed(grants, limit, period)
    requires NextGrant(grants, at, limit, period) == at
    requires grants != [] ==> grants[|grants| - 1] <= at
    ensures Ascending(grants + [at]) && Windowed(grants + [at], limit, period)
  {}

  // ---------------------------------------------------------------- optimality

  /** The grants of callers served in order: each is ready when it has asked and the one before is through. */
  function Schedule(requests: seq<real>, limit: nat, period: real): (grants: seq<real>)
    requires limit > 0
    ensures |grants| == |requests|
  {
    if requests == [] then []
    else
      var before := Schedule(requests[..|requests| - 1], limit, period);
      var asked := requests[|requests| - 1];
      var ready := if before == [] then asked else Max(asked, before[|before| - 1]);
      before + [NextGrant(before, ready, limit, period)]
  }

  /** A first-come first-served schedule that respects the window. */
  ghost predicate Legal(requests: seq<real>, grants: seq<real>, limit: nat, period: real) {
    && |grants| == |requests|
    && (forall i | 0 <= i < |grants| :: requests[i] <= grants[i])
    && Ascending(grants) && Windowed(grants, limit, period)
  }

  lemma {:induction false} ScheduleLegal(requests: seq<real>, limit: nat, period: real)
    requires limit > 0 && period > 0.0
    ensures Legal(requests, Schedule(requests, limit, period), limit, period)
  {
    if requests != [] {
      ScheduleLegal(requests[..|requests| - 1], limit, period);
      var all := Schedule(requests, limit, period);
      GrantKeepsWindow(all[..|all| - 1], all[|all| - 1], limit, period);
      assert all == all[..|all| - 1] + [all[|all| - 1]];
    }
  }

  /** No legal schedule grants any request earlier. */
  lemma {:induction false} ScheduleEarliest(requests: seq<real>, other: seq<real>, limit: nat, period: real)
    requires limit > 0 && period > 0.0
    requires Legal(requests, other, limit, period)
    ensures forall i | 0 <= i < |requests| :: Schedule(requests, limit, period)[i] <= other[i]
  {
    if requests != [] {
      var n := |requests| - 1;
      assert Legal(requests[..n], other[..n], limit, period);
      ScheduleEarliest(requests[..n], other[..n], limit, period);
      if n >= limit {
        assert other[n - limit] + period <= other[n];
      }
    }
  }

  lemma ScheduleNext(requests: seq<real>, i: nat, limit: nat, period: real)
    requires limit > 0 && i < |requests|
    ensures var before := Schedule(requests[..i], limit, period);
            var ready := if i == 0 then requests[i] else Max(requests[i], before[i - 1]);
            Schedule(requests[..i + 1], limit, period) == before + [NextGrant(before, ready, limit, period)]
  {
    assert requests[..i + 1][..i] == requests[..i];
  }

  lemma NoneEarlier(requests: seq<real>, limit: nat, period: real)
    requires limit > 0 && period > 0.0
    ensures forall other | Legal(requests, other, limit, period) ::
              forall i | 0 <= i < |requests| :: Schedule(requests, limit, period)[i] <= other[i]
  {
    forall other | Legal(requests, other, limit, period)
      ensures forall i | 0 <= i < |requests| :: Schedule(requests, limit, period)[i] <= other[i]
    {
      ScheduleEarliest(requests, other, limit, period);
    }
  }

  lemma StillPast(grants: seq<real>, calls: seq<real>, now: real, later: real, period: real)
    requires Past(grants, calls, now, period) && now <= later
    ensures Past(grants, calls, later, period)
  {}

  /** Sleeps until a moment, unless it has passed. */
  method SleepUntil(limiter: RateLimiter, moment: real)
    requires limiter.Valid() && limiter.clock.exact
    modifies limiter.clock
    ensures limiter.Valid() && limiter.clock.now == Max(moment, old(limiter.clock.now))
  {
    ghost var was := limiter.clock.now;
    if limiter.clock.now < moment {
      limiter.clock.Sleep(moment - limiter.clock.now);
    }
    StillPast(limiter.grants, limiter.calls, was, limiter.clock.now, limiter.period);
  }

  /** The first callers have been served at their scheduled moments, and it is the moment of the last of them. */
  ghost predicate OnSchedule(limiter: RateLimiter, requests: seq<real>, served: nat)
    requires served <= |requests|
    reads limiter, limiter.clock
  {
    && limiter.Valid() && limiter.clock.exact
    && limiter.grants == Schedule(requests[..served], limiter.maxCalls, limiter.period)
    && (served == 0 && requests != [] ==> limiter.clock.now <= requests[0])
    && (served > 0 ==> limiter.clock.now == limiter.grants[served - 1])
  }

  /** One more caller: nothing happens before its request, and then it is served. */
  method Serve(limiter: RateLimiter, requests: seq<real>, i: nat)
    requires i < |requests| && OnSchedule(limiter, requests, i)
    modifies limiter, limiter.clock
    ensures OnSchedule(limiter, requests, i + 1)
  {
    ScheduleNext(requests, i, limiter.maxCalls, limiter.period);
    SleepUntil(limiter, requests[i]);
    limiter.Acquire();
  }

  /**
   * The limiter reaches that schedule. Callers served one after another, each from its request
   * time on, are granted on an exact clock at the scheduled moments, and no legal schedule grants
   * any of them earlier.
   */
  method ServeInOrder(limiter: RateLimiter, requests: seq<real>)
    requires OnSchedule(limiter, requests, 0)
    modifies limiter, limiter.clock
    ensures OnSchedule(limiter, requests, |requests|)
    ensures limiter.grants == Schedule(requests, limiter.maxCalls, limiter.period)
    ensures forall other | Legal(requests, other, limiter.maxCalls, limiter.period) ::
              forall i | 0 <= i < |requests| :: limiter.grants[i] <= other[i]
  {
    for i := 0 to |requests|
      invariant OnSchedule(limiter, requests, i)
    {
      Serve(limiter, requests, i);
    }
    assert requests[..|requests|] == requests;
    NoneEarlier(requests, limiter.maxCalls, limiter.period);
  }
}
