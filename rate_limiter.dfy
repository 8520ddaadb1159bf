/** The client-side fixed-window rate limiter (src/client/http/rate-limiter.ts).

    The limiter keeps two numbers, the count of requests admitted in the
    current window and the instant the window started. `waitIfNeeded` first
    starts a new window when the current one has run out, then, when the
    quota of the window is used up, sleeps until the window's end and starts
    a new window at the instant it wakes up, and finally counts the request.

    The clock (`Date.now()`) and the timer (`setTimeout`) are not modelled:
    the current instant `now` and the instant `wake` at which the sleeping
    caller resumes are parameters, and the method returns the delay it would
    have asked the timer for. */
module RateLimiting {

  /** The limiter's mutable state: `counter` and `windowStart`. */
  datatype Window = Window(counter: int, start: int)

  /** What a call did before returning: proceed at once, or sleep `delay`
      milliseconds first. */
  datatype Gate = Proceed | Waited(delay: int)

  /** One call to a limiter at instant `call.now`; `call.wake` is the instant
      the timer wakes it up if it has to sleep. */
  datatype Call = Call(now: int, wake: int)

  /** The window as `waitIfNeeded` sees it after its reset check
      (rate-limiter.ts:17-22). */
  function Current(w: Window, timeWindow: int, now: int): (r: Window)
    ensures now - w.start < timeWindow ==> r == w
    ensures now - w.start >= timeWindow ==> r == Window(0, now)
  {
    if now - w.start >= timeWindow then Window(0, now) else w
  }

  /** The specification of one call of `waitIfNeeded`: the new state and what
      the caller experienced (rate-limiter.ts:16-33). */
  function Admit(w: Window, maxRequests: int, timeWindow: int, call: Call): (r: (Window, Gate))
    ensures r.1 == Proceed <==> Current(w, timeWindow, call.now).counter < maxRequests
    ensures r.1.Waited? ==> r.0 == Window(1, call.wake)
  {
    var cur := Current(w, timeWindow, call.now);
    if cur.counter >= maxRequests then
      (Window(1, call.wake), Waited(cur.start + timeWindow - call.now))
    else
      (Window(cur.counter + 1, cur.start), Proceed)
  }

  /** A sequence of calls, one after the other, on one limiter. */
  function Run(w: Window, maxRequests: int, timeWindow: int, calls: seq<Call>): (r: (Window, seq<Gate>))
    ensures |r.1| == |calls|
    decreases |calls|
  {
    if calls == [] then (w, [])
    else
      var (next, gate) := Admit(w, maxRequests, timeWindow, calls[0]);
      var (last, gates) := Run(next, maxRequests, timeWindow, calls[1..]);
      (last, [gate] + gates)
  }

  /** An expired window is reset before anything else happens: the call
      behaves exactly as on a fresh window opened at `now`. */
  lemma ExpiredWindowResets(w: Window, maxRequests: int, timeWindow: int, call: Call)
    requires call.now - w.start >= timeWindow
    ensures Admit(w, maxRequests, timeWindow, call) == Admit(Window(0, call.now), maxRequests, timeWindow, call)
  {
  }

  /** Below the quota there is no wait: the count goes up by exactly one and
      the window keeps its start. */
  lemma BelowQuotaProceeds(w: Window, maxRequests: int, timeWindow: int, call: Call)
    requires Current(w, timeWindow, call.now).counter < maxRequests
    ensures Admit(w, maxRequests, timeWindow, call).1 == Proceed
    ensures Admit(w, maxRequests, timeWindow, call).0 ==
            Window(Current(w, timeWindow, call.now).counter + 1, Current(w, timeWindow, call.now).start)
  {
  }

  /** At the quota the caller sleeps until the window's end, which, for a
      positive window and a clock that has not gone back before the window's
      start, is a delay in (0, timeWindow]; it then resumes in a new window
      opened at its wake-up instant, as that window's first request. */
  lemma AtQuotaWaitsForWindowEnd(w: Window, maxRequests: int, timeWindow: int, call: Call)
    requires Current(w, timeWindow, call.now).counter >= maxRequests
    requires timeWindow > 0 && call.now >= w.start
    ensures Admit(w, maxRequests, timeWindow, call).1.Waited?
    ensures 0 < Admit(w, maxRequests, timeWindow, call).1.delay <= timeWindow
    ensures Admit(w, maxRequests, timeWindow, call).1.delay == Current(w, timeWindow, call.now).start + timeWindow - call.now
    ensures Admit(w, maxRequests, timeWindow, call).0 == Window(1, call.wake)
  {
  }

  /** With a quota of at least one, the count never leaves [0, maxRequests]. */
  lemma CounterWithinQuota(w: Window, maxRequests: int, timeWindow: int, call: Call)
    requires maxRequests >= 1 && 0 <= w.counter <= maxRequests
    ensures 1 <= Admit(w, maxRequests, timeWindow, call).0.counter <= maxRequests
  {
  }

  /** A burst that fits in what is left of the quota, issued before the
      window runs out, is admitted without any wait and counted in full. */
  lemma {:induction false} BurstWithinQuota(w: Window, maxRequests: int, timeWindow: int, calls: seq<Call>)
    requires w.counter + |calls| <= maxRequests
    requires forall i :: 0 <= i < |calls| ==> calls[i].now - w.start < timeWindow
    ensures Run(w, maxRequests, timeWindow, calls).0 == Window(w.counter + |calls|, w.start)
    ensures Run(w, maxRequests, timeWindow, calls).1 == seq(|calls|, _ => Proceed)
    decreases |calls|
  {
    if calls != [] {
      var next := Window(w.counter + 1, w.start);
      assert Admit(w, maxRequests, timeWindow, calls[0]) == (next, Proceed);
      BurstWithinQuota(next, maxRequests, timeWindow, calls[1..]);
      assert Run(w, maxRequests, timeWindow, calls).1
          == [Proceed] + Run(next, maxRequests, timeWindow, calls[1..]).1;
    }
  }

  /** In one window opened at `t0`, the first `maxRequests` calls proceed and
      the next one sleeps until the window's end, `t0 + timeWindow`; it
      resumes as the first request of a window opened when it wakes up. */
  lemma {:induction false} QuotaThenWait(t0: int, maxRequests: int, timeWindow: int, calls: seq<Call>, extra: Call)
    requires maxRequests >= 1 && |calls| == maxRequests
    requires forall i :: 0 <= i < |calls| ==> t0 <= calls[i].now < t0 + timeWindow
    requires t0 <= extra.now < t0 + timeWindow
    ensures Run(Window(0, t0), maxRequests, timeWindow, calls).1 == seq(maxRequests, _ => Proceed)
    ensures Run(Window(0, t0), maxRequests, timeWindow, calls + [extra]).1
         == seq(maxRequests, _ => Proceed) + [Waited(t0 + timeWindow - extra.now)]
    ensures Run(Window(0, t0), maxRequests, timeWindow, calls + [extra]).0 == Window(1, extra.wake)
  {
    BurstWithinQuota(Window(0, t0), maxRequests, timeWindow, calls);
    RunSnoc(Window(0, t0), maxRequests, timeWindow, calls, extra);
  }

  /** Once the window has run out, a fresh quota of calls proceeds: the first
      call opens a new window and up to `maxRequests` calls issued before it
      runs out are admitted without waiting. */
  lemma {:induction false} NewWindowAfterExpiry(w: Window, maxRequests: int, timeWindow: int, calls: seq<Call>)
    requires maxRequests >= 1 && 1 <= |calls| <= maxRequests
    requires calls[0].now - w.start >= timeWindow
    requires forall i :: 0 <= i < |calls| ==> calls[i].now - calls[0].now < timeWindow
    ensures Run(w, maxRequests, timeWindow, calls).0 == Window(|calls|, calls[0].now)
    ensures Run(w, maxRequests, timeWindow, calls).1 == seq(|calls|, _ => Proceed)
  {
    var next := Window(1, calls[0].now);
    assert Admit(w, maxRequests, timeWindow, calls[0]) == (next, Proceed);
    BurstWithinQuota(next, maxRequests, timeWindow, calls[1..]);
    assert Run(w, maxRequests, timeWindow, calls).1
        == [Proceed] + Run(next, maxRequests, timeWindow, calls[1..]).1;
  }

  /** Running one more call at the end. */
  lemma {:induction false} RunSnoc(w: Window, maxRequests: int, timeWindow: int, calls: seq<Call>, extra: Call)
    ensures var (mid, gates) := Run(w, maxRequests, timeWindow, calls);
            var (last, gate) := Admit(mid, maxRequests, timeWindow, extra);
            Run(w, maxRequests, timeWindow, calls + [extra]) == (last, gates + [gate])
    decreases |calls|
  {
    if calls == [] {
      assert calls + [extra] == [extra];
      assert [extra][1..] == [];
      var (last, gate) := Admit(w, maxRequests, timeWindow, extra);
      assert Run(last, maxRequests, timeWindow, []) == (last, []);
      assert [gate] + [] == [gate];
      assert Run(w, maxRequests, timeWindow, calls) == (w, []);
      var none: seq<Gate> := [];
      assert none + [gate] == [gate];
      assert Run(w, maxRequests, timeWindow, [extra]) == (last, [gate]);
    } else {
      var (next, gate0) := Admit(w, maxRequests, timeWindow, calls[0]);
      RunSnoc(next, maxRequests, timeWindow, calls[1..], extra);
      assert (calls + [extra])[0] == calls[0];
      assert (calls + [extra])[1..] == calls[1..] + [extra];
      var (mid, gates) := Run(next, maxRequests, timeWindow, calls[1..]);
      assert Run(w, maxRequests, timeWindow, calls) == (mid, [gate0] + gates);
      var (last, gate) := Admit(mid, maxRequests, timeWindow, extra);
      assert Run(next, maxRequests, timeWindow, calls[1..] + [extra]) == (last, gates + [gate]);
      assert Run(w, maxRequests, timeWindow, calls + [extra]) == (last, [gate0] + (gates + [gate]));
      assert [gate0] + (gates + [gate]) == ([gate0] + gates) + [gate];
    }
  }

  function Max(a: int, b: int): int
  {
    if a >= b then a else b
  }

  /** `RateLimiter`: the quota and the window length are fixed at
      construction; `counter` and `windowStart` change in place. */
  class RateLimiter {
    var counter: int
    var windowStart: int
    const maxRequests: int
    const timeWindow: int

    /** The state as a value. */
    function State(): Window
      reads this
    {
      Window(counter, windowStart)
    }

    /** The count is never negative and never above the quota, or above one
        when the quota is not positive (every call then waits). */
    ghost predicate Valid()
      reads this
    {
      0 <= counter <= Max(1, maxRequests)
    }

    /** A new limiter has counted nothing and opened its window at the
        instant of construction (rate-limiter.ts:5-11). */
    constructor (maxRequests: int, timeWindow: int, now: int)
      ensures this.maxRequests == maxRequests && this.timeWindow == timeWindow
      ensures counter == 0 && windowStart == now
      ensures Valid()
    {
      this.maxRequests := maxRequests;
      this.timeWindow := timeWindow;
      counter := 0;
      windowStart := now;
    }

    /** `waitIfNeeded()` called at `now`; if it sleeps, the timer wakes it at
        `wake` (rate-limiter.ts:16-33). */
    method WaitIfNeeded(now: int, wake: int) returns (gate: Gate)
      modifies this
      ensures (State(), gate) == Admit(old(State()), maxRequests, timeWindow, Call(now, wake))
      ensures old(Valid()) ==> Valid()
    {
      if now - windowStart >= timeWindow {
        // New window started
        counter := 0;
        windowStart := now;
      }
      gate := Proceed;
      if counter >= maxRequests {
        // Wait for the current window to end
        var waitTime := windowStart + timeWindow - now;
        gate := Waited(waitTime);
        counter := 0;
        windowStart := wake;
      }
      counter := counter + 1;
    }
  }
}
