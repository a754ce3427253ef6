/** The fixed-window limiter of `executeWithRateLimit`: the `progress`
    record `{step, startTime}` and what one gated call does to it. Time is a
    whole number of milliseconds and the `setTimeout` wait is returned as a
    delay instead of being slept. */
module RateLimit {

  /** `IRateLimit`: at most `requests` calls per window of `seconds` seconds. */
  datatype Policy = Policy(requests: int, seconds: int)

  /** The `progress` record; `step == 0` stands for the empty record `{}`
      (an unset, falsy `step`), in which case `startTime` is cleared to 0. */
  datatype Progress = Progress(step: nat, startTime: int)

  const CLEARED: Progress := Progress(0, 0)

  /** The length of a window in milliseconds. */
  function WindowMs(policy: Policy): int
  {
    1000 * policy.seconds
  }

  /** The states the limiter can reach: the counter is never left at 1,
      because the call that sets it to 1 bumps it again before returning. */
  predicate Reachable(p: Progress)
  {
    p.step != 1 && (p.step == 0 ==> p.startTime == 0)
  }

  /** One gated call at time `now`: the new progress and the wait. With no
      window open it opens one and the trailing bump leaves `step == 2`; a
      call that finds `step == requests` waits out the rest of the window and
      clears the record, which the trailing bump then leaves alone; any other
      call only counts. */
  function Gate(p: Progress, now: int, policy: Policy): (r: (Progress, nat))
    ensures Reachable(p) ==> Reachable(r.0)
    ensures p.step == 0 ==> r == (Progress(2, now), 0)
    ensures p.step != 0 && p.step != policy.requests ==> r == (Progress(p.step + 1, p.startTime), 0)
    ensures p.step != 0 && p.step == policy.requests ==> r.0 == CLEARED
    ensures r.1 != 0 ==> p.step != 0 && p.step == policy.requests
  {
    if p.step == 0 then
      (Progress(2, now), 0)
    else if p.step == policy.requests then
      var elapsed := now - p.startTime;
      var remaining := WindowMs(policy) - elapsed;
      (CLEARED, if remaining > 0 then remaining else 0)
    else
      (Progress(p.step + 1, p.startTime), 0)
  }

  /** The throttling call waits for what is left of the window and no more:
      never past the window's end, at most a whole window when the clock
      has not gone backwards, and nothing once the window is over. */
  lemma ThrottleDelay(p: Progress, now: int, policy: Policy)
    requires p.step != 0 && p.step == policy.requests
    ensures var d := Gate(p, now, policy).1;
      now + d >= p.startTime + WindowMs(policy) &&
      (d > 0 ==> now + d == p.startTime + WindowMs(policy)) &&
      (now >= p.startTime && policy.seconds >= 0 ==> d <= WindowMs(policy)) &&
      (now >= p.startTime + WindowMs(policy) ==> d == 0)
  {
  }

  /** A run of consecutive gated calls at the times `times`: the final
      progress and the wait of each call. */
  function Run(p: Progress, times: seq<int>, policy: Policy): (r: (Progress, seq<nat>))
    ensures |r.1| == |times|
    decreases |times|
  {
    if times == [] then (p, [])
    else
      var before := Run(p, times[..|times| - 1], policy);
      var after := Gate(before.0, times[|times| - 1], policy);
      (after.0, before.1 + [after.1])
  }

  /** The waits of the first `k` calls do not depend on the later ones. */
  lemma {:induction false} RunPrefix(p: Progress, times: seq<int>, policy: Policy, k: nat)
    requires k <= |times|
    ensures Run(p, times, policy).1[..k] == Run(p, times[..k], policy).1
    decreases |times|
  {
    if k < |times| {
      var init := times[..|times| - 1];
      RunPrefix(p, init, policy, k);
      assert init[..k] == times[..k];
      assert Run(p, times, policy).1[..k] == Run(p, init, policy).1[..k];
    } else {
      assert times[..k] == times;
    }
  }

  /** All `k` waits are zero. */
  predicate NoWaits(ds: seq<nat>)
  {
    forall i :: 0 <= i < |ds| ==> ds[i] == 0
  }

  /** Off by one: after `k` calls from a cleared record that have not reached
      the quota, `step == k + 1`, the window started at the first call and no
      call has waited. A quota of 1 (or less) is therefore never reached. */
  lemma {:induction false} Counting(times: seq<int>, policy: Policy)
    requires |times| >= 1
    requires |times| < policy.requests || policy.requests <= 1
    ensures Run(CLEARED, times, policy).0 == Progress(|times| + 1, times[0])
    ensures NoWaits(Run(CLEARED, times, policy).1)
    decreases |times|
  {
    if |times| > 1 {
      var init := times[..|times| - 1];
      Counting(init, policy);
      assert init[0] == times[0];
    }
  }

  /** The call that finds `step == requests` is call number `requests`: it
      waits for what is left of the window opened by the first call, the
      calls before it do not wait, and the record is cleared after it. */
  lemma Throttling(times: seq<int>, policy: Policy)
    requires policy.requests >= 2 && |times| == policy.requests
    ensures var r := Run(CLEARED, times, policy);
      var remaining := WindowMs(policy) - (times[|times| - 1] - times[0]);
      r.0 == CLEARED &&
      NoWaits(r.1[..|times| - 1]) &&
      r.1[|times| - 1] == (if remaining > 0 then remaining else 0)
  {
    var init := times[..|times| - 1];
    Counting(init, policy);
    assert init[0] == times[0];
    assert Run(CLEARED, times, policy).1[..|times| - 1] == Run(CLEARED, init, policy).1;
  }

  /** Calls are serial: each starts no earlier than the previous one returned. */
  predicate Serial(times: seq<int>, waits: seq<nat>)
  {
    forall i :: 0 <= i < |times| - 1 && i < |waits| ==> times[i + 1] >= times[i] + waits[i]
  }

  /** The quota holds: when calls are serial, the call after the `requests`
      calls of a window starts no earlier than the end of that window. */
  lemma QuotaRespected(times: seq<int>, policy: Policy)
    requires policy.requests >= 2 && |times| > policy.requests
    requires Serial(times, Run(CLEARED, times, policy).1)
    ensures times[policy.requests] >= times[0] + WindowMs(policy)
  {
    var k := policy.requests;
    var window := times[..k];
    Throttling(window, policy);
    RunPrefix(CLEARED, times, policy, k);
    var ds := Run(CLEARED, times, policy).1;
    assert ds[k - 1] == Run(CLEARED, window, policy).1[k - 1];
    assert times[k] >= times[k - 1] + ds[k - 1];
  }

  /** After a throttled call the next call opens a fresh window at its own time. */
  lemma FreshWindow(times: seq<int>, policy: Policy)
    requires policy.requests >= 2 && |times| == policy.requests + 1
    ensures Run(CLEARED, times, policy).0 == Progress(2, times[|times| - 1])
    ensures Run(CLEARED, times, policy).1[|times| - 1] == 0
  {
    var init := times[..|times| - 1];
    Throttling(init, policy);
  }
}
