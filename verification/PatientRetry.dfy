/** Patient retries inside one outage window: when they stop, and that they do. */
module PatientRetry {
  import opened Wrappers

  function Min(a: real, b: real): real { if a <= b then a else b }
  function Max(a: real, b: real): real { if a >= b then a else b }

  function Times(k: nat, m: real): real { if k == 0 then 0.0 else Times(k - 1, m) + m }

  lemma {:induction false} TimesIsProduct(k: nat, m: real)
    ensures Times(k, m) == k as real * m
  {
    if k > 0 { TimesIsProduct(k - 1, m); }
  }

  lemma FloorFills(w: real, m: real)
    requires w > 0.0 && m > 0.0
    ensures (w / m).Floor + 1 >= 0 && ((w / m).Floor + 1) as real * m >= w
  {
    var q := w / m;
    assert q * m == w;
    var k := q.Floor + 1;
    assert k as real >= q;
    Scale(k as real, q, m);
  }

  lemma Scale(a: real, b: real, m: real)
    requires a >= b && m > 0.0
    ensures a * m >= b * m
  {
  }

  datatype Policy = Policy(window: real, delays: seq<real>, cap: real) {
    predicate Valid() {
      window > 0.0 && cap > 0.0 && delays != [] && forall i | 0 <= i < |delays| :: delays[i] > 0.0
    }

    /** The staged delay of an attempt, at least what the server asked for, at most the cap. */
    function Delay(attempt: nat, retryAfter: Option<real>): (d: real)
      requires Valid() && attempt >= 1
      ensures 0.0 < d <= cap
    {
      var staged := delays[(if attempt <= |delays| then attempt else |delays|) - 1];
      Min(if retryAfter.Some? && retryAfter.value >= 0.0 then Max(staged, retryAfter.value) else staged, cap)
    }

    /** A server's hint can only lengthen a delay. */
    lemma HintsLengthen(attempt: nat, retryAfter: Option<real>)
      requires Valid() && attempt >= 1
      ensures Delay(attempt, None) <= Delay(attempt, retryAfter)
    {
    }

    /** The capped delays of the first `k` attempts, without any hint. */
    function Total(k: nat): (t: real)
      requires Valid()
      ensures t >= 0.0
    {
      if k == 0 then 0.0 else Total(k - 1) + Delay(k, None)
    }

    lemma TotalStep(k: nat, retryAfter: Option<real>)
      requires Valid() && k >= 1
      ensures Total(k) <= Total(k - 1) + Delay(k, retryAfter)
    {
      HintsLengthen(k, retryAfter);
    }

    function Shortest(n: nat): (m: real)
      requires Valid() && n <= |delays|
      ensures 0.0 < m <= cap && forall i | 0 <= i < n :: m <= delays[i]
    {
      if n == 0 then cap else Min(Shortest(n - 1), delays[n - 1])
    }

    lemma DelayIsLong(k: nat)
      requires Valid() && k >= 1
      ensures Delay(k, None) >= Shortest(|delays|)
    {
    }

    lemma {:induction false} TotalGrows(k: nat)
      requires Valid()
      ensures Total(k) >= Times(k, Shortest(|delays|))
    {
      hide Shortest, Delay;
      if k > 0 {
        TotalGrows(k - 1);
        DelayIsLong(k);
      }
    }

    /** So many attempts always fill the window. */
    function Enough(): (k: nat)
      requires Valid()
    {
      (window / Shortest(|delays|)).Floor + 1
    }

    lemma EnoughFills()
      requires Valid()
      ensures Total(Enough()) >= window
    {
      hide Shortest, Total;
      TotalGrows(Enough());
      TimesIsProduct(Enough(), Shortest(|delays|));
      FloorFills(window, Shortest(|delays|));
    }

    lemma TotalStarts()
      requires Valid()
      ensures Total(0) == 0.0 && Enough() >= 1
    {
      assert window / Shortest(|delays|) >= 0.0;
    }

    lemma {:induction false} TotalMonotone(j: nat, k: nat)
      requires Valid() && j <= k
      ensures Total(j) <= Total(k)
    {
      if j < k { TotalMonotone(j, k - 1); }
    }
  }

  datatype Failure = Transient(retryAfter: Option<real>) | Permanent
  datatype Resolution = Resolved | Fails(failure: Failure) | Stop

  /** Whether the user stops a wait: not at all, before it begins, or after it slept for a while. */
  datatype Halt = Never | AtOnce | Midway(slept: real)

  /** What the world does: each attempt's outcome and duration, how much longer than asked each wait takes,
      and which waits the user stops. */
  datatype World = World(resolve: nat -> Resolution, takes: nat -> real, oversleeps: nat -> real, halts: nat -> Halt) {
    ghost predicate Passes() {
      forall n: nat :: takes(n) >= 0.0 && oversleeps(n) >= 0.0 && (halts(n).Midway? ==> halts(n).slept >= 0.0)
    }

    predicate FailsTransiently(n: nat) { resolve(n).Fails? && resolve(n).failure.Transient? }

    function Hint(n: nat): Option<real>
      requires FailsTransiently(n)
    {
      resolve(n).failure.retryAfter
    }
  }

  datatype Ending = Settled | Raised | Stopped | Exhausted

  class OutageRecovery {
    const policy: Policy
    var started: Option<real>
    var attempt: nat
    var delaySeconds: real

    constructor (policy: Policy)
      ensures this.policy == policy && started.None? && attempt == 0
    {
      this.policy, started, attempt, delaySeconds := policy, None, 0, 0.0;
    }

    function Elapsed(now: real): real
      reads `started
    {
      if started.Some? then Max(0.0, now - started.value) else 0.0
    }

    /** One more transient failure of the episode; the first one starts its clock. */
    method Fail(now: real, retryAfter: Option<real>)
      requires policy.Valid()
      modifies this
      ensures started == Some(if old(started).Some? then old(started).value else now)
      ensures attempt == old(attempt) + 1 && delaySeconds == policy.Delay(attempt, retryAfter)
    {
      if started.None? { started := Some(now); }
      attempt := attempt + 1;
      delaySeconds := policy.Delay(attempt, retryAfter);
    }

    /** Wait what is left of the delay and the window, checking the window before and after. */
    method Wait(now: real, oversleep: real, halt: Halt) returns (after: real, ending: Option<Ending>)
      requires started.Some? && started.value <= now && oversleep >= 0.0 && (halt.Midway? ==> halt.slept >= 0.0)
      requires delaySeconds > 0.0
      ensures var spent := now - started.value;
              if halt == AtOnce then ending == Some(Stopped) && after == now
              else if spent >= policy.window then ending == Some(Exhausted) && after == now
              else if halt.Midway? then ending == Some(Stopped) && after == now + halt.slept
              else
                && after == now + Min(delaySeconds, policy.window - spent) + oversleep
                && ending == (if after - started.value >= policy.window then Some(Exhausted) else None)
      ensures ending.None? ==> after == now + delaySeconds + oversleep
    {
      if halt == AtOnce { return now, Some(Stopped); }
      if Elapsed(now) >= policy.window { return now, Some(Exhausted); }
      if halt.Midway? { return now + halt.slept, Some(Stopped); }
      var remaining := Max(0.0, policy.window - Elapsed(now));
      after := now + Min(delaySeconds, remaining) + oversleep;
      ending := if Elapsed(after) >= policy.window then Some(Exhausted) else None;
    }
  }

  /** When attempt `j`, begun at `times[j]`, failed. */
  function FailedAt(world: World, times: seq<real>, j: nat): real
    requires j < |times|
  {
    times[j] + world.takes(j)
  }

  /** One attempt led to the next: it failed transiently inside the window, its whole delay was waited, and
      the window was still open afterwards. */
  predicate Retried(policy: Policy, world: World, times: seq<real>, j: nat)
    requires policy.Valid() && j + 1 < |times|
  {
    && world.FailsTransiently(j) && world.halts(j) == Never
    && times[j + 1] == FailedAt(world, times, j) + policy.Delay(j + 1, world.Hint(j)) + world.oversleeps(j)
    && times[j + 1] - FailedAt(world, times, 0) < policy.window
  }

  lemma RetriedLonger(policy: Policy, world: World, times: seq<real>, next: real, j: nat)
    requires policy.Valid() && j + 1 < |times| && Retried(policy, world, times, j)
    ensures Retried(policy, world, times + [next], j)
  {
  }

  /** Why and when the attempts ended, read off the last one. */
  predicate EndsAs(policy: Policy, world: World, times: seq<real>, ending: Ending, finish: real)
    requires policy.Valid() && |times| >= 1
  {
    var last := |times| - 1;
    var failed, first := FailedAt(world, times, last), FailedAt(world, times, 0);
    match world.resolve(last)
    case Resolved => ending == Settled && finish == failed
    case Stop => ending == Stopped && finish == failed
    case Fails(Permanent) => ending == Raised && finish == failed
    case Fails(Transient(hint)) =>
      if world.halts(last) == AtOnce then ending == Stopped && finish == failed
      else if failed - first >= policy.window then ending == Exhausted && finish == failed
      else if world.halts(last).Midway? then ending == Stopped && finish == failed + world.halts(last).slept
      else
        && ending == Exhausted && finish - first >= policy.window
        && finish == failed + Min(policy.Delay(last + 1, hint), policy.window - (failed - first)) + world.oversleeps(last)
  }

  /** Resolve until something other than a transient failure happens, or the window is spent. The
      attempts end by themselves: no later than when the capped delays alone fill the window. */
  method ResolveStartupPatiently(policy: Policy, world: World, now: real)
    returns (ending: Ending, times: seq<real>, finish: real)
    requires policy.Valid() && world.Passes()
    ensures |times| >= 1 && times[0] == now
    ensures forall j | 0 <= j < |times| - 1 :: Retried(policy, world, times, j)
    ensures EndsAs(policy, world, times, ending, finish)
    ensures forall k: nat | k >= 1 && policy.Total(k) >= policy.window :: |times| <= k
  {
    var recovery := new OutageRecovery(policy);
    times := [];
    hide Policy.Total, Policy.Delay, Policy.Shortest, Policy.Enough, Policy.Valid, Min, Max;
    var clock, attempts := now, 0;
    policy.EnoughFills();
    policy.TotalStarts();
    while true
      invariant recovery.policy == policy && fresh(recovery) && recovery.attempt == attempts == |times|
      invariant attempts == 0 ==> recovery.started.None? && clock == now
      invariant attempts > 0 ==>
          && times[0] == now && recovery.started == Some(FailedAt(world, times, 0))
          && recovery.started.value <= clock && clock - recovery.started.value < policy.window
          && clock - recovery.started.value >= policy.Total(attempts)
          && world.FailsTransiently(attempts - 1) && world.halts(attempts - 1) == Never
          && clock == FailedAt(world, times, attempts - 1) + policy.Delay(attempts, world.Hint(attempts - 1))
                      + world.oversleeps(attempts - 1)
      invariant forall j | 0 <= j < attempts - 1 :: Retried(policy, world, times, j)
      decreases policy.Enough() - attempts
    {
      ghost var done, before := attempts, times;
      forall k: nat | k >= 1 && policy.Total(k) >= policy.window ensures done < k {
        if k <= done { policy.TotalMonotone(k, done); }
      }
      var outcome := world.resolve(attempts);
      times := times + [clock];
      forall j | 0 <= j < done ensures Retried(policy, world, times, j) {
        assert times[j] == before[j] && times[0] == before[0];
        if j < done - 1 { RetriedLonger(policy, world, before, clock, j); }
      }
      clock := clock + world.takes(attempts);
      attempts := attempts + 1;
      if outcome == Stop { return Stopped, times, clock; }
      if outcome == Resolved { return Settled, times, clock; }
      if outcome.failure.Permanent? { return Raised, times, clock; }
      recovery.Fail(clock, outcome.failure.retryAfter);
      policy.TotalStep(attempts, outcome.failure.retryAfter);
      var over;
      clock, over := recovery.Wait(clock, world.oversleeps(attempts - 1), world.halts(attempts - 1));
      if over.Some? { return over.value, times, clock; }
    }
  }

  /** A resolver that always fails transiently, and is never stopped, is given up, and not before its window is spent. */
  lemma AlwaysFailingIsExhausted(policy: Policy, world: World, times: seq<real>, ending: Ending, finish: real)
    requires policy.Valid() && |times| >= 1 && EndsAs(policy, world, times, ending, finish)
    ensures (forall n: nat :: world.FailsTransiently(n) && world.halts(n) == Never) ==> ending == Exhausted
    ensures ending == Exhausted ==> finish - FailedAt(world, times, 0) >= policy.window
  {
    var last := |times| - 1;
    if forall n: nat :: world.FailsTransiently(n) && world.halts(n) == Never {
      assert world.FailsTransiently(last) && world.halts(last) == Never;
    }
    match world.resolve(last)
    case Resolved =>
    case Stop =>
    case Fails(Permanent) =>
    case Fails(Transient(hint)) =>
  }
}
