/** Which delay an attempt waits, and what the default policy comes to. */
module PatientDefaults {
  import opened Wrappers
  import opened PatientRetry

  /** The staged delay is met exactly without a hint; a hint is met exactly where it asks for more, up to the cap;
      behind the last stage nothing changes. */
  lemma DelaysAreStaged(policy: Policy, attempt: nat, hint: real)
    requires policy.Valid() && attempt >= 1
    ensures attempt <= |policy.delays| && policy.delays[attempt - 1] <= policy.cap ==>
              policy.Delay(attempt, None) == policy.delays[attempt - 1]
    ensures attempt > |policy.delays| ==> policy.Delay(attempt, None) == policy.Delay(|policy.delays|, None)
    ensures hint >= policy.Delay(attempt, None) && hint <= policy.cap ==> policy.Delay(attempt, Some(hint)) == hint
    ensures hint >= policy.cap ==> policy.Delay(attempt, Some(hint)) == policy.cap
    ensures hint < policy.Delay(attempt, None) ==> policy.Delay(attempt, Some(hint)) == policy.Delay(attempt, None)
  {
  }

  /** A quarter of an hour; one, two, five, ten and ten seconds, then thirty each. */
  const Default := Policy(900.0, [1.0, 2.0, 5.0, 10.0, 10.0, 30.0], 30.0)

  /** Everything fails transiently and at once, without hints, and nobody stops it. */
  ghost predicate Hopeless(world: World) {
    forall n: nat ::
      world.FailsTransiently(n) && world.Hint(n).None? && world.takes(n) == 0.0 && world.oversleeps(n) == 0.0 && world.halts(n) == Never
  }

  function ElapsedBefore(j: nat): real {
    if j == 0 then 0.0 else if j == 1 then 1.0 else if j == 2 then 3.0 else if j == 3 then 8.0 else if j == 4 then 18.0
    else 28.0 + 30.0 * (j - 5) as real
  }

  lemma DefaultDelay(k: nat)
    requires k >= 1
    ensures Default.Valid() && Default.Delay(k, None) == ElapsedBefore(k) - ElapsedBefore(k - 1)
  {
    if k <= 6 { assert Default.delays[k - 1] == [1.0, 2.0, 5.0, 10.0, 10.0, 30.0][k - 1]; }
  }

  lemma {:induction false} AttemptTimes(world: World, times: seq<real>, j: nat)
    requires Hopeless(world) && j < |times| && Default.Valid()
    requires forall i | 0 <= i < |times| - 1 :: Retried(Default, world, times, i)
    ensures times[j] == times[0] + ElapsedBefore(j)
  {
    if j > 0 {
      AttemptTimes(world, times, j - 1);
      assert Retried(Default, world, times, j - 1);
      assert world.FailsTransiently(j - 1) && world.Hint(j - 1).None?;
      DefaultDelay(j);
    }
  }

  /** With the defaults and a resolver that never answers, thirty-five attempts are made, and the attempt is given up
      exactly a quarter of an hour after the first failure. */
  lemma DefaultsGiveUp(world: World, times: seq<real>, ending: Ending, finish: real)
    requires Hopeless(world) && |times| >= 1 && Default.Valid()
    requires forall i | 0 <= i < |times| - 1 :: Retried(Default, world, times, i)
    requires EndsAs(Default, world, times, ending, finish)
    ensures ending == Exhausted && |times| == 35 && finish == times[0] + 900.0
  {
    var last := |times| - 1;
    assert world.FailsTransiently(last) && world.Hint(last).None?;
    AttemptTimes(world, times, last);
    DefaultDelay(last + 1);
    if last > 0 {
      assert Retried(Default, world, times, last - 1);
      assert ElapsedBefore(last) < 900.0;
    }
  }
}
