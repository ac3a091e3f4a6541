/** The retry helper of the benchmark scenarios: a UI action is run again,
    after a pause, until it stops throwing or the retries run out. The
    action's outcome on its `k`-th run (counting from 0) is given as
    `block(k)`, and pauses are counted instead of slept. */
module AppScenarios {
  import opened KotlinStd

  /** What one run of the action did. */
  datatype Attempt = Succeeded | Failed(error: Exception)

  /** How `retry` ends: it returns, or it rethrows the last run's exception. */
  datatype RetryOutcome = Completed | Rethrown(error: Exception)

  /** `runAction`'s default number of runs. */
  const DefaultMaxRetries: int := 6
  /** `runAction`'s pause between runs: one second. */
  const DefaultDelayMillis: int := 1000

  /** `retry(maxRetries, delay, block)`: runs the block at most `maxRetries`
      times and stops at the first run that does not throw. After a failed
      run it pauses, except after the last run, whose exception is
      rethrown. A `maxRetries` of zero or less runs nothing and returns. */
  method Retry(maxRetries: int, delayMillis: int, block: nat -> Attempt)
    returns (outcome: RetryOutcome, runs: nat, sleptMillis: int)
    ensures maxRetries <= 0 ==> outcome == Completed && runs == 0
    ensures runs <= (if maxRetries > 0 then maxRetries else 0)
    ensures forall k :: 0 <= k < runs - 1 ==> block(k).Failed?
    ensures outcome.Completed? && maxRetries > 0 ==> runs > 0 && block(runs - 1).Succeeded?
    ensures outcome.Rethrown? ==> runs == maxRetries && block(runs - 1) == Failed(outcome.error)
    ensures sleptMillis == delayMillis * (if runs == 0 then 0 else runs - 1)
  {
    outcome := Completed;
    runs := 0;
    sleptMillis := 0;
    var run := 0;
    while run < maxRetries
      invariant 0 <= run && (if maxRetries <= 0 then run == 0 else run < maxRetries)
      invariant runs == run
      invariant sleptMillis == delayMillis * run
      invariant forall k :: 0 <= k < run ==> block(k).Failed?
    {
      var result := block(run);
      runs := runs + 1;
      if result.Succeeded? {
        return;
      }
      if run == maxRetries - 1 {
        outcome := Rethrown(result.error);
        return;
      }
      sleptMillis := sleptMillis + delayMillis;
      run := run + 1;
    }
  }

  /** `runAction(selector, action)`: waits for the object to appear, failing
      with `IllegalStateException` when it does not, and then retries the
      action up to six times, a second apart. */
  method RunAction(selector: string, appears: bool, block: nat -> Attempt)
    returns (outcome: RetryOutcome, runs: nat)
    ensures !appears ==> outcome == Rethrown(Exception(Other, "Object with selector [" + selector + "] not found")) && runs == 0
    ensures appears ==> 1 <= runs <= DefaultMaxRetries
    ensures appears && outcome.Completed? ==> block(runs - 1).Succeeded?
    ensures appears && outcome.Rethrown? ==> runs == DefaultMaxRetries && forall k :: 0 <= k < runs ==> block(k).Failed?
  {
    if !appears {
      outcome := Rethrown(Exception(Other, "Object with selector [" + selector + "] not found"));
      runs := 0;
      return;
    }
    var slept;
    outcome, runs, slept := Retry(DefaultMaxRetries, DefaultDelayMillis, block);
  }
}
