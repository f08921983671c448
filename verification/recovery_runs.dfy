/** Runs of the error-recovery action against a build that keeps failing:
    every retry it grants is observed Failed again at the next tick. These
    are the worst-case runs the retry budget is meant to bound. */
module RecoveryRuns {
  import opened Wrappers
  import opened Phases
  import opened Backoff
  import opened ContainerBuilds
  import opened ErrorRecovery

  /** The tick grants a retry: the action applies and sends the build back
      to Initialization. */
  predicate Retries(p: Policy, b: ContainerBuild, now: int)
  {
    && CanHandle(b)
    && Handle(p, b, now).Done?
    && Handle(p, b, now).build.status.phase == Initialization
  }

  /** One tick: the action handles the build if it applies, and a retried
      build fails again before the next tick. The rest of the build pipeline,
      which performs that retry, is not part of this model; the tick assumes
      it reports the new failure by setting the phase back to Failed and
      leaves the failure record (and the rest of the status) as the action
      wrote it. */
  function FailingTick(p: Policy, b: ContainerBuild, now: int): ContainerBuild
  {
    if !CanHandle(b) then b
    else match Handle(p, b, now)
      case Done(b1) =>
        if b1.status.phase == Initialization then b1.(status := b1.status.(phase := Failed)) else b1
      case _ => b
  }

  /** The build after a run of ticks at the given times, and how many
      retries the run granted. */
  datatype Run = Run(last: ContainerBuild, retries: nat)

  function FailingRun(p: Policy, b: ContainerBuild, nows: seq<int>): Run
    decreases |nows|
  {
    if |nows| == 0 then Run(b, 0)
    else
      var rest := FailingRun(p, FailingTick(p, b, nows[0]), nows[1..]);
      Run(rest.last, rest.retries + if Retries(p, b, nows[0]) then 1 else 0)
  }

  /** Retries still allowed: the full budget before a record exists,
      otherwise what is left of the recorded one. */
  function Budget(b: ContainerBuild): nat
  {
    match b.status.failure
    case None => AttemptMax
    case Some(f) =>
      if f.recovery.attempt <= f.recovery.attemptMax then f.recovery.attemptMax - f.recovery.attempt else 0
  }

  predicate FailedOrError(b: ContainerBuild)
  {
    b.status.phase == Failed || b.status.phase == Error
  }

  /** A tick keeps the counter within its maximum, keeps a failing build in
      Failed or Error, and a granted retry spends one unit of budget. */
  lemma TickSpendsBudget(p: Policy, b: ContainerBuild, now: int)
    requires AttemptsWithinMax(b)
    ensures AttemptsWithinMax(FailingTick(p, b, now))
    ensures FailedOrError(b) ==> FailedOrError(FailingTick(p, b, now))
    ensures Budget(FailingTick(p, b, now)) + (if Retries(p, b, now) then 1 else 0) <= Budget(b)
  {
  }

  /** However the ticks are timed, a failing build is retried at most as
      often as its budget allows, and its counter never passes the maximum. */
  lemma {:induction false} RetriesWithinBudget(p: Policy, b: ContainerBuild, nows: seq<int>)
    requires AttemptsWithinMax(b)
    ensures FailingRun(p, b, nows).retries <= Budget(b)
    ensures AttemptsWithinMax(FailingRun(p, b, nows).last)
    ensures FailedOrError(b) ==> FailedOrError(FailingRun(p, b, nows).last)
    decreases |nows|
  {
    if |nows| > 0 {
      TickSpendsBudget(p, b, nows[0]);
      RetriesWithinBudget(p, FailingTick(p, b, nows[0]), nows[1..]);
    }
  }

  /** A build frozen into Error stays exactly as it is. */
  lemma {:induction false} ErrorIsFinal(p: Policy, b: ContainerBuild, nows: seq<int>)
    requires b.status.phase == Error
    ensures FailingRun(p, b, nows) == Run(b, 0)
    decreases |nows|
  {
    if |nows| > 0 {
      ErrorIsFinal(p, b, nows[1..]);
    }
  }

  /** A failure first observed at t0 under the default policy: ticks at
      t0+5, t0+15, t0+35, t0+75 and t0+135 each find the backoff just
      elapsed and grant retries 1 to 5; the next tick, at any time, freezes
      the build into Error with the counter at 5. */
  lemma ScenarioExhaustion(b: ContainerBuild, t0: int, t: int)
    requires CanHandle(b) && b.status.failure.None?
    ensures var run := FailingRun(Default, b, [t0, t0 + 5, t0 + 15, t0 + 35, t0 + 75, t0 + 135, t]);
      && run.retries == 5
      && run.last.status.phase == Error
      && run.last.status.failure.Some?
      && run.last.status.failure.value.recovery.attempt == 5
  {
    DefaultSchedule();
    var b1 := FailingTick(Default, b, t0);
    assert b1.status.failure == Some(Failure(b.status.error, t0, Recovery(0, 5, None)));
    var b2 := FailingTick(Default, b1, t0 + 5);
    assert b2.status.failure.value.recovery == Recovery(1, 5, Some(t0 + 5));
    var b3 := FailingTick(Default, b2, t0 + 15);
    assert b3.status.failure.value.recovery == Recovery(2, 5, Some(t0 + 15));
    var b4 := FailingTick(Default, b3, t0 + 35);
    assert b4.status.failure.value.recovery == Recovery(3, 5, Some(t0 + 35));
    var b5 := FailingTick(Default, b4, t0 + 75);
    assert b5.status.failure.value.recovery == Recovery(4, 5, Some(t0 + 75));
    var b6 := FailingTick(Default, b5, t0 + 135);
    assert b6.status.failure.value.recovery == Recovery(5, 5, Some(t0 + 135));
    assert b6.status.phase == Failed;
    var b7 := FailingTick(Default, b6, t);
    assert b7.status.phase == Error;
    var nows := [t0, t0 + 5, t0 + 15, t0 + 35, t0 + 75, t0 + 135, t];
    assert FailingRun(Default, b7, nows[7..]) == Run(b7, 0);
    assert FailingRun(Default, b6, nows[6..]) == Run(b7, 0);
    assert FailingRun(Default, b5, nows[5..]) == Run(b7, 1);
    assert FailingRun(Default, b4, nows[4..]) == Run(b7, 2);
    assert FailingRun(Default, b3, nows[3..]) == Run(b7, 3);
    assert FailingRun(Default, b2, nows[2..]) == Run(b7, 4);
    assert FailingRun(Default, b1, nows[1..]) == Run(b7, 5);
  }
}
