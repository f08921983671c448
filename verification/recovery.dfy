/** The error-recovery action: a state machine over a build whose phase is
    Failed. The first observation only records the failure; afterwards the
    build is retried (sent back to Initialization) once the backoff for the
    current attempt has elapsed, until the retry budget is spent and the
    build is frozen into Error. */
module ErrorRecovery {
  import opened Wrappers
  import opened Phases
  import opened Backoff
  import opened ContainerBuilds

  /** Retry budget written into every new failure record. */
  const AttemptMax: nat := 5

  predicate CanHandle(b: ContainerBuild)
  {
    b.status.phase == Failed
  }

  /** The time the backoff is measured from: the last retry if there was
      one, otherwise the first observation of the failure. */
  function ReferenceTime(f: Failure): int
  {
    match f.recovery.attemptTime
    case Some(t) => t
    case None => f.time
  }

  /** `b'` is `b` sent back to Initialization by one retry at time `now`:
      the counter moves up by exactly one, the retry time is `now`, and
      nothing else in the record changes. */
  predicate RetriedAt(b: ContainerBuild, b': ContainerBuild, now: int)
  {
    && b.status.failure.Some?
    && b'.status.failure.Some?
    && var f, f' := b.status.failure.value, b'.status.failure.value;
    && b'.status.phase == Initialization
    && f'.recovery.attempt == f.recovery.attempt + 1
    && f'.recovery.attemptMax == f.recovery.attemptMax
    && f'.recovery.attemptTime == Some(now)
    && f'.reason == f.reason
    && f'.time == f.time
    && b'.status.error == b.status.error
    && b'.namespace == b.namespace
    && b'.name == b.name
  }

  function Handle(p: Policy, b: ContainerBuild, now: int): (r: HandleResult)
    // the handler never reports an error
    ensures !r.HandleError?
    // first observation: record the failure, keep the phase
    ensures b.status.failure.None? ==>
      && r.Done?
      && r.build.status.failure == Some(Failure(b.status.error, now, Recovery(0, 5, None)))
      && r.build.status.phase == b.status.phase
      && r.build.status.error == b.status.error
      && r.build.namespace == b.namespace
      && r.build.name == b.name
    // budget spent: freeze into Error whatever the time
    ensures b.status.failure.Some? && b.status.failure.value.recovery.attempt >= b.status.failure.value.recovery.attemptMax ==>
      r.Done? && r.build.status.phase == Error && OnlyPhaseChanged(b, r.build)
    // budget left: nothing happens until the backoff has elapsed, then one retry
    ensures b.status.failure.Some? && b.status.failure.value.recovery.attempt < b.status.failure.value.recovery.attemptMax ==>
      var f := b.status.failure.value;
      && (r.NotYet? <==> now - ReferenceTime(f) < Wait(p, f.recovery.attempt))
      && (r.Done? ==> RetriedAt(b, r.build, now))
  {
    match b.status.failure
    case None =>
      Done(b.(status := b.status.(failure := Some(Failure(b.status.error, now, Recovery(0, AttemptMax, None))))))
    case Some(f) =>
      if f.recovery.attempt >= f.recovery.attemptMax then
        Done(b.(status := b.status.(phase := Error)))
      else if now - ReferenceTime(f) < Wait(p, f.recovery.attempt) then
        NotYet
      else
        var recovery := f.recovery.(attempt := f.recovery.attempt + 1, attemptTime := Some(now));
        Done(b.(status := b.status.(phase := Initialization, failure := Some(f.(recovery := recovery)))))
  }

  /** A handled build never has its counter run past the maximum, and the
      counter never goes down. */
  lemma HandleKeepsAttemptBound(p: Policy, b: ContainerBuild, now: int)
    requires AttemptsWithinMax(b)
    ensures Handle(p, b, now).Done? ==> AttemptsWithinMax(Handle(p, b, now).build)
    ensures Handle(p, b, now).Done? && b.status.failure.Some? ==>
      && Handle(p, b, now).build.status.failure.Some?
      && Handle(p, b, now).build.status.failure.value.recovery.attempt >= b.status.failure.value.recovery.attempt
  {
  }

  /** The only phases the action produces from a Failed build are Failed
      (failure just recorded), Error (budget spent) and Initialization (a
      retry), and a retry happens only while budget is left. */
  lemma HandlePhaseEdges(p: Policy, b: ContainerBuild, now: int)
    requires CanHandle(b)
    ensures Handle(p, b, now).Done? ==>
      Handle(p, b, now).build.status.phase in {Failed, Error, Initialization}
    ensures Handle(p, b, now).Done? && Handle(p, b, now).build.status.phase == Initialization ==>
      b.status.failure.Some? && b.status.failure.value.recovery.attempt < b.status.failure.value.recovery.attemptMax
  {
  }

  /** Waiting is monotone in time: a tick that acts at `t1` still acts at
      any later `t2`, and the two results differ at most in the attempt time
      stamped on the record. */
  lemma RetryStaysDue(p: Policy, b: ContainerBuild, t1: int, t2: int)
    requires b.status.failure.Some?
    requires t1 <= t2
    ensures Handle(p, b, t1).Done? ==> Handle(p, b, t2).Done?
    ensures Handle(p, b, t1).Done? ==>
      var r1, r2 := Handle(p, b, t1).build, Handle(p, b, t2).build;
      && r1.status.failure.Some? && r2.status.failure.Some?
      && r2.(status := r2.status.(failure := r1.status.failure)) == r1
      && r2.status.failure.value.(recovery := r2.status.failure.value.recovery.(attemptTime := r1.status.failure.value.recovery.attemptTime)) == r1.status.failure.value
  {
  }

  /** Redelivery of a tick after the failure was recorded never records it
      again: the reason and first-observed time written by the first tick
      survive whatever the next tick does. */
  lemma FailureRecordedOnce(p: Policy, b: ContainerBuild, t1: int, t2: int)
    requires b.status.failure.None?
    ensures var b1 := Handle(p, b, t1).build;
      Handle(p, b1, t2).Done? ==>
        && Handle(p, b1, t2).build.status.failure.Some?
        && Handle(p, b1, t2).build.status.failure.value.reason == b.status.error
        && Handle(p, b1, t2).build.status.failure.value.time == t1
  {
  }

  /** First observation at t0: the record holds attempt 0, time t0, budget
      5, and the build is still Failed. */
  lemma ScenarioFirstObservation(b: ContainerBuild, t0: int)
    requires CanHandle(b) && b.status.failure.None?
    ensures Handle(Default, b, t0).Done?
    ensures Handle(Default, b, t0).build.status.phase == Failed
    ensures Handle(Default, b, t0).build.status.failure.Some?
    ensures Handle(Default, b, t0).build.status.failure.value.time == t0
    ensures Handle(Default, b, t0).build.status.failure.value.recovery == Recovery(0, 5, None)
  {
  }

  /** With attempt 0 recorded at t0, a tick at t0+4 has to wait (4 s < 5 s)
      and a tick at t0+6 retries with attempt 1 stamped t0+6. */
  lemma ScenarioFirstRetry(b: ContainerBuild, t0: int)
    requires CanHandle(b)
    requires b.status.failure.Some?
    requires b.status.failure.value.time == t0
    requires b.status.failure.value.recovery == Recovery(0, 5, None)
    ensures Handle(Default, b, t0 + 4).NotYet?
    ensures Handle(Default, b, t0 + 6).Done?
    ensures Handle(Default, b, t0 + 6).build.status.phase == Initialization
    ensures Handle(Default, b, t0 + 6).build.status.failure.Some?
    ensures Handle(Default, b, t0 + 6).build.status.failure.value.recovery == Recovery(1, 5, Some(t0 + 6))
  {
    DefaultSchedule();
  }
}
