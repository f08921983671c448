/** The container-builder's build record (ContainerBuild) as far as the
    error-recovery action reads and writes it. Times are whole seconds on
    the controller's clock. */
module ContainerBuilds {
  import opened Wrappers
  import opened Phases

  /** Retry bookkeeping; `attemptTime` is `None` while no retry happened
      (Go's zero `metav1.Time`). */
  datatype Recovery = Recovery(attempt: nat, attemptMax: nat, attemptTime: Option<int>)

  /** Present once a failure has been observed: the reason copied from the
      status error, the time it was first observed, and the retry state. */
  datatype Failure = Failure(reason: string, time: int, recovery: Recovery)

  datatype Status = Status(phase: Phase, error: string, failure: Option<Failure>)

  datatype ContainerBuild = ContainerBuild(namespace: string, name: string, status: Status)

  /** What an action's handler returns: an updated build, nothing to do yet
      (no build and no error), or an error. */
  datatype HandleResult = Done(build: ContainerBuild) | NotYet | HandleError(message: string)

  /** `b'` differs from `b` at most in its status phase. */
  predicate OnlyPhaseChanged(b: ContainerBuild, b': ContainerBuild)
  {
    && b'.namespace == b.namespace
    && b'.name == b.name
    && b'.status.error == b.status.error
    && b'.status.failure == b.status.failure
  }

  /** The retry counter has not run past its maximum (or no failure record exists yet). */
  predicate AttemptsWithinMax(b: ContainerBuild)
  {
    b.status.failure.Some? ==> b.status.failure.value.recovery.attempt <= b.status.failure.value.recovery.attemptMax
  }
}
