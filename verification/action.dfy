/** The Action interface of the container builder: a name, an applicability
    predicate over the build, and a handler returning an updated build, no
    result, or an error. Implementations are a closed set of variants; the
    error-recovery action is the one modelled. The client and logger that
    the builder injects through setters are fields of the shared base. */
module Actions {
  import opened Wrappers
  import opened Backoff
  import opened ContainerBuilds
  import ErrorRecovery

  /** Opaque handles of the cluster client and the logger. */
  datatype Client = Client(endpoint: string)
  datatype Logger = Logger(name: string)

  /** State shared by every action: both handles start unset. */
  datatype Base = Base(client: Option<Client>, logger: Option<Logger>)

  datatype Action = ErrorRecoveryAction(base: Base, backOff: Policy)

  /** A new error-recovery action: nothing injected yet, the default
      backoff policy, and the name "error-recovery". */
  function NewErrorRecoveryAction(): (a: Action)
    ensures a.ErrorRecoveryAction?
    ensures a.base == Base(None, None)
    ensures a.backOff == Policy(5, 60, 2)
    ensures Name(a) == "error-recovery"
  {
    ErrorRecoveryAction(Base(None, None), Default)
  }

  /** The user-facing name of the action. */
  function Name(a: Action): (n: string)
    ensures a.ErrorRecoveryAction? ==> n == "error-recovery"
  {
    match a
    case ErrorRecoveryAction(_, _) => "error-recovery"
  }

  /** Pure applicability test: it reads only the build. */
  function CanHandle(a: Action, b: ContainerBuild): (r: bool)
    ensures a.ErrorRecoveryAction? ==> (r <==> b.status.phase == Phases.Failed)
  {
    match a
    case ErrorRecoveryAction(_, _) => ErrorRecovery.CanHandle(b)
  }

  /** Runs the action on the build at time `now`. The error-recovery action
      never reports an error, and a build it hands back keeps its identity. */
  function Handle(a: Action, b: ContainerBuild, now: int): (r: HandleResult)
    ensures !r.HandleError?
    ensures r.Done? ==> r.build.namespace == b.namespace && r.build.name == b.name
    ensures a.ErrorRecoveryAction? && b.status.failure.None? ==> r.Done? && r.build.status.phase == b.status.phase
    ensures a.ErrorRecoveryAction? && r.Done? && r.build.status.phase != b.status.phase && r.build.status.phase == Phases.Initialization ==>
      b.status.failure.Some? && b.status.failure.value.recovery.attempt < b.status.failure.value.recovery.attemptMax
  {
    match a
    case ErrorRecoveryAction(_, policy) => ErrorRecovery.Handle(policy, b, now)
  }

  /** Replaces the client and leaves the logger and the rest of the action alone. */
  function InjectClient(a: Action, c: Client): (r: Action)
    ensures r.base.client == Some(c)
    ensures r.base.logger == a.base.logger
    ensures r.(base := a.base) == a
  {
    a.(base := a.base.(client := Some(c)))
  }

  /** Replaces the logger and leaves the client and the rest of the action alone. */
  function InjectLogger(a: Action, l: Logger): (r: Action)
    ensures r.base.logger == Some(l)
    ensures r.base.client == a.base.client
    ensures r.(base := a.base) == a
  {
    a.(base := a.base.(logger := Some(l)))
  }

  /** The two injections touch disjoint fields, so their order does not
      matter, and injecting the same handle twice is the same as once. */
  lemma InjectionsIndependent(a: Action, c: Client, l: Logger)
    ensures InjectLogger(InjectClient(a, c), l) == InjectClient(InjectLogger(a, l), c)
    ensures InjectClient(InjectClient(a, c), c) == InjectClient(a, c)
    ensures InjectLogger(InjectLogger(a, l), l) == InjectLogger(a, l)
  {
  }

  /** Injection changes none of the action's decisions: its name, its
      applicability and its handler's result are the same before and after. */
  lemma InjectionKeepsBehaviour(a: Action, c: Client, l: Logger, b: ContainerBuild, now: int)
    ensures var a' := InjectLogger(InjectClient(a, c), l);
      && Name(a') == Name(a)
      && CanHandle(a', b) == CanHandle(a, b)
      && Handle(a', b, now) == Handle(a, b, now)
  {
  }
}
