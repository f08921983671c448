/** One reconcile tick of the operator's build controller: load the build
    named by the request, dispatch on its phase (schedule a new build, run
    one step of a build in progress, or leave a finished one alone), write
    the status back when required, and say when to come back. The build
    manager's Schedule and Reconcile steps are inputs: they return the
    build as they changed it, or an error. */
module BuildController {
  import opened Wrappers
  import opened Phases
  import opened Cluster

  /** Requeue delays in seconds; 0 means no requeue. */
  const RequeueAfterForNewBuild: nat := 10
  const RequeueAfterForBuildRunning: nat := 30

  datatype EventType = Normal | Warning

  /** A recorded event; its message reads "Updated buildphase to  <phase>". */
  datatype Event = Event(eventType: EventType, reason: string, phase: Phase)

  function UpdatedEvent(p: Phase): Event
  {
    Event(Normal, "Updated", p)
  }

  /** The effect of one tick: the requeue delay, the error returned, the
      store afterwards, the status writes attempted and the events recorded. */
  datatype Outcome = Outcome(requeueAfter: nat, err: Option<ApiError>, store: Store, statusWrites: nat, events: seq<Event>)

  /** The effect of one status write: the store afterwards and the events recorded. */
  datatype StatusUpdate = StatusUpdate(store: Store, events: seq<Event>)

  /** Writes the build's status; the "Updated" event is recorded only when
      the write succeeds, and a failed write is otherwise ignored. */
  function ManageStatusUpdate(s: Store, faults: Faults, b: Build): (u: StatusUpdate)
    ensures UpdateStatus(s, faults, b).Ok? ==>
      && u.events == [UpdatedEvent(b.status.phase)]
      && KeyOf(b) in u.store
      && u.store[KeyOf(b)].status == b.status
    // a successful write leaves exactly the store the status write produced
    ensures UpdateStatus(s, faults, b).Ok? ==> u.store == UpdateStatus(s, faults, b).value
    ensures UpdateStatus(s, faults, b).Err? ==> u == StatusUpdate(s, [])
  {
    match UpdateStatus(s, faults, b)
    case Ok(s') => StatusUpdate(s', [UpdatedEvent(b.status.phase)])
    case Err(_) => StatusUpdate(s, [])
  }

  /** What a tick does with a build in a given phase. */
  datatype Decision = ScheduleNew | StepOnce | LeaveAlone

  /** The empty phase is scheduled, Succeeded, Error and Failed are left
      alone, every other phase gets one reconcile step. */
  function Decide(p: Phase): (d: Decision)
    ensures d == ScheduleNew <==> p == PhaseNone
    ensures d == LeaveAlone <==> p in {Succeeded, Error, Failed}
  {
    match p
    case PhaseNone => ScheduleNew
    case Succeeded => LeaveAlone
    case Error => LeaveAlone
    case Failed => LeaveAlone
    case _ => StepOnce
  }

  /** Nothing happened: no requeue, no error, no write, no event. */
  predicate Idle(o: Outcome, s: Store)
  {
    o == Outcome(0, None, s, 0, [])
  }

  /** `o` shows the attempted status write of `b`: when the store took it,
      the new store and the one "Updated" event; otherwise the old store and
      no event, the tick carrying on as if nothing went wrong. */
  predicate WroteStatus(o: Outcome, s: Store, faults: Faults, b: Build)
  {
    && o.statusWrites == 1
    && match UpdateStatus(s, faults, b)
       case Ok(s') => o.store == s' && o.events == [UpdatedEvent(b.status.phase)]
       case Err(_) => o.store == s && o.events == []
  }

  /** One tick for the build under `request`. `managerError` is the outcome
      of constructing the build manager; `schedule` and `step` are its
      Schedule and Reconcile. */
  function Reconcile(
    s: Store, faults: Faults, request: Key, managerError: Option<ApiError>,
    schedule: Build -> Result<Build, ApiError>, step: Build -> Result<Build, ApiError>): (o: Outcome)
    // a missing build is a quiet success
    ensures faults.get.None? && request !in s ==> Idle(o, s)
    // any other lookup error is returned as is
    ensures faults.get.Some? ==> o == Outcome(0, Some(Unavailable(faults.get.value)), s, 0, [])
    // so is a failure to set up the build manager
    ensures faults.get.None? && request in s && managerError.Some? ==> o == Outcome(0, managerError, s, 0, [])
    // finished builds (Succeeded, Error and also Failed) are left alone
    ensures faults.get.None? && request in s && managerError.None? && Decide(s[request].status.phase) == LeaveAlone ==>
      Idle(o, s)
    // a new build is scheduled: its error is returned without a write, otherwise one write and a 10 s requeue
    ensures faults.get.None? && request in s && managerError.None? && Decide(s[request].status.phase) == ScheduleNew ==>
      match schedule(s[request])
      case Err(e) => o == Outcome(0, Some(e), s, 0, [])
      case Ok(b) => o.requeueAfter == RequeueAfterForNewBuild && o.err.None? && WroteStatus(o, s, faults, b)
    // a build in progress gets one step: its error is returned without a write, otherwise a 30 s
    // requeue, with a write exactly when the step changed the phase
    ensures faults.get.None? && request in s && managerError.None? && Decide(s[request].status.phase) == StepOnce ==>
      match step(s[request])
      case Err(e) => o == Outcome(0, Some(e), s, 0, [])
      case Ok(b) =>
        && o.requeueAfter == RequeueAfterForBuildRunning
        && o.err.None?
        && (b.status.phase != s[request].status.phase ==> WroteStatus(o, s, faults, b))
        && (b.status.phase == s[request].status.phase ==> o.store == s && o.statusWrites == 0 && o.events == [])
    // an error return writes nothing; an event is recorded only after a write the store took
    ensures o.err.Some? ==> o.store == s && o.statusWrites == 0 && o.events == []
    ensures o.events != [] ==> o.statusWrites == 1 && o.err.None? && o.events == [UpdatedEvent(o.events[0].phase)]
  {
    match Get(s, faults, request)
    case Err(e) =>
      if e.NotFound? then Outcome(0, None, s, 0, []) else Outcome(0, Some(e), s, 0, [])
    case Ok(build) =>
      if managerError.Some? then Outcome(0, managerError, s, 0, [])
      else if build.status.phase == PhaseNone then
        match schedule(build)
        case Err(e) => Outcome(0, Some(e), s, 0, [])
        case Ok(scheduled) =>
          var u := ManageStatusUpdate(s, faults, scheduled);
          Outcome(RequeueAfterForNewBuild, None, u.store, 1, u.events)
      else if build.status.phase != Succeeded && build.status.phase != Error && build.status.phase != Failed then
        match step(build)
        case Err(e) => Outcome(0, Some(e), s, 0, [])
        case Ok(stepped) =>
          if build.status.phase != stepped.status.phase then
            var u := ManageStatusUpdate(s, faults, stepped);
            Outcome(RequeueAfterForBuildRunning, None, u.store, 1, u.events)
          else
            Outcome(RequeueAfterForBuildRunning, None, s, 0, [])
      else
        Outcome(0, None, s, 0, [])
  }
}
