/** The operator's build manager: get-or-create of the single build that
    belongs to a workflow, and the manual restart of a build. */
module BuildManager {
  import opened Wrappers
  import opened Phases
  import opened Cluster

  /** The answer of a call together with the store it leaves behind. */
  datatype Outcome<T> = Outcome(result: Result<T, ApiError>, store: Store)

  /** A workflow's build lives under the workflow's own namespace and name. */
  function BuildKey(w: Workflow): (k: Key)
    ensures k.namespace == w.namespace && k.name == w.name
  {
    Key(w.namespace, w.name)
  }

  /** The record created on a miss, before ownership is set: named after
      the workflow, the platform's build template, the empty phase. */
  function NewBuild(w: Workflow, template: BuildTemplate): Build
  {
    Build(w.namespace, w.name, None, BuildSpec(template), BuildStatus(PhaseNone, map[]))
  }

  /** Returns the workflow's build, creating it from the active platform's
      template when the store has none. `platform` is the active-platform
      lookup for the workflow's namespace. */
  function GetOrCreateBuild(s: Store, faults: Faults, w: Workflow, platform: Result<Platform, ApiError>): (o: Outcome<Build>)
    // a failed call leaves the store alone
    ensures o.result.Err? ==> o.store == s
    // a lookup failure other than not-found is passed on and nothing is created
    ensures faults.get.Some? ==> o == Outcome(Err(Unavailable(faults.get.value)), s)
    // hit: the stored build is returned and nothing is created
    ensures faults.get.None? && BuildKey(w) in s ==> o == Outcome(Ok(s[BuildKey(w)]), s)
    // miss without an active platform: the platform error is passed on
    ensures faults.get.None? && BuildKey(w) !in s && platform.Err? ==> o == Outcome(Err(platform.error), s)
    // miss with a platform: a new build owned by the workflow, carrying the template, is added under the key
    ensures faults.get.None? && BuildKey(w) !in s && platform.Ok? && o.result.Ok? ==>
      && o.result.value.spec.buildTemplate == platform.value.buildTemplate
      && o.result.value.controller == Some(OwnerRef("KogitoServerlessWorkflow", w.name, w.uid))
      && o.result.value.status == BuildStatus(PhaseNone, map[])
      && o.store == s[BuildKey(w) := o.result.value]
    // a miss with a platform fails only when setting the owner or the create call fails
    ensures faults.get.None? && BuildKey(w) !in s && platform.Ok? ==>
      (o.result.Ok? <==> faults.setOwner.None? && faults.create.None?)
    // the owner-reference and create errors are passed on unchanged, never disguised as not-found
    ensures faults.get.None? && BuildKey(w) !in s && platform.Ok? && faults.setOwner.Some? ==>
      o == Outcome(Err(Unavailable(faults.setOwner.value)), s)
    ensures faults.get.None? && BuildKey(w) !in s && platform.Ok? && faults.setOwner.None? && faults.create.Some? ==>
      o == Outcome(Err(Unavailable(faults.create.value)), s)
    // in a store that keeps every record under its own key, the returned build sits under the workflow's key
    ensures WellKeyed(s) ==> WellKeyed(o.store)
    ensures o.result.Ok? && WellKeyed(s) ==> KeyOf(o.result.value) == BuildKey(w) && BuildKey(w) in o.store && o.store[BuildKey(w)] == o.result.value
  {
    var key := BuildKey(w);
    match Get(s, faults, key)
    case Ok(found) => Outcome(Ok(found), s)
    case Err(e) =>
      if !e.NotFound? then Outcome(Err(e), s)
      else match platform
        case Err(pe) => Outcome(Err(pe), s)
        case Ok(plat) =>
          match SetControllerReference(w, NewBuild(w, plat.buildTemplate), faults.setOwner)
          case Err(oe) => Outcome(Err(oe), s)
          case Ok(owned) =>
            match Create(s, faults, owned)
            case Err(ce) => Outcome(Err(ce), s)
            case Ok(s') => Outcome(Ok(owned), s')
  }

  /** The store gains at most the workflow's key and no existing record is
      overwritten, so one call creates at most one build. */
  lemma GetOrCreateAddsAtMostOne(s: Store, faults: Faults, w: Workflow, platform: Result<Platform, ApiError>)
    ensures var o := GetOrCreateBuild(s, faults, w, platform);
      && o.store.Keys <= s.Keys + {BuildKey(w)}
      && (forall k :: k in s ==> k in o.store && o.store[k] == s[k])
      && |o.store| <= |s| + 1
  {
  }

  /** Two calls in a row for the same workflow return the same build, and
      the second finds it and creates nothing, whatever the platform and
      the other faults are at that time: there is one build per workflow. */
  lemma GetOrCreateIdempotent(s: Store, f1: Faults, f2: Faults, w: Workflow, p1: Result<Platform, ApiError>, p2: Result<Platform, ApiError>)
    requires GetOrCreateBuild(s, f1, w, p1).result.Ok?
    requires f2.get.None?
    ensures var o1 := GetOrCreateBuild(s, f1, w, p1);
      GetOrCreateBuild(o1.store, f2, w, p2) == o1
    ensures var o2 := GetOrCreateBuild(GetOrCreateBuild(s, f1, w, p1).store, f2, w, p2);
      |o2.store| <= |s| + 1
  {
    GetOrCreateAddsAtMostOne(s, f1, w, p1);
  }

  /** What a restart leaves: the caller's build (set to the empty phase even
      when the write fails), the write's error if any, and the store. */
  datatype Restart = Restart(build: Build, err: Option<ApiError>, store: Store)

  /** Sends the build back to the empty phase, from any phase, and writes
      its status. The failure bookkeeping in the other status fields is kept. */
  function MarkToRestart(s: Store, faults: Faults, b: Build): (r: Restart)
    ensures r.build.status.phase == PhaseNone
    ensures r.build.status.details == b.status.details
    ensures r.build.(status := b.status) == b
    ensures r.err.None? <==> faults.updateStatus.None? && KeyOf(b) in s
    ensures r.err.Some? ==> r.store == s
    // the write's error is passed on unchanged: a transport fault, or not-found for a build that is not stored
    ensures faults.updateStatus.Some? ==> r.err == Some(Unavailable(faults.updateStatus.value))
    ensures faults.updateStatus.None? && KeyOf(b) !in s ==> r.err == Some(NotFound)
    ensures r.err.None? ==>
      && r.store.Keys == s.Keys
      && r.store[KeyOf(b)] == s[KeyOf(b)].(status := BuildStatus(PhaseNone, b.status.details))
      && (forall k :: k in s && k != KeyOf(b) ==> r.store[k] == s[k])
  {
    var restarted := b.(status := b.status.(phase := PhaseNone));
    match UpdateStatus(s, faults, restarted)
    case Ok(s') => Restart(restarted, None, s')
    case Err(e) => Restart(restarted, Some(e), s)
  }

  /** Restarting twice is the same as restarting once. */
  lemma MarkToRestartIdempotent(s: Store, faults: Faults, b: Build)
    ensures var r1 := MarkToRestart(s, faults, b);
      var r2 := MarkToRestart(r1.store, faults, r1.build);
      r2.build == r1.build && (r1.err.None? ==> r2 == r1)
  {
  }
}
