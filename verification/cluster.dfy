/** The operator's build record (KogitoServerlessBuild), the workflow and
    platform records it is derived from, and the cluster store they live in,
    modelled as a map from namespaced key to record. The store's answers
    that do not follow from its contents (an unreachable API server, a
    scheme that cannot resolve a type) are explicit fault inputs. */
module Cluster {
  import opened Wrappers
  import opened Phases

  datatype Key = Key(namespace: string, name: string)

  datatype Workflow = Workflow(namespace: string, name: string, uid: string)

  /** The controlling owner of a record; the store garbage-collects the
      record when its owner is deleted. */
  datatype OwnerRef = OwnerRef(kind: string, name: string, uid: string)

  /** The build settings a platform hands to every new build, held opaquely. */
  datatype BuildTemplate = BuildTemplate(arguments: seq<string>, resources: map<string, string>, timeoutSeconds: Option<nat>)

  datatype Platform = Platform(namespace: string, name: string, buildTemplate: BuildTemplate)

  datatype BuildSpec = BuildSpec(buildTemplate: BuildTemplate)

  /** The phase and, held opaquely, the other status fields of a build. */
  datatype BuildStatus = BuildStatus(phase: Phase, details: map<string, string>)

  datatype Build = Build(namespace: string, name: string, controller: Option<OwnerRef>, spec: BuildSpec, status: BuildStatus)

  datatype ApiError = NotFound | AlreadyExists | AlreadyOwned | Unavailable(message: string)

  /** Failures the API server would answer with for each kind of call,
      whatever the store holds. */
  datatype Faults = Faults(get: Option<string>, setOwner: Option<string>, create: Option<string>, updateStatus: Option<string>)

  type Store = map<Key, Build>

  function KeyOf(b: Build): Key
  {
    Key(b.namespace, b.name)
  }

  /** Every record is stored under its own namespace and name, as the API
      server guarantees. */
  predicate WellKeyed(s: Store)
  {
    forall k :: k in s ==> KeyOf(s[k]) == k
  }

  function Get(s: Store, faults: Faults, k: Key): (r: Result<Build, ApiError>)
    ensures faults.get.Some? ==> r == Err(Unavailable(faults.get.value))
    ensures faults.get.None? ==> (r.Ok? <==> k in s)
    ensures faults.get.None? && r.Ok? ==> r.value == s[k]
    ensures faults.get.None? && r.Err? ==> r.error == NotFound
  {
    if faults.get.Some? then Err(Unavailable(faults.get.value))
    else if k in s then Ok(s[k])
    else Err(NotFound)
  }

  /** Adds a record under its own key; an occupied key is refused. */
  function Create(s: Store, faults: Faults, b: Build): (r: Result<Store, ApiError>)
    ensures r.Ok? <==> faults.create.None? && KeyOf(b) !in s
    ensures r.Ok? ==> r.value.Keys == s.Keys + {KeyOf(b)} && r.value[KeyOf(b)] == b
    ensures r.Ok? ==> forall k :: k in s ==> r.value[k] == s[k]
    ensures r.Ok? && WellKeyed(s) ==> WellKeyed(r.value)
    // a transport fault is reported as such; otherwise only an existing record refuses the create
    ensures faults.create.Some? ==> r == Err(Unavailable(faults.create.value))
    ensures faults.create.None? && KeyOf(b) in s ==> r == Err(AlreadyExists)
  {
    if faults.create.Some? then Err(Unavailable(faults.create.value))
    else if KeyOf(b) in s then Err(AlreadyExists)
    else Ok(s[KeyOf(b) := b])
  }

  /** Writes the status of `b` over the stored record with the same key;
      the stored metadata and spec are kept. */
  function UpdateStatus(s: Store, faults: Faults, b: Build): (r: Result<Store, ApiError>)
    ensures r.Ok? <==> faults.updateStatus.None? && KeyOf(b) in s
    ensures r.Err? && faults.updateStatus.None? ==> r.error == NotFound
    ensures r.Ok? ==> r.value.Keys == s.Keys
    ensures r.Ok? ==> r.value[KeyOf(b)].status == b.status
    ensures r.Ok? ==> r.value[KeyOf(b)].(status := s[KeyOf(b)].status) == s[KeyOf(b)]
    ensures r.Ok? ==> forall k :: k in s && k != KeyOf(b) ==> r.value[k] == s[k]
    ensures r.Ok? && WellKeyed(s) ==> WellKeyed(r.value)
    // a transport fault is reported as such
    ensures faults.updateStatus.Some? ==> r == Err(Unavailable(faults.updateStatus.value))
  {
    if faults.updateStatus.Some? then Err(Unavailable(faults.updateStatus.value))
    else if KeyOf(b) !in s then Err(NotFound)
    else Ok(s[KeyOf(b) := s[KeyOf(b)].(status := b.status)])
  }

  /** Makes the workflow the controlling owner of `b`; a record already
      controlled by another owner is refused. */
  function SetControllerReference(owner: Workflow, b: Build, fault: Option<string>): (r: Result<Build, ApiError>)
    ensures r.Ok? <==> fault.None? && (b.controller.None? || b.controller.value.uid == owner.uid)
    ensures r.Ok? ==> r.value == b.(controller := Some(OwnerRef("KogitoServerlessWorkflow", owner.name, owner.uid)))
    ensures fault.Some? ==> r == Err(Unavailable(fault.value))
    ensures fault.None? && r.Err? ==> r.error == AlreadyOwned
  {
    if fault.Some? then Err(Unavailable(fault.value))
    else if b.controller.Some? && b.controller.value.uid != owner.uid then Err(AlreadyOwned)
    else Ok(b.(controller := Some(OwnerRef("KogitoServerlessWorkflow", owner.name, owner.uid))))
  }
}
