/** The coarse lifecycle state of a build, shared by the container-builder
    record (ContainerBuild) and the operator record (KogitoServerlessBuild). */
module Phases {

  /** `PhaseNone` is the empty phase of a freshly created record. */
  datatype Phase =
    | PhaseNone
    | Initialization
    | Scheduling
    | Pending
    | Running
    | Succeeded
    | Failed
    | Error
}
