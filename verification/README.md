# Build retry and reconciliation, modelled in Dafny

This project models the retry and reconciliation logic of the serverless-workflow
operator's build subsystem:

- the container builder's **error-recovery action**: a state machine over a
  `ContainerBuild` in phase `Failed`. The first tick records the failure. Later ticks
  retry the build (back to `Initialization`) once an exponential backoff has elapsed.
  When the retry budget is used up, the build is frozen into `Error`;
- the **Action** interface that action implements (name, applicability predicate,
  handler, client/logger injection);
- the operator's **build controller** tick (`Reconcile` with `manageStatusUpdate`),
  which dispatches on the `KogitoServerlessBuild` phase;
- the operator's **build manager**: `GetOrCreateBuild`, one build per workflow, and
  `MarkToRestart`.

Everything is functional. Records are immutable datatypes. The clock is a `now`
parameter in whole seconds. The cluster store is a `map<Key, Build>`, and the API
server's failures are explicit fault inputs (`Cluster.Faults`).

Modules, one per file:

| file | module | models |
|---|---|---|
| wrappers.dfy | `Wrappers` | `Option`, `Result` |
| phases.dfy | `Phases` | the build phase enumeration |
| backoff.dfy | `Backoff` | the backoff policy, `min(60, 5·2^attempt)` seconds by default |
| container_build.dfy | `ContainerBuilds` | the container-builder build record and handler results |
| recovery.dfy | `ErrorRecovery` | the error-recovery action |
| recovery_runs.dfy | `RecoveryRuns` | runs of ticks against a build that keeps failing; the retry budget |
| action.dfy | `Actions` | the Action interface as a closed datatype, and setter injection |
| cluster.dfy | `Cluster` | operator build, workflow and platform records; the map store |
| build_manager.dfy | `BuildManager` | `GetOrCreateBuild`, `MarkToRestart` |
| build_controller.dfy | `BuildController` | one reconcile tick and its status write |

Behaviour of the operator that is easy to misread:

- `MarkToRestart` resets only the phase. The other status fields, including any
  failure bookkeeping, are kept. In-memory, the caller's build is set to the empty
  phase even when the status write fails, because the build manager's Go code
  mutates the build before writing it.
- The controller writes the status after a reconcile step only when the **phase**
  changed. A step that changes other status fields but not the phase is not persisted
  by the controller, because the controller compares phases only.
- The controller ignores the error of its own status write. A tick whose write fails
  still returns its requeue delay and no error. It records no event.
- The controller treats `Failed` like `Succeeded` and `Error`: it leaves the build
  alone.

## Model

| member | source | states |
|---|---|---|
| Backoff.Wait | container-builder/builder/kubernetes/recovery.go:33-40 | the wait never exceeds the policy maximum, nor the uncapped exponential `min·factor^attempt` |
| Backoff.DefaultSchedule | container-builder/builder/kubernetes/recovery.go:33-40 | with min 5 s, max 60 s and factor 2, attempts 0 to 4 wait 5, 10, 20, 40 and 60 seconds |
| Backoff.DefaultCapped | container-builder/builder/kubernetes/recovery.go:33-40 | every attempt from 4 on waits exactly 60 seconds under the default policy |
| Backoff.WaitMonotone | container-builder/builder/kubernetes/recovery.go:33-40 | with factor at least 1, a later attempt never waits less than an earlier one |
| Backoff.WaitBounds | container-builder/builder/kubernetes/recovery.go:33-40 | with factor at least 1, every wait lies between the smaller of min and max, and max |
| ErrorRecovery.Handle | container-builder/builder/kubernetes/recovery.go:56-96 | never an error. No record: the record gets reason = status error, time = now, attempt 0, max 5, and the phase is kept. Attempt ≥ max: phase Error and nothing else changes, at any time. Otherwise: "not yet" (no build) exactly when now minus the reference time is below the backoff. The reference time is the last attempt time if set, else the first-observed time. Else the build goes to Initialization with attempt + 1 and attempt time now, and nothing else changes |
| ErrorRecovery.HandleKeepsAttemptBound | container-builder/builder/kubernetes/recovery.go:69-88 | attempt ≤ max is preserved by every handled tick, and the counter never decreases |
| ErrorRecovery.HandlePhaseEdges | container-builder/builder/kubernetes/recovery.go:57-95 | from Failed the action yields only Failed, Error or Initialization. Initialization occurs only when attempt < max |
| ErrorRecovery.RetryStaysDue | container-builder/builder/kubernetes/recovery.go:74-84 | waiting is monotone in time: a tick that acts at t1 still acts at any later t2. The two results differ at most in the attempt time stamped on the failure record |
| ErrorRecovery.FailureRecordedOnce | container-builder/builder/kubernetes/recovery.go:57-67 | after the first tick records the failure, the next tick never re-records it: reason and first-observed time survive |
| ErrorRecovery.ScenarioFirstObservation | container-builder/builder/kubernetes/recovery.go:57-67 | first observation at t0 gives record {attempt 0, max 5, time t0} and the build stays Failed |
| ErrorRecovery.ScenarioFirstRetry | container-builder/builder/kubernetes/recovery.go:74-88 | with attempt 0 recorded at t0: a tick at t0+4 must wait; a tick at t0+6 retries with attempt 1 stamped t0+6 |
| RecoveryRuns.TickSpendsBudget | container-builder/builder/kubernetes/recovery.go:69-88 | one tick keeps attempt ≤ max and keeps a failing build in Failed or Error. A granted retry spends one unit of the remaining budget |
| RecoveryRuns.RetriesWithinBudget | container-builder/builder/kubernetes/recovery.go:57-88 | for any timing of ticks on a build that keeps failing, the retries granted never exceed the remaining budget (5 for a fresh failure), and attempt ≤ max holds at the end. This holds provided the step that fails a retried build again keeps the failure record (see "Left out") |
| RecoveryRuns.ErrorIsFinal | container-builder/builder/kubernetes/recovery.go:52-54 | a build in Error is never touched again by the action |
| RecoveryRuns.ScenarioExhaustion | container-builder/builder/kubernetes/recovery.go:33-88 | a failure first seen at t0, with ticks at t0+5, +15, +35, +75 and +135, is retried exactly 5 times. The next tick, at any time, freezes it into Error with attempt 5 |
| Actions.NewErrorRecoveryAction | container-builder/builder/kubernetes/recovery.go:31-50 | a new error-recovery action has no client or logger, the policy (5 s, 60 s, ×2), and the name "error-recovery" |
| Actions.Name | container-builder/builder/kubernetes/recovery.go:48-50 | the error-recovery action's user-facing name is "error-recovery" |
| Actions.CanHandle | container-builder/builder/kubernetes/recovery.go:52-54 | applicability, the interface's `CanHandle`, is a pure predicate of the build. For the error-recovery action it holds exactly when the phase is Failed |
| Actions.Handle | container-builder/builder/kubernetes/recovery.go:56-96 | the interface's handler, dispatched to the error-recovery action. It never reports an error, and a build it hands back keeps its namespace and name. A build with no failure record comes back with its phase kept. A build sent to Initialization from another phase had retries left |
| Actions.InjectClient | container-builder/builder/kubernetes/action.go:45-47 | sets the client and leaves the logger and every other part of the action unchanged |
| Actions.InjectLogger | container-builder/builder/kubernetes/action.go:49-51 | sets the logger and leaves the client and every other part of the action unchanged |
| Actions.InjectionsIndependent | container-builder/builder/kubernetes/action.go:45-51 | the two injections commute, and each is idempotent |
| Actions.InjectionKeepsBehaviour | container-builder/builder/kubernetes/action.go:25-51 | after injection, the action's name, applicability and handler result are unchanged |
| BuildManager.BuildKey | controllers/builder/kogitoserverlessbuild_manager.go:42-46 | a workflow's build key is the workflow's namespace and name |
| BuildManager.GetOrCreateBuild | controllers/builder/kogitoserverlessbuild_manager.go:41-65 | hit: the stored build is returned and the store is unchanged. A lookup error other than not-found is returned unchanged and nothing is created. A miss with no active platform returns the platform error and changes nothing. A miss with a platform adds a build under the key: it carries the platform's template, is controlled by the workflow, and has an empty status. It fails only if setting the owner or the create fails, and then returns that call's error unchanged, never not-found. Every error leaves the store unchanged |
| BuildManager.GetOrCreateAddsAtMostOne | controllers/builder/kogitoserverlessbuild_manager.go:41-65 | a call adds at most the workflow's key and overwrites no existing record, so the store grows by at most one |
| BuildManager.GetOrCreateIdempotent | controllers/builder/kogitoserverlessbuild_manager.go:69-70 | after a successful call, a second call for the same workflow returns the same build and changes nothing, provided the second lookup reaches the store (no lookup fault). This holds whatever the platform then is: one build per workflow |
| BuildManager.MarkToRestart | controllers/builder/kogitoserverlessbuild_manager.go:36-39 | from any phase, the build gets the empty phase and the other status fields are kept. The write succeeds exactly when there is no fault and the build is stored. Otherwise its error is returned unchanged: the transport fault, or not-found for a build that is not stored. Only that record's status changes. A failed write changes nothing |
| BuildManager.MarkToRestartIdempotent | controllers/builder/kogitoserverlessbuild_manager.go:36-39 | restarting a restarted build gives the same build, and after a successful write, the same store |
| BuildController.ManageStatusUpdate | controllers/kogitoserverlessbuild_controller.go:108-113 | one "Updated" event with the build's phase is recorded exactly when the status write succeeds. The store is then exactly the one the status write produced: the written status is stored and every other record is kept. A failed write records nothing and changes nothing |
| BuildController.Decide | controllers/kogitoserverlessbuild_controller.go:87-105 | the empty phase is scheduled. Succeeded, Error and Failed are left alone. Every other phase gets one step |
| BuildController.Reconcile | controllers/kogitoserverlessbuild_controller.go:64-106 | not-found: empty result, no error. Another lookup or manager error is returned unchanged. Finished phases: nothing. Empty phase: a schedule error is returned with no write; otherwise one write and a requeue after 10 s. Other phases: a step error is returned with no write; otherwise a requeue after 30 s, with one write exactly when the phase changed. At most one write per tick. An event is recorded only after a write the store accepted |

## Left out

- I/O and collaborators: the Kubernetes client is replaced by the map store with fault inputs. Other replacements:
  - `metav1.Now` becomes the `now` parameter;
  - the active-platform lookup becomes a `Result` input;
  - constructing the build manager becomes an optional error.
- Schedule and Reconcile steps: the build manager's Schedule and Reconcile (the action pipeline and its first-match rule, and the execution backends) are not part of this model. The controller takes their results as function inputs, and the store writes those steps may make themselves are not modelled.
- Logging: the recovery attempt log line and the controller's error logs are left out.
- Event message text: the event is modelled by type, reason and phase. The message text `Updated buildphase to  <phase>` depends on the phase's string values in the API package, which is not part of this model.
- `SetupWithManager` and `NewKogitoServerlessBuildManager`: controller-runtime wiring and a plain constructor.
- Backoff.Wait: the backoff library computes in floating point and has fallbacks for non-positive settings. The model states the integer formula `min(max, min·factor^attempt)` for the configured whole-second policy, without jitter.
- ErrorRecovery.Handle: the model does not cover these:
  - elapsed time and timestamps are whole seconds, because sub-second clock readings are not modelled;
  - `Attempt` and `AttemptMax` are natural numbers, because negative counts only arise from hand-edited records;
  - a stored failure record always has a first-observed time, because only this action writes one.
- Cluster.SetControllerReference: refuses only a record already controlled by another owner, or an injected scheme fault. Cross-namespace and cluster-scoped owner checks are not modelled, because the build always shares the workflow's namespace.
- RecoveryRuns.RetriesWithinBudget: the bound assumes that the pipeline step which fails a retried build again sets only the phase back to Failed and keeps the failure record. That step belongs to the action pipeline, which is not part of this model. A step that cleared the record would restart the budget at 5, and the bound would not hold.
- Optimistic concurrency: resource versions and update conflicts are left out. The model runs one tick per build at a time, as the controller runtime guarantees.
