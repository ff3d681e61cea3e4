# WebPage reconciler, modelled in Dafny

This project models the WebPage operator's reconciler: one pass of a
Kubernetes-style convergence loop. For the WebPage named by the request key,
the pass does three things in order:

1. It fetches the WebPage. A missing WebPage ends the pass cleanly. Any other
   lookup error is handed back to the runtime.
2. It ensures the WebPage's two children, first a Deployment
   (`<name>-webpage`) and then a Service (`<name>-service`). Each child's
   shape is computed purely from the WebPage. An absent child is created, and
   the pass then ends right there.
3. In `handleChanges` it fetches the Deployment again and compares that
   Deployment's first container's first environment variable with the
   WebPage's title. If they differ, it updates that one value and asks for an
   immediate requeue.

Files:

- `objects.dfy` (module `Objects`): the API objects the controller touches,
  cut down to the fields it reads or writes. These are object identity, the
  controller owner reference (kept opaque: it names the owner's identity),
  replicas, labels, containers with their ports and env lists, and the
  Service ports and type.
- `store.dfy` (module `Store`): the resource store behind the client, as a
  class `ApiServer` whose three map fields (WebPages, Deployments, Services)
  are read by `Get` and written in place by `Create` and `Update`. A ghost
  journal records every write request the server receives, whether it
  succeeds or not. The API server's own failures are not decided by the
  controller, so every call takes a `Fault`. A fault is the error the server
  answers that call with, or `None` when the server serves the call. Any
  error can be injected, NotFound included (a stale read), so every branch
  of the source is reachable.
- `webpage_controller.dfy` (module `Controller`) has three parts:
  - the pure builders `Labels`, `DefineDeployment` and `DefineService`;
  - a pure model of each step of a pass over a store snapshot (`Ensure`,
    `HandleChangesSpec`) and of the whole pass (`ReconcileSpec`);
  - the class `WebPageReconciler`, whose methods issue the calls on an
    `ApiServer` one by one with the source's early returns. Each method is
    proved to return, store and journal exactly what the pure model says.
- `properties.dfy` (module `Properties`): lemmas about single passes and
  runs of passes. They cover the owner lookup, step order, drift correction,
  the refetch failure, idempotence, convergence within three passes, and the
  behaviour when the title is empty.

The result of a step is modelled as follows.

- `Continue` is the nil `*ctrl.Result`: go on with the next step.
- `Stop(o)` ends the pass with `o`, where `o` is one of:
  - `Returned(CtrlResult(requeue, requeueAfter), err)`, with `requeueAfter`
    counted in whole seconds;
  - `Panicked`, for the unchecked `Containers[0].Env[0]` read in
    `handleChanges`.

The builders' constants are those of the source: port 3000, NodePort 30686,
one replica, the label `webpage_cr`, the environment variable
`REACT_APP_TITLE`, and the 5-second retry after a failed refetch.

Quirks of the code, modelled as written rather than corrected:

- A pass that creates a child returns `ctrl.Result{}` with no error and stops.
  A second pass is needed for the Service, and a third for a write-free
  pass. So a pass is idempotent only once the cluster has converged
  (`ConvergedIsStable`, `Convergence`). It is not idempotent after an
  arbitrary first pass.
- An existing Service is never compared with the Service the WebPage asks
  for. For the Deployment, only the first env var of the first container is
  checked.
- With an empty title, `DefineDeployment` builds a container with no env
  vars, and `handleChanges` then indexes `Env[0]` unchecked. Once both
  children exist and the Deployment is that env-less one, every pass panics
  (`EmptyTitlePanics`, `EmptyTitleNeverSettles`). A title cleared after the
  Deployment was created with one does not panic: the pass sets the existing
  variable to `REACT_APP_TITLE=""` and the cluster converges
  (`ClearedTitleIsCorrected`, `Convergence`). The Deployment then keeps an env
  var that `DefineDeployment` would no longer give it, and the controller
  never notices the difference.
- Errors are not surfaced in the WebPage's status. The code never writes
  status.

## Model

| member | source | states |
|---|---|---|
| `Controller.Labels` | Lab02/webpage_controller.go:207-211 | the label map has the single key `webpage_cr`, mapped to the WebPage's name |
| `Controller.DefineDeployment` | Lab02/webpage_controller.go:105-143 | the Deployment is in the WebPage's namespace and named `<name>-webpage`, which is the key `handleChanges` looks up; it is owned by the WebPage and has 1 replica; selector and pod labels are both `Labels(w)`; there is one container `visitors-webui` with image `jdob/visitors-webui:1.0.0` and port 3000; its env has exactly one `REACT_APP_TITLE=<title>` entry when the title is non-empty, and is empty otherwise |
| `Controller.DefineService` | Lab02/webpage_controller.go:164-185 | the Service is in the WebPage's namespace and named `<name>-service`; it is owned by the WebPage; its selector is `Labels(w)`; it has one TCP port 3000 to target 3000 with NodePort 30686; its type is NodePort |
| `Controller.Ensure` | Lab02/webpage_controller.go:145-162 | the step continues exactly when the child was found, and then nothing changes; a Create is issued exactly when the lookup answered NotFound; every stop carries `ctrl.Result{}`, with the Create's error after a Create and with the lookup error otherwise; the only possible change is storing the defined child under an absent key; a step that reports no error leaves the child present |
| `Controller.EnsureDeploymentSpec` | Lab02/webpage_controller.go:145-162 | ensuring the Deployment touches neither WebPages nor Services; its writes are none or the one Create of the defined Deployment; with no write the store is unchanged; it keeps every object stored under its own key |
| `Controller.EnsureServiceSpec` | Lab02/webpage_controller.go:187-205 | the same for the Service: no Deployment or WebPage changes; the writes are none or the one Create of the defined Service; no compare or update of an existing Service |
| `Controller.WithTitle` | Lab02/webpage_controller.go:227 | the Deployment afterwards has the title in its first container's first env var; metadata, replicas, selector, pod labels, the other containers, the first container's name, image and ports, the env var's name and the other env vars are all unchanged |
| `Controller.HandleChangesSpec` | Lab02/webpage_controller.go:213-236 | `handleChanges` touches neither WebPages nor Services and issues at most one write; with no write the store is unchanged; it continues exactly when the refetch found a Deployment with a title slot holding the WebPage's title |
| `Controller.ReconcileSpec` | Lab02/webpage_controller.go:60-94 | a pass never changes WebPages; it issues at most one write, so a pass that creates the Deployment never creates the Service; with no write nothing changes; objects stay stored under their own keys; a delayed requeue comes only as the 5-second retry with an error; an immediate requeue comes only with no error, after exactly one Update |
| `Controller.WebPageReconciler.Reconcile` | Lab02/webpage_controller.go:60-94 | the imperative pass with its early returns: its outcome, the store afterwards and the writes appended to the journal are those of `ReconcileSpec` |
| `Controller.WebPageReconciler.EnsureDeployment` | Lab02/webpage_controller.go:145-162 | the Get and the conditional Create on the store: step, new store and journal as `EnsureDeploymentSpec` says |
| `Controller.WebPageReconciler.EnsureService` | Lab02/webpage_controller.go:187-205 | the Get and the conditional Create on the store: step, new store and journal as `EnsureServiceSpec` says |
| `Controller.WebPageReconciler.HandleChanges` | Lab02/webpage_controller.go:213-236 | the refetch, the in-place title change and the Update: step, new store and journal as `HandleChangesSpec` says |
| `Store.ApiServer.GetWebPage` | Lab02/webpage_controller.go:66 | a lookup answers the injected error if there is one; otherwise it finds the WebPage exactly when it is stored, and answers NotFound when it is not |
| `Store.ApiServer.GetDeployment` | Lab02/webpage_controller.go:147-150 | the same lookup, for the Deployment map |
| `Store.ApiServer.GetService` | Lab02/webpage_controller.go:189-192 | the same lookup, for the Service map |
| `Store.ApiServer.CreateDeployment` | Lab02/webpage_controller.go:153 | a Create stores the Deployment under its own key unless a fault is injected or the key is taken (AlreadyExists); nothing else changes; the request is journaled |
| `Store.ApiServer.CreateService` | Lab02/webpage_controller.go:195 | the same for the Service |
| `Store.ApiServer.UpdateDeployment` | Lab02/webpage_controller.go:228 | an Update replaces the stored Deployment unless a fault is injected or the key is absent (NotFound); nothing else changes; the request is journaled |
| `Properties.OwnerLookupFailure` | Lab02/webpage_controller.go:64-72 | a failed WebPage lookup ends the pass with no write and no change; the result is `ctrl.Result{}` with a nil error for NotFound, and with the error itself otherwise |
| `Properties.MissingOwnerIsTerminal` | Lab02/webpage_controller.go:66-69 | a deleted WebPage gives a terminal pass: no requeue, no error, no write |
| `Properties.StepOrder` | Lab02/webpage_controller.go:74-91 | a Deployment Create happens only in a pass that did not reach the Service; a Service Create happens only after the Deployment lookup found it, and before `handleChanges`; an Update, a panic or any non-empty result happens only after both lookups found their child |
| `Properties.DriftCorrection` | Lab02/webpage_controller.go:223-233 | when the Deployment's title slot differs from the WebPage's title, the pass issues exactly one Update, of the fetched Deployment with only that slot changed; on success it returns `Requeue: true` with no error and stores the updated Deployment; on failure it returns `ctrl.Result{}` with the error and changes nothing |
| `Properties.TitlesAgree` | Lab02/webpage_controller.go:226-235 | when the titles agree, `handleChanges` continues and the pass returns `ctrl.Result{}` with no error and no write |
| `Properties.RefetchFailure` | Lab02/webpage_controller.go:214-221 | a failed refetch returns `RequeueAfter` 5 seconds with the error, and writes nothing |
| `Properties.MissingTitleSlotPanics` | Lab02/webpage_controller.go:224 | a Deployment without a first container or first env var makes the pass panic, with no write |
| `Properties.ConvergedIsStable` | Lab02/webpage_controller.go:74-93 | idempotence: when both children exist and the title slot matches, a fault-free pass writes nothing, changes nothing and requests nothing, whatever the rest of either child holds |
| `Properties.PassProgress` | Lab02/webpage_controller.go:60-94 | from a ready cluster (as for `Convergence`, a cleared title included) a fault-free pass does one of two things. If the cluster has converged, it does nothing. Otherwise it makes one successful write that lowers the remaining work by one, and the cluster stays ready |
| `Properties.Passes` | Lab02/webpage_controller.go:60-94 | helper: defines the run of n fault-free passes for one key, as the runtime repeats them, that `Convergence`, `ConvergenceOutcomes`, `PanicsForever` and `EmptyTitleNeverSettles` reason about; its own contract only says one outcome is recorded per pass |
| `Properties.Convergence` | Lab02/webpage_controller.go:60-94 | from a ready cluster (the WebPage exists; an existing Deployment has the title slot, whatever the title is, cleared or not; with no Deployment yet the title is non-empty), any number of fault-free passes write one object per pass until the cluster has converged and nothing after, at most two writes in all; after two passes the cluster has converged and stays ready |
| `Properties.ConvergenceOutcomes` | Lab02/webpage_controller.go:60-94 | in such a run no pass reports an error, and every pass from the first one that finds the cluster converged returns `ctrl.Result{}` |
| `Properties.ClearedTitleIsCorrected` | Lab02/webpage_controller.go:213-236 | with an empty title, both children present and a Deployment whose title slot still holds a non-empty value, a fault-free pass makes exactly one Update setting that slot to the empty string, asks for a requeue, keeps the variable's name, and the next pass finds the cluster converged and changes nothing |
| `Properties.EmptyTitlePanics` | Lab02/webpage_controller.go:224 | with an empty title, both children present and a Deployment without the title slot, every fault-free pass panics and changes nothing |
| `Properties.PanicsForever` | Lab02/webpage_controller.go:224 | once a pass panics without changing anything, every later fault-free pass panics and nothing is written |
| `Properties.EmptyTitleFirstPasses` | Lab02/webpage_controller.go:74-91 | with an empty title and no children, the first fault-free pass creates exactly the defined Deployment, the second exactly the defined Service, and the third panics without changing anything |
| `Properties.EmptyTitleNeverSettles` | Lab02/webpage_controller.go:105-113 | with an empty title and no children, fault-free passes create the Deployment, then the Service, and every pass from the third on panics |

## Left out

- `SetupWithManager` (Lab02/webpage_controller.go:97-103): it only registers the controller with the manager. Logging (61-62, 79, 86) is left out too.
- `SetControllerReference` (141, 182) is modelled as setting the owner field to the WebPage's namespace/name. Its API version, kind, UID and block-owner-deletion flag are not modelled. Neither is the error the source discards.
- Lab02/main.go: kubeconfig loading, the informer, the event handlers and `processNextItem` are client-go plumbing. The work queue's deduplication and rate-limited backoff live in that library, not in this repository.
- Final_project's KafkaProducer, DemoApplication and DirectoryWatcher, and Lab00's proxy.py: file, timer, Kafka and HTTP I/O outside the reconciler.
- What the runtime does with a returned result: an error overriding the result, backoff, and recovery from a panic. Concurrency between workers and real durations are also out: `RequeueAfter` is a whole number of seconds.
- Resource versions and optimistic-concurrency conflicts: an Update of a stored Deployment succeeds unless a fault is injected. A Conflict can still be injected as a `Failed` error.
- Object fields the controller never reads or writes: WebPage status, other metadata, and the rest of the pod and Service specs. Replicas and ports are unbounded integers. The source's int32 values are small constants, so no wrap-around arises.
- `Store.ApiServer` models the server's semantics only as far as the controller needs them: a Create under a taken key answers AlreadyExists, and an Update of an absent key answers NotFound.
