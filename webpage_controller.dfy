/**
 The WebPage reconciler: one pass of the convergence loop that drives a
 WebPage's Deployment and Service towards the shape its spec asks for.

 The pass fetches the WebPage, ensures the Deployment and then the Service
 exist (creating whichever is absent), and finally copies the WebPage's title
 into the Deployment's first environment variable when the two differ.

 The builders (`Labels`, `DefineDeployment`, `DefineService`) are functions.
 Each step of the pass is given twice: as a function over a `Cluster` snapshot
 (`Ensure`, `HandleChangesSpec`, `ReconcileSpec`), which the lemmas reason
 about, and as a method of `WebPageReconciler` that performs the calls on an
 `ApiServer` in place and is proved to do what the function says.
 */
module Controller {

  import opened Wrappers
  import opened Objects
  import opened Store

  const LabelKey := "webpage_cr"
  const TitleEnvName := "REACT_APP_TITLE"
  const ContainerName := "visitors-webui"
  const ContainerImage := "jdob/visitors-webui:1.0.0"
  const WebUiPort := 3000
  const ServiceNodePort := 30686
  const RefetchRetrySeconds := 5

  /** The owner reference the controller sets on its children: the WebPage's identity. */
  function Identity(w: WebPage): NamespacedName
  {
    KeyOf(w.meta)
  }

  /** The labels that tie the pods and the Service to one WebPage. */
  function Labels(w: WebPage): (r: LabelMap)
    ensures r.Keys == {LabelKey}
    ensures r[LabelKey] == w.meta.name
  {
    map[LabelKey := w.meta.name]
  }

  /** Where `handleChanges` looks the Deployment up. */
  function DeploymentKey(w: WebPage): NamespacedName
  {
    NamespacedName(w.meta.namespace, w.meta.name + "-webpage")
  }

  function ServiceKey(w: WebPage): NamespacedName
  {
    NamespacedName(w.meta.namespace, w.meta.name + "-service")
  }

  /** The Deployment a WebPage asks for. */
  function DefineDeployment(w: WebPage): (d: Deployment)
    ensures d.meta.namespace == w.meta.namespace && d.meta.name == w.meta.name + "-webpage"
    ensures KeyOf(d.meta) == DeploymentKey(w)
    ensures d.meta.owner == Some(Identity(w))
    ensures d.spec.replicas == 1
    ensures d.spec.selector == Labels(w) && d.spec.template.labels == Labels(w)
    ensures |d.spec.template.containers| == 1
    ensures d.spec.template.containers[0].name == ContainerName
    ensures d.spec.template.containers[0].image == ContainerImage
    ensures d.spec.template.containers[0].ports == [ContainerPort(WebUiPort)]
    ensures var env := d.spec.template.containers[0].env;
      && |env| <= 1
      && (|env| == 1 <==> w.spec.title != "")
      && (forall e :: e in env ==> e == EnvVar(TitleEnvName, w.spec.title))
  {
    var env := if w.spec.title != "" then [EnvVar(TitleEnvName, w.spec.title)] else [];
    var container := Container(ContainerName, ContainerImage, [ContainerPort(WebUiPort)], env);
    Deployment(
      ObjectMeta(w.meta.namespace, w.meta.name + "-webpage", Some(Identity(w))),
      DeploymentSpec(1, Labels(w), PodTemplate(Labels(w), [container])))
  }

  /** The Service a WebPage asks for. */
  function DefineService(w: WebPage): (s: Service)
    ensures s.meta.namespace == w.meta.namespace && s.meta.name == w.meta.name + "-service"
    ensures KeyOf(s.meta) == ServiceKey(w)
    ensures s.meta.owner == Some(Identity(w))
    ensures s.spec.selector == Labels(w)
    ensures s.spec.ports == [ServicePort(TCP, WebUiPort, WebUiPort, ServiceNodePort)]
    ensures s.spec.serviceType == NodePort
  {
    Service(
      ObjectMeta(w.meta.namespace, w.meta.name + "-service", Some(Identity(w))),
      ServiceSpec(Labels(w), [ServicePort(TCP, 3000, 3000, 30686)], NodePort))
  }

  /** ctrl.Result: whether, and after how many seconds, the runtime runs another pass. */
  datatype CtrlResult = CtrlResult(requeue: bool, requeueAfter: nat)

  /** ctrl.Result{}: no requeue requested. */
  const Empty := CtrlResult(false, 0)

  /** How a pass (or a step of it) ends: a result with an optional error, or a runtime
      panic from indexing past the end of a slice. */
  datatype Outcome = Returned(result: CtrlResult, err: Option<ApiError>) | Panicked

  /** What a step of the pass hands back to `Reconcile`: a nil result (go on with the
      next step) or a result that ends the pass. */
  datatype Step = Continue | Stop(outcome: Outcome)

  /** A step applied to a snapshot: how it ended, the snapshot after it, the writes it issued. */
  datatype StepResult = StepResult(step: Step, after: Cluster, writes: seq<Write>)

  /** The result of `Ensure` on one kind of child. */
  datatype Ensured<T> = Ensured(step: Step, store: map<NamespacedName, T>, created: bool)

  /** ensureDeployment and ensureService, on the map of one kind of child: look the
      child up, create it when the lookup says it is not found, and stop the pass
      unless it was found. */
  function Ensure<T>(m: map<NamespacedName, T>, key: NamespacedName, obj: T, getFault: Fault, createFault: Fault): (r: Ensured<T>)
    // continue exactly when the child was found, and then touch nothing
    ensures r.step.Continue? <==> getFault.None? && key in m
    ensures r.step.Continue? ==> r.store == m && !r.created
    // a create is issued exactly when the lookup answered NotFound
    ensures r.created <==> Get(m, key, getFault) == Error(NotFound)
    ensures r.step.Stop? ==> r.step.outcome.Returned? && r.step.outcome.result == Empty
    ensures r.created ==> r.step.Stop? && r.step.outcome.err == CreateError(m, key, createFault)
    ensures r.step.Stop? && !r.created ==> r.step.outcome.err == getFault && r.store == m
    // the only change a step can make is storing the defined object under an absent key
    ensures r.store != m ==> r.created && key !in m && r.store == m[key := obj]
    // when the step reports no error the child exists afterwards
    ensures r.step.Continue? || r.step.outcome.err.None? ==> key in r.store
  {
    match Get(m, key, getFault)
    case Found(_) => Ensured(Continue, m, false)
    case Error(NotFound) =>
      var err := CreateError(m, key, createFault);
      Ensured(Stop(Returned(Empty, err)), Applied(m, key, obj, err), true)
    case Error(e) => Ensured(Stop(Returned(Empty, Some(e))), m, false)
  }

  function EnsureDeploymentSpec(c: Cluster, dep: Deployment, getFault: Fault, createFault: Fault): (r: StepResult)
    ensures r.after.webPages == c.webPages && r.after.services == c.services
    ensures r.writes == [] || r.writes == [CreateDep(dep)]
    ensures r.writes == [] ==> r.after == c
    ensures r.step.Continue? ==> r.writes == []
    ensures WellFormed(c) ==> WellFormed(r.after)
  {
    var e := Ensure(c.deployments, KeyOf(dep.meta), dep, getFault, createFault);
    StepResult(e.step, c.(deployments := e.store), if e.created then [CreateDep(dep)] else [])
  }

  function EnsureServiceSpec(c: Cluster, svc: Service, getFault: Fault, createFault: Fault): (r: StepResult)
    ensures r.after.webPages == c.webPages && r.after.deployments == c.deployments
    ensures r.writes == [] || r.writes == [CreateSvc(svc)]
    ensures r.writes == [] ==> r.after == c
    ensures r.step.Continue? ==> r.writes == []
    ensures WellFormed(c) ==> WellFormed(r.after)
  {
    var e := Ensure(c.services, KeyOf(svc.meta), svc, getFault, createFault);
    StepResult(e.step, c.(services := e.store), if e.created then [CreateSvc(svc)] else [])
  }

  /** The Deployment has a first container with a first environment variable:
      the slot `handleChanges` reads and writes without checking. */
  predicate HasTitleSlot(d: Deployment)
  {
    |d.spec.template.containers| > 0 && |d.spec.template.containers[0].env| > 0
  }

  function TitleOf(d: Deployment): string
    requires HasTitleSlot(d)
  {
    d.spec.template.containers[0].env[0].value
  }

  /** The Deployment with its title slot set to `title`; every other field as it was. */
  function WithTitle(d: Deployment, title: string): (r: Deployment)
    requires HasTitleSlot(d)
    ensures HasTitleSlot(r) && TitleOf(r) == title
    ensures r.meta == d.meta
    ensures r.spec.replicas == d.spec.replicas && r.spec.selector == d.spec.selector
    ensures r.spec.template.labels == d.spec.template.labels
    ensures var cs, cs' := d.spec.template.containers, r.spec.template.containers;
      && |cs'| == |cs|
      && (forall i :: 0 < i < |cs| ==> cs'[i] == cs[i])
      && cs'[0].name == cs[0].name && cs'[0].image == cs[0].image && cs'[0].ports == cs[0].ports
      && |cs'[0].env| == |cs[0].env|
      && cs'[0].env[0].name == cs[0].env[0].name
      && (forall j :: 0 < j < |cs[0].env| ==> cs'[0].env[j] == cs[0].env[j])
  {
    var containers := d.spec.template.containers;
    var first := containers[0];
    var first' := first.(env := first.env[0 := first.env[0].(value := title)]);
    d.(spec := d.spec.(template := d.spec.template.(containers := containers[0 := first'])))
  }

  /** handleChanges: fetch the Deployment again and, if its title slot disagrees with the
      WebPage's title, update that slot and ask for an immediate requeue. */
  function HandleChangesSpec(c: Cluster, w: WebPage, getFault: Fault, updateFault: Fault): (r: StepResult)
    ensures r.after.webPages == c.webPages && r.after.services == c.services
    ensures |r.writes| <= 1
    ensures r.writes == [] ==> r.after == c
    ensures r.step.Continue? ==> r.writes == []
    ensures r.step.Continue? <==>
      && Get(c.deployments, DeploymentKey(w), getFault).Found?
      && HasTitleSlot(c.deployments[DeploymentKey(w)])
      && TitleOf(c.deployments[DeploymentKey(w)]) == w.spec.title
    ensures WellFormed(c) ==> WellFormed(r.after)
  {
    match Get(c.deployments, DeploymentKey(w), getFault)
    case Error(e) => StepResult(Stop(Returned(CtrlResult(false, RefetchRetrySeconds), Some(e))), c, [])
    case Found(found) =>
      if !HasTitleSlot(found) then
        StepResult(Stop(Panicked), c, [])
      else if w.spec.title != TitleOf(found) then
        var updated := WithTitle(found, w.spec.title);
        var err := UpdateError(c.deployments, KeyOf(updated.meta), updateFault);
        var after := c.(deployments := Applied(c.deployments, KeyOf(updated.meta), updated, err));
        if err.Some? then
          StepResult(Stop(Returned(Empty, err)), after, [UpdateDep(updated)])
        else
          StepResult(Stop(Returned(CtrlResult(true, 0), None)), after, [UpdateDep(updated)])
      else
        StepResult(Continue, c, [])
  }

  /** The answer the API server gives each call of one pass, in call order. */
  datatype Faults = Faults(
    getWebPage: Fault,
    getDeployment: Fault,
    createDeployment: Fault,
    getService: Fault,
    createService: Fault,
    refetchDeployment: Fault,
    updateDeployment: Fault)

  const NoFaults := Faults(None, None, None, None, None, None, None)

  /** One pass applied to a snapshot: how it ended, the snapshot after it, its writes. */
  datatype PassResult = PassResult(outcome: Outcome, after: Cluster, writes: seq<Write>)

  /** Reconcile: the whole pass for the WebPage named by `req`. */
  function ReconcileSpec(c: Cluster, req: NamespacedName, f: Faults): (r: PassResult)
    ensures r.after.webPages == c.webPages
    ensures |r.writes| <= 1
    ensures r.writes == [] ==> r.after == c
    ensures WellFormed(c) ==> WellFormed(r.after)
    // a delayed requeue always comes with an error, an immediate one never does
    ensures r.outcome.Returned? && r.outcome.result.requeueAfter > 0 ==>
      r.outcome.result == CtrlResult(false, RefetchRetrySeconds) && r.outcome.err.Some?
    ensures r.outcome.Returned? && r.outcome.result.requeue ==>
      r.outcome.result.requeueAfter == 0 && r.outcome.err.None? && |r.writes| == 1 && r.writes[0].UpdateDep?
  {
    match Get(c.webPages, req, f.getWebPage)
    case Error(NotFound) => PassResult(Returned(Empty, None), c, [])
    case Error(e) => PassResult(Returned(Empty, Some(e)), c, [])
    case Found(w) =>
      var d := EnsureDeploymentSpec(c, DefineDeployment(w), f.getDeployment, f.createDeployment);
      if d.step.Stop? then PassResult(d.step.outcome, d.after, d.writes)
      else
        var s := EnsureServiceSpec(d.after, DefineService(w), f.getService, f.createService);
        if s.step.Stop? then PassResult(s.step.outcome, s.after, d.writes + s.writes)
        else
          var h := HandleChangesSpec(s.after, w, f.refetchDeployment, f.updateDeployment);
          if h.step.Stop? then PassResult(h.step.outcome, h.after, d.writes + s.writes + h.writes)
          else PassResult(Returned(Empty, None), h.after, d.writes + s.writes + h.writes)
  }

  /** The reconciler, holding the client it issues its calls through. */
  class WebPageReconciler {

    const client: ApiServer

    constructor (client: ApiServer)
      ensures this.client == client
    {
      this.client := client;
    }

    method Reconcile(req: NamespacedName, f: Faults) returns (out: Outcome)
      modifies client
      ensures var p := ReconcileSpec(old(client.State()), req, f);
        && out == p.outcome
        && client.State() == p.after
        && client.journal == old(client.journal) + p.writes
    {
      var fetched := client.GetWebPage(req, f.getWebPage);
      if fetched.Error? {
        if fetched.err == NotFound {
          return Returned(Empty, None);
        }
        return Returned(Empty, Some(fetched.err));
      }
      var webpage := fetched.obj;

      var dep := DefineDeployment(webpage);
      var step := EnsureDeployment(dep, f.getDeployment, f.createDeployment);
      if step.Stop? {
        return step.outcome;
      }

      var svc := DefineService(webpage);
      step := EnsureService(svc, f.getService, f.createService);
      if step.Stop? {
        return step.outcome;
      }

      step := HandleChanges(webpage, f.refetchDeployment, f.updateDeployment);
      if step.Stop? {
        return step.outcome;
      }
      return Returned(Empty, None);
    }

    method EnsureDeployment(dep: Deployment, getFault: Fault, createFault: Fault) returns (step: Step)
      modifies client
      ensures var r := EnsureDeploymentSpec(old(client.State()), dep, getFault, createFault);
        && step == r.step
        && client.State() == r.after
        && client.journal == old(client.journal) + r.writes
    {
      var found := client.GetDeployment(KeyOf(dep.meta), getFault);
      var err := if found.Error? then Some(found.err) else None;
      if err.Some? {
        if err.value == NotFound {
          err := client.CreateDeployment(dep, createFault);
          if err.Some? {
            return Stop(Returned(Empty, err));
          }
        }
        return Stop(Returned(Empty, err));
      }
      return Continue;
    }

    method EnsureService(svc: Service, getFault: Fault, createFault: Fault) returns (step: Step)
      modifies client
      ensures var r := EnsureServiceSpec(old(client.State()), svc, getFault, createFault);
        && step == r.step
        && client.State() == r.after
        && client.journal == old(client.journal) + r.writes
    {
      var found := client.GetService(KeyOf(svc.meta), getFault);
      var err := if found.Error? then Some(found.err) else None;
      if err.Some? {
        if err.value == NotFound {
          err := client.CreateService(svc, createFault);
          if err.Some? {
            return Stop(Returned(Empty, err));
          }
        }
        return Stop(Returned(Empty, err));
      }
      return Continue;
    }

    method HandleChanges(w: WebPage, getFault: Fault, updateFault: Fault) returns (step: Step)
      modifies client
      ensures var r := HandleChangesSpec(old(client.State()), w, getFault, updateFault);
        && step == r.step
        && client.State() == r.after
        && client.journal == old(client.journal) + r.writes
    {
      var fetched := client.GetDeployment(DeploymentKey(w), getFault);
      if fetched.Error? {
        return Stop(Returned(CtrlResult(false, RefetchRetrySeconds), Some(fetched.err)));
      }
      var found := fetched.obj;

      var title := w.spec.title;
      if !HasTitleSlot(found) {
        // Containers[0].Env[0] is read without a bounds check
        return Stop(Panicked);
      }
      var existing := TitleOf(found);

      if title != existing {
        found := WithTitle(found, title);
        var err := client.UpdateDeployment(found, updateFault);
        if err.Some? {
          return Stop(Returned(Empty, err));
        }
        return Stop(Returned(CtrlResult(true, 0), None));
      }
      return Continue;
    }
  }
}
