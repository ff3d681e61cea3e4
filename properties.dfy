/**
 What one pass and a run of passes of the WebPage reconciler guarantee,
 stated over the pure model of a pass, `Controller.ReconcileSpec`.
 */
module Properties {

  import opened Wrappers
  import opened Objects
  import opened Store
  import opened Controller

  /** The pass got as far as ensuring the Service: the Deployment lookup found it. */
  ghost predicate ReachesService(c: Cluster, req: NamespacedName, f: Faults)
  {
    && f.getWebPage.None? && req in c.webPages
    && Get(c.deployments, DeploymentKey(c.webPages[req]), f.getDeployment).Found?
  }

  /** The pass got as far as `handleChanges`: both lookups found their child. */
  ghost predicate ReachesHandleChanges(c: Cluster, req: NamespacedName, f: Faults)
  {
    && ReachesService(c, req, f)
    && Get(c.services, ServiceKey(c.webPages[req]), f.getService).Found?
  }

  /** A failed owner lookup ends the pass with no write and no change: NotFound is a clean,
      terminal result, any other error is handed back as it came. */
  lemma OwnerLookupFailure(c: Cluster, req: NamespacedName, f: Faults)
    requires Get(c.webPages, req, f.getWebPage).Error?
    ensures var e := Get(c.webPages, req, f.getWebPage).err;
      ReconcileSpec(c, req, f) == PassResult(Returned(Empty, if e == NotFound then None else Some(e)), c, [])
  {
  }

  /** Without a fault, a missing WebPage is exactly the case of a clean terminal pass that
      fetched nothing. */
  lemma MissingOwnerIsTerminal(c: Cluster, req: NamespacedName)
    requires req !in c.webPages
    ensures ReconcileSpec(c, req, NoFaults) == PassResult(Returned(Empty, None), c, [])
  {
  }

  /** The children are ensured in a fixed order and a step runs only when every step
      before it continued. */
  lemma StepOrder(c: Cluster, req: NamespacedName, f: Faults)
    ensures var r := ReconcileSpec(c, req, f);
      && (r.writes != [] && r.writes[0].CreateDep? ==> !ReachesService(c, req, f))
      && (r.writes != [] && r.writes[0].CreateSvc? ==> ReachesService(c, req, f) && !ReachesHandleChanges(c, req, f))
      && (r.writes != [] && r.writes[0].UpdateDep? ==> ReachesHandleChanges(c, req, f))
      && (r.outcome.Panicked? ==> ReachesHandleChanges(c, req, f))
      && (r.outcome.Returned? && r.outcome.result != Empty ==> ReachesHandleChanges(c, req, f))
  {
  }

  /** A pass that reaches `handleChanges` with a drifted title issues exactly one Update, of
      the fetched Deployment with only its title slot changed, and asks for an immediate
      requeue when the Update succeeds. */
  lemma DriftCorrection(c: Cluster, req: NamespacedName, f: Faults)
    requires WellFormed(c)
    requires ReachesHandleChanges(c, req, f) && f.refetchDeployment.None?
    requires var w := c.webPages[req];
      && HasTitleSlot(c.deployments[DeploymentKey(w)])
      && TitleOf(c.deployments[DeploymentKey(w)]) != w.spec.title
    ensures var w := c.webPages[req];
      var updated := WithTitle(c.deployments[DeploymentKey(w)], w.spec.title);
      var r := ReconcileSpec(c, req, f);
      && r.writes == [UpdateDep(updated)]
      && (f.updateDeployment.None? ==>
            && r.outcome == Returned(CtrlResult(true, 0), None)
            && r.after == c.(deployments := c.deployments[DeploymentKey(w) := updated]))
      && (f.updateDeployment.Some? ==>
            r.outcome == Returned(Empty, f.updateDeployment) && r.after == c)
  {
  }

  /** A pass that reaches `handleChanges` with the titles agreeing writes nothing and ends
      with ctrl.Result{} and no error. */
  lemma TitlesAgree(c: Cluster, req: NamespacedName, f: Faults)
    requires ReachesHandleChanges(c, req, f) && f.refetchDeployment.None?
    requires var w := c.webPages[req];
      && HasTitleSlot(c.deployments[DeploymentKey(w)])
      && TitleOf(c.deployments[DeploymentKey(w)]) == w.spec.title
    ensures ReconcileSpec(c, req, f) == PassResult(Returned(Empty, None), c, [])
  {
  }

  /** A failed refetch in `handleChanges` asks for a retry after five seconds together with
      the error, and writes nothing. */
  lemma RefetchFailure(c: Cluster, req: NamespacedName, f: Faults)
    requires ReachesHandleChanges(c, req, f) && f.refetchDeployment.Some?
    ensures ReconcileSpec(c, req, f) ==
      PassResult(Returned(CtrlResult(false, 5), f.refetchDeployment), c, [])
  {
  }

  /** A Deployment without a first container or without a first environment variable makes
      `handleChanges` index out of range, whatever the titles are. */
  lemma MissingTitleSlotPanics(c: Cluster, req: NamespacedName, f: Faults)
    requires ReachesHandleChanges(c, req, f) && f.refetchDeployment.None?
    requires !HasTitleSlot(c.deployments[DeploymentKey(c.webPages[req])])
    ensures ReconcileSpec(c, req, f) == PassResult(Panicked, c, [])
  {
  }

  /** Both children exist and the Deployment carries the WebPage's title. Nothing is said
      about the rest of either child: the pass never compares it. */
  ghost predicate Converged(c: Cluster, req: NamespacedName)
  {
    && req in c.webPages
    && var w := c.webPages[req];
    && DeploymentKey(w) in c.deployments
    && HasTitleSlot(c.deployments[DeploymentKey(w)])
    && TitleOf(c.deployments[DeploymentKey(w)]) == w.spec.title
    && ServiceKey(w) in c.services
  }

  /** Idempotence: a pass over a converged cluster, with the server answering every call,
      writes nothing, changes nothing and requests no requeue, so every later pass does the same. */
  lemma ConvergedIsStable(c: Cluster, req: NamespacedName)
    requires Converged(c, req)
    ensures ReconcileSpec(c, req, NoFaults) == PassResult(Returned(Empty, None), c, [])
  {
    TitlesAgree(c, req, NoFaults);
  }

  /** The states from which the reconciler converges: the WebPage exists; a Deployment already
      stored under its name has the slot the title goes in (its title may then be anything,
      even cleared to ""), and when there is no Deployment yet the title is non-empty, so the
      one `DefineDeployment` builds has that slot. */
  ghost predicate Ready(c: Cluster, req: NamespacedName)
  {
    && WellFormed(c)
    && req in c.webPages
    && var w := c.webPages[req];
    && (DeploymentKey(w) !in c.deployments ==> w.spec.title != "")
    && (DeploymentKey(w) in c.deployments ==> HasTitleSlot(c.deployments[DeploymentKey(w)]))
  }

  /** How many writing passes are still needed: one if the Deployment is absent or its title
      drifted, plus one if the Service is absent. */
  ghost function Distance(c: Cluster, req: NamespacedName): nat
    requires req in c.webPages
  {
    var w := c.webPages[req];
    var depWork: nat :=
      if DeploymentKey(w) !in c.deployments then 1
      else if !HasTitleSlot(c.deployments[DeploymentKey(w)]) then 1
      else if TitleOf(c.deployments[DeploymentKey(w)]) != w.spec.title then 1
      else 0;
    var svcWork: nat := if ServiceKey(w) !in c.services then 1 else 0;
    depWork + svcWork
  }

  /** One fault-free pass from a ready cluster either finds it converged and does nothing, or
      issues one successful write that brings it one step closer, keeping it ready. */
  lemma PassProgress(c: Cluster, req: NamespacedName)
    requires Ready(c, req)
    ensures var p := ReconcileSpec(c, req, NoFaults);
      && Ready(p.after, req)
      && p.after.webPages == c.webPages
      && (Distance(c, req) == 0 <==> Converged(c, req))
      && (Distance(c, req) == 0 ==> p == PassResult(Returned(Empty, None), c, []))
      && (Distance(c, req) > 0 ==>
            && Distance(p.after, req) == Distance(c, req) - 1
            && |p.writes| == 1
            && p.outcome.Returned? && p.outcome.err.None?)
  {
    var w := c.webPages[req];
    var p := ReconcileSpec(c, req, NoFaults);
    var dk, sk := DeploymentKey(w), ServiceKey(w);
    assert KeyOf(DefineDeployment(w).meta) == dk;
    assert KeyOf(DefineService(w).meta) == sk;
    assert dk != sk by {
      assert (w.meta.name + "-webpage")[|w.meta.name| + 1] == 'w';
      assert (w.meta.name + "-service")[|w.meta.name| + 1] == 's';
    }
    if dk !in c.deployments {
      // the pass creates the Deployment, whose one env var carries the title
      var d := DefineDeployment(w);
      assert p.after == c.(deployments := c.deployments[dk := d]);
      assert HasTitleSlot(d) && TitleOf(d) == w.spec.title;
    } else if sk !in c.services {
      assert p.after == c.(services := c.services[sk := DefineService(w)]);
    } else if TitleOf(c.deployments[dk]) != w.spec.title {
      DriftCorrection(c, req, NoFaults);
    } else {
      TitlesAgree(c, req, NoFaults);
    }
  }

  /** With an empty title and both children present, a Deployment without the title slot
      (the shape `DefineDeployment` gives it) makes every fault-free pass panic, changing nothing. */
  lemma EmptyTitlePanics(c: Cluster, req: NamespacedName)
    requires req in c.webPages && c.webPages[req].spec.title == ""
    requires DeploymentKey(c.webPages[req]) in c.deployments
    requires !HasTitleSlot(c.deployments[DeploymentKey(c.webPages[req])])
    requires ServiceKey(c.webPages[req]) in c.services
    ensures ReconcileSpec(c, req, NoFaults) == PassResult(Panicked, c, [])
  {
    MissingTitleSlotPanics(c, req, NoFaults);
  }

  /** A run of `n` fault-free passes for one key, as the runtime repeats them: the cluster they
      leave, every write they issue in order, and the outcome of each pass. */
  datatype Run = Run(after: Cluster, writes: seq<Write>, outcomes: seq<Outcome>)

  ghost function Passes(c: Cluster, req: NamespacedName, n: nat): (r: Run)
    ensures |r.outcomes| == n
    decreases n
  {
    if n == 0 then Run(c, [], [])
    else
      var p := ReconcileSpec(c, req, NoFaults);
      var rest := Passes(p.after, req, n - 1);
      Run(rest.after, p.writes + rest.writes, [p.outcome] + rest.outcomes)
  }

  /** Convergence: from a ready cluster, with the server answering every call, any number of
      passes issue at most two writes in all, one per pass until the cluster has converged and
      none after. After two passes the cluster has converged. */
  lemma {:induction false} Convergence(c: Cluster, req: NamespacedName, n: nat)
    requires Ready(c, req)
    ensures Ready(Passes(c, req, n).after, req)
    ensures |Passes(c, req, n).writes| == (if n < Distance(c, req) then n else Distance(c, req))
    ensures |Passes(c, req, n).writes| <= 2
    ensures n >= Distance(c, req) ==> Converged(Passes(c, req, n).after, req)
    ensures n >= 2 ==> Converged(Passes(c, req, n).after, req)
    decreases n
  {
    if n > 0 {
      PassProgress(c, req);
      Convergence(ReconcileSpec(c, req, NoFaults).after, req, n - 1);
    }
  }

  /** In such a run no pass reports an error, and every pass from the one that finds the
      cluster converged on returns ctrl.Result{}, requesting no requeue. */
  lemma {:induction false} ConvergenceOutcomes(c: Cluster, req: NamespacedName, n: nat)
    requires Ready(c, req)
    ensures forall i :: 0 <= i < n ==>
      Passes(c, req, n).outcomes[i].Returned? && Passes(c, req, n).outcomes[i].err.None?
    ensures forall i :: Distance(c, req) <= i < n ==> Passes(c, req, n).outcomes[i] == Returned(Empty, None)
    decreases n
  {
    if n > 0 {
      var p := ReconcileSpec(c, req, NoFaults);
      PassProgress(c, req);
      ConvergenceOutcomes(p.after, req, n - 1);
      var rest := Passes(p.after, req, n - 1);
      var r := Passes(c, req, n);
      assert r.outcomes == [p.outcome] + rest.outcomes;
      forall i | 0 <= i < n
        ensures r.outcomes[i].Returned? && r.outcomes[i].err.None?
        ensures Distance(c, req) <= i ==> r.outcomes[i] == Returned(Empty, None)
      {
        if i > 0 {
          assert r.outcomes[i] == rest.outcomes[i - 1];
        } else {
          assert r.outcomes[0] == p.outcome;
        }
      }
    }
  }

  /** A title cleared after the Deployment was created with one is not a panic: the pass sets
      the existing variable to `REACT_APP_TITLE=""` with one Update and asks for a requeue, and
      the next pass finds the cluster converged. The Deployment keeps that variable; it does
      not get the env-less shape `DefineDeployment` would now build, and no pass notices. */
  lemma ClearedTitleIsCorrected(c: Cluster, req: NamespacedName)
    requires WellFormed(c) && req in c.webPages && c.webPages[req].spec.title == ""
    requires DeploymentKey(c.webPages[req]) in c.deployments
    requires HasTitleSlot(c.deployments[DeploymentKey(c.webPages[req])])
    requires TitleOf(c.deployments[DeploymentKey(c.webPages[req])]) != ""
    requires ServiceKey(c.webPages[req]) in c.services
    ensures var w := c.webPages[req];
      var p := ReconcileSpec(c, req, NoFaults);
      && p.outcome == Returned(CtrlResult(true, 0), None)
      && p.writes == [UpdateDep(WithTitle(c.deployments[DeploymentKey(w)], ""))]
      && Converged(p.after, req)
      && p.after.deployments[DeploymentKey(w)].spec.template.containers[0].env[0].name ==
         c.deployments[DeploymentKey(w)].spec.template.containers[0].env[0].name
      && ReconcileSpec(p.after, req, NoFaults) == PassResult(Returned(Empty, None), p.after, [])
  {
    DriftCorrection(c, req, NoFaults);
    ConvergedIsStable(ReconcileSpec(c, req, NoFaults).after, req);
  }

  /** Once the pass panics without changing anything, every later pass panics too. */
  lemma {:induction false} PanicsForever(c: Cluster, req: NamespacedName, n: nat)
    requires ReconcileSpec(c, req, NoFaults) == PassResult(Panicked, c, [])
    ensures Passes(c, req, n).after == c && Passes(c, req, n).writes == []
    ensures forall i :: 0 <= i < n ==> Passes(c, req, n).outcomes[i] == Panicked
    decreases n
  {
    if n > 0 {
      PanicsForever(c, req, n - 1);
      var rest := Passes(c, req, n - 1);
      var r := Passes(c, req, n);
      assert r.outcomes == [Panicked] + rest.outcomes;
      forall i | 0 < i < n
        ensures r.outcomes[i] == rest.outcomes[i - 1]
      {
      }
    }
  }

  /** With an empty title and no children yet, the first fault-free pass creates the
      Deployment, the second the Service, and the third panics without changing anything. */
  lemma EmptyTitleFirstPasses(c: Cluster, req: NamespacedName)
    requires req in c.webPages && c.webPages[req].spec.title == ""
    requires DeploymentKey(c.webPages[req]) !in c.deployments
    requires ServiceKey(c.webPages[req]) !in c.services
    ensures var w := c.webPages[req];
      var c1 := c.(deployments := c.deployments[DeploymentKey(w) := DefineDeployment(w)]);
      var c2 := c1.(services := c1.services[ServiceKey(w) := DefineService(w)]);
      && ReconcileSpec(c, req, NoFaults) == PassResult(Returned(Empty, None), c1, [CreateDep(DefineDeployment(w))])
      && ReconcileSpec(c1, req, NoFaults) == PassResult(Returned(Empty, None), c2, [CreateSvc(DefineService(w))])
      && ReconcileSpec(c2, req, NoFaults) == PassResult(Panicked, c2, [])
  {
    var w := c.webPages[req];
    var dk, sk := DeploymentKey(w), ServiceKey(w);
    assert KeyOf(DefineDeployment(w).meta) == dk;
    assert KeyOf(DefineService(w).meta) == sk;
    var c1 := c.(deployments := c.deployments[dk := DefineDeployment(w)]);
    var c2 := c1.(services := c1.services[sk := DefineService(w)]);
    EmptyTitlePanics(c2, req);
  }

  /** With an empty title and no children yet, fault-free passes create the Deployment, then
      the Service, and from the third pass on every pass panics: the WebPage never settles. */
  lemma {:induction false} EmptyTitleNeverSettles(c: Cluster, req: NamespacedName, n: nat)
    requires req in c.webPages && c.webPages[req].spec.title == ""
    requires DeploymentKey(c.webPages[req]) !in c.deployments
    requires ServiceKey(c.webPages[req]) !in c.services
    ensures Passes(c, req, n).writes ==
      [CreateDep(DefineDeployment(c.webPages[req])), CreateSvc(DefineService(c.webPages[req]))][..if n < 2 then n else 2]
    ensures forall i :: 0 <= i < n && i < 2 ==> Passes(c, req, n).outcomes[i] == Returned(Empty, None)
    ensures forall i :: 2 <= i < n ==> Passes(c, req, n).outcomes[i] == Panicked
  {
    var w := c.webPages[req];
    EmptyTitleFirstPasses(c, req);
    var c1 := c.(deployments := c.deployments[DeploymentKey(w) := DefineDeployment(w)]);
    var c2 := c1.(services := c1.services[ServiceKey(w) := DefineService(w)]);
    if n > 0 {
      var r1 := Passes(c1, req, n - 1);
      if n > 1 {
        PanicsForever(c2, req, n - 2);
        var r2 := Passes(c2, req, n - 2);
        assert r1.outcomes == [Returned(Empty, None)] + r2.outcomes;
        forall j | 0 < j < n - 1
          ensures r1.outcomes[j] == r2.outcomes[j - 1]
        {
        }
      }
      var r := Passes(c, req, n);
      assert r.outcomes == [Returned(Empty, None)] + r1.outcomes;
      forall i | 0 < i < n
        ensures r.outcomes[i] == r1.outcomes[i - 1]
      {
      }
    }
  }
}
