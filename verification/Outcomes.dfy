/** How a pass ends, exactly: which outcome and which condition, from what the cluster holds. */
module Outcomes {
  import opened Prelude
  import opened Api
  import opened Names
  import opened Nodes
  import opened Pass
  import opened Reconcile
  import opened Stages
  import opened PassEffects
  import opened ChartContents
  import Webhook

  /** There is a control plane, and every node in it is at the target. */
  ghost predicate ControlPlaneAt(nodes: seq<Node>, target: Nodes.Target) {
    && (exists i :: 0 <= i < |nodes| && IsControlPlane(nodes[i]))
    && forall i | 0 <= i < |nodes| && IsControlPlane(nodes[i]) :: NodeAt(nodes[i], target)
  }

  /** All that the stage needs has been started. */
  predicate BothStarted(r: Rollout, c: Cluster) {
    r.controlPlaneName in c.sucPlans &&
    (r.workerName in c.sucPlans || forall i | 0 <= i < |c.nodes| :: IsControlPlane(c.nodes[i]))
  }

  /** What core components say once the nodes are done; a stage without them is not held back. */
  function GateOf(r: Rollout, c: Cluster): ScanStatus {
    if r.gate.None? then AllUp else Scan(r.gate.value, c, {})
  }

  lemma ControlPlanePickedAt(nodes: seq<Node>, target: Nodes.Target)
    ensures Matching(nodes, ControlPlaneSelector) != [] <==> exists i :: 0 <= i < |nodes| && IsControlPlane(nodes[i])
    ensures (Matching(nodes, ControlPlaneSelector) != [] && AllUpgraded(Matching(nodes, ControlPlaneSelector), target))
      <==> ControlPlaneAt(nodes, target)
  {
    var picked := Matching(nodes, ControlPlaneSelector);
    forall n ensures n in picked <==> n in nodes && IsControlPlane(n) {
      MatchingIsFilter(nodes, ControlPlaneSelector, n);
      SelectorsMeanRoles(n);
    }
    forall n ensures NodeUpgraded(n, target) <==> NodeAt(n, target) {
      NodeUpgradedMeans(n, target);
    }
    if picked != [] { assert picked[0] in nodes; }
    if i :| 0 <= i < |nodes| && IsControlPlane(nodes[i]) { assert nodes[i] in picked; }
  }

  /**
   * A fault-free pass of a node stage. It succeeds exactly when all is started, every node is at the target and no core
   * component holds it back. It ends at once exactly when it has just created a plan: the control plane's if that is
   * missing, else the workers', behind a control plane that is up. It fails exactly for want of a control plane, or for
   * a broken core component once the nodes are done. Otherwise it waits.
   */
  lemma RolloutEndsExactly(r: Rollout, st: Status, c: Cluster)
    requires StageSelectors(r, c)
    ensures var p := RolloutPass(r, st, c, {});
      && (p.outcome.Requeue? <==>
            BothStarted(r, c) && ControlPlaneAt(c.nodes, r.target) && AllAt(c.nodes, r.target) && GateOf(r, c).AllUp?)
      && (p.outcome.Requeue? ==> p == Pass(Set(st, r.conditionType, Condition(True, Succeeded)), c, Requeue))
      && (p.outcome.Done? <==>
            r.controlPlaneName !in c.sucPlans || (ControlPlaneAt(c.nodes, r.target) && !BothStarted(r, c)))
      && (p.outcome.Done? ==>
            var name, built := if r.controlPlaneName !in c.sucPlans then r.controlPlaneName else r.workerName,
                               if r.controlPlaneName !in c.sucPlans then r.controlPlane else r.worker;
            p == Pass(Set(st, r.conditionType, Condition(False, InProgress)), c.(sucPlans := c.sucPlans[name := built]),
            Done))
      && (p.outcome.Aborted? <==>
            r.controlPlaneName in c.sucPlans &&
            ((forall i | 0 <= i < |c.nodes| :: !IsControlPlane(c.nodes[i])) ||
             (BothStarted(r, c) && AllAt(c.nodes, r.target) && GateOf(r, c).ScanFailed?)))
      && (p.outcome.Aborted? ==> p == Pass(st, c, Aborted))
      && (p.outcome.RequeueAfterMinute? ==>
            p == Pass(Set(st, r.conditionType, Condition(False, InProgress)), c, RequeueAfterMinute))
  {
    ControlPlanePicked(c.nodes);
    ControlPlanePickedAt(c.nodes, r.target);
    AllUpgradedMeans(c.nodes, r.target);
    assert ControlPlaneOnly(c.nodes) <==> forall i | 0 <= i < |c.nodes| :: IsControlPlane(c.nodes[i]);
    if r.controlPlaneName in c.sucPlans && ControlPlaneAt(c.nodes, r.target) {
      if ControlPlaneOnly(c.nodes) {
        HalvesMakeAll(c.nodes, r.target);
      } else {
        WorkersExist(c.nodes);
        if AllUpgraded(Matching(c.nodes, WorkerSelector), r.target) { HalvesMakeAll(c.nodes, r.target); }
        AllMeansWorkers(c.nodes, r.target);
      }
    } else if r.controlPlaneName in c.sucPlans && AllAt(c.nodes, r.target) {
      assert forall i | 0 <= i < |c.nodes| && IsControlPlane(c.nodes[i]) :: NodeAt(c.nodes[i], r.target);
    }
  }

  lemma AllMeansWorkers(nodes: seq<Node>, target: Nodes.Target)
    ensures AllUpgraded(nodes, target) ==> AllUpgraded(Matching(nodes, WorkerSelector), target)
  {
    forall n | n in Matching(nodes, WorkerSelector) ensures n in nodes {
      MatchingIsFilter(nodes, WorkerSelector, n);
    }
  }

  /** A pass over an entry is requeued exactly when it has ended the entry, or stopped at an add-on in progress. */
  lemma EntryRequeuesExactlyWhen(plan: Plan, entry: ReleaseChart, c: Cluster, faults: set<ApiCall>)
    requires !ChartFinished(plan.status, ChartType(entry))
    ensures Requeues(plan, entry, c, faults, ChartPass(plan, entry, c, faults))
  {
    var k := ChartPassEndsAt(plan, entry, c, faults);
    EndRequeues(plan, entry, k, c, faults, ChartPass(plan, entry, c, faults));
  }

  ghost predicate Requeues(plan: Plan, entry: ReleaseChart, c: Cluster, faults: set<ApiCall>, p: Pass) {
    && (p.outcome.Requeue? <==>
          (ChartFinished(p.status, ChartType(entry)) || exists k: nat ::
          StopsAtRunningAddon(plan, entry, k, c, faults)))
    && !p.outcome.RequeueAfterMinute?
    && (p.outcome.Aborted? ==> p.status == plan.status)
  }

  ghost predicate StopsAtRunningAddon(plan: Plan, entry: ReleaseChart, k: nat, c: Cluster, faults: set<ApiCall>) {
    && |entry.dependencyCharts| < k < |Positions(entry)| && Reaches(plan, entry, k, c, faults)
    && StateAt(plan, Positions(entry)[k], c, faults) == Some(ChartInProgress)
  }

  lemma EndRequeues(plan: Plan, entry: ReleaseChart, k: nat, c: Cluster, faults: set<ApiCall>, p: Pass)
    requires !ChartFinished(plan.status, ChartType(entry)) && EndsAt(plan, entry, k, c, faults, p)
    ensures Requeues(plan, entry, c, faults, p)
  {
    if m: nat :| StopsAtRunningAddon(plan, entry, m, c, faults) {
      assert !LetsPass(plan, entry, m, c, faults);
    }
    if k == |Positions(entry)| { assert LetsPass(plan, entry, |entry.dependencyCharts|, c, faults); }
    assert k < |Positions(entry)| && k > |entry.dependencyCharts| && p.outcome.Requeue? ==>
      StopsAtRunningAddon(plan, entry, k, c, faults);
  }

  /**
   * A pass that reaches a chart and does not end the entry there: a running dependency or core chart leaves the entry
   * in progress, one without a job in error, and either ends the pass; a running add-on leaves it in progress and is
   * looked at again, and one without a job changes nothing.
   */
  lemma EntryGoesOn(plan: Plan, entry: ReleaseChart, k: nat, c: Cluster, faults: set<ApiCall>)
    requires k < |Positions(entry)| && Reaches(plan, entry, k, c, faults)
    requires StateAt(plan, Positions(entry)[k], c, faults) in {Some(ChartInProgress), Some(UnknownState)}
    ensures var p := ChartPass(plan, entry, c, faults);
      var t, running := ChartType(entry), StateAt(plan, Positions(entry)[k], c, faults) == Some(ChartInProgress);
      if k <= |entry.dependencyCharts|
      then p.outcome.Done? &&
      p.status == Set(plan.status, t, if running then Condition(False, InProgress) else Condition(Unknown, Error))
      else if running then p.outcome.Requeue? && p.status == Set(plan.status, t, Condition(False, InProgress))
      else p.outcome.Done? && p.status == plan.status
  {
    assert !LetsPass(plan, entry, k, c, faults);
    var m := ChartPassEndsAt(plan, entry, c, faults);
    StopsThere(plan, entry, k, m, c, faults);
  }

  /** A walk stops at the first position it does not pass. */
  lemma StopsThere(plan: Plan, entry: ReleaseChart, k: nat, m: nat, c: Cluster, faults: set<ApiCall>)
    requires k < |Positions(entry)| && Reaches(plan, entry, k, c, faults) && !LetsPass(plan, entry, k, c, faults)
    requires m <= |Positions(entry)| && Reaches(plan, entry, m, c, faults)
    requires m < |Positions(entry)| ==> !LetsPass(plan, entry, m, c, faults)
    ensures m == k
  {
  }

  // ---- before the stages ----

  /**
   * A node of an unsupported architecture stops everything: the validation is marked as failed, and nothing else is
   * done.
   */
  lemma UnsupportedStopsThePass(plan: Plan, c: Cluster, env: Env)
    requires ListManifests !in env.faults && ListNodes !in env.faults &&
      FindManifest(c.manifests, plan.spec.releaseVersion).Some?
    requires var archs := FindManifest(c.manifests,
      plan.spec.releaseVersion).value.os.supportedArchs; !AllSupported(c.nodes, archs)
    ensures NormalPass(plan, c, env) ==
      Pass(plan.status.(conditions := plan.status.conditions["ValidationFailed" := Condition(True,
      UnsupportedArchitecture)]), c, Done)
  {
    NoneUnsupported(c.nodes, FindManifest(c.manifests, plan.spec.releaseVersion).value.os.supportedArchs);
  }

  /** Without a manifest the job that installs it is created, once; a job of that name, or no version, is an error. */
  lemma MissingManifestIsInstalled(plan: Plan, c: Cluster, env: Env)
    requires ListManifests !in env.faults
    requires forall i | 0 <= i < |c.manifests| :: c.manifests[i].releaseVersion != plan.spec.releaseVersion
    ensures var name := ManifestJobName(plan.spec.releaseVersion);
      var p := NormalPass(plan, c, env);
      && p.status == plan.status
      && (p.outcome.Done? <==>
            (plan.spec.releaseVersion !in {"", "v"} && name !in c.manifestJobs && CreateManifestJob !in env.faults))
      && (p.outcome.Done? ==> p.cluster == c.(manifestJobs := c.manifestJobs[name := Job(OwnerLabels(plan), [])]))
      && (!p.outcome.Done? ==> p.outcome.Aborted? && p.cluster == c)
  {
    FindManifestMeans(c.manifests, plan.spec.releaseVersion);
    var version := plan.spec.releaseVersion;
    assert version == "v" <==> version != [] && version[0] == 'v' && version[1..] == [];
  }

  /** A new generation writes no object; its suffix is that of the bytes drawn, and an equal one is drawn again. */
  lemma NewGenerationOnlyResets(plan: Plan, c: Cluster, env: Env)
    requires ListManifests !in env.faults && ListNodes !in env.faults &&
      FindManifest(c.manifests, plan.spec.releaseVersion).Some?
    requires var archs := FindManifest(c.manifests,
      plan.spec.releaseVersion).value.os.supportedArchs; AllSupported(c.nodes, archs)
    requires plan.status.observedGeneration != plan.generation
    ensures var p := NormalPass(plan, c, env);
      && p.cluster == c && (p.outcome.Aborted? <==> env.random.None?) && (env.random.Some? ==> p.outcome.Requeue?)
      && (p.status != plan.status <==> env.random.Some? && HexEncode(env.random.value) != plan.status.sucNameSuffix)
      && (p.status != plan.status ==>
            p.status.sucNameSuffix == HexEncode(env.random.value) && p.status.observedGeneration == plan.generation)
  {
    NoneUnsupported(c.nodes, FindManifest(c.manifests, plan.spec.releaseVersion).value.os.supportedArchs);
    if env.random.Some? {
      var release := FindManifest(c.manifests, plan.spec.releaseVersion).value;
      var observed := plan.status.(sucNameSuffix := HexEncode(env.random.value), observedGeneration := plan.generation);
      AllPending(Set(Set(observed, OsUpgraded, PendingCondition), KubernetesUpgraded, PendingCondition),
      release.charts);
    }
  }

  /** The OS stage first sees to its secret, without touching the status. */
  lemma SecretComesFirst(plan: Plan, release: Release, c: Cluster)
    requires OsSecretName(release.os.zypperID, release.os.version, plan.status.sucNameSuffix) !in c.secrets
    ensures var name := OsSecretName(release.os.zypperID, release.os.version, plan.status.sucNameSuffix);
      OsPass(plan, release, c, {}) == Pass(plan.status, c.(secrets := c.secrets[name := OwnerLabels(plan)]), Done)
  {
  }

  // ---- around the stages ----

  /** A live plan without the finalizer gets it first and is looked at again; nothing else happens. */
  lemma FinalizerComesFirst(parse: Webhook.Parser, plan: Plan, c: Cluster, env: Env, s': Store, o: Outcome)
    requires !plan.deleting && "upgradeplan.lifecycle.suse.com/finalizer" !in plan.finalizers && env.faults == {}
    requires ReconcileStep(parse, Store(Some(plan), c), env, s', o)
    requires Webhook.ValidateUpdate(parse, plan, WithFinalizer(plan)) == Webhook.Allowed
    ensures s' == Store(Some(plan.(finalizers := plan.finalizers + ["upgradeplan.lifecycle.suse.com/finalizer"])), c)
    ensures o.Requeue?
  {
  }

  /** A plan that is gone, or deleted and no longer held by the controller, is left alone; errors are retried. */
  lemma NothingToReconcile(parse: Webhook.Parser, s: Store, env: Env, s': Store, o: Outcome)
    requires ReconcileStep(parse, s, env, s', o)
    requires s.plan.Some? ==>
      s.plan.value.deleting && "upgradeplan.lifecycle.suse.com/finalizer" !in s.plan.value.finalizers
    ensures s' == s && (o.Aborted? <==> GetPlan in env.faults) && (GetPlan !in env.faults ==> o.Done?)
  {
  }

  /** A status write that fails leaves the plan as it was, whatever has been written before it, and is retried. */
  lemma LostStatusIsRetried(parse: Webhook.Parser, plan: Plan, c: Cluster, env: Env, s': Store, o: Outcome)
    requires !plan.deleting && "upgradeplan.lifecycle.suse.com/finalizer" in plan.finalizers && GetPlan !in env.faults
    requires ReconcileStep(parse, Store(Some(plan), c), env, s', o)
    ensures s'.cluster == NormalPass(plan, c, env).cluster
    ensures WriteStatus in env.faults ==> s'.plan == Some(plan) && o.Aborted?
    ensures WriteStatus !in env.faults ==>
      s'.plan == Some(plan.(status := NormalPass(plan, c, env).status)) && o == NormalPass(plan, c, env).outcome
  {
  }
}
