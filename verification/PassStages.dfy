/**
 * The stages of one pass over a live upgrade plan: which it gets to, and what stored plans and rollouts they rest on.
 */
module PassStages {
  import opened Prelude
  import opened Api
  import opened Names
  import opened Nodes
  import opened Pass
  import opened Stages

  /** The part of `reconcileNormal` a pass gets to. */
  datatype Stage =
    | NoStage | ManifestStage | InvalidStage | ResetStage
    | OsStage | KubernetesStage | ChartStage(i: nat) | CompletedStage

  function Manifest(plan: Plan, c: Cluster): Option<Release> {
    FindManifest(c.manifests, plan.spec.releaseVersion)
  }

  function StageOf(plan: Plan, c: Cluster, env: Env): Stage {
    if ListManifests in env.faults then NoStage
    else if Manifest(plan, c).None? then ManifestStage
    else if ListNodes in env.faults then NoStage
    else if Unsupported(c.nodes, Supported(Manifest(plan, c).value.os.supportedArchs)) != [] then InvalidStage
    else if plan.status.observedGeneration != plan.generation then ResetStage
    else StageAfter(plan.status, Manifest(plan, c).value)
  }

  function StageAfter(st: Status, release: Release): (s: Stage)
    ensures s.ChartStage? ==> s.i < |release.charts|
  {
    if !IsTrue(st, OsUpgraded) then OsStage
    else if !IsTrue(st, KubernetesUpgraded) then KubernetesStage
    else if FirstUnfinished(release.charts, st) < |release.charts| then ChartStage(FirstUnfinished(release.charts, st))
    else CompletedStage
  }

  lemma PassOfStage(plan: Plan, c: Cluster, env: Env)
    ensures
      var p := NormalPass(plan, c, env);
      var s := StageOf(plan, c, env);
      && (!s.NoStage? && !s.ManifestStage? ==> Manifest(plan, c).Some?)
      && match s
         case NoStage => p == Pass(plan.status, c, Aborted)
         case ManifestStage => p == ManifestJobPass(plan, c, env.faults)
         case InvalidStage =>
           p == Pass(Set(plan.status, ValidationFailed, Condition(True, UnsupportedArchitecture)), c, Done)
         case ResetStage => p == ObservePass(plan, Manifest(plan, c).value, c, env.random)
         case OsStage => p == OsPass(plan, Manifest(plan, c).value, c, env.faults)
         case KubernetesStage => p == KubernetesPass(plan, Manifest(plan, c).value, c, env.faults)
         case ChartStage(i) => i < |Manifest(plan, c).value.charts| &&
           p == ChartPass(plan, Manifest(plan, c).value.charts[i], c, env.faults)
         case CompletedStage =>
           p == Pass(plan.status.(lastSuccessfulReleaseVersion := Manifest(plan, c).value.releaseVersion), c, Done)
  {
  }

  /** The found manifest is for the version asked for. */
  lemma {:induction false} ManifestHasVersion(manifests: seq<Release>, version: string)
    requires FindManifest(manifests, version).Some?
    ensures FindManifest(manifests, version).value.releaseVersion == version
    ensures FindManifest(manifests, version).value in manifests
  {
    if manifests[0].releaseVersion != version { ManifestHasVersion(manifests[1..], version); }
  }

  // ---- stored plans ----

  /** A stored plan under a name of the generation observed selects the role its name says, whoever stored it. */
  ghost predicate StoredSelectors(plan: Plan, c: Cluster) {
    plan.status.observedGeneration == plan.generation ==>
      forall n | n in c.sucPlans && PlanNameOf(n, plan.status.sucNameSuffix) :: SelectorFits(n, c.sucPlans[n])
  }

  predicate SelectorFits(name: string, p: SucPlan) {
    && (ControlPlaneKey <= name ==> p.selector == ControlPlaneSelector)
    && (WorkersKey <= name ==> p.selector == WorkerSelector)
  }

  /** The plans of a stage carry their roles' names, selectors and the owner's labels. */
  ghost predicate WellBuilt(r: Rollout, plan: Plan) {
    && (exists stem :: r.controlPlaneName == PlanName(ControlPlaneKey, stem, plan.status.sucNameSuffix)
                    && r.workerName == PlanName(WorkersKey, stem, plan.status.sucNameSuffix))
    && r.controlPlane.selector == ControlPlaneSelector && r.worker.selector == WorkerSelector
    && OwnedBy(r.controlPlane.labels, plan) && OwnedBy(r.worker.labels, plan)
    && r.controlPlane.applying == [] && r.worker.applying == []
  }

  lemma RolloutsWellBuilt(plan: Plan, release: Release, d: Distribution, nodes: seq<Node>)
    ensures WellBuilt(OsRollout(plan, release, nodes), plan)
    ensures WellBuilt(KubernetesRollout(plan, d, nodes), plan)
  {
    var suffix := plan.status.sucNameSuffix;
    assert PlanNameLabel != OsUpgradeLabel && PlanNamespaceLabel != OsUpgradeLabel by {
      assert |PlanNameLabel| != |OsUpgradeLabel| && |PlanNamespaceLabel| != |OsUpgradeLabel|;
    }
    assert PlanNameLabel != KubernetesUpgradeLabel && PlanNamespaceLabel != KubernetesUpgradeLabel by {
      assert |PlanNameLabel| != |KubernetesUpgradeLabel| && |PlanNamespaceLabel| != |KubernetesUpgradeLabel|;
    }
    assert PlanNameLabel != PlanNamespaceLabel by { assert |PlanNameLabel| != |PlanNamespaceLabel|; }
    var osStem, k8sStem := OsStem(release.os.zypperID, release.os.version), KubernetesStem(d.version);
    assert OsRollout(plan, release, nodes).controlPlaneName == PlanName(ControlPlaneKey, osStem, suffix);
    assert KubernetesRollout(plan, d, nodes).controlPlaneName == PlanName(ControlPlaneKey, k8sStem, suffix);
  }

  lemma NamesStartWithRole(stem: string, suffix: string)
    ensures ControlPlaneKey <= PlanName(ControlPlaneKey, stem, suffix) &&
      !(WorkersKey <= PlanName(ControlPlaneKey, stem, suffix))
    ensures WorkersKey <= PlanName(WorkersKey, stem, suffix) && !(ControlPlaneKey <= PlanName(WorkersKey, stem, suffix))
  {
    PlanNameParts(ControlPlaneKey, stem, suffix);
    PlanNameParts(WorkersKey, stem, suffix);
    assert PlanName(ControlPlaneKey, stem, suffix)[0] == 'c' && PlanName(WorkersKey, stem, suffix)[0] == 'w';
    assert ControlPlaneKey[0] == 'c' && WorkersKey[0] == 'w';
  }

  lemma BuiltFits(r: Rollout, plan: Plan)
    requires WellBuilt(r, plan)
    ensures SelectorFits(r.controlPlaneName, r.controlPlane) && SelectorFits(r.workerName, r.worker)
    ensures ControlPlaneKey <= r.controlPlaneName && WorkersKey <= r.workerName
    ensures PlanNameOf(r.controlPlaneName, plan.status.sucNameSuffix) &&
      PlanNameOf(r.workerName, plan.status.sucNameSuffix)
  {
    var stem :| r.controlPlaneName == PlanName(ControlPlaneKey, stem, plan.status.sucNameSuffix)
             && r.workerName == PlanName(WorkersKey, stem, plan.status.sucNameSuffix);
    NamesStartWithRole(stem, plan.status.sucNameSuffix);
  }

  lemma BuiltSelectors(r: Rollout, plan: Plan, c: Cluster)
    requires WellBuilt(r, plan) && StoredSelectors(plan, c) && plan.status.observedGeneration == plan.generation
    ensures StageSelectors(r, c)
  {
    BuiltFits(r, plan);
  }

  /** The node stage of the pass, when it is in one. */
  function RolloutOf(plan: Plan, c: Cluster, s: Stage): Option<Rollout>
  {
    if Manifest(plan, c).None? then None
    else
      var release := Manifest(plan, c).value;
      match s
      case OsStage => Some(OsRollout(plan, release, c.nodes))
      case KubernetesStage =>
        var d := TargetDistribution(c.nodes, release.kubernetes);
        if d.None? then None else Some(KubernetesRollout(plan, d.value, c.nodes))
      case _ => None
  }

  function OsSecret(plan: Plan, c: Cluster): string {
    if Manifest(plan, c).None? then ""
    else OsSecretName(Manifest(plan, c).value.os.zypperID, Manifest(plan, c).value.os.version,
      plan.status.sucNameSuffix)
  }

  /** What a node stage writes and how it changes the status: nothing, the secret, or what its rollout does. */
  ghost predicate StageEffect(plan: Plan, c: Cluster, s: Stage, faults: set<ApiCall>, p: Pass) {
    || (p.cluster == c && p.status == plan.status)
    || (s.OsStage? && OsSecret(plan, c) !in c.secrets && p.status == plan.status
        && p.cluster == c.(secrets := c.secrets[OsSecret(plan, c) := OwnerLabels(plan)]))
    || (RolloutOf(plan, c, s).Some? && RolloutPassOf(plan, c, RolloutOf(plan, c, s).value, faults, p))
  }

  ghost predicate RolloutPassOf(plan: Plan, c: Cluster, r: Rollout, faults: set<ApiCall>, p: Pass) {
    && WellBuilt(r, plan) && StageSelectors(r, c)
    && p == RolloutPass(r, plan.status, c, faults)
    && RolloutWrite(r, c, p.cluster) && RolloutStatus(r, plan.status, c, faults, p.status)
  }

  lemma RolloutPassOfBuilt(plan: Plan, c: Cluster, r: Rollout, faults: set<ApiCall>)
    requires StoredSelectors(plan, c) && plan.status.observedGeneration == plan.generation && WellBuilt(r, plan)
    ensures RolloutPassOf(plan, c, r, faults, RolloutPass(r, plan.status, c, faults))
  {
    BuiltSelectors(r, plan, c);
    RolloutEffect(r, plan.status, c, faults);
  }

  lemma OsStageEffect(plan: Plan, c: Cluster, faults: set<ApiCall>)
    requires StoredSelectors(plan, c) && plan.status.observedGeneration == plan.generation && Manifest(plan, c).Some?
    ensures StageEffect(plan, c, OsStage, faults, OsPass(plan, Manifest(plan, c).value, c, faults))
  {
    var release := Manifest(plan, c).value;
    RolloutsWellBuilt(plan, release, Distribution("", []), c.nodes);
    RolloutPassOfBuilt(plan, c, OsRollout(plan, release, c.nodes), faults);
  }

  lemma KubernetesStageEffect(plan: Plan, c: Cluster, faults: set<ApiCall>)
    requires StoredSelectors(plan, c) && plan.status.observedGeneration == plan.generation && Manifest(plan, c).Some?
    ensures StageEffect(plan, c, KubernetesStage, faults, KubernetesPass(plan, Manifest(plan, c).value, c, faults))
  {
    var release := Manifest(plan, c).value;
    var d := TargetDistribution(c.nodes, release.kubernetes);
    if d.Some? {
      RolloutsWellBuilt(plan, release, d.value, c.nodes);
      RolloutPassOfBuilt(plan, c, KubernetesRollout(plan, d.value, c.nodes), faults);
    }
  }

  lemma NodeStageEffect(plan: Plan, c: Cluster, env: Env)
    requires StoredSelectors(plan, c) && (StageOf(plan, c, env).OsStage? || StageOf(plan, c, env).KubernetesStage?)
    ensures StageEffect(plan, c, StageOf(plan, c, env), env.faults, NormalPass(plan, c, env))
  {
    PassOfStage(plan, c, env);
    if StageOf(plan, c, env).OsStage? {
      OsStageEffect(plan, c, env.faults);
    } else {
      KubernetesStageEffect(plan, c, env.faults);
    }
  }
}
