/** The guarantees of one pass, stated on the status and cluster it starts from and the ones it leaves. */
module PassGuarantees {
  import opened Api
  import opened Nodes
  import opened Pass
  import opened Stages
  import opened Components
  import opened PassStages
  import opened PassEffects

  // ---- success is honest ----

  /** The list has a control-plane node, and every listed node is ready, schedulable and at the target. */
  ghost predicate EveryNodeUp(nodes: seq<Node>, target: Nodes.Target) {
    (exists n :: n in nodes && IsControlPlane(n)) && AllAt(nodes, target)
  }

  lemma StageDoneMeansEveryNode(r: Rollout, c: Cluster, faults: set<ApiCall>)
    requires StageDone(r, c, faults)
    ensures EveryNodeUp(c.nodes, r.target)
    ensures r.gate.Some? ==> forall x | x in r.gate.value :: AbsentOrUpgraded(x, c)
  {
    AllUpgradedMeans(c.nodes, r.target);
    var n := Matching(c.nodes, ControlPlaneSelector)[0];
    MatchingIsFilter(c.nodes, ControlPlaneSelector, n);
    SelectorsMeanRoles(n);
    assert n in c.nodes && IsControlPlane(n);
    if r.gate.Some? {
      ScanIsExact(r.gate.value, c, faults);
      forall x | x in r.gate.value ensures AbsentOrUpgraded(x, c) {
        SettledMeans(x, c, faults);
      }
    }
  }

  /** A node stage whose condition turns true is done for every node and every core component. */
  ghost predicate StageSucceeded(plan: Plan, c: Cluster, env: Env) {
    var s := StageOf(plan, c, env);
    (s.OsStage? || s.KubernetesStage?) && RolloutOf(plan, c, s).Some? &&
    StageDone(RolloutOf(plan, c, s).value, c, env.faults)
  }

  lemma SuccessNeedsStageDone(plan: Plan, c: Cluster, env: Env, t: string)
    requires StoredSelectors(plan, c) && t in {OsUpgraded, KubernetesUpgraded}
    requires !IsTrue(plan.status, t) && IsTrue(NormalPass(plan, c, env).status, t)
    ensures StageSucceeded(plan, c, env) &&
      StageOf(plan, c, env) == if t == OsUpgraded then OsStage else KubernetesStage
  {
    var s := StageOf(plan, c, env);
    var st' := NormalPass(plan, c, env).status;
    PassStatus(plan, c, env);
    if s.OsStage? || s.KubernetesStage? {
      NodeStageEffect(plan, c, env);
      var r := RolloutOf(plan, c, s);
      assert r.Some? && r.value.conditionType == if s.OsStage? then OsUpgraded else KubernetesUpgraded;
      assert RolloutStatus(r.value, plan.status, c, env.faults, st');
    }
  }

  /** `OSUpgraded` becomes true only over a node list that is upgraded throughout, control plane included. */
  lemma OsSuccessMeansEveryNode(plan: Plan, c: Cluster, env: Env)
    requires StoredSelectors(plan, c)
    requires !IsTrue(plan.status, OsUpgraded) && IsTrue(NormalPass(plan, c, env).status, OsUpgraded)
    ensures Manifest(plan, c).Some? && EveryNodeUp(c.nodes, OsImage(Manifest(plan, c).value.os.prettyName))
  {
    SuccessNeedsStageDone(plan, c, env, OsUpgraded);
    StageDoneMeansEveryNode(RolloutOf(plan, c, OsStage).value, c, env.faults);
  }

  /** `KubernetesUpgraded` likewise, and only when every core component is absent or upgraded in that pass. */
  lemma KubernetesSuccessMeansEveryNode(plan: Plan, c: Cluster, env: Env)
    requires StoredSelectors(plan, c)
    requires !IsTrue(plan.status, KubernetesUpgraded) && IsTrue(NormalPass(plan, c, env).status, KubernetesUpgraded)
    ensures Manifest(plan, c).Some? &&
      var d := TargetDistribution(c.nodes, Manifest(plan, c).value.kubernetes);
      d.Some? && EveryNodeUp(c.nodes, KubeletVersion(d.value.version)) &&
      forall x | x in d.value.coreComponents :: AbsentOrUpgraded(x, c)
  {
    SuccessNeedsStageDone(plan, c, env, KubernetesUpgraded);
    StageDoneMeansEveryNode(RolloutOf(plan, c, KubernetesStage).value, c, env.faults);
  }

  // ---- terminal conditions ----

  /** A node stage ends by succeeding, a chart by succeeding, being skipped or failing. */
  predicate Terminal(st: Status, t: string) {
    if t in {OsUpgraded, KubernetesUpgraded} then IsTrue(st, t) else ChartFinished(st, t)
  }

  /** Within one observed generation no pass changes a condition that has ended. */
  lemma TerminalConditionsStay(plan: Plan, c: Cluster, env: Env, t: string)
    requires StoredSelectors(plan, c) && t != ValidationFailed && Terminal(plan.status, t)
    requires NormalPass(plan, c, env).status.observedGeneration == plan.status.observedGeneration
    ensures var st' := NormalPass(plan, c, env).status;
            t in st'.conditions && st'.conditions[t] == plan.status.conditions[t]
  {
    PassStatus(plan, c, env);
    assert OsUpgraded != KubernetesUpgraded by { assert |OsUpgraded| != |KubernetesUpgraded|; }
  }

  /**
   * The last successful version is written only at the end: this generation observed, every tracked condition ended.
   */
  lemma VersionWrittenOnlyAtTheEnd(plan: Plan, c: Cluster, env: Env)
    requires StoredSelectors(plan, c)
    requires NormalPass(plan, c, env).status.lastSuccessfulReleaseVersion != plan.status.lastSuccessfulReleaseVersion
    ensures NormalPass(plan, c, env).status.lastSuccessfulReleaseVersion == plan.spec.releaseVersion
    ensures plan.status.observedGeneration == plan.generation
    ensures Manifest(plan, c).Some? && forall t :: t in Tracked(Manifest(plan, c).value) ==> Terminal(plan.status, t)
  {
    PassStatus(plan, c, env);
    assert StageOf(plan, c, env).CompletedStage?;
    AllTrackedTerminal(plan.status, Manifest(plan, c).value);
  }

  lemma AllTrackedTerminal(st: Status, release: Release)
    requires StageAfter(st, release).CompletedStage?
    ensures forall t :: t in Tracked(release) ==> Terminal(st, t)
  {
    forall t | t in Tracked(release) ensures Terminal(st, t) {
      if t !in {OsUpgraded, KubernetesUpgraded} {
        var chart :| chart in release.charts && ChartType(chart) == t;
        var j :| 0 <= j < |release.charts| && release.charts[j] == chart;
        assert ChartFinished(st, ChartType(release.charts[j]));
      }
    }
  }

  // ---- order of stages ----

  /** A plan that is new in `c'`. */
  predicate NewPlan(c: Cluster, c': Cluster, n: string) {
    n in c'.sucPlans && n !in c.sucPlans
  }

  /** `n` is the control-plane plan of the stage, or its worker plan behind an upgraded control plane. */
  ghost predicate PlanOf(r: Rollout, c: Cluster, n: string, p: SucPlan) {
    || (n == r.controlPlaneName && p == r.controlPlane)
    || (n == r.workerName && p == r.worker && ControlPlaneUp(r, c) && !ControlPlaneOnly(c.nodes))
  }

  lemma RolloutNewPlan(r: Rollout, c: Cluster, c': Cluster, n: string)
    requires RolloutWrite(r, c, c') && NewPlan(c, c', n)
    ensures PlanOf(r, c, n, c'.sucPlans[n])
  {
  }

  lemma StageNewPlan(plan: Plan, c: Cluster, s: Stage, faults: set<ApiCall>, p: Pass, n: string)
    requires StageEffect(plan, c, s, faults, p) && NewPlan(c, p.cluster, n)
    ensures RolloutOf(plan, c, s).Some? && WellBuilt(RolloutOf(plan, c, s).value, plan)
    ensures PlanOf(RolloutOf(plan, c, s).value, c, n, p.cluster.sucPlans[n])
  {
    var r := RolloutOf(plan, c, s);
    assert p.cluster.sucPlans != c.sucPlans;
    assert r.Some? && RolloutPassOf(plan, c, r.value, faults, p);
    RolloutNewPlan(r.value, c, p.cluster, n);
  }

  lemma NodeStageKeepsCharts(plan: Plan, c: Cluster, s: Stage, faults: set<ApiCall>, p: Pass)
    requires StageEffect(plan, c, s, faults, p)
    ensures p.cluster.charts == c.charts
  {
  }

  lemma OtherStagesKeepPlans(plan: Plan, c: Cluster, env: Env)
    requires !StageOf(plan, c, env).OsStage? && !StageOf(plan, c, env).KubernetesStage?
    ensures NormalPass(plan, c, env).cluster.sucPlans == c.sucPlans
    ensures NormalPass(plan, c, env).cluster.secrets == c.secrets
  {
    var s := StageOf(plan, c, env);
    PassOfStage(plan, c, env);
    if s.ChartStage? {
      var entry := Manifest(plan, c).value.charts[s.i];
      if ChartPass(plan, entry, c, env.faults).cluster != c {
        var k := ChartPassWrite(plan, entry, c, env.faults);
      }
    }
  }

  lemma NewPlanComesFromRollout(plan: Plan, c: Cluster, env: Env, n: string)
    requires StoredSelectors(plan, c) && NewPlan(c, NormalPass(plan, c, env).cluster, n)
    ensures StageOf(plan, c, env).OsStage? || StageOf(plan, c, env).KubernetesStage?
    ensures var r := RolloutOf(plan, c, StageOf(plan, c, env));
      r.Some? && WellBuilt(r.value, plan) && PlanOf(r.value, c, n, NormalPass(plan, c, env).cluster.sucPlans[n])
  {
    var s := StageOf(plan, c, env);
    if s.OsStage? || s.KubernetesStage? {
      NodeStageEffect(plan, c, env);
      StageNewPlan(plan, c, s, env.faults, NormalPass(plan, c, env), n);
    } else {
      OtherStagesKeepPlans(plan, c, env);
    }
  }

  /** A plan labelled for Kubernetes is created only once the OS stage of this very generation has succeeded. */
  lemma KubernetesPlansComeAfterOs(plan: Plan, c: Cluster, env: Env, n: string)
    requires StoredSelectors(plan, c) && NewPlan(c, NormalPass(plan, c, env).cluster, n)
    requires KubernetesUpgradeLabel in NormalPass(plan, c, env).cluster.sucPlans[n].labels
    ensures StageOf(plan, c, env).KubernetesStage?
    ensures IsTrue(plan.status, OsUpgraded) && plan.status.observedGeneration == plan.generation
  {
    NewPlanComesFromRollout(plan, c, env, n);
    LabelsOfStages(plan);
  }

  lemma LabelsOfStages(plan: Plan)
    ensures KubernetesUpgradeLabel !in OwnerLabels(plan) && KubernetesUpgradeLabel != OsUpgradeLabel
  {
    assert |KubernetesUpgradeLabel| != |PlanNameLabel| && |KubernetesUpgradeLabel| != |PlanNamespaceLabel|;
    assert |KubernetesUpgradeLabel| != |OsUpgradeLabel|;
  }

  /** A plan for workers is created only when the control plane has a node and all of it is at the target. */
  lemma WorkerPlansComeAfterControlPlane(plan: Plan, c: Cluster, env: Env, n: string)
    requires StoredSelectors(plan, c) && NewPlan(c, NormalPass(plan, c, env).cluster, n)
    requires NormalPass(plan, c, env).cluster.sucPlans[n].selector == WorkerSelector
    ensures (exists m :: m in c.nodes && IsControlPlane(m)) && (exists m :: m in c.nodes && !IsControlPlane(m))
    ensures RolloutOf(plan, c, StageOf(plan, c, env)).Some?
    ensures forall m | m in c.nodes && IsControlPlane(m) ::
      NodeAt(m, RolloutOf(plan, c, StageOf(plan, c, env)).value.target)
  {
    NewPlanComesFromRollout(plan, c, env, n);
    assert ControlPlaneSelector[0].operator != WorkerSelector[0].operator;
    var r := RolloutOf(plan, c, StageOf(plan, c, env)).value;
    var m0 := Matching(c.nodes, ControlPlaneSelector)[0];
    MatchingIsFilter(c.nodes, ControlPlaneSelector, m0);
    SelectorsMeanRoles(m0);
    assert m0 in c.nodes && IsControlPlane(m0);
    forall m | m in c.nodes && IsControlPlane(m) ensures NodeAt(m, r.target) {
      NodeUpgradedMeans(m, r.target);
      SelectorsMeanRoles(m);
      MatchingIsFilter(c.nodes, ControlPlaneSelector, m);
    }
  }

  /** The entry a pass works on, and the position whose chart it writes. */
  ghost predicate WritesChartOf(plan: Plan, release: Release, c: Cluster, faults: set<ApiCall>, i: nat, k: nat,
      c': Cluster) {
    && i < |release.charts| && k < |Positions(release.charts[i])|
    && (forall j | 0 <= j < i :: ChartFinished(plan.status, ChartType(release.charts[j])))
    && !ChartFinished(plan.status, ChartType(release.charts[i]))
    && Reaches(plan, release.charts[i], k, c, faults)
    && var rc := Positions(release.charts[i])[k];
       && (rc.releaseName !in c.charts || c.charts[rc.releaseName].version != rc.version)
       && rc.releaseName in c'.charts && WrittenFor(c'.charts[rc.releaseName], plan, rc)
       && c' == c.(charts := c.charts[rc.releaseName := c'.charts[rc.releaseName]])
  }

  ghost predicate WritesChartInOrder(plan: Plan, c: Cluster, faults: set<ApiCall>, c': Cluster) {
    Manifest(plan, c).Some? && exists i, k :: WritesChartOf(plan, Manifest(plan, c).value, c, faults, i, k, c')
  }

  /**
   * A HelmChart is written only once both node stages have succeeded and all earlier entries have ended; within
   * the entry, only behind ready dependencies, a ready core and add-ons that are neither running nor unknown.
   */
  lemma ChartsComeInOrder(plan: Plan, c: Cluster, env: Env)
    requires StoredSelectors(plan, c) && NormalPass(plan, c, env).cluster.charts != c.charts
    ensures IsTrue(plan.status, OsUpgraded) && IsTrue(plan.status, KubernetesUpgraded)
    ensures plan.status.observedGeneration == plan.generation
    ensures WritesChartInOrder(plan, c, env.faults, NormalPass(plan, c, env).cluster)
  {
    var s := StageOf(plan, c, env);
    PassOfStage(plan, c, env);
    if s.OsStage? || s.KubernetesStage? {
      NodeStageEffect(plan, c, env);
      NodeStageKeepsCharts(plan, c, s, env.faults, NormalPass(plan, c, env));
    } else if s.ChartStage? {
      var release := Manifest(plan, c).value;
      var k := ChartPassWrite(plan, release.charts[s.i], c, env.faults);
      assert WritesChartOf(plan, release, c, env.faults, s.i, k, NormalPass(plan, c, env).cluster);
    }
  }
}
