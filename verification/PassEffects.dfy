/** What one pass may write and how it may change the status. */
module PassEffects {
  import opened Prelude
  import opened Api
  import opened Names
  import opened Pass
  import opened Stages
  import opened PassStages

  // ---- one external write ----

  /** An object outside the upgrade plan that a pass may write. */
  datatype Object =
    | JobObject(name: string) | SecretObject(name: string) | SucPlanObject(name: string) | ChartObject(name: string)

  /** `c'` is `c` but for one object; only a HelmChart may have been there before. */
  ghost predicate OnlyWrites(c: Cluster, c': Cluster, o: Object) {
    match o
    case JobObject(n) =>
      n !in c.manifestJobs && n in c'.manifestJobs &&
      c' == c.(manifestJobs := c.manifestJobs[n := c'.manifestJobs[n]])
    case SecretObject(n) => n !in c.secrets && n in c'.secrets && c' == c.(secrets := c.secrets[n := c'.secrets[n]])
    case SucPlanObject(n) =>
      n !in c.sucPlans && n in c'.sucPlans &&
      c' == c.(sucPlans := c.sucPlans[n := c'.sucPlans[n]])
    case ChartObject(n) => n in c'.charts && c' == c.(charts := c.charts[n := c'.charts[n]])
  }

  /** A written object belongs to the plan. */
  ghost predicate WrittenOwned(plan: Plan, c': Cluster, o: Object) {
    match o
    case JobObject(n) => n in c'.manifestJobs && OwnedBy(c'.manifestJobs[n].labels, plan)
    case SecretObject(n) => n in c'.secrets && OwnedBy(c'.secrets[n], plan)
    case SucPlanObject(n) => n in c'.sucPlans && OwnedBy(c'.sucPlans[n].labels, plan) && SelectorFits(n, c'.sucPlans[n])
    case ChartObject(n) => n in c'.charts && OwnedBy(c'.charts[n].labels, plan)
  }

  lemma OwnerLabelsOwned(plan: Plan)
    ensures OwnedBy(OwnerLabels(plan), plan)
  {
    assert PlanNameLabel != PlanNamespaceLabel by { assert |PlanNameLabel| != |PlanNamespaceLabel|; }
  }

  lemma ChartPassWrite(plan: Plan, entry: ReleaseChart, c: Cluster, faults: set<ApiCall>) returns (k: nat)
    requires ChartPass(plan, entry, c, faults).cluster != c
    ensures k < |Positions(entry)| && Reaches(plan, entry, k, c, faults)
    ensures UpgradeChart(plan, Positions(entry)[k], c, faults).cluster == ChartPass(plan, entry, c, faults).cluster
    ensures ChartWrite(plan, Positions(entry)[k], c, UpgradeChart(plan, Positions(entry)[k], c, faults))
  {
    k := ChartPassEndsAt(plan, entry, c, faults);
    if k < |Positions(entry)| {
      UpgradeChartEffect(plan, Positions(entry)[k], c, faults);
    }
  }

  lemma RolloutObject(plan: Plan, r: Rollout, c: Cluster, c': Cluster) returns (o: Object)
    requires WellBuilt(r, plan) && RolloutWrite(r, c, c') && c' != c
    ensures OnlyWrites(c, c', o) && WrittenOwned(plan, c', o) && o.SucPlanObject?
  {
    BuiltFits(r, plan);
    o := SucPlanObject(if r.controlPlaneName !in c.sucPlans then r.controlPlaneName else r.workerName);
  }

  lemma StageObject(plan: Plan, c: Cluster, s: Stage, faults: set<ApiCall>, p: Pass) returns (o: Object)
    requires StageEffect(plan, c, s, faults, p) && p.cluster != c
    ensures OnlyWrites(c, p.cluster, o) && WrittenOwned(plan, p.cluster, o)
  {
    var secrets := c.secrets[OsSecret(plan, c) := OwnerLabels(plan)];
    if s.OsStage? && p.cluster == c.(secrets := secrets) && OsSecret(plan, c) !in c.secrets {
      OwnerLabelsOwned(plan);
      o := SecretObject(OsSecret(plan, c));
    } else {
      o := RolloutObject(plan, RolloutOf(plan, c, s).value, c, p.cluster);
    }
  }

  /**
   * A pass that writes anything writes one object, labelled with its owner; it never overwrites a plan, secret or job.
   */
  lemma OneObjectPerPass(plan: Plan, c: Cluster, env: Env) returns (o: Object)
    requires StoredSelectors(plan, c) && NormalPass(plan, c, env).cluster != c
    ensures OnlyWrites(c, NormalPass(plan, c, env).cluster, o) &&
      WrittenOwned(plan, NormalPass(plan, c, env).cluster, o)
  {
    var s := StageOf(plan, c, env);
    PassOfStage(plan, c, env);
    if s.OsStage? || s.KubernetesStage? {
      NodeStageEffect(plan, c, env);
      o := StageObject(plan, c, s, env.faults, NormalPass(plan, c, env));
    } else if s.ChartStage? {
      var entry := Manifest(plan, c).value.charts[s.i];
      var k := ChartPassWrite(plan, entry, c, env.faults);
      o := ChartObject(Positions(entry)[k].releaseName);
    } else {
      OwnerLabelsOwned(plan);
      o := JobObject(ManifestJobName(plan.spec.releaseVersion));
    }
  }

  // ---- how a pass changes the status ----

  /** A new generation is opened: a different suffix, and every tracked condition pending. */
  ghost predicate IsReset(plan: Plan, release: Release, st': Status) {
    && st'.observedGeneration == plan.generation
    && st'.lastSuccessfulReleaseVersion == plan.status.lastSuccessfulReleaseVersion
    && st'.sucNameSuffix != plan.status.sucNameSuffix && |st'.sucNameSuffix| == 10
    && (forall t :: t in Tracked(release) ==> t in st'.conditions && st'.conditions[t] == PendingCondition)
    && (forall t :: t !in Tracked(release) ==> (t in st'.conditions <==> t in plan.status.conditions))
    && (forall t :: t !in Tracked(release) && t in st'.conditions ==> st'.conditions[t] == plan.status.conditions[t])
  }

  /** The condition types an upgrade to the release goes through. */
  function Tracked(release: Release): set<string> {
    {OsUpgraded, KubernetesUpgraded} + set chart | chart in release.charts :: ChartType(chart)
  }

  lemma {:induction false} AllPending(st: Status, charts: seq<ReleaseChart>)
    ensures var st' := SetAllPending(st, charts); var ts := set chart | chart in charts :: ChartType(chart);
      && st' == st.(conditions := st'.conditions)
      && st'.conditions.Keys == st.conditions.Keys + ts
      && (forall t :: t in st'.conditions ==>
        st'.conditions[t] == if t in ts then PendingCondition else st.conditions[t])
  {
    if charts != [] {
      AllPending(st, charts[..|charts| - 1]);
      assert charts == charts[..|charts| - 1] + [charts[|charts| - 1]];
    }
  }

  lemma ResetOpensGeneration(plan: Plan, release: Release, c: Cluster, random: Option<Draw>)
    ensures var p := ObservePass(plan, release, c, random);
      p.cluster == c && (p.status == plan.status || (IsReset(plan, release, p.status) && p.outcome == Requeue))
    ensures random.Some? && HexEncode(random.value) != plan.status.sucNameSuffix ==>
      IsReset(plan, release, ObservePass(plan, release, c, random).status)
  {
    if random.Some? {
      HexLength(random.value);
      var observed := plan.status.(sucNameSuffix := HexEncode(random.value), observedGeneration := plan.generation);
      AllPending(Set(Set(observed, OsUpgraded, PendingCondition), KubernetesUpgraded, PendingCondition),
      release.charts);
    }
  }

  /** One condition is set to one of the values the stage may give it. */
  ghost predicate Sets(st: Status, t: string, allowed: set<Condition>, st': Status) {
    exists x :: x in allowed && st' == Set(st, t, x)
  }

  const StageConditions: set<Condition> := {InProgressCondition, SuccessfulCondition}
  const ChartConditions: set<Condition> :=
    {InProgressCondition, SuccessfulCondition, FailedCondition, SkippedCondition, ErrorCondition}

  ghost predicate StatusMove(plan: Plan, c: Cluster, s: Stage, st': Status) {
    st' == plan.status ||
    match s
    case NoStage => false
    case ManifestStage => false
    case InvalidStage => st' == Set(plan.status, ValidationFailed, Condition(True, UnsupportedArchitecture))
    case ResetStage => Manifest(plan, c).Some? && IsReset(plan, Manifest(plan, c).value, st')
    case OsStage => Sets(plan.status, OsUpgraded, StageConditions, st')
    case KubernetesStage => Sets(plan.status, KubernetesUpgraded, StageConditions, st')
    case ChartStage(i) =>
      Manifest(plan, c).Some? && i < |Manifest(plan, c).value.charts| &&
      Sets(plan.status, ChartType(Manifest(plan, c).value.charts[i]), ChartConditions, st')
    case CompletedStage =>
      Manifest(plan, c).Some? &&
      st' == plan.status.(lastSuccessfulReleaseVersion := plan.spec.releaseVersion)
  }

  lemma NodeStageStatus(r: Rollout, st: Status, c: Cluster, faults: set<ApiCall>, st': Status)
    requires RolloutStatus(r, st, c, faults, st')
    ensures st' == st || Sets(st, r.conditionType, StageConditions, st')
  {
  }

  lemma ChartStatus(plan: Plan, entry: ReleaseChart, c: Cluster, faults: set<ApiCall>)
    ensures var st' := ChartPass(plan, entry, c, faults).status;
      st' == plan.status || Sets(plan.status, ChartType(entry), ChartConditions, st')
  {
    var k := ChartPassEndsAt(plan, entry, c, faults);
    var v := Verdict(plan, entry, k, c, faults);
    if v.0.Some? { assert v.0.value in ChartConditions; }
  }

  /** Every status a pass can end with. */
  lemma PassStatus(plan: Plan, c: Cluster, env: Env)
    requires StoredSelectors(plan, c)
    ensures StatusMove(plan, c, StageOf(plan, c, env), NormalPass(plan, c, env).status)
  {
    var s := StageOf(plan, c, env);
    var st' := NormalPass(plan, c, env).status;
    PassOfStage(plan, c, env);
    match s {
      case ResetStage => ResetOpensGeneration(plan, Manifest(plan, c).value, c, env.random);
      case ChartStage(i) => ChartStatus(plan, Manifest(plan, c).value.charts[i], c, env.faults);
      case CompletedStage => ManifestHasVersion(c.manifests, plan.spec.releaseVersion);
      case OsStage => StageStatus(plan, c, env);
      case KubernetesStage => StageStatus(plan, c, env);
      case _ =>
    }
  }

  lemma StageStatus(plan: Plan, c: Cluster, env: Env)
    requires StoredSelectors(plan, c) && (StageOf(plan, c, env).OsStage? || StageOf(plan, c, env).KubernetesStage?)
    ensures StatusMove(plan, c, StageOf(plan, c, env), NormalPass(plan, c, env).status)
  {
    NodeStageEffect(plan, c, env);
    var st' := NormalPass(plan, c, env).status;
    var r := RolloutOf(plan, c, StageOf(plan, c, env));
    if st' != plan.status {
      NodeStageStatus(r.value, plan.status, c, env.faults, st');
    }
  }
}
