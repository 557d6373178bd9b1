/** Bounded completion over runs: whatever else happens, enough cooperative reconciles complete the upgrade. */
module RunCompletion {
  import opened Prelude
  import opened Api
  import opened Pass
  import opened Reconcile
  import opened Stages
  import opened PassStages
  import opened PassEffects
  import opened PassGuarantees
  import opened Runs
  import opened RunInvariants
  import opened RunTheorems
  import opened Completion

  // ---- no pass raises the measure ----

  lemma {:induction false} WorkNeverGrows(charts: seq<ReleaseChart>, st: Status, st': Status, c: Cluster, c': Cluster)
    requires forall j | 0 <= j < |charts| && ChartFinished(st, ChartType(charts[j])) ::
      ChartFinished(st', ChartType(charts[j]))
    requires NoneUnwritten(charts, st, c, c')
    ensures ChartWork(charts, st', c') <= ChartWork(charts, st, c)
  {
    if charts != [] {
      if ChartFinished(st, ChartType(charts[0])) {
        assert ChartFinished(st', ChartType(charts[0]));
        forall j | 0 <= j < |charts[1..]| && ChartFinished(st, ChartType(charts[1..][j]))
          ensures ChartFinished(st', ChartType(charts[1..][j]))
        {
          assert charts[1..][j] == charts[j + 1];
        }
        WorkNeverGrows(charts[1..], st, st', c, c');
      } else {
        WorkAtMost(charts[1..], st', c');
      }
    }
  }

  /** Conditions of an observed generation that have ended stay so, in memory as in the status written back. */
  ghost predicate EndedStay(st: Status, st': Status) {
    && st'.observedGeneration == st.observedGeneration && st'.sucNameSuffix == st.sucNameSuffix
    && forall t | t != ValidationFailed && Terminal(st, t) :: Terminal(st', t)
  }

  lemma PassKeepsEnded(plan: Plan, c: Cluster, env: Env)
    requires StoredSelectors(plan, c) && plan.status.observedGeneration == plan.generation
    ensures EndedStay(plan.status, NormalPass(plan, c, env).status)
  {
    var st' := NormalPass(plan, c, env).status;
    PassStatus(plan, c, env);
    forall t | t != ValidationFailed && Terminal(plan.status, t) ensures Terminal(st', t) {
      TerminalConditionsStay(plan, c, env, t);
    }
  }

  /** The entry under way, while there is one, has no more charts to be written than before. */
  ghost predicate NoneUnwritten(charts: seq<ReleaseChart>, st: Status, c: Cluster, c': Cluster) {
    var i := FirstUnfinished(charts, st);
    i < |charts| ==> UnwrittenCount(Positions(charts[i]), c') <= UnwrittenCount(Positions(charts[i]), c)
  }

  lemma WriteNeverUnwrites(plan: Plan, release: Release, c: Cluster, faults: set<ApiCall>, i: nat, k: nat, c': Cluster)
    requires WritesChartOf(plan, release, c, faults, i, k, c') && VersionsAgree(release.charts[i])
    ensures NoneUnwritten(release.charts, plan.status, c, c')
  {
    assert i == FirstUnfinished(release.charts, plan.status);
    WriteSettles(release.charts[i], k, c, c');
    NeverMore(Positions(release.charts[i]), c, c');
  }

  /** What a pass does to charts never takes a position of the entry under way off its version again. */
  lemma PassKeepsWritten(plan: Plan, release: Release, c: Cluster, env: Env)
    requires StoredSelectors(plan, c) && Manifest(plan, c) in {None, Some(release)}
    requires forall i | 0 <= i < |release.charts| :: VersionsAgree(release.charts[i])
    ensures NoneUnwritten(release.charts, plan.status, c, NormalPass(plan, c, env).cluster)
  {
    var c', n := NormalPass(plan, c, env).cluster, FirstUnfinished(release.charts, plan.status);
    if c'.charts != c.charts {
      ChartsComeInOrder(plan, c, env);
      WritesInOrderNeverUnwrite(plan, release, c, env.faults, c');
    } else if n < |release.charts| {
      NeverMore(Positions(release.charts[n]), c, c');
    }
  }

  lemma WritesInOrderNeverUnwrite(plan: Plan, release: Release, c: Cluster, faults: set<ApiCall>, c': Cluster)
    requires WritesChartInOrder(plan, c, faults, c') && Manifest(plan, c) == Some(release)
    requires forall i | 0 <= i < |release.charts| :: VersionsAgree(release.charts[i])
    ensures NoneUnwritten(release.charts, plan.status, c, c')
  {
    var i: nat, k: nat :| WritesChartOf(plan, release, c, faults, i, k, c');
    WriteNeverUnwrites(plan, release, c, faults, i, k, c');
  }

  /** The plans and secrets there stay, as far as passes go. */
  lemma PassKeepsObjects(plan: Plan, c: Cluster, env: Env)
    requires StoredSelectors(plan, c)
    ensures var c' := NormalPass(plan, c, env).cluster;
      c.sucPlans.Keys <= c'.sucPlans.Keys && c.secrets.Keys <= c'.secrets.Keys
  {
    if NormalPass(plan, c, env).cluster != c {
      var o := OneObjectPerPass(plan, c, env);
    }
  }

  lemma NodeWorkNeverGrows(st: Status, st': Status, release: Release, d: Distribution, c: Cluster, c': Cluster)
    requires EndedStay(st, st') && c.sucPlans.Keys <= c'.sucPlans.Keys && c.secrets.Keys <= c'.secrets.Keys
    ensures forall t | t in {OsUpgraded, KubernetesUpgraded} && IsTrue(st, t) :: IsTrue(st', t)
    ensures OsWork(st', release, c') <= OsWork(st, release, c) && KubernetesWork(st', d, c') <= KubernetesWork(st, d, c)
  {
    assert OsUpgraded != ValidationFailed && KubernetesUpgraded != ValidationFailed by {
      assert |OsUpgraded| != |ValidationFailed| && |KubernetesUpgraded| != |ValidationFailed|;
    }
    forall t | t in {OsUpgraded, KubernetesUpgraded} && IsTrue(st, t) ensures IsTrue(st', t) {
      assert Terminal(st, t);
    }
  }

  lemma FinishedChartsStay(plan: Plan, charts: seq<ReleaseChart>, st': Status)
    requires Orderly(plan) && plan.status.observedGeneration == plan.generation && EndedStay(plan.status, st')
    ensures forall j | 0 <= j < |charts| && ChartFinished(plan.status, ChartType(charts[j])) ::
      ChartFinished(st', ChartType(charts[j]))
  {
    forall j | 0 <= j < |charts| && ChartFinished(plan.status, ChartType(charts[j]))
      ensures ChartFinished(st', ChartType(charts[j]))
    {
      ChartConditionTypesDiffer(charts[j].prettyName, "");
      assert Terminal(plan.status, ChartType(charts[j]));
    }
  }

  /**
   * Once observed, what has ended stays, no chart is taken off its version, no object goes: the measure does not grow.
   */
  lemma MeasureNeverGrows(plan: Plan, release: Release, d: Distribution, c: Cluster, st': Status, c': Cluster)
    requires Orderly(plan) && plan.status.observedGeneration == plan.generation && EndedStay(plan.status, st')
    requires UpgradeComplete(plan, release) ==> st'.lastSuccessfulReleaseVersion == plan.spec.releaseVersion
    requires c.sucPlans.Keys <= c'.sucPlans.Keys && c.secrets.Keys <= c'.secrets.Keys
    requires NoneUnwritten(release.charts, plan.status, c, c')
    ensures Measure(plan.(status := st'), release, d, c') <= Measure(plan, release, d, c)
    ensures UpgradeComplete(plan, release) ==> UpgradeComplete(plan.(status := st'), release)
  {
    FinishedChartsStay(plan, release.charts, st');
    WorkNeverGrows(release.charts, plan.status, st', c, c');
    NodeWorkNeverGrows(plan.status, st', release, d, c, c');
  }

  /** A pass of any kind, faulty or not, its status written back or lost, does not raise the measure. */
  lemma NoPassRaisesTheMeasure(plan: Plan, release: Release, d: Distribution, c: Cluster, env: Env, s': Store)
    requires StoredSelectors(plan, c) && Orderly(plan) && Manifest(plan, c) in {None, Some(release)}
    requires forall i | 0 <= i < |release.charts| :: VersionsAgree(release.charts[i])
    requires AfterPass(plan, NormalPass(plan, c, env), s')
    ensures Measure(s'.plan.value, release, d, s'.cluster) <= Measure(plan, release, d, c)
    ensures UpgradeComplete(plan, release) ==> UpgradeComplete(s'.plan.value, release)
  {
    if plan.status.observedGeneration == plan.generation {
      PassKeepsEnded(plan, c, env);
      PassKeepsWritten(plan, release, c, env);
      PassKeepsObjects(plan, c, env);
      PassStatus(plan, c, env);
      MeasureNeverGrows(plan, release, d, c, s'.plan.value.status, s'.cluster);
    } else {
      MeasureAtMost(s'.plan.value, release, d, s'.cluster);
    }
  }

  lemma MeasureAtMost(plan: Plan, release: Release, d: Distribution, c: Cluster)
    ensures Measure(plan, release, d, c) <= Bound(release)
  {
    WorkAtMost(release.charts, plan.status, c);
  }

  // ---- the theorem ----

  /**
   * From world `i` to world `j` the plan lives in one generation, the manifest found for it, if any, is `release`,
   * and nobody else removes its objects or moves HelmCharts to other versions. Reconciles may fail in any way.
   */
  ghost predicate Undisturbed(ws: seq<World>, actions: seq<Action>, release: Release, i: nat, j: nat) {
    && i <= j < |ws| && |ws| == |actions| + 1
    && (forall k | i <= k <= j :: Underway(ws[k].store, ws[i].store, release))
    && (forall k | i <= k < j && actions[k].Elsewhere? :: Kept(ws[k].store.cluster, ws[k + 1].store.cluster))
  }

  ghost predicate Underway(s: Store, first: Store, release: Release) {
    && Live(s) && Live(first) && s.plan.value.generation == first.plan.value.generation
    && Manifest(s.plan.value, s.cluster) in {None, Some(release)}
  }

  /**
   * The step is a reconcile of a plan with its finalizer, free of faults, over a cluster that has carried out what was
   * written.
   */
  ghost predicate CooperativeStep(w: World, a: Action, release: Release, d: Distribution) {
    && a.Reconciled? && Live(w.store) && UpgradePlanFinalizer in w.store.plan.value.finalizers
    && Cooperative(w.store.plan.value, release, d, w.store.cluster) && GoodEnv(w.store.plan.value, a.env)
  }

  ghost function CooperativeSteps(
      ws: seq<World>, actions: seq<Action>, release: Release, d: Distribution, i: nat, j: nat): nat
    requires i <= j < |ws| && |ws| == |actions| + 1
  {
    if i == j then 0
    else One(CooperativeStep(ws[j - 1], actions[j - 1], release, d))
         + CooperativeSteps(ws, actions, release, d, i, j - 1)
  }

  /** The invariant of runs gives what the measure needs to know of conditions. */
  lemma InvOrderly(ctx: Context, w: World)
    requires Inv(ctx, w) && Live(w.store)
    ensures Orderly(w.store.plan.value) && StoredSelectors(w.store.plan.value, w.store.cluster)
  {
    var plan := w.store.plan.value;
    if plan.status.observedGeneration == plan.generation {
      assert OsUpgraded in w.tracked && KubernetesUpgraded in w.tracked;
    }
  }

  /** A reconcile leaves the store as it was but for finalizers, or it is a normal pass, written back or not. */
  lemma ReconcileIsPass(ctx: Context, w: World, env: Env, o: Outcome, w': World)
    requires Reconciles(ctx, w, env, o, w') && Live(w.store) && Live(w'.store)
    ensures
      || AfterPass(w.store.plan.value, NormalPass(w.store.plan.value, w.store.cluster, env), w'.store)
      || (w'.store.cluster == w.store.cluster
          && w'.store.plan.value == w.store.plan.value.(finalizers := w'.store.plan.value.finalizers))
    ensures env.faults == {} && UpgradePlanFinalizer in w.store.plan.value.finalizers ==>
      NormalPassed(w, env, w')
  {
  }

  /** The measure of a world. */
  function At(w: World, release: Release, d: Distribution): nat
    requires Live(w.store)
  {
    Measure(w.store.plan.value, release, d, w.store.cluster)
  }

  predicate CompleteAt(w: World, release: Release)
    requires Live(w.store)
  {
    UpgradeComplete(w.store.plan.value, release)
  }

  lemma StepNeverRaises(ctx: Context, w: World, a: Action, w': World, release: Release, d: Distribution)
    requires Inv(ctx, w) && Next(ctx, w, a, w') && Underway(w.store, w.store, release) &&
      Underway(w'.store, w.store, release)
    requires a.Elsewhere? ==> Kept(w.store.cluster, w'.store.cluster)
    requires forall i | 0 <= i < |release.charts| :: VersionsAgree(release.charts[i])
    ensures At(w', release, d) <= At(w, release, d) && (CompleteAt(w, release) ==> CompleteAt(w', release))
  {
    InvOrderly(ctx, w);
    match a {
      case Reconciled(env, o) =>
        ReconcileIsPass(ctx, w, env, o, w');
        if AfterPass(w.store.plan.value, NormalPass(w.store.plan.value, w.store.cluster, env), w'.store) {
          NoPassRaisesTheMeasure(w.store.plan.value, release, d, w.store.cluster, env, w'.store);
        }
      case Elsewhere => MeasureKept(w.store.plan.value, release, d, w.store.cluster, w'.store.cluster);
      case _ =>
    }
  }

  lemma CooperativeStepLowers(ctx: Context, w: World, a: Action, w': World, release: Release, d: Distribution)
    requires Inv(ctx, w) && Next(ctx, w, a, w') && Live(w'.store) && CooperativeStep(w, a, release, d)
    requires forall i | 0 <= i < |release.charts| :: VersionsAgree(release.charts[i])
    ensures CompleteAt(w', release) || At(w', release, d) < At(w, release, d)
  {
    InvOrderly(ctx, w);
    ReconcileIsPass(ctx, w, a.env, a.outcome, w');
    EveryPassProgresses(w.store.plan.value, release, d, w.store.cluster, a.env);
  }

  lemma StepCounts(
    ctx: Context, ws: seq<World>, actions: seq<Action>, release: Release, d: Distribution, i: nat, k: nat)
    requires IsRun(ctx, ws, actions) && i <= k < |actions| && Undisturbed(ws, actions, release, i, k + 1)
    requires forall n | 0 <= n < |release.charts| :: VersionsAgree(release.charts[n])
    ensures CompleteAt(ws[k], release) ==> CompleteAt(ws[k + 1], release)
    ensures CompleteAt(ws[k + 1], release) ||
            At(ws[k + 1], release, d) + One(CooperativeStep(ws[k], actions[k], release, d)) <= At(ws[k], release, d)
  {
    InvAlways(ctx, ws, actions, k);
    assert StepAt(ctx, ws, actions, k);
    assert Underway(ws[k].store, ws[i].store, release) && Underway(ws[k + 1].store, ws[i].store, release);
    StepNeverRaises(ctx, ws[k], actions[k], ws[k + 1], release, d);
    if CooperativeStep(ws[k], actions[k], release, d) {
      CooperativeStepLowers(ctx, ws[k], actions[k], ws[k + 1], release, d);
    }
  }

  lemma {:induction false} MeasureFalls(
    ctx: Context, ws: seq<World>, actions: seq<Action>, release: Release, d: Distribution, i: nat, j: nat)
    requires IsRun(ctx, ws, actions) && Undisturbed(ws, actions, release, i, j)
    requires forall n | 0 <= n < |release.charts| :: VersionsAgree(release.charts[n])
    ensures CompleteAt(ws[j], release) ||
            At(ws[j], release, d) + CooperativeSteps(ws, actions, release, d, i, j) <= Bound(release)
    decreases j - i
  {
    if i == j {
      MeasureAtMost(ws[i].store.plan.value, release, d, ws[i].store.cluster);
    } else {
      MeasureFalls(ctx, ws, actions, release, d, i, j - 1);
      StepCounts(ctx, ws, actions, release, d, i, j - 1);
    }
  }

  /**
   * In every run, nine cooperative reconciles and for every chart entry its dependencies and add-ons plus two suffice,
   * whatever faulty, early or lost reconciles come between them: then the upgrade of this generation is complete
   * and its release recorded as the last successful one.
   */
  lemma BoundedCompletion(
    ctx: Context, ws: seq<World>, actions: seq<Action>, release: Release, d: Distribution, i: nat, j: nat)
    requires IsRun(ctx, ws, actions) && Undisturbed(ws, actions, release, i, j)
    requires forall n | 0 <= n < |release.charts| :: VersionsAgree(release.charts[n])
    requires CooperativeSteps(ws, actions, release, d, i, j) >= 9 + EntriesBound(release.charts)
    ensures UpgradeComplete(ws[j].store.plan.value, release)
    ensures ws[j].store.plan.value.status.lastSuccessfulReleaseVersion == release.releaseVersion
  {
    MeasureFalls(ctx, ws, actions, release, d, i, j);
    InvAlways(ctx, ws, actions, j);
    assert Underway(ws[j].store, ws[i].store, release);
    ManifestHasVersion(ws[j].store.cluster.manifests, ws[j].store.plan.value.spec.releaseVersion);
  }
}
