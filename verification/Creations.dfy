/** How many SUC objects one generation may create, over any run. */
module Creations {
  import opened Prelude
  import opened Api
  import opened Names
  import opened Nodes
  import opened Pass
  import opened PassStages
  import opened PassEffects
  import opened PassGuarantees
  import opened Runs
  import opened RunInvariants
  import opened RunTheorems

  /** The names of the plans a generation may create: two for each node stage. */
  function PlanNames(suffix: string, release: Release, d: Distribution): (names: set<string>)
    ensures |names| <= 4
  {
    var os := release.os;
    var named := [
      OsPlanName(ControlPlaneKey, os.zypperID, os.version, suffix),
      OsPlanName(WorkersKey, os.zypperID, os.version, suffix),
      KubernetesPlanName(ControlPlaneKey, d.version, suffix), KubernetesPlanName(WorkersKey, d.version, suffix)];
    FewerElements(named);
    set n | n in named
  }

  lemma {:induction false} FewerElements(s: seq<string>)
    ensures |set n | n in s| <= |s|
  {
    if s != [] {
      FewerElements(s[1..]);
      assert (set n | n in s) == {s[0]} + set n | n in s[1..];
    }
  }

  // ---- what a generation fixes ----

  /** The live plan has observed its generation. */
  predicate ObservedLive(plan: Plan) {
    !plan.deleting && plan.status.observedGeneration == plan.generation
  }

  /** Generations only grow; one fixes the spec and, once observed, the suffix and the manifest found. */
  ghost predicate Follows(w: World, w': World) {
    && w.store.plan.Some? && w'.store.plan.Some?
    && var p, p' := w.store.plan.value, w'.store.plan.value;
       && p.generation <= p'.generation && p'.status.observedGeneration <= p'.generation
       && (p.generation == p'.generation ==> p.spec == p'.spec && p.deleting == p'.deleting)
       && p.status.observedGeneration <= p'.status.observedGeneration
       && (p.status.observedGeneration == p'.status.observedGeneration ==>
         p.status.sucNameSuffix == p'.status.sucNameSuffix)
       && (p.generation == p'.generation && ObservedLive(p) ==>
             Manifest(p', w'.store.cluster) == Manifest(p, w.store.cluster))
  }

  lemma StepFollows(ctx: Context, w: World, a: Action, w': World)
    requires Inv(ctx, w) && Next(ctx, w, a, w') && w.store.plan.Some? && w'.store.plan.Some?
    ensures Follows(w, w')
  {
    if a.Reconciled? {
      ReconcileKeepsManifests(ctx, w, a, w');
      ReconcileKeepsSuffix(ctx, w, a, w');
    }
  }

  lemma ReconcileKeepsSuffix(ctx: Context, w: World, a: Action, w': World)
    requires Inv(ctx, w) && Next(ctx, w, a, w') && a.Reconciled? && w.store.plan.Some? && w'.store.plan.Some?
    ensures var p, p' := w.store.plan.value, w'.store.plan.value;
      && p'.generation == p.generation && p'.spec == p.spec && p'.deleting == p.deleting
      && p.status.observedGeneration <= p'.status.observedGeneration <= p'.generation
      && (p.status.observedGeneration == p'.status.observedGeneration ==>
            p.status.sucNameSuffix == p'.status.sucNameSuffix)
  {
    if w'.store.plan.value.status != w.store.plan.value.status {
      StatusChangesInPasses(ctx, w, a, w');
      PassStatus(w.store.plan.value, w.store.cluster, a.env);
    }
  }

  lemma ReconcileKeepsManifests(ctx: Context, w: World, a: Action, w': World)
    requires Inv(ctx, w) && Next(ctx, w, a, w') && a.Reconciled?
    ensures w'.store.cluster.manifests == w.store.cluster.manifests
  {
    if Live(w.store) && w'.store.cluster != w.store.cluster {
      CreatedInNormalPass(ctx, w, a, w');
      PassKeepsCluster(ctx, w, a.env, w'.store.cluster);
    }
  }

  lemma FollowsOn(u: World, v: World, w: World)
    requires Follows(u, v) && Follows(v, w)
    ensures Follows(u, w)
  {
  }

  lemma FollowsAt(ctx: Context, ws: seq<World>, actions: seq<Action>, i: nat)
    requires IsRun(ctx, ws, actions) && i < |actions| && ws[i].store.plan.Some? && ws[i + 1].store.plan.Some?
    ensures Follows(ws[i], ws[i + 1])
  {
    InvAlways(ctx, ws, actions, i);
    assert StepAt(ctx, ws, actions, i);
    StepFollows(ctx, ws[i], actions[i], ws[i + 1]);
  }

  lemma {:induction false} RunFollows(ctx: Context, ws: seq<World>, actions: seq<Action>, i: nat, j: nat)
    requires IsRun(ctx, ws, actions) && Stored(ws, i, j)
    ensures Follows(ws[i], ws[j])
    decreases j - i
  {
    InvAlways(ctx, ws, actions, i);
    if i < j {
      RunFollows(ctx, ws, actions, i, j - 1);
      FollowsAt(ctx, ws, actions, j - 1);
      FollowsOn(ws[i], ws[j - 1], ws[j]);
    }
  }

  // ---- creations ----

  /** The names of the plans a generation may create when the first node may change distribution in it. */
  function AllPlanNames(suffix: string, release: Release): set<string> {
    PlanNames(suffix, release, release.kubernetes.k3s) + PlanNames(suffix, release, release.kubernetes.rke2)
  }

  /** The two sets share the names of the operating system stage. */
  lemma SixNames(suffix: string, release: Release)
    ensures |AllPlanNames(suffix, release)| <= 6
  {
    var os, k3s, rke2 := release.os, release.kubernetes.k3s, release.kubernetes.rke2;
    var named := [
      OsPlanName(ControlPlaneKey, os.zypperID, os.version, suffix),
      OsPlanName(WorkersKey, os.zypperID, os.version, suffix),
      KubernetesPlanName(ControlPlaneKey, k3s.version, suffix), KubernetesPlanName(WorkersKey, k3s.version, suffix),
      KubernetesPlanName(ControlPlaneKey, rke2.version, suffix), KubernetesPlanName(WorkersKey, rke2.version, suffix)];
    FewerElements(named);
    assert AllPlanNames(suffix, release) == set n | n in named;
  }

  lemma PassCreatesNamedPlan(plan: Plan, c: Cluster, env: Env, n: string)
    requires StoredSelectors(plan, c) && NewPlan(c, NormalPass(plan, c, env).cluster, n)
    ensures Manifest(plan, c).Some? && plan.status.observedGeneration == plan.generation
    ensures n in AllPlanNames(plan.status.sucNameSuffix, Manifest(plan, c).value)
    ensures forall d | TargetDistribution(c.nodes, Manifest(plan, c).value.kubernetes) in {None, Some(d)} ::
      n in PlanNames(plan.status.sucNameSuffix, Manifest(plan, c).value, d)
  {
    NewPlanComesFromRollout(plan, c, env, n);
  }

  lemma StageNewSecret(plan: Plan, c: Cluster, s: Stage, faults: set<ApiCall>, p: Pass, n: string)
    requires StageEffect(plan, c, s, faults, p) && n !in c.secrets && n in p.cluster.secrets
    ensures s.OsStage? && n == OsSecret(plan, c)
  {
  }

  lemma PassCreatesNamedSecret(plan: Plan, c: Cluster, env: Env, n: string)
    requires StoredSelectors(plan, c) && n !in c.secrets && n in NormalPass(plan, c, env).cluster.secrets
    ensures Manifest(plan, c).Some? && plan.status.observedGeneration == plan.generation && n == OsSecret(plan, c)
  {
    var s := StageOf(plan, c, env);
    if s.OsStage? || s.KubernetesStage? {
      NodeStageEffect(plan, c, env);
      StageNewSecret(plan, c, s, env.faults, NormalPass(plan, c, env), n);
    } else {
      OtherStagesKeepPlans(plan, c, env);
    }
  }

  lemma CreationsNamed(ctx: Context, ws: seq<World>, actions: seq<Action>, i: nat, j: nat, n: string)
    requires IsRun(ctx, ws, actions) && Stored(ws, i, j) && j < |actions| && Live(ws[i].store)
    requires Observed(ws[i].store) == ws[i].store.plan.value.generation == Observed(ws[j].store)
    ensures Manifest(ws[i].store.plan.value, ws[i].store.cluster).Some?
    ensures CreatesPlanAt(ws[j], actions[j], ws[j + 1], n) ==>
      var release := Manifest(ws[i].store.plan.value, ws[i].store.cluster).value;
      && n in AllPlanNames(ws[i].store.plan.value.status.sucNameSuffix, release)
      && forall d | TargetDistribution(ws[j].store.cluster.nodes, release.kubernetes) in {None, Some(d)} ::
           n in PlanNames(ws[i].store.plan.value.status.sucNameSuffix, release, d)
    ensures CreatesSecretAt(ws[j], actions[j], ws[j + 1], n) ==>
      n == OsSecret(ws[i].store.plan.value, ws[i].store.cluster)
  {
    InvAlways(ctx, ws, actions, i);
    InvAlways(ctx, ws, actions, j);
    assert StepAt(ctx, ws, actions, j);
    RunFollows(ctx, ws, actions, i, j);
    if CreatesPlanAt(ws[j], actions[j], ws[j + 1], n) {
      CreatedInNormalPass(ctx, ws[j], actions[j], ws[j + 1]);
      PassCreatesNamedPlan(ws[j].store.plan.value, ws[j].store.cluster, actions[j].env, n);
    }
    if CreatesSecretAt(ws[j], actions[j], ws[j + 1], n) {
      CreatedInNormalPass(ctx, ws[j], actions[j], ws[j + 1]);
      PassCreatesNamedSecret(ws[j].store.plan.value, ws[j].store.cluster, actions[j].env, n);
    }
  }

  /**
   * While a generation is observed, every SUC plan created bears one of six names and every secret one name, all fixed
   * when it was opened: two plans for the operating system, and two for either distribution.
   */
  lemma SixPlansAndOneSecret(ctx: Context, ws: seq<World>, actions: seq<Action>, i: nat, j: nat, n: string)
    requires IsRun(ctx, ws, actions) && Stored(ws, i, j) && j < |actions| && Live(ws[i].store)
    requires Observed(ws[i].store) == ws[i].store.plan.value.generation == Observed(ws[j].store)
    ensures Manifest(ws[i].store.plan.value, ws[i].store.cluster).Some?
    ensures var names :=
        AllPlanNames(ws[i].store.plan.value.status.sucNameSuffix,
        Manifest(ws[i].store.plan.value, ws[i].store.cluster).value);
      |names| <= 6 && (CreatesPlanAt(ws[j], actions[j], ws[j + 1], n) ==> n in names)
    ensures CreatesSecretAt(ws[j], actions[j], ws[j + 1], n) ==>
      n == OsSecret(ws[i].store.plan.value, ws[i].store.cluster)
  {
    CreationsNamed(ctx, ws, actions, i, j, n);
    SixNames(ws[i].store.plan.value.status.sucNameSuffix, Manifest(ws[i].store.plan.value, ws[i].store.cluster).value);
  }

  /** From `i` to `j` the node list, whenever it tells a distribution, tells this one. */
  ghost predicate DistributionStays(ws: seq<World>, release: Release, d: Distribution, i: nat, j: nat)
    requires j < |ws|
  {
    forall k | i <= k <= j :: TargetDistribution(ws[k].store.cluster.nodes, release.kubernetes) in {None, Some(d)}
  }

  /** As long as the distribution stays, the plans created bear one of four names. */
  lemma FourPlansOfOneDistribution(
    ctx: Context, ws: seq<World>, actions: seq<Action>, i: nat, j: nat, k: nat, n: string, release: Release,
    d: Distribution)
    requires IsRun(ctx, ws, actions) && i <= k <= j < |actions| && Stored(ws, i, k) && Live(ws[i].store)
    requires Observed(ws[i].store) == ws[i].store.plan.value.generation == Observed(ws[k].store)
    requires Manifest(ws[i].store.plan.value, ws[i].store.cluster) in {None, Some(release)}
    requires DistributionStays(ws, release, d, i, j)
    ensures |PlanNames(ws[i].store.plan.value.status.sucNameSuffix, release, d)| <= 4
    ensures CreatesPlanAt(ws[k], actions[k], ws[k + 1], n) ==>
      n in PlanNames(ws[i].store.plan.value.status.sucNameSuffix, release, d)
  {
    CreationsNamed(ctx, ws, actions, i, k, n);
  }

  /** Nothing of a stage has been started: a pass starts the control plane of the distribution of the first node. */
  lemma EachDistributionStarts(plan: Plan, release: Release, c: Cluster, d: Distribution)
    requires TargetDistribution(c.nodes, release.kubernetes) == Some(d)
    requires KubernetesPlanName(ControlPlaneKey, d.version, plan.status.sucNameSuffix) !in c.sucPlans
    ensures var p := KubernetesPass(plan, release, c, {});
      && p.status.sucNameSuffix == plan.status.sucNameSuffix
      && p.cluster.sucPlans.Keys ==
           c.sucPlans.Keys + {KubernetesPlanName(ControlPlaneKey, d.version, plan.status.sucNameSuffix)}
  {
  }

  /** So a first node that goes from one distribution to the other makes one generation start both control planes. */
  lemma BothDistributionsStart(plan: Plan, release: Release, c: Cluster, nodes: seq<Node>)
    requires KubernetesStem(release.kubernetes.k3s.version) != KubernetesStem(release.kubernetes.rke2.version)
    requires TargetDistribution(c.nodes, release.kubernetes) == Some(release.kubernetes.k3s)
    requires TargetDistribution(nodes, release.kubernetes) == Some(release.kubernetes.rke2)
    requires KubernetesPlanName(ControlPlaneKey, release.kubernetes.k3s.version,
      plan.status.sucNameSuffix) !in c.sucPlans
    requires KubernetesPlanName(ControlPlaneKey, release.kubernetes.rke2.version,
      plan.status.sucNameSuffix) !in c.sucPlans
    ensures var p1 := KubernetesPass(plan, release, c, {});
      var p2 := KubernetesPass(plan.(status := p1.status), release, p1.cluster.(nodes := nodes), {});
      && BothStarted(release, plan.status.sucNameSuffix, p2.cluster)
      && KubernetesPlanName(ControlPlaneKey, release.kubernetes.k3s.version, plan.status.sucNameSuffix) !=
         KubernetesPlanName(ControlPlaneKey, release.kubernetes.rke2.version, plan.status.sucNameSuffix)
  {
    var k3s, rke2, s := release.kubernetes.k3s, release.kubernetes.rke2, plan.status.sucNameSuffix;
    PlanNamesMeetExactlyWhen(ControlPlaneKey, KubernetesStem(k3s.version), ControlPlaneKey,
    KubernetesStem(rke2.version), s);
    EachDistributionStarts(plan, release, c, k3s);
    var p1 := KubernetesPass(plan, release, c, {});
    SecondStarts(plan.(status := p1.status), release, p1.cluster.(nodes := nodes));
  }

  predicate BothStarted(release: Release, suffix: string, c: Cluster) {
    && KubernetesPlanName(ControlPlaneKey, release.kubernetes.k3s.version, suffix) in c.sucPlans
    && KubernetesPlanName(ControlPlaneKey, release.kubernetes.rke2.version, suffix) in c.sucPlans
  }

  lemma SecondStarts(plan: Plan, release: Release, c: Cluster)
    requires TargetDistribution(c.nodes, release.kubernetes) == Some(release.kubernetes.rke2)
    requires KubernetesPlanName(ControlPlaneKey, release.kubernetes.k3s.version,
      plan.status.sucNameSuffix) in c.sucPlans
    requires KubernetesPlanName(ControlPlaneKey, release.kubernetes.rke2.version,
      plan.status.sucNameSuffix) !in c.sucPlans
    ensures BothStarted(release, plan.status.sucNameSuffix, KubernetesPass(plan, release, c, {}).cluster)
  {
    EachDistributionStarts(plan, release, c, release.kubernetes.rke2);
  }
}
