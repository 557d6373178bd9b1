/** Runs over one node that is always at the target: what is needed to put together runs of several generations. */
module CalmRuns {
  import opened Prelude
  import opened Api
  import opened Names
  import opened Nodes
  import opened Pass
  import opened Webhook
  import opened Reconcile
  import opened PassStages
  import opened PassEffects
  import opened Runs
  import opened RunInvariants
  import opened Completion
  import opened RunTheorems
  import opened PassGuarantees
  import opened RunCompletion

  // ---- the cluster ----

  const OnlyNode :=
    Node("n", map[ControlPlaneLabel := "true"], [TypedCondition("Ready", True)], false, "os", "k3s", "amd64")
  const K3s := Distribution("k3s", [])

  function ReleaseOf(version: string): Release {
    Release(version, OperatingSystem("1", "os", [X86], "os"), Kubernetes(K3s, K3s), [])
  }

  const Start := Cluster(
    [ReleaseOf("1"), ReleaseOf("2"), ReleaseOf("3")], map[], [OnlyNode], map[], map[], map[], map[], map[], map[])

  function ParseDigit(s: string): Option<Semver> {
    if s == "1" then Some(Semver(1, 0, 0, [])) else if s == "2" then Some(Semver(2, 0, 0, []))
    else if s == "3" then Some(Semver(3, 0, 0, [])) else None
  }

  const Here := Context(ParseDigit, Request("ns", "plan"))

  /** A live plan on its way to `v`, over the node and manifests of the start; all plans stored select their roles. */
  ghost predicate Calm(w: World, v: string) {
    && Live(w.store) && v in {"1", "2", "3"}
    && var plan, c := w.store.plan.value, w.store.cluster;
       && UpgradePlanFinalizer in plan.finalizers && plan.spec.releaseVersion == v
       && c.nodes == Start.nodes && c.manifests == Start.manifests
       && (forall n | n in c.sucPlans :: SelectorFits(n, c.sucPlans[n]))
       && CalmConditions(plan.status)
  }

  ghost predicate CalmConditions(st: Status) {
    forall t | t in st.conditions ::
      if t in {OsUpgraded, KubernetesUpgraded}
      then st.conditions[t] in {PendingCondition, InProgressCondition, SuccessfulCondition}
      else t == ValidationFailed && st.conditions[t] == Condition(True, UnsupportedArchitecture)
  }

  // ---- one step ----

  function Last(ws: seq<World>): World
    requires ws != []
  {
    ws[|ws| - 1]
  }

  lemma Extend(ctx: Context, ws: seq<World>, actions: seq<Action>, a: Action, w: World)
    requires IsRun(ctx, ws, actions) && Next(ctx, Last(ws), a, w)
    ensures IsRun(ctx, ws + [w], actions + [a])
  {
    var ws', actions' := ws + [w], actions + [a];
    forall i | 0 <= i < |actions'| ensures StepAt(ctx, ws', actions', i) {
      if i < |actions| {
        assert StepAt(ctx, ws, actions, i);
        assert ws'[i] == ws[i] && ws'[i + 1] == ws[i + 1] && actions'[i] == actions[i];
      }
    }
  }

  /** The world after a fault-free pass that is written back. */
  function Passed(w: World, draw: Draw): World
    requires Live(w.store)
  {
    var plan, c := w.store.plan.value, w.store.cluster;
    var p := NormalPass(plan, c, Env({}, Some(draw)));
    World(Store(Some(After(plan, p)), p.cluster),
      if p.status.observedGeneration != plan.status.observedGeneration then TrackedBy(plan, c) else w.tracked,
      Created(w.plans, c.sucPlans.Keys, p.cluster.sucPlans.Keys),
      Created(w.secrets, c.secrets.Keys, p.cluster.secrets.Keys))
  }

  lemma CalmCluster(w: World, v: string, draw: Draw)
    requires Inv(Here, w) && Calm(w, v)
    ensures var c' := Passed(w, draw).store.cluster;
      && c'.nodes == Start.nodes && c'.manifests == Start.manifests
      && forall n | n in c'.sucPlans :: SelectorFits(n, c'.sucPlans[n])
  {
    var plan, c, env := w.store.plan.value, w.store.cluster, Env({}, Some(draw));
    if NormalPass(plan, c, env).cluster != c { var o := OneObjectPerPass(plan, c, env); }
  }

  lemma CalmMove(plan: Plan, c: Cluster, s: Stage, st': Status, v: string)
    requires Manifest(plan, c) == Some(ReleaseOf(v)) && StatusMove(plan, c, s, st') && CalmConditions(plan.status)
    requires s.ResetStage? || s.OsStage? || s.KubernetesStage? || s.CompletedStage?
    ensures CalmConditions(st')
  {
    assert Tracked(ReleaseOf(v)) == {OsUpgraded, KubernetesUpgraded};
    assert OsUpgraded != ValidationFailed && KubernetesUpgraded != ValidationFailed by {
      assert |OsUpgraded| != |ValidationFailed| && |KubernetesUpgraded| != |ValidationFailed|;
    }
  }

  lemma CalmStatus(w: World, v: string, draw: Draw)
    requires Inv(Here, w) && Calm(w, v)
    ensures CalmConditions(Passed(w, draw).store.plan.value.status)
  {
    var plan, c, env := w.store.plan.value, w.store.cluster, Env({}, Some(draw));
    CalmStage(w, v, draw);
    PassStatus(plan, c, env);
    CalmMove(plan, c, StageOf(plan, c, env), NormalPass(plan, c, env).status, v);
  }

  lemma CalmPass(w: World, v: string, draw: Draw)
    requires Inv(Here, w) && Calm(w, v)
    ensures Calm(Passed(w, draw), v) && Next(Here, w, PassAction(w, draw), Passed(w, draw))
  {
    CalmCluster(w, v, draw);
    CalmStatus(w, v, draw);
  }

  function PassAction(w: World, draw: Draw): Action
    requires Live(w.store)
  {
    var env := Env({}, Some(draw));
    Reconciled(env, NormalPass(w.store.plan.value, w.store.cluster, env).outcome)
  }

  lemma CalmStage(w: World, v: string, draw: Draw)
    requires Calm(w, v)
    ensures Manifest(w.store.plan.value, w.store.cluster) == Some(ReleaseOf(v))
    ensures var s := StageOf(w.store.plan.value, w.store.cluster, Env({}, Some(draw)));
      s.ResetStage? || s.OsStage? || s.KubernetesStage? || s.CompletedStage?
  {
    var ms := Start.manifests;
    assert ms[1..][0].releaseVersion == "2" && ms[1..][1..][0].releaseVersion == "3";
    assert "1" != "2" && "1" != "3" && "2" != "3" by {
      assert "1"[0] != "2"[0] && "1"[0] != "3"[0] && "2"[0] != "3"[0];
    }
    OnlyNodeSupported();
  }

  lemma OnlyNodeSupported()
    ensures AllSupported(Start.nodes, [X86]) && Unsupported(Start.nodes, Supported([X86])) == []
  {
    assert X86 in [X86];
    NoneUnsupported(Start.nodes, [X86]);
  }

  // ---- whole generations ----

  lemma CalmIsCooperative(w: World, v: string)
    requires Inv(Here, w) && Calm(w, v)
    ensures Cooperative(w.store.plan.value, ReleaseOf(v), K3s, w.store.cluster)
  {
    CalmStage(w, v, [0, 0, 0, 0, 0]);
    OnlyNodeSupported();
    InvOrderly(Here, w);
    CalmIsServed(w.store.plan.value, v, w.store.cluster);
  }

  lemma CalmIsServed(plan: Plan, v: string, c: Cluster)
    requires c.nodes == Start.nodes
    ensures RolloutServed(OsRollout(plan, ReleaseOf(v), c.nodes), c) &&
      RolloutServed(KubernetesRollout(plan, K3s, c.nodes), c)
    ensures TargetDistribution(c.nodes, ReleaseOf(v).kubernetes) == Some(K3s)
    ensures exists n :: n in c.nodes && IsControlPlane(n)
  {
    assert OnlyNode in c.nodes && IsControlPlane(OnlyNode) && HasSubstring("k3s", "k3s");
    forall n, selector | n in Matching(c.nodes, selector) ensures n == OnlyNode {
      MatchingIsFilter(c.nodes, selector, n);
    }
  }

  /** A draw whose suffix differs from the one given. */
  lemma OtherDraw(suffix: string) returns (draw: Draw)
    ensures HexEncode(draw) != suffix
  {
    draw := [0, 0, 0, 0, 0];
    if HexEncode(draw) == suffix {
      draw := [1, 0, 0, 0, 0];
      if HexEncode(draw) == suffix { HexInjective([0, 0, 0, 0, 0], [1, 0, 0, 0, 0]); }
    }
  }

  function PlanOf(ws: seq<World>): Plan
    requires ws != [] && Live(Last(ws).store)
  {
    Last(ws).store.plan.value
  }

  /** Plans and secrets that were there are still there, and a failed validation still shows. */
  ghost predicate Grows(w: World, w': World) {
    && Live(w.store) && Live(w'.store)
    && w.store.cluster.sucPlans.Keys <= w'.store.cluster.sucPlans.Keys
    && w.store.cluster.secrets.Keys <= w'.store.cluster.secrets.Keys
    && (IsTrue(w.store.plan.value.status, ValidationFailed) ==> IsTrue(w'.store.plan.value.status, ValidationFailed))
  }

  /** The secret and the control-plane plans of the suffix are there. */
  predicate InPlace(c: Cluster, suffix: string) {
    && OsSecretName("os", "1", suffix) in c.secrets && OsPlanName(ControlPlaneKey, "os", "1", suffix) in c.sucPlans
    && KubernetesPlanName(ControlPlaneKey, "k3s", suffix) in c.sucPlans
  }

  /** What has succeeded has been started. */
  predicate StockedSoFar(st: Status, c: Cluster) {
    && (IsTrue(st, OsUpgraded) ==>
          OsSecretName("os", "1", st.sucNameSuffix) in c.secrets &&
          OsPlanName(ControlPlaneKey, "os", "1", st.sucNameSuffix) in c.sucPlans)
    && (IsTrue(st, KubernetesUpgraded) ==> KubernetesPlanName(ControlPlaneKey, "k3s", st.sucNameSuffix) in c.sucPlans)
  }

  lemma PassGrows(w: World, v: string, draw: Draw)
    requires Inv(Here, w) && Calm(w, v)
    ensures Grows(w, Passed(w, draw))
  {
    var env := Env({}, Some(draw));
    PassKeepsObjects(w.store.plan.value, w.store.cluster, env);
    CalmPass(w, v, draw);
    if IsTrue(w.store.plan.value.status, ValidationFailed) {
      ValidationStep(Here, w, PassAction(w, draw), Passed(w, draw));
    }
  }

  lemma SuccessIsStarted(r: Rollout, st: Status, c: Cluster)
    requires !IsTrue(st, r.conditionType) && IsTrue(RolloutPass(r, st, c, {}).status, r.conditionType)
    ensures r.controlPlaneName in c.sucPlans
  {
  }

  lemma OsPassStocks(plan: Plan, v: string, c: Cluster)
    requires !IsTrue(plan.status, OsUpgraded) && IsTrue(OsPass(plan, ReleaseOf(v), c, {}).status, OsUpgraded)
    ensures OsSecretName("os", "1", plan.status.sucNameSuffix) in c.secrets
    ensures OsPlanName(ControlPlaneKey, "os", "1", plan.status.sucNameSuffix) in c.sucPlans
  {
    SuccessIsStarted(OsRollout(plan, ReleaseOf(v), c.nodes), plan.status, c);
  }

  lemma KubernetesPassStocks(plan: Plan, v: string, c: Cluster)
    requires c.nodes == Start.nodes
    requires !IsTrue(plan.status, KubernetesUpgraded)
    requires IsTrue(KubernetesPass(plan, ReleaseOf(v), c, {}).status, KubernetesUpgraded)
    ensures KubernetesPlanName(ControlPlaneKey, "k3s", plan.status.sucNameSuffix) in c.sucPlans
  {
    CalmIsServed(plan, v, c);
    SuccessIsStarted(KubernetesRollout(plan, K3s, c.nodes), plan.status, c);
  }

  lemma PassStocks(w: World, v: string, draw: Draw)
    requires Inv(Here, w) && Calm(w, v) && w.store.plan.value.status.observedGeneration == w.store.plan.value.generation
    requires StockedSoFar(w.store.plan.value.status, w.store.cluster)
    ensures StockedSoFar(Passed(w, draw).store.plan.value.status, Passed(w, draw).store.cluster)
  {
    var plan, c, env := w.store.plan.value, w.store.cluster, Env({}, Some(draw));
    var st' := NormalPass(plan, c, env).status;
    CalmStage(w, v, draw);
    PassGrows(w, v, draw);
    PassKeepsGeneration(w, v, draw);
    PassOfStage(plan, c, env);
    if !IsTrue(plan.status, OsUpgraded) && IsTrue(st', OsUpgraded) {
      SuccessNeedsStageDone(plan, c, env, OsUpgraded);
      OsPassStocks(plan, v, c);
    }
    if !IsTrue(plan.status, KubernetesUpgraded) && IsTrue(st', KubernetesUpgraded) {
      SuccessNeedsStageDone(plan, c, env, KubernetesUpgraded);
      KubernetesPassStocks(plan, v, c);
    }
  }

  /** With everything of the suffix in place, a pass over the one node creates nothing. */
  lemma IdleRollout(r: Rollout, st: Status, c: Cluster)
    requires c.nodes == Start.nodes && r.controlPlaneName in c.sucPlans
    ensures RolloutPass(r, st, c, {}).cluster == c
  {
    assert ControlPlaneOnly(c.nodes);
  }

  lemma IdlePass(w: World, v: string, draw: Draw)
    requires Inv(Here, w) && Calm(w, v) && w.store.plan.value.status.observedGeneration == w.store.plan.value.generation
    requires InPlace(w.store.cluster, w.store.plan.value.status.sucNameSuffix)
    ensures Passed(w, draw).store.cluster == w.store.cluster
  {
    var plan, c, env := w.store.plan.value, w.store.cluster, Env({}, Some(draw));
    CalmStage(w, v, draw);
    PassOfStage(plan, c, env);
    CalmIsServed(plan, v, c);
    IdleRollout(OsRollout(plan, ReleaseOf(v), c.nodes), plan.status, c);
    IdleRollout(KubernetesRollout(plan, K3s, c.nodes), plan.status, c);
  }

  lemma OnePass(ws: seq<World>, actions: seq<Action>, v: string, draw: Draw)
    returns (ws': seq<World>, actions': seq<Action>)
    requires IsRun(Here, ws, actions) && Calm(Last(ws), v)
    ensures IsRun(Here, ws', actions') && ws' == ws + [Passed(Last(ws), draw)] && Calm(Last(ws'), v)
    ensures Grows(Last(ws), Last(ws'))
  {
    InvAlways(Here, ws, actions, |ws| - 1);
    CalmPass(Last(ws), v, draw);
    PassGrows(Last(ws), v, draw);
    Extend(Here, ws, actions, PassAction(Last(ws), draw), Passed(Last(ws), draw));
    ws', actions' := ws + [Passed(Last(ws), draw)], actions + [PassAction(Last(ws), draw)];
  }

  /** One more pass over an observed generation that is not complete. */
  lemma OneLower(ws: seq<World>, actions: seq<Action>, v: string) returns (ws': seq<World>, actions': seq<Action>)
    requires IsRun(Here, ws, actions) && Observing(ws, v) && !UpgradeComplete(PlanOf(ws), ReleaseOf(v))
    ensures IsRun(Here, ws', actions') && ws <= ws' && Observing(ws', v) && SameGeneration(ws, ws')
    ensures MeasureOf(ws', v) < MeasureOf(ws, v) && Grows(Last(ws), Last(ws'))
    ensures AllInPlace(ws) ==> Last(ws').store.cluster == Last(ws).store.cluster
  {
    var draw := OtherDraw(PlanOf(ws).status.sucNameSuffix);
    InvAlways(Here, ws, actions, |ws| - 1);
    PassKeepsGeneration(Last(ws), v, draw);
    PassLowers(Last(ws), v, draw);
    PassStocks(Last(ws), v, draw);
    if AllInPlace(ws) { IdlePass(Last(ws), v, draw); }
    ws', actions' := OnePass(ws, actions, v, draw);
  }

  ghost predicate Observing(ws: seq<World>, v: string) {
    && ws != [] && Calm(Last(ws), v) && PlanOf(ws).status.observedGeneration == PlanOf(ws).generation
    && StockedSoFar(PlanOf(ws).status, Last(ws).store.cluster)
  }

  predicate AllInPlace(ws: seq<World>)
    requires ws != [] && Live(Last(ws).store)
  {
    InPlace(Last(ws).store.cluster, PlanOf(ws).status.sucNameSuffix)
  }

  predicate SameGeneration(ws: seq<World>, ws': seq<World>)
    requires ws != [] && ws' != [] && Live(Last(ws).store) && Live(Last(ws').store)
  {
    && PlanOf(ws').generation == PlanOf(ws).generation
    && PlanOf(ws').status.sucNameSuffix == PlanOf(ws).status.sucNameSuffix
  }

  function MeasureOf(ws: seq<World>, v: string): nat
    requires ws != [] && Live(Last(ws).store)
  {
    Measure(PlanOf(ws), ReleaseOf(v), K3s, Last(ws).store.cluster)
  }

  /** Passes alone complete an observed generation, and create nothing if everything of its suffix is in place. */
  lemma {:induction false} Finish(ws: seq<World>, actions: seq<Action>, v: string)
    returns (ws': seq<World>, actions': seq<Action>)
    requires IsRun(Here, ws, actions) && Observing(ws, v)
    ensures IsRun(Here, ws', actions') && ws <= ws' && Observing(ws', v) && SameGeneration(ws, ws')
    ensures UpgradeComplete(PlanOf(ws'), ReleaseOf(v)) && Grows(Last(ws), Last(ws')) && AllInPlace(ws')
    ensures AllInPlace(ws) ==> Last(ws').store.cluster == Last(ws).store.cluster
    decreases MeasureOf(ws, v)
  {
    ws', actions' := ws, actions;
    if !UpgradeComplete(PlanOf(ws), ReleaseOf(v)) {
      ws', actions' := OneLower(ws, actions, v);
      ws', actions' := Finish(ws', actions', v);
    }
  }

  lemma PassKeepsGeneration(w: World, v: string, draw: Draw)
    requires Inv(Here, w) && Calm(w, v) && w.store.plan.value.status.observedGeneration == w.store.plan.value.generation
    ensures var plan, plan' := w.store.plan.value, Passed(w, draw).store.plan.value;
      && plan'.generation == plan.generation && plan'.status.observedGeneration == plan.generation
      && plan'.status.sucNameSuffix == plan.status.sucNameSuffix
  {
    CalmStage(w, v, draw);
    PassStatus(w.store.plan.value, w.store.cluster, Env({}, Some(draw)));
  }

  lemma PassLowers(w: World, v: string, draw: Draw)
    requires Inv(Here, w) && Calm(w, v) && !UpgradeComplete(w.store.plan.value, ReleaseOf(v))
    requires HexEncode(draw) != w.store.plan.value.status.sucNameSuffix
    ensures var w' := Passed(w, draw);
      Measure(w'.store.plan.value, ReleaseOf(v), K3s, w'.store.cluster) <
      Measure(w.store.plan.value, ReleaseOf(v), K3s, w.store.cluster)
  {
    CalmIsCooperative(w, v);
    InvOrderly(Here, w);
    assert ReleaseOf(v).charts == [];
    EveryPassProgresses(w.store.plan.value, ReleaseOf(v), K3s, w.store.cluster, Env({}, Some(draw)));
  }

  /** A pass over a new generation draws its suffix; any will do that is not the preceding one. */
  lemma Open(ws: seq<World>, actions: seq<Action>, v: string, draw: Draw)
    returns (ws': seq<World>, actions': seq<Action>)
    requires IsRun(Here, ws, actions) && Calm(Last(ws), v) &&
      PlanOf(ws).status.observedGeneration != PlanOf(ws).generation
    requires HexEncode(draw) != PlanOf(ws).status.sucNameSuffix
    ensures IsRun(Here, ws', actions') && ws < ws' && Observing(ws', v) && Grows(Last(ws), Last(ws'))
    ensures PlanOf(ws').generation == PlanOf(ws).generation
    ensures PlanOf(ws').status.sucNameSuffix == HexEncode(draw)
  {
    CalmStage(Last(ws), v, draw);
    PassOfStage(PlanOf(ws), Last(ws).store.cluster, Env({}, Some(draw)));
    ResetOpensGeneration(PlanOf(ws), ReleaseOf(v), Last(ws).store.cluster, Some(draw));
    SuffixDrawn(PlanOf(ws), ReleaseOf(v), Last(ws).store.cluster, draw);
    ws', actions' := OnePass(ws, actions, v, draw);
  }

  lemma SuffixDrawn(plan: Plan, release: Release, c: Cluster, draw: Draw)
    requires HexEncode(draw) != plan.status.sucNameSuffix
    ensures ObservePass(plan, release, c, Some(draw)).status.sucNameSuffix == HexEncode(draw)
  {
    var observed := plan.status.(sucNameSuffix := HexEncode(draw), observedGeneration := plan.generation);
    AllPending(Set(Set(observed, OsUpgraded, PendingCondition), KubernetesUpgraded, PendingCondition), release.charts);
  }

  lemma EditAllowed(plan: Plan, after: Plan, v: string, v': string)
    requires (v == "1" && v' == "2") || (v == "2" && v' == "3")
    requires !after.deleting && after.status == plan.status && after.spec.releaseVersion == v'
    requires plan.status.lastSuccessfulReleaseVersion == v && CalmConditions(plan.status)
    requires IsTrue(plan.status, OsUpgraded) && IsTrue(plan.status, KubernetesUpgraded)
    ensures ValidateUpdate(Here.parse, plan, after) == Allowed
  {
    assert forall t | t in plan.status.conditions ::
      plan.status.conditions[t].reason in {Succeeded, UnsupportedArchitecture};
    assert "1"[0] != "2"[0] && "1"[0] != "3"[0] && "2"[0] != "3"[0];
  }

  /** The next version is asked for once the upgrade is complete. */
  lemma EditTo(ws: seq<World>, actions: seq<Action>, v: string, v': string)
    returns (ws': seq<World>, actions': seq<Action>)
    requires IsRun(Here, ws, actions) && Calm(Last(ws), v) && UpgradeComplete(PlanOf(ws), ReleaseOf(v))
    requires (v == "1" && v' == "2") || (v == "2" && v' == "3")
    ensures IsRun(Here, ws', actions') && ws < ws' && Calm(Last(ws'), v')
    ensures PlanOf(ws').generation == PlanOf(ws).generation + 1 && PlanOf(ws').status == PlanOf(ws).status
    ensures Grows(Last(ws), Last(ws')) && Last(ws').store.cluster == Last(ws).store.cluster
  {
    var w := Last(ws);
    var plan := w.store.plan.value;
    var after := plan.(spec := plan.spec.(releaseVersion := v'), generation := plan.generation + 1);
    assert plan.spec.releaseVersion != v' by { assert v[0] != v'[0]; }
    EditAllowed(plan, after, v, v');
    InvAlways(Here, ws, actions, |ws| - 1);
    var w' := w.(store := w.store.(plan := Some(after)));
    assert Next(Here, w, Edit(after), w');
    Extend(Here, ws, actions, Edit(after), w');
    ws', actions' := ws + [w'], actions + [Edit(after)];
  }

  /** The generation observed is completed, and the next version asked for. */
  lemma FinishAndEdit(ws: seq<World>, actions: seq<Action>, v: string, v': string)
    returns (ws': seq<World>, actions': seq<Action>)
    requires IsRun(Here, ws, actions) && Observing(ws, v) && ((v == "1" && v' == "2") || (v == "2" && v' == "3"))
    ensures IsRun(Here, ws', actions') && ws < ws' && Calm(Last(ws'), v') && Grows(Last(ws), Last(ws'))
    ensures PlanOf(ws').generation == PlanOf(ws).generation + 1
    ensures PlanOf(ws').status.observedGeneration == PlanOf(ws).generation
    ensures PlanOf(ws').status.sucNameSuffix == PlanOf(ws).status.sucNameSuffix
    ensures InPlace(Last(ws').store.cluster, PlanOf(ws).status.sucNameSuffix)
  {
    ws', actions' := Finish(ws, actions, v);
    ws', actions' := EditTo(ws', actions', v, v');
  }

  /** And its generation is opened under the suffix drawn. */
  lemma NextGeneration(ws: seq<World>, actions: seq<Action>, v: string, v': string, draw: Draw)
    returns (ws': seq<World>, actions': seq<Action>)
    requires IsRun(Here, ws, actions) && Observing(ws, v) && HexEncode(draw) != PlanOf(ws).status.sucNameSuffix
    requires (v == "1" && v' == "2") || (v == "2" && v' == "3")
    ensures IsRun(Here, ws', actions') && ws < ws' && Observing(ws', v')
    ensures Grows(Last(ws), Last(ws')) && InPlace(Last(ws').store.cluster, PlanOf(ws).status.sucNameSuffix)
    ensures PlanOf(ws').generation == PlanOf(ws).generation + 1 && PlanOf(ws').status.sucNameSuffix == HexEncode(draw)
  {
    ws', actions' := FinishAndEdit(ws, actions, v, v');
    ws', actions' := Open(ws', actions', v', draw);
  }

  const NewPlan := Plan("plan", "ns", 1, false, [UpgradePlanFinalizer], Spec("1", None, []), NoStatus)

  /** A plan for version 1 is created in a cluster, and the first pass puts the finalizer on. */
  lemma Begin(c: Cluster) returns (ws: seq<World>, actions: seq<Action>)
    ensures IsRun(Here, ws, actions) && Last(ws) == World(Store(Some(NewPlan), c), {}, {}, {})
  {
    var created := NewPlan.(finalizers := []);
    var w0 := World(Store(None, c), {}, {}, {});
    var w1 := w0.(store := Store(Some(created), c));
    var w2 := w0.(store := Store(Some(NewPlan), c));
    assert WithFinalizer(created) == NewPlan;
    assert Next(Here, w0, Create(created), w1);
    assert Next(Here, w1, Reconciled(Env({}, None), Requeue), w2);
    Extend(Here, [w0], [], Create(created), w1);
    Extend(Here, [w0] + [w1], [] + [Create(created)], Reconciled(Env({}, None), Requeue), w2);
    ws, actions := [w0] + [w1] + [w2], [] + [Create(created)] + [Reconciled(Env({}, None), Requeue)];
  }
}
