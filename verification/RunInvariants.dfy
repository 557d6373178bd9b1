/** The invariant of every run. */
module RunInvariants {
  import opened Prelude
  import opened Api
  import opened Pass
  import opened Webhook
  import opened Reconcile
  import opened PassStages
  import opened PassEffects
  import opened PassGuarantees
  import opened Runs

  // ---- the parts ----

  /** Every tracked condition is there, and has either ended or locks the plan. */
  ghost predicate TrackedEndedOrLocking(st: Status, tracked: set<string>) {
    forall t | t in tracked :: t in st.conditions && (Terminal(st, t) || Locks(st.conditions[t]))
  }

  /** A live plan whose generation is observed tracks its own manifest; one that is not yet observed is unlocked. */
  ghost predicate GenerationInv(plan: Plan, c: Cluster, tracked: set<string>) {
    && TrackedEndedOrLocking(plan.status, tracked)
    && plan.status.observedGeneration <= plan.generation
    && (plan.status.observedGeneration == 0 ==> tracked == {})
    && (!plan.deleting && plan.status.observedGeneration == plan.generation ==>
          Manifest(plan, c).Some? && tracked == Tracked(Manifest(plan, c).value))
    && (!plan.deleting && plan.status.observedGeneration != plan.generation ==> !Locked(plan.status.conditions))
    && (plan.status.observedGeneration != 0 ==> |plan.status.sucNameSuffix| == 10)
  }

  /** The wanted version parses, and is the last successful one or above it. */
  ghost predicate VersionInv(parse: Parser, plan: Plan) {
    !plan.deleting ==>
      && plan.spec.releaseVersion != "" && parse(plan.spec.releaseVersion).Some?
      && (plan.status.lastSuccessfulReleaseVersion in {"", plan.spec.releaseVersion} || VersionAbove(parse, plan))
  }

  ghost predicate VersionAbove(parse: Parser, plan: Plan) {
    parse(plan.spec.releaseVersion).Some? && parse(plan.status.lastSuccessfulReleaseVersion).Some? &&
    Below(parse(plan.status.lastSuccessfulReleaseVersion).value, parse(plan.spec.releaseVersion).value)
  }

  /** A live plan without the finalizer can be edited: no lock, and a version above the last one. */
  ghost predicate FinalizerInv(parse: Parser, plan: Plan) {
    !plan.deleting && UpgradePlanFinalizer !in plan.finalizers ==>
      !Locked(plan.status.conditions) && (plan.status.lastSuccessfulReleaseVersion == "" || VersionAbove(parse, plan))
  }

  ghost predicate PlanInv(ctx: Context, plan: Plan, c: Cluster, tracked: set<string>) {
    && KeyOf(plan) == ctx.id && GenerationInv(plan, c, tracked)
    && VersionInv(ctx.parse, plan) && FinalizerInv(ctx.parse, plan)
  }

  /** What this controller created is still there under its owner's labels. */
  ghost predicate OwnedInv(ctx: Context, w: World) {
    && (forall n | n in w.plans :: n in w.store.cluster.sucPlans && Carries(w.store.cluster.sucPlans[n].labels, ctx.id))
    && (forall n | n in w.secrets :: n in w.store.cluster.secrets && Carries(w.store.cluster.secrets[n], ctx.id))
  }

  ghost predicate Inv(ctx: Context, w: World) {
    && OwnedInv(ctx, w) && SelectorsKept(w.store, w.store.cluster)
    && (w.store.plan.Some? ==> PlanInv(ctx, w.store.plan.value, w.store.cluster, w.tracked))
  }

  // ---- steps other than passes ----

  lemma CreateKeeps(ctx: Context, w: World, p: Plan, w': World)
    requires Inv(ctx, w) && Creates(ctx, w, p, w')
    ensures Inv(ctx, w')
  {
  }

  lemma UnlockedMeansEnded(st: Status, tracked: set<string>)
    requires TrackedEndedOrLocking(st, tracked) && !Locked(st.conditions)
    ensures forall t | t in tracked :: Terminal(st, t)
  {
  }

  lemma EditKeeps(ctx: Context, w: World, after: Plan, w': World)
    requires Inv(ctx, w) && Edits(ctx, w, after, w')
    ensures Inv(ctx, w')
  {
    var before := w.store.plan.value;
    if !after.deleting {
      AdmittedEdit(ctx.parse, before, after);
    }
  }

  lemma MarkKeeps(ctx: Context, w: World, w': World)
    requires Inv(ctx, w) && MarksDeleted(w, w')
    ensures Inv(ctx, w')
  {
  }

  lemma ElsewhereKeeps(ctx: Context, w: World, w': World)
    requires Inv(ctx, w) && HappensElsewhere(w, w')
    ensures Inv(ctx, w')
  {
    var c, c' := w.store.cluster, w'.store.cluster;
    forall n | n in w.plans ensures n in c'.sucPlans && Carries(c'.sucPlans[n].labels, ctx.id) {
      assert n in c.sucPlans;
    }
    forall n | n in w.secrets ensures n in c'.secrets && Carries(c'.secrets[n], ctx.id) {
      assert n in c.secrets;
    }
  }

  // ---- passes ----

  /** A new status keeps the generation part, provided the cluster still has the manifest. */
  lemma StatusKeeps(plan: Plan, c: Cluster, env: Env, tracked: set<string>)
    requires StoredSelectors(plan, c) && GenerationInv(plan, c, tracked) && !plan.deleting
    ensures var st' := NormalPass(plan, c, env).status;
      GenerationInv(plan.(status := st'), c,
        if st'.observedGeneration != plan.status.observedGeneration then TrackedBy(plan, c) else tracked)
  {
    var s := StageOf(plan, c, env);
    var st, st' := plan.status, NormalPass(plan, c, env).status;
    PassStatus(plan, c, env);
    if st' != st {
      match s {
        case ResetStage => ResetKeeps(plan, c, st');
        case InvalidStage => InvalidKeeps(plan, c, tracked);
        case OsStage => SetKeeps(plan, c, tracked, OsUpgraded, st');
        case KubernetesStage => SetKeeps(plan, c, tracked, KubernetesUpgraded, st');
        case ChartStage(i) => ChartSetKeeps(plan, c, tracked, i, st');
        case _ =>
      }
    }
  }

  lemma ResetKeeps(plan: Plan, c: Cluster, st': Status)
    requires !plan.deleting && Manifest(plan, c).Some? && IsReset(plan, Manifest(plan, c).value, st')
    requires plan.generation >= plan.status.observedGeneration && plan.generation != plan.status.observedGeneration
    ensures GenerationInv(plan.(status := st'), c, Tracked(Manifest(plan, c).value))
  {
  }

  lemma InvalidKeeps(plan: Plan, c: Cluster, tracked: set<string>)
    requires GenerationInv(plan, c, tracked) && !plan.deleting
    ensures GenerationInv(plan.(status := Set(plan.status, ValidationFailed, Condition(True, UnsupportedArchitecture))),
      c, tracked)
  {
    var st' := Set(plan.status, ValidationFailed, Condition(True, UnsupportedArchitecture));
    assert ValidationFailed !in {OsUpgraded, KubernetesUpgraded} by {
      assert |ValidationFailed| != |OsUpgraded| && |ValidationFailed| != |KubernetesUpgraded|;
    }
    forall t | t in tracked ensures t in st'.conditions && (Terminal(st', t) || Locks(st'.conditions[t])) {
    }
  }

  lemma SetKeeps(plan: Plan, c: Cluster, tracked: set<string>, t: string, st': Status)
    requires GenerationInv(plan, c, tracked) && !plan.deleting && plan.status.observedGeneration == plan.generation
    requires t in {OsUpgraded, KubernetesUpgraded} && Sets(plan.status, t, StageConditions, st')
    ensures GenerationInv(plan.(status := st'), c, tracked)
  {
  }

  lemma ChartSetKeeps(plan: Plan, c: Cluster, tracked: set<string>, i: nat, st': Status)
    requires GenerationInv(plan, c, tracked) && !plan.deleting && plan.status.observedGeneration == plan.generation
    requires Manifest(plan, c).Some? && StageAfter(plan.status, Manifest(plan, c).value) == ChartStage(i)
    requires Sets(plan.status, ChartType(Manifest(plan, c).value.charts[i]), ChartConditions, st')
    ensures GenerationInv(plan.(status := st'), c, tracked)
  {
    var t := ChartType(Manifest(plan, c).value.charts[i]);
    assert !ChartFinished(plan.status, t);
    assert t !in {OsUpgraded, KubernetesUpgraded};
  }

  /** A normal pass writes only this plan's own objects, and leaves the manifests alone. */
  lemma PassKeepsCluster(ctx: Context, w: World, env: Env, c': Cluster)
    requires Inv(ctx, w) && Live(w.store) && c' == NormalPass(w.store.plan.value, w.store.cluster, env).cluster
    ensures StoredSelectors(w.store.plan.value, c') && c'.manifests == w.store.cluster.manifests
    ensures forall n | n in c'.sucPlans && n !in w.store.cluster.sucPlans :: Carries(c'.sucPlans[n].labels, ctx.id)
    ensures forall n | n in c'.secrets && n !in w.store.cluster.secrets :: Carries(c'.secrets[n], ctx.id)
    ensures forall n | n in w.store.cluster.sucPlans ::
      n in c'.sucPlans && c'.sucPlans[n] == w.store.cluster.sucPlans[n]
    ensures forall n | n in w.store.cluster.secrets :: n in c'.secrets && c'.secrets[n] == w.store.cluster.secrets[n]
  {
    var plan, c := w.store.plan.value, w.store.cluster;
    if c' != c {
      var o := OneObjectPerPass(plan, c, env);
      assert forall labels :: OwnedBy(labels, plan) <==> Carries(labels, KeyOf(plan));
    }
  }

  lemma VersionKeeps(ctx: Context, plan: Plan, c: Cluster, env: Env)
    requires StoredSelectors(plan, c) && VersionInv(ctx.parse, plan)
    ensures VersionInv(ctx.parse, plan.(status := NormalPass(plan, c, env).status))
  {
    PassStatus(plan, c, env);
  }

  /** The stored plan and cluster after a normal pass; the status write may have been lost. */
  ghost predicate AfterPass(plan: Plan, p: Pass, s': Store) {
    s'.cluster == p.cluster && (s'.plan == Some(plan) || s'.plan == Some(plan.(status := p.status)))
  }

  /** Unless a suffix is drawn, which the step accounts for, stored selectors stay as they should be. */
  lemma NormalKeepsSelectors(ctx: Context, w: World, env: Env, s': Store)
    requires Inv(ctx, w) && Live(w.store) &&
      AfterPass(w.store.plan.value, NormalPass(w.store.plan.value, w.store.cluster, env), s')
    requires Observed(s') != Observed(w.store) ==> SelectorsKept(s', s'.cluster)
    ensures SelectorsKept(s', s'.cluster)
  {
    PassKeepsCluster(ctx, w, env, s'.cluster);
    PassStatus(w.store.plan.value, w.store.cluster, env);
  }

  lemma NormalKeepsPlan(ctx: Context, w: World, env: Env, s': Store)
    requires Inv(ctx, w) && Live(w.store) &&
      AfterPass(w.store.plan.value, NormalPass(w.store.plan.value, w.store.cluster, env), s')
    requires UpgradePlanFinalizer in w.store.plan.value.finalizers
    ensures PlanInv(ctx, s'.plan.value, s'.cluster,
      if Observed(s') != Observed(w.store) then TrackedBy(w.store.plan.value, w.store.cluster) else w.tracked)
  {
    var plan, c := w.store.plan.value, w.store.cluster;
    PassKeepsCluster(ctx, w, env, s'.cluster);
    StatusKeeps(plan, c, env, w.tracked);
    VersionKeeps(ctx, plan, c, env);
    assert Manifest(s'.plan.value, s'.cluster) == Manifest(s'.plan.value, c);
  }

  lemma NormalKeeps(ctx: Context, w: World, env: Env, o: Outcome, w': World)
    requires Inv(ctx, w) && Reconciles(ctx, w, env, o, w') && Live(w.store)
    requires NormalStep(w.store.plan.value, w.store.cluster, env, w'.store, o)
    requires UpgradePlanFinalizer in w.store.plan.value.finalizers
    ensures Inv(ctx, w')
  {
    PassKeepsCluster(ctx, w, env, w'.store.cluster);
    NormalKeepsSelectors(ctx, w, env, w'.store);
    NormalKeepsPlan(ctx, w, env, w'.store);
  }

  lemma DeletingKeeps(ctx: Context, w: World, env: Env, o: Outcome, w': World)
    requires Inv(ctx, w) && Reconciles(ctx, w, env, o, w') && w.store.plan.Some? && w.store.plan.value.deleting
    requires DeletingStep(ctx.parse, w.store.plan.value, w.store.cluster, env.faults, w'.store, o)
    ensures Inv(ctx, w')
  {
    var plan, c, c' := w.store.plan.value, w.store.cluster, w'.store.cluster;
    var v :| DeletePass(plan, c, env.faults, c', v) &&
      DeletingVerdict(ctx.parse, plan, env.faults, v, w'.store.plan, o);
    assert OnlyOwnedIdleRemoved(plan, c, c');
    if w'.store.plan.Some? {
      var plan' := w'.store.plan.value;
      assert plan' == plan.(finalizers := plan'.finalizers);
      assert Manifest(plan', c') == Manifest(plan, c);
    }
  }

  lemma FinalizerKeeps(ctx: Context, w: World, env: Env, o: Outcome, w': World)
    requires Inv(ctx, w) && Reconciles(ctx, w, env, o, w') && w.store.plan.Some? && !w.store.plan.value.deleting
    requires w'.store.cluster == w.store.cluster
    requires FinalizerStep(ctx.parse, w.store.plan.value, env.faults, w'.store.plan, o)
    ensures Inv(ctx, w')
  {
    var plan := w.store.plan.value;
    var plan' := w'.store.plan.value;
    assert plan' == plan.(finalizers := plan'.finalizers);
    assert Manifest(plan', w'.store.cluster) == Manifest(plan, w.store.cluster);
    assert plan'.finalizers == plan.finalizers || UpgradePlanFinalizer in plan'.finalizers;
  }

  lemma ReconcileKeeps(ctx: Context, w: World, env: Env, o: Outcome, w': World)
    requires Inv(ctx, w) && Reconciles(ctx, w, env, o, w')
    ensures Inv(ctx, w')
  {
    if GetPlan !in env.faults && w.store.plan.Some? {
      var plan := w.store.plan.value;
      if plan.deleting {
        if UpgradePlanFinalizer in plan.finalizers { DeletingKeeps(ctx, w, env, o, w'); }
      } else if UpgradePlanFinalizer !in plan.finalizers {
        FinalizerKeeps(ctx, w, env, o, w');
      } else {
        NormalKeeps(ctx, w, env, o, w');
      }
    }
  }

  lemma NextKeeps(ctx: Context, w: World, a: Action, w': World)
    requires Inv(ctx, w) && Next(ctx, w, a, w')
    ensures Inv(ctx, w')
  {
    match a {
      case Create(p) => CreateKeeps(ctx, w, p, w');
      case Edit(after) => EditKeeps(ctx, w, after, w');
      case MarkDeleted => MarkKeeps(ctx, w, w');
      case Reconciled(env, o) => ReconcileKeeps(ctx, w, env, o, w');
      case Elsewhere => ElsewhereKeeps(ctx, w, w');
    }
  }

  /** The invariant holds at every point of every run. */
  lemma {:induction false} InvAlways(ctx: Context, ws: seq<World>, actions: seq<Action>, i: nat)
    requires IsRun(ctx, ws, actions) && i < |ws|
    ensures Inv(ctx, ws[i])
  {
    if i > 0 {
      InvAlways(ctx, ws, actions, i - 1);
      assert StepAt(ctx, ws, actions, i - 1);
      NextKeeps(ctx, ws[i - 1], actions[i - 1], ws[i]);
    }
  }
}
