/** What holds over whole runs: locked edits, rising versions, stage order, one creation, clean deletion. */
module RunTheorems {
  import opened Prelude
  import opened Api
  import opened Names
  import opened Nodes
  import opened Pass
  import opened Webhook
  import opened Reconcile
  import opened PassStages
  import opened PassEffects
  import opened PassGuarantees
  import opened Runs
  import opened RunInvariants

  // ---- edits ----

  /** While anything the observed generation tracks has not ended, every edit of the live plan is refused. */
  lemma EditsLockedMidUpgrade(ctx: Context, ws: seq<World>, actions: seq<Action>, i: nat, t: string, after: Plan)
    requires IsRun(ctx, ws, actions) && i < |ws| && Live(ws[i].store)
    requires var plan := ws[i].store.plan.value;
      plan.status.observedGeneration == plan.generation && after.status == plan.status && !after.deleting
    requires t in TrackedBy(ws[i].store.plan.value, ws[i].store.cluster) && !Terminal(ws[i].store.plan.value.status, t)
    ensures ValidateUpdate(ctx.parse, ws[i].store.plan.value, after) == UpgradeUnderWay
  {
    InvAlways(ctx, ws, actions, i);
    var st := ws[i].store.plan.value.status;
    assert t in ws[i].tracked;
    assert Locks(st.conditions[t]);
  }

  /** The stored status moves from one observed generation to another. */
  ghost predicate OpensGeneration(w: World, w': World) {
    w.store.plan.Some? && w'.store.plan.Some? && Observed(w'.store) != Observed(w.store)
  }

  /** A pass may only have been a normal one if it changed the status. */
  lemma StatusChangesInPasses(ctx: Context, w: World, a: Action, w': World)
    requires Inv(ctx, w) && Next(ctx, w, a, w') && w.store.plan.Some? && w'.store.plan.Some?
    requires w'.store.plan.value.status != w.store.plan.value.status
    ensures a.Reconciled? && NormalPassed(w, a.env, w')
  {
  }

  /** A normal pass over a live plan whose status was written back. */
  ghost predicate NormalPassed(w: World, env: Env, w': World) {
    && Live(w.store)
    && var p := NormalPass(w.store.plan.value, w.store.cluster, env);
       w'.store == Store(Some(w.store.plan.value.(status := p.status)), p.cluster)
  }

  /** The reset never fires over an unfinished generation, and gives the new one a different suffix. */
  lemma ResetOnlyAfterTheEnd(ctx: Context, ws: seq<World>, actions: seq<Action>, i: nat)
    requires IsRun(ctx, ws, actions) && i < |actions| && OpensGeneration(ws[i], ws[i + 1])
    ensures var st, st' := ws[i].store.plan.value.status, ws[i + 1].store.plan.value.status;
      && (forall t | t in ws[i].tracked :: Terminal(st, t))
      && st'.observedGeneration == ws[i].store.plan.value.generation
      && ws[i + 1].tracked == TrackedBy(ws[i].store.plan.value, ws[i].store.cluster)
      && st'.sucNameSuffix != st.sucNameSuffix && |st'.sucNameSuffix| == 10
  {
    InvAlways(ctx, ws, actions, i);
    assert StepAt(ctx, ws, actions, i);
    StatusChangesInPasses(ctx, ws[i], actions[i], ws[i + 1]);
    var plan := ws[i].store.plan.value;
    PassStatus(plan, ws[i].store.cluster, actions[i].env);
    assert StageOf(plan, ws[i].store.cluster, actions[i].env).ResetStage?;
    UnlockedMeansEnded(plan.status, ws[i].tracked);
  }

  /** No plan or secret name built for one generation is one built for the next, whatever the versions. */
  lemma NextGenerationHasFreshNames(ctx: Context, ws: seq<World>, actions: seq<Action>, i: nat, name: string)
    requires IsRun(ctx, ws, actions) && i < |actions| && OpensGeneration(ws[i], ws[i + 1]) && Observed(ws[i].store) != 0
    ensures var s, s' := ws[i].store.plan.value.status.sucNameSuffix, ws[i + 1].store.plan.value.status.sucNameSuffix;
      !(PlanNameOf(name, s) && PlanNameOf(name, s')) && !(SecretNameOf(name, s) && SecretNameOf(name, s'))
  {
    InvAlways(ctx, ws, actions, i);
    ResetOnlyAfterTheEnd(ctx, ws, actions, i);
    GenerationsShareNoName(name, ws[i].store.plan.value.status.sucNameSuffix,
    ws[i + 1].store.plan.value.status.sucNameSuffix);
  }

  /** The controller's own finalizer updates are never refused by the webhook. */
  lemma FinalizerUpdatesAdmitted(ctx: Context, ws: seq<World>, actions: seq<Action>, i: nat)
    requires IsRun(ctx, ws, actions) && i < |ws| && ws[i].store.plan.Some?
    ensures var plan := ws[i].store.plan.value;
      && (!plan.deleting && UpgradePlanFinalizer !in plan.finalizers ==>
            ValidateUpdate(ctx.parse, plan, WithFinalizer(plan)) == Allowed)
      && (plan.deleting && UpgradePlanFinalizer in plan.finalizers ==>
            ValidateUpdate(ctx.parse, plan, WithoutFinalizer(plan)) == Allowed)
  {
    InvAlways(ctx, ws, actions, i);
  }

  // ---- versions ----

  /** Nothing, the same, or strictly above in precedence. */
  ghost predicate Rises(parse: Parser, before: string, after: string) {
    before == "" || after == before ||
    (parse(before).Some? && parse(after).Some? && Precedes(parse(before).value, parse(after).value))
  }

  lemma VersionStep(ctx: Context, w: World, a: Action, w': World)
    requires Inv(ctx, w) && Next(ctx, w, a, w') && w.store.plan.Some? && w'.store.plan.Some?
    ensures Rises(ctx.parse, w.store.plan.value.status.lastSuccessfulReleaseVersion,
      w'.store.plan.value.status.lastSuccessfulReleaseVersion)
  {
    if w'.store.plan.value.status != w.store.plan.value.status {
      StatusChangesInPasses(ctx, w, a, w');
      PassStatus(w.store.plan.value, w.store.cluster, a.env);
      AboveRises(ctx.parse, w.store.plan.value);
    }
  }

  lemma AboveRises(parse: Parser, plan: Plan)
    ensures VersionAbove(parse, plan) ==>
      Rises(parse, plan.status.lastSuccessfulReleaseVersion, plan.spec.releaseVersion)
  {
    if VersionAbove(parse, plan) {
      BelowMeans(parse(plan.status.lastSuccessfulReleaseVersion).value, parse(plan.spec.releaseVersion).value);
    }
  }

  lemma RisesTransitive(parse: Parser, a: string, b: string, c: string)
    requires Rises(parse, a, b) && Rises(parse, b, c) && b != ""
    ensures Rises(parse, a, c)
  {
    if a != "" && a != b && b != c {
      var x, y, z := parse(a).value, parse(b).value, parse(c).value;
      BelowMeans(x, y);
      BelowMeans(y, z);
      BelowMeans(x, z);
      PrecedenceIsStrictTotalOrder(x, y, z);
    }
  }

  /** The same upgrade plan is stored from `i` to `j`. */
  ghost predicate Stored(ws: seq<World>, i: nat, j: nat) {
    i <= j < |ws| && forall k | i <= k <= j :: ws[k].store.plan.Some?
  }

  function LastVersion(s: Store): string {
    if s.plan.None? then "" else s.plan.value.status.lastSuccessfulReleaseVersion
  }

  /** Over any run the last successful version never goes down, and changes from a version only strictly upwards. */
  lemma {:induction false} LastVersionNeverGoesDown(ctx: Context, ws: seq<World>, actions: seq<Action>, i: nat, j: nat)
    requires IsRun(ctx, ws, actions) && Stored(ws, i, j)
    ensures Rises(ctx.parse, LastVersion(ws[i].store), LastVersion(ws[j].store))
    ensures LastVersion(ws[i].store) != "" ==> LastVersion(ws[j].store) != ""
    decreases j - i
  {
    if i < j {
      LastVersionNeverGoesDown(ctx, ws, actions, i, j - 1);
      InvAlways(ctx, ws, actions, j - 1);
      assert StepAt(ctx, ws, actions, j - 1);
      VersionStep(ctx, ws[j - 1], actions[j - 1], ws[j]);
      NeverForgotten(ctx, ws[j - 1], actions[j - 1], ws[j]);
      if LastVersion(ws[i].store) != "" {
        RisesTransitive(ctx.parse, LastVersion(ws[i].store), LastVersion(ws[j - 1].store), LastVersion(ws[j].store));
      }
    }
  }

  lemma NeverForgotten(ctx: Context, w: World, a: Action, w': World)
    requires Inv(ctx, w) && Next(ctx, w, a, w') && w.store.plan.Some? && w'.store.plan.Some?
    ensures LastVersion(w.store) != "" ==> LastVersion(w'.store) != ""
  {
    if w'.store.plan.value.status != w.store.plan.value.status {
      StatusChangesInPasses(ctx, w, a, w');
      PassStatus(w.store.plan.value, w.store.cluster, a.env);
    }
  }

  // ---- terminal conditions ----

  /** Within one observed generation a condition that has ended never changes again, over any stretch of a run. */
  lemma {:induction false} EndedConditionsStay(ctx: Context, ws: seq<World>, actions: seq<Action>, i: nat, j: nat,
      t: string)
    requires IsRun(ctx, ws, actions) && Stored(ws, i, j)
    requires forall k | i <= k <= j :: Observed(ws[k].store) == Observed(ws[i].store)
    requires t != ValidationFailed && Terminal(ws[i].store.plan.value.status, t)
    ensures Terminal(ws[j].store.plan.value.status, t)
    ensures ws[j].store.plan.value.status.conditions[t] == ws[i].store.plan.value.status.conditions[t]
    decreases j - i
  {
    if i < j {
      EndedConditionsStay(ctx, ws, actions, i, j - 1, t);
      InvAlways(ctx, ws, actions, j - 1);
      assert StepAt(ctx, ws, actions, j - 1);
      var w, w' := ws[j - 1], ws[j];
      if w'.store.plan.value.status != w.store.plan.value.status {
        StatusChangesInPasses(ctx, w, actions[j - 1], w');
        TerminalConditionsStay(w.store.plan.value, w.store.cluster, actions[j - 1].env, t);
      }
    }
  }

  lemma ValidationNotTracked(release: Release)
    ensures ValidationFailed !in Tracked(release)
  {
    forall chart | chart in release.charts ensures ChartType(chart) != ValidationFailed {
      ChartConditionTypesDiffer(chart.prettyName, "");
    }
    assert |ValidationFailed| != |OsUpgraded| && |ValidationFailed| != |KubernetesUpgraded|;
  }

  lemma ValidationStep(ctx: Context, w: World, a: Action, w': World)
    requires Inv(ctx, w) && Next(ctx, w, a, w') && w.store.plan.Some? && w'.store.plan.Some?
    requires IsTrue(w.store.plan.value.status, ValidationFailed)
    ensures IsTrue(w'.store.plan.value.status, ValidationFailed)
  {
    if w'.store.plan.value.status != w.store.plan.value.status {
      StatusChangesInPasses(ctx, w, a, w');
      var plan, c := w.store.plan.value, w.store.cluster;
      PassStatus(plan, c, a.env);
      if Manifest(plan, c).Some? {
        ValidationNotTracked(Manifest(plan, c).value);
        forall chart | chart in Manifest(plan, c).value.charts ensures ChartType(chart) != ValidationFailed {
          assert ChartType(chart) in Tracked(Manifest(plan, c).value);
        }
      }
    }
  }

  /** Once set, the failed validation stays in the status for ever, in later generations and over other nodes too. */
  lemma {:induction false} ValidationFailedStays(ctx: Context, ws: seq<World>, actions: seq<Action>, i: nat, j: nat)
    requires IsRun(ctx, ws, actions) && Stored(ws, i, j) && IsTrue(ws[i].store.plan.value.status, ValidationFailed)
    ensures IsTrue(ws[j].store.plan.value.status, ValidationFailed)
    decreases j - i
  {
    if i < j {
      ValidationFailedStays(ctx, ws, actions, i, j - 1);
      InvAlways(ctx, ws, actions, j - 1);
      assert StepAt(ctx, ws, actions, j - 1);
      ValidationStep(ctx, ws[j - 1], actions[j - 1], ws[j]);
    }
  }

  /** A pass over nodes that are not all supported, whose status is written back. */
  ghost predicate FailsValidation(w: World, a: Action, w': World) {
    a.Reconciled? && NormalPassed(w, a.env, w') && StageOf(w.store.plan.value, w.store.cluster, a.env).InvalidStage?
  }

  lemma ValidationSetBy(ctx: Context, w: World, a: Action, w': World)
    requires Inv(ctx, w) && Next(ctx, w, a, w') && w.store.plan.Some? && w'.store.plan.Some?
    requires !IsTrue(w.store.plan.value.status, ValidationFailed) &&
      IsTrue(w'.store.plan.value.status, ValidationFailed)
    ensures FailsValidation(w, a, w')
  {
    StatusChangesInPasses(ctx, w, a, w');
    var plan, c := w.store.plan.value, w.store.cluster;
    PassStatus(plan, c, a.env);
    if Manifest(plan, c).Some? {
      ValidationNotTracked(Manifest(plan, c).value);
      forall chart | chart in Manifest(plan, c).value.charts ensures ChartType(chart) != ValidationFailed {
        assert ChartType(chart) in Tracked(Manifest(plan, c).value);
      }
    }
  }

  ghost predicate TurnsInvalid(w: World, w': World) {
    && w.store.plan.Some? && w'.store.plan.Some?
    && !IsTrue(w.store.plan.value.status, ValidationFailed) && IsTrue(w'.store.plan.value.status, ValidationFailed)
  }

  lemma StoredWhenInvalid(ctx: Context, ws: seq<World>, actions: seq<Action>, i: nat)
    requires IsRun(ctx, ws, actions) && i < |ws| && ws[i].store.plan.Some?
    requires IsTrue(ws[i].store.plan.value.status, ValidationFailed)
    ensures i > 0 && ws[i - 1].store.plan.Some?
  {
    assert StepAt(ctx, ws, actions, i - 1);
    PlanStoredBefore(ctx, ws[i - 1], actions[i - 1], ws[i]);
  }

  lemma {:induction false} ValidationIsRecorded(ctx: Context, ws: seq<World>, actions: seq<Action>, i: nat)
    returns (j: nat)
    requires IsRun(ctx, ws, actions) && i < |ws| && ws[i].store.plan.Some?
    requires IsTrue(ws[i].store.plan.value.status, ValidationFailed)
    ensures j < i && Stored(ws, j, i) && TurnsInvalid(ws[j], ws[j + 1])
  {
    StoredWhenInvalid(ctx, ws, actions, i);
    if IsTrue(ws[i - 1].store.plan.value.status, ValidationFailed) {
      j := ValidationIsRecorded(ctx, ws, actions, i - 1);
    } else {
      j := i - 1;
    }
  }

  lemma ValidationHasAPass(ctx: Context, ws: seq<World>, actions: seq<Action>, i: nat) returns (j: nat)
    requires IsRun(ctx, ws, actions) && i < |ws| && ws[i].store.plan.Some?
    requires IsTrue(ws[i].store.plan.value.status, ValidationFailed)
    ensures j < i && Stored(ws, j, i) && FailsValidation(ws[j], actions[j], ws[j + 1])
  {
    j := ValidationIsRecorded(ctx, ws, actions, i);
    InvAlways(ctx, ws, actions, j);
    assert StepAt(ctx, ws, actions, j);
    ValidationSetBy(ctx, ws[j], actions[j], ws[j + 1]);
  }

  /** The stored plan shows a failed validation exactly when some earlier pass over it has failed the validation. */
  lemma ValidationFailedExactlyWhen(ctx: Context, ws: seq<World>, actions: seq<Action>, i: nat)
    requires IsRun(ctx, ws, actions) && i < |ws| && ws[i].store.plan.Some?
    ensures IsTrue(ws[i].store.plan.value.status, ValidationFailed) <==>
      exists j: nat :: j < i && Stored(ws, j, i) && FailsValidation(ws[j], actions[j], ws[j + 1])
  {
    if IsTrue(ws[i].store.plan.value.status, ValidationFailed) {
      var j := ValidationHasAPass(ctx, ws, actions, i);
    }
    if j: nat :| j < i && Stored(ws, j, i) && FailsValidation(ws[j], actions[j], ws[j + 1]) {
      FailureShows(ws[j], actions[j], ws[j + 1]);
      ValidationFailedStays(ctx, ws, actions, j + 1, i);
    }
  }

  lemma FailureShows(w: World, a: Action, w': World)
    requires FailsValidation(w, a, w')
    ensures w'.store.plan.Some? && IsTrue(w'.store.plan.value.status, ValidationFailed)
  {
    PassOfStage(w.store.plan.value, w.store.cluster, a.env);
  }

  // ---- order of stages over the run ----

  /** Between the two worlds node stage `t` is recorded as succeeded, while generation `g` is observed. */
  ghost predicate TurnsTrue(w: World, w': World, t: string, g: nat) {
    && w.store.plan.Some? && w'.store.plan.Some? && Observed(w.store) == g && Observed(w'.store) == g
    && !IsTrue(w.store.plan.value.status, t) && IsTrue(w'.store.plan.value.status, t)
  }

  /** That record is written by a pass in that stage, over nodes and core components that are all done. */
  lemma TurnsTrueHonestly(ctx: Context, w: World, a: Action, w': World, t: string, g: nat)
    requires Inv(ctx, w) && Next(ctx, w, a, w') && TurnsTrue(w, w', t, g) && t in {OsUpgraded, KubernetesUpgraded}
    ensures a.Reconciled? && NormalPassed(w, a.env, w') && StageSucceeded(w.store.plan.value, w.store.cluster, a.env)
    ensures StageOf(w.store.plan.value, w.store.cluster, a.env) == if t == OsUpgraded then OsStage else KubernetesStage
  {
    StatusChangesInPasses(ctx, w, a, w');
    SuccessNeedsStageDone(w.store.plan.value, w.store.cluster, a.env, t);
  }

  lemma PlanStoredBefore(ctx: Context, w: World, a: Action, w': World)
    requires Next(ctx, w, a, w') && w'.store.plan.Some? && w'.store.plan.value.status != NoStatus
    ensures w.store.plan.Some?
  {
  }

  /** A stage found succeeded was so before the step, in the same generation, or succeeded in it. */
  lemma SuccessStep(ctx: Context, w: World, a: Action, w': World, t: string)
    requires Inv(ctx, w) && Next(ctx, w, a, w') && w.store.plan.Some? && w'.store.plan.Some?
    requires t in {OsUpgraded, KubernetesUpgraded} && IsTrue(w'.store.plan.value.status, t)
    ensures Observed(w'.store) == Observed(w.store)
    ensures IsTrue(w.store.plan.value.status, t) || TurnsTrue(w, w', t, Observed(w'.store))
  {
    if w'.store.plan.value.status != w.store.plan.value.status {
      StatusChangesInPasses(ctx, w, a, w');
      NotResetToTrue(w.store.plan.value, w.store.cluster, a.env, t);
    }
  }

  lemma NotResetToTrue(plan: Plan, c: Cluster, env: Env, t: string)
    requires StoredSelectors(plan, c) && t in {OsUpgraded, KubernetesUpgraded} &&
      IsTrue(NormalPass(plan, c, env).status, t)
    ensures NormalPass(plan, c, env).status.observedGeneration == plan.status.observedGeneration
  {
    PassStatus(plan, c, env);
  }

  lemma SuccessStepAt(ctx: Context, ws: seq<World>, actions: seq<Action>, i: nat, t: string)
    requires IsRun(ctx, ws, actions) && i < |ws| && ws[i].store.plan.Some?
    requires t in {OsUpgraded, KubernetesUpgraded} && IsTrue(ws[i].store.plan.value.status, t)
    ensures i > 0 && ws[i - 1].store.plan.Some? && Observed(ws[i].store) == Observed(ws[i - 1].store)
    ensures IsTrue(ws[i - 1].store.plan.value.status, t) || TurnsTrue(ws[i - 1], ws[i], t, Observed(ws[i].store))
  {
    InvAlways(ctx, ws, actions, i - 1);
    assert StepAt(ctx, ws, actions, i - 1);
    PlanStoredBefore(ctx, ws[i - 1], actions[i - 1], ws[i]);
    SuccessStep(ctx, ws[i - 1], actions[i - 1], ws[i], t);
  }

  /** A node stage recorded as succeeded did succeed, in an earlier pass of the same observed generation. */
  lemma {:induction false} SuccessHasAPass(ctx: Context, ws: seq<World>, actions: seq<Action>, i: nat, t: string)
    returns (j: nat)
    requires IsRun(ctx, ws, actions) && i < |ws| && ws[i].store.plan.Some?
    requires t in {OsUpgraded, KubernetesUpgraded} && IsTrue(ws[i].store.plan.value.status, t)
    ensures j < i && TurnsTrue(ws[j], ws[j + 1], t, Observed(ws[i].store))
    ensures Stored(ws, j, i) && forall k | j <= k <= i :: Observed(ws[k].store) == Observed(ws[i].store)
  {
    SuccessStepAt(ctx, ws, actions, i, t);
    if IsTrue(ws[i - 1].store.plan.value.status, t) {
      j := SuccessHasAPass(ctx, ws, actions, i - 1, t);
    } else {
      j := i - 1;
    }
  }

  /** Step `i` runs a pass, written back or not, after which SUC plan `n` is there and before which it was not. */
  ghost predicate CreatesPlanAt(w: World, a: Action, w': World, n: string) {
    a.Reconciled? && Live(w.store) && n !in w.store.cluster.sucPlans && n in w'.store.cluster.sucPlans
  }

  lemma CreatedInNormalPass(ctx: Context, w: World, a: Action, w': World)
    requires Next(ctx, w, a, w') && a.Reconciled? && Live(w.store) && w'.store.cluster != w.store.cluster
    ensures w'.store.cluster == NormalPass(w.store.plan.value, w.store.cluster, a.env).cluster
  {
  }

  /**
   * Even when status writes are lost: a Kubernetes plan is created only after an earlier pass of the same observed
   * generation recorded that the operating system stage was done on every node.
   */
  lemma KubernetesStartsAfterOsSucceeded(ctx: Context, ws: seq<World>, actions: seq<Action>, i: nat, n: string)
    returns (j: nat)
    requires IsRun(ctx, ws, actions) && i < |actions| && CreatesPlanAt(ws[i], actions[i], ws[i + 1], n)
    requires KubernetesUpgradeLabel in ws[i + 1].store.cluster.sucPlans[n].labels
    ensures j < i && TurnsTrue(ws[j], ws[j + 1], OsUpgraded, Observed(ws[i].store))
    ensures Manifest(ws[j].store.plan.value, ws[j].store.cluster).Some? &&
      EveryNodeUp(ws[j].store.cluster.nodes,
      OsImage(Manifest(ws[j].store.plan.value, ws[j].store.cluster).value.os.prettyName))
  {
    InvAlways(ctx, ws, actions, i);
    assert StepAt(ctx, ws, actions, i);
    CreatedInNormalPass(ctx, ws[i], actions[i], ws[i + 1]);
    KubernetesPlansComeAfterOs(ws[i].store.plan.value, ws[i].store.cluster, actions[i].env, n);
    j := SuccessHasAPass(ctx, ws, actions, i, OsUpgraded);
    InvAlways(ctx, ws, actions, j);
    assert StepAt(ctx, ws, actions, j);
    TurnsTrueHonestly(ctx, ws[j], actions[j], ws[j + 1], OsUpgraded, Observed(ws[i].store));
    OsSuccessMeansEveryNode(ws[j].store.plan.value, ws[j].store.cluster, actions[j].env);
  }

  lemma KubernetesSuccessFollowsOs(ctx: Context, ws: seq<World>, actions: seq<Action>, k: nat, g: nat)
    requires IsRun(ctx, ws, actions) && k < |actions| && TurnsTrue(ws[k], ws[k + 1], KubernetesUpgraded, g)
    ensures IsTrue(ws[k].store.plan.value.status, OsUpgraded)
  {
    InvAlways(ctx, ws, actions, k);
    assert StepAt(ctx, ws, actions, k);
    TurnsTrueHonestly(ctx, ws[k], actions[k], ws[k + 1], KubernetesUpgraded, g);
  }

  /**
   * A HelmChart is written only after both node stages succeeded, in that order, in earlier passes of this generation.
   */
  lemma ChartsStartAfterNodes(ctx: Context, ws: seq<World>, actions: seq<Action>, i: nat) returns (j: nat, k: nat)
    requires IsRun(ctx, ws, actions) && i < |actions| && actions[i].Reconciled? && Live(ws[i].store)
    requires ws[i + 1].store.cluster.charts != ws[i].store.cluster.charts
    ensures j < k < i
    ensures TurnsTrue(ws[j], ws[j + 1], OsUpgraded, Observed(ws[i].store))
    ensures TurnsTrue(ws[k], ws[k + 1], KubernetesUpgraded, Observed(ws[i].store))
    ensures WritesChartInOrder(ws[i].store.plan.value, ws[i].store.cluster, actions[i].env.faults,
      ws[i + 1].store.cluster)
  {
    InvAlways(ctx, ws, actions, i);
    assert StepAt(ctx, ws, actions, i);
    CreatedInNormalPass(ctx, ws[i], actions[i], ws[i + 1]);
    ChartsComeInOrder(ws[i].store.plan.value, ws[i].store.cluster, actions[i].env);
    k := SuccessHasAPass(ctx, ws, actions, i, KubernetesUpgraded);
    KubernetesSuccessFollowsOs(ctx, ws, actions, k, Observed(ws[i].store));
    j := SuccessHasAPass(ctx, ws, actions, k, OsUpgraded);
  }

  // ---- objects ----

  /** Live from `i` to `j`. */
  ghost predicate LiveThroughout(ws: seq<World>, i: nat, j: nat) {
    i <= j < |ws| && forall k | i <= k <= j :: Live(ws[k].store)
  }

  lemma PlansStayWhileLive(ctx: Context, w: World, a: Action, w': World, n: string)
    requires Inv(ctx, w) && Next(ctx, w, a, w') && Live(w.store) && n in w.plans && n in w.store.cluster.sucPlans
    ensures n in w'.plans && n in w'.store.cluster.sucPlans
  {
    if a.Reconciled? && w'.store.cluster != w.store.cluster {
      CreatedInNormalPass(ctx, w, a, w');
      PassKeepsCluster(ctx, w, a.env, w'.store.cluster);
    }
  }

  lemma SecretsStayWhileLive(ctx: Context, w: World, a: Action, w': World, n: string)
    requires Inv(ctx, w) && Next(ctx, w, a, w') && Live(w.store) && n in w.secrets && n in w.store.cluster.secrets
    ensures n in w'.secrets && n in w'.store.cluster.secrets
  {
    if a.Reconciled? && w'.store.cluster != w.store.cluster {
      CreatedInNormalPass(ctx, w, a, w');
      PassKeepsCluster(ctx, w, a.env, w'.store.cluster);
    }
  }

  lemma {:induction false} CreatedStays(ctx: Context, ws: seq<World>, actions: seq<Action>, i: nat, j: nat, n: string)
    requires IsRun(ctx, ws, actions) && LiveThroughout(ws, i, j)
    ensures n in ws[i].plans && n in ws[i].store.cluster.sucPlans ==>
      n in ws[j].plans && n in ws[j].store.cluster.sucPlans
    ensures n in ws[i].secrets && n in ws[i].store.cluster.secrets ==>
      n in ws[j].secrets && n in ws[j].store.cluster.secrets
    decreases j - i
  {
    if i < j {
      CreatedStays(ctx, ws, actions, i, j - 1, n);
      InvAlways(ctx, ws, actions, j - 1);
      assert StepAt(ctx, ws, actions, j - 1);
      if n in ws[j - 1].plans && n in ws[j - 1].store.cluster.sucPlans {
        PlansStayWhileLive(ctx, ws[j - 1], actions[j - 1], ws[j], n);
      }
      if n in ws[j - 1].secrets && n in ws[j - 1].store.cluster.secrets {
        SecretsStayWhileLive(ctx, ws[j - 1], actions[j - 1], ws[j], n);
      }
    }
  }

  /** While the upgrade plan lives, lost status writes included, no SUC plan is created twice under one name. */
  lemma PlansCreatedOnce(ctx: Context, ws: seq<World>, actions: seq<Action>, i: nat, j: nat, n: string)
    requires IsRun(ctx, ws, actions) && i < j < |actions| && LiveThroughout(ws, i, j)
    requires CreatesPlanAt(ws[i], actions[i], ws[i + 1], n)
    ensures !CreatesPlanAt(ws[j], actions[j], ws[j + 1], n)
  {
    assert StepAt(ctx, ws, actions, i);
    assert n in ws[i + 1].plans;
    CreatedStays(ctx, ws, actions, i + 1, j, n);
  }

  ghost predicate CreatesSecretAt(w: World, a: Action, w': World, n: string) {
    a.Reconciled? && Live(w.store) && n !in w.store.cluster.secrets && n in w'.store.cluster.secrets
  }

  lemma SecretsCreatedOnce(ctx: Context, ws: seq<World>, actions: seq<Action>, i: nat, j: nat, n: string)
    requires IsRun(ctx, ws, actions) && i < j < |actions| && LiveThroughout(ws, i, j)
    requires CreatesSecretAt(ws[i], actions[i], ws[i + 1], n)
    ensures !CreatesSecretAt(ws[j], actions[j], ws[j + 1], n)
  {
    assert StepAt(ctx, ws, actions, i);
    assert n in ws[i + 1].secrets;
    CreatedStays(ctx, ws, actions, i + 1, j, n);
  }

  // ---- deletion ----

  /** The controller takes its finalizer off a deleting plan in this step. */
  ghost predicate RemovesFinalizer(w: World, a: Action, w': World) {
    && a.Reconciled? && w.store.plan.Some?
    && w.store.plan.value.deleting && UpgradePlanFinalizer in w.store.plan.value.finalizers
    && (w'.store.plan.Some? ==> UpgradePlanFinalizer !in w'.store.plan.value.finalizers)
  }

  /** When the finalizer goes, nothing is left of what passes over this plan created, in whatever generation. */
  lemma DeletionIsComplete(ctx: Context, ws: seq<World>, actions: seq<Action>, i: nat)
    requires IsRun(ctx, ws, actions) && i < |actions| && RemovesFinalizer(ws[i], actions[i], ws[i + 1])
    ensures ws[i + 1].plans == {} && ws[i + 1].secrets == {}
    ensures forall n | n in ws[i].plans :: n !in ws[i + 1].store.cluster.sucPlans
    ensures forall n | n in ws[i].secrets :: n !in ws[i + 1].store.cluster.secrets
  {
    var w, a, w' := ws[i], actions[i], ws[i + 1];
    InvAlways(ctx, ws, actions, i);
    InvAlways(ctx, ws, actions, i + 1);
    assert StepAt(ctx, ws, actions, i);
    var plan := w.store.plan.value;
    assert DeletingStep(ctx.parse, plan, w.store.cluster, a.env.faults, w'.store, a.outcome);
    var v :| DeletePass(plan, w.store.cluster, a.env.faults, w'.store.cluster, v) &&
             DeletingVerdict(ctx.parse, plan, a.env.faults, v, w'.store.plan, a.outcome);
    assert v.Deleted?;
    NothingCarried(plan, w'.store.cluster, ctx.id);
  }

  lemma NothingCarried(plan: Plan, c: Cluster, id: Request)
    requires KeyOf(plan) == id && NoOwnedPlan(plan, c) && NoOwnedSecret(plan, c)
    ensures forall n | n in c.sucPlans :: !Carries(c.sucPlans[n].labels, id)
    ensures forall n | n in c.secrets :: !Carries(c.secrets[n], id)
  {
    forall n | n in c.sucPlans ensures !Carries(c.sucPlans[n].labels, id) {
      assert !OwnedBy(c.sucPlans[n].labels, plan);
    }
    forall n | n in c.secrets ensures !Carries(c.secrets[n], id) {
      assert !OwnedBy(c.secrets[n], plan);
    }
  }

  /**
   * A pass removes a SUC plan or a secret only of this upgrade plan, only while deleting it, and never a plan being
   * applied.
   */
  lemma DeletionIsSafe(ctx: Context, ws: seq<World>, actions: seq<Action>, i: nat, n: string)
    requires IsRun(ctx, ws, actions) && i < |actions| && actions[i].Reconciled?
    ensures var c, c' := ws[i].store.cluster, ws[i + 1].store.cluster;
      && (n in c.sucPlans && n !in c'.sucPlans ==>
            c.sucPlans[n].applying == [] && Carries(c.sucPlans[n].labels, ctx.id) && !Live(ws[i].store))
      && (n in c.secrets && n !in c'.secrets ==> Carries(c.secrets[n], ctx.id) && !Live(ws[i].store))
      && (n in c.sucPlans && n in c'.sucPlans ==> c'.sucPlans[n] == c.sucPlans[n])
      && (n in c.secrets && n in c'.secrets ==> c'.secrets[n] == c.secrets[n])
  {
    var w, a, w' := ws[i], actions[i], ws[i + 1];
    InvAlways(ctx, ws, actions, i);
    assert StepAt(ctx, ws, actions, i);
    if w'.store.cluster != w.store.cluster {
      if Live(w.store) {
        CreatedInNormalPass(ctx, w, a, w');
        PassKeepsCluster(ctx, w, a.env, w'.store.cluster);
      } else {
        var plan := w.store.plan.value;
        assert DeletingStep(ctx.parse, plan, w.store.cluster, a.env.faults, w'.store, a.outcome);
      }
    }
  }
}
