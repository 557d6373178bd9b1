/** Progress of deletion: one reconcile free of faults, over idle plans, ends it, whatever came before. */
module Deletions {
  import opened Api
  import opened Pass
  import opened Reconcile
  import opened Runs
  import opened RunInvariants
  import opened RunTheorems
  import Webhook

  /** The upgrade plan is gone, or only the finalizers of others hold it. */
  predicate FinalizerGone(s: Store) {
    s.plan.None? || (s.plan.value.deleting && UpgradePlanFinalizer !in s.plan.value.finalizers)
  }

  predicate AwaitsDeletion(s: Store) {
    s.plan.Some? && s.plan.value.deleting && UpgradePlanFinalizer in s.plan.value.finalizers
  }

  /** A fault-free reconcile of a deleting plan lets it go exactly when none of its SUC plans is being applied. */
  lemma DeletesExactlyWhen(parse: Webhook.Parser, s: Store, env: Env, s': Store, o: Outcome)
    requires AwaitsDeletion(s) && env.faults == {} && ReconcileStep(parse, s, env, s', o)
    ensures FinalizerGone(s') <==> !SomeOwnedPlanApplies(s.plan.value, s.cluster)
    ensures FinalizerGone(s') ==> NoOwnedPlan(s.plan.value, s'.cluster) && NoOwnedSecret(s.plan.value, s'.cluster)
    ensures !FinalizerGone(s') ==> s'.plan == s.plan && s'.cluster.secrets == s.cluster.secrets && o.Done?
  {
    var plan := s.plan.value;
    var v :| DeletePass(plan, s.cluster, env.faults, s'.cluster, v) &&
      DeletingVerdict(parse, plan, env.faults, v, s'.plan, o);
    if v.Blocked? {
      var n :| n in s'.cluster.sucPlans && OwnedBy(s'.cluster.sucPlans[n].labels, plan) &&
        s'.cluster.sucPlans[n].applying != [];
      assert !NoOwnedPlan(plan, s'.cluster);
      assert forall m | m in s.cluster.secrets :: m in s'.cluster.secrets;
    }
  }

  // ---- over runs ----

  /** Deletion is over: the finalizer is gone, and so is everything passes over the plan have created. */
  ghost predicate Over(w: World) {
    FinalizerGone(w.store) && w.plans == {} && w.secrets == {}
  }

  /** Nobody else takes the finalizer off, and no new plan is created under the name. */
  ghost predicate LeftToTheController(ws: seq<World>, actions: seq<Action>, i: nat, j: nat)
    requires j < |ws| && |ws| == |actions| + 1
  {
    forall m | i <= m < j :: HandsOff(ws[m], actions[m])
  }

  predicate HandsOff(w: World, a: Action) {
    !a.Create? && (a.Edit? && AwaitsDeletion(w.store) ==> UpgradePlanFinalizer in a.after.finalizers)
  }

  /** A reconcile that no fault hits, over SUC plans that are idle. */
  ghost predicate DeletesFreely(w: World, a: Action) {
    a.Reconciled? && a.env.faults == {} &&
    (w.store.plan.Some? ==> !SomeOwnedPlanApplies(w.store.plan.value, w.store.cluster))
  }

  lemma OverStays(ctx: Context, w: World, a: Action, w': World)
    requires Next(ctx, w, a, w') && HandsOff(w, a) && Over(w)
    ensures Over(w')
  {
  }

  /** A step leaves the plan waiting to be deleted, or the controller has taken its finalizer off. */
  lemma WaitingStep(ctx: Context, w: World, a: Action, w': World)
    requires Inv(ctx, w) && Next(ctx, w, a, w') && HandsOff(w, a) && AwaitsDeletion(w.store)
    ensures AwaitsDeletion(w'.store) || RemovesFinalizer(w, a, w')
    ensures DeletesFreely(w, a) ==> RemovesFinalizer(w, a, w')
  {
    if DeletesFreely(w, a) {
      DeletesExactlyWhen(ctx.parse, w.store, a.env, w'.store, a.outcome);
    }
  }

  lemma RemovedMeansOver(ctx: Context, ws: seq<World>, actions: seq<Action>, i: nat)
    requires IsRun(ctx, ws, actions) && i < |actions| && RemovesFinalizer(ws[i], actions[i], ws[i + 1])
    ensures Over(ws[i + 1])
  {
    DeletionIsComplete(ctx, ws, actions, i);
    assert StepAt(ctx, ws, actions, i);
  }

  lemma StepTowardsTheEnd(ctx: Context, ws: seq<World>, actions: seq<Action>, i: nat)
    requires IsRun(ctx, ws, actions) && i < |actions| && HandsOff(ws[i], actions[i])
    requires AwaitsDeletion(ws[i].store) || Over(ws[i])
    ensures AwaitsDeletion(ws[i + 1].store) || Over(ws[i + 1])
    ensures Over(ws[i]) || DeletesFreely(ws[i], actions[i]) ==> Over(ws[i + 1])
  {
    InvAlways(ctx, ws, actions, i);
    assert StepAt(ctx, ws, actions, i);
    if Over(ws[i]) {
      OverStays(ctx, ws[i], actions[i], ws[i + 1]);
    } else {
      WaitingStep(ctx, ws[i], actions[i], ws[i + 1]);
      if RemovesFinalizer(ws[i], actions[i], ws[i + 1]) { RemovedMeansOver(ctx, ws, actions, i); }
    }
  }

  /**
   * From the deletion mark on, whatever faulty or blocked reconciles come in between, the first reconcile that no fault
   * hits over idle SUC plans ends the deletion, and it stays ended.
   */
  lemma {:induction false} DeletionEnds(ctx: Context, ws: seq<World>, actions: seq<Action>, i: nat, j: nat)
    requires IsRun(ctx, ws, actions) && i <= j < |ws| && LeftToTheController(ws, actions, i, j)
    requires AwaitsDeletion(ws[i].store)
    ensures AwaitsDeletion(ws[j].store) || Over(ws[j])
    ensures (exists k :: i <= k < j && DeletesFreely(ws[k], actions[k])) ==> Over(ws[j])
    decreases j - i
  {
    if i < j {
      DeletionEnds(ctx, ws, actions, i, j - 1);
      StepTowardsTheEnd(ctx, ws, actions, j - 1);
    }
  }
}
