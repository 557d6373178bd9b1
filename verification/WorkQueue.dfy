/** The work queue: reconciles run only when asked for, and wakes and requeues alone bring an upgrade to its end. */
module WorkQueue {
  import opened Api
  import opened Nodes
  import opened PassStages
  import opened Runs
  import opened RunInvariants
  import opened Completion
  import opened RunCompletion
  import opened Wakeup

  /** Whether a reconcile of the plan is queued, and the cluster before and after the last reconcile. */
  datatype Queue = Queue(queued: bool, before: Cluster, after: Cluster)

  /** Some event reported in the step is let through and maps to the plan. */
  ghost predicate Asked(ctx: Context, reported: set<Event>, w: World) {
    exists e :: e in reported && ctx.id in Enqueued(e, w.store.cluster.charts)
  }

  /** Creations and updates of the plan by others are reported; other events may be, at any time. */
  ghost predicate ReportsPlan(w: World, a: Action, reported: set<Event>, w': World) {
    && (a.Create? ==> UpgradePlanCreated(a.created) in reported)
    && (a.Edit? || a.MarkDeleted? ==>
          (w.store.plan.Some? && w'.store.plan.Some? ==>
             UpgradePlanUpdated(w.store.plan.value, w'.store.plan.value) in reported))
  }

  /** A reconcile takes the plan off the queue, and puts it back when it is requeued or retried; events queue it. */
  ghost predicate QueueStep(ctx: Context, w: World, q: Queue, a: Action, reported: set<Event>, w': World, q': Queue) {
    && ReportsPlan(w, a, reported, w')
    && (a.Reconciled? ==> q.queued && q'.before == w.store.cluster && q'.after == w'.store.cluster)
    && (!a.Reconciled? ==> q'.before == q.before && q'.after == q.after)
    && (q'.queued <==> (if a.Reconciled? then !a.outcome.Done? else q.queued) || Asked(ctx, reported, w'))
  }

  /** A run, with the queue at every world and the events reported in every step. */
  datatype Queued = Queued(ws: seq<World>, actions: seq<Action>, queues: seq<Queue>, reports: seq<set<Event>>)

  ghost predicate IsQueuedRun(ctx: Context, r: Queued) {
    && IsRun(ctx, r.ws, r.actions) && |r.queues| == |r.ws| && |r.reports| == |r.actions|
    && forall i | 0 <= i < |r.actions| :: QueueStepAt(ctx, r, i)
  }

  ghost predicate QueueStepAt(ctx: Context, r: Queued, i: int) {
    && 0 <= i < |r.actions| && |r.ws| == |r.actions| + 1 && |r.queues| == |r.ws| && |r.reports| == |r.actions|
    && QueueStep(ctx, r.ws[i], r.queues[i], r.actions[i], r.reports[i], r.ws[i + 1], r.queues[i + 1])
  }

  /**
   * As long as the plan is stored, it is queued, a wake is still to come that will queue it, or nothing is left to do.
   */
  ghost predicate NotForgotten(ctx: Context, w: World, q: Queue) {
    w.store.plan.Some? ==> q.queued || WakeLeft(q.before, q.after, ctx.id) || NothingLeft(w.store)
  }

  /** The reconcile, if it is one, does not leave the plan to itself. */
  ghost predicate NotLeftAlone(w: World, a: Action) {
    a.Reconciled? && Live(w.store) ==> !LeftAlone(w.store.plan.value, w.store.cluster, a.env)
  }

  // ---- nothing is forgotten ----

  /**
   * An event by which a wake happens queues exactly this plan, even if HelmCharts have changed since, as long as the
   * one it is about still carries the plan's labels.
   */
  lemma WakeQueues(ctx: Context, wake: Wake, c: Cluster, e: Event, charts: map<string, ChartResource>)
    requires Happens(wake, c, e) && Owned(wake, c, ctx.id) && ctx.id.name != ""
    requires wake.ChartJobEnds? ==> wake.name in charts && Carries(charts[wake.name].labels, ctx.id)
    ensures Enqueued(e, charts) == {ctx.id}
  {
    match wake {
      case SecretAppears(n) => LabelsMapToOwner(c.secrets[n], ctx.id);
      case RolloutEnds(n) => LabelsMapToOwner(c.sucPlans[n].labels, ctx.id);
      case ManifestJobEnds(n) => LabelsMapToOwner(c.manifestJobs[n].labels, ctx.id);
      case ChartJobEnds(n) => LabelsMapToOwner(charts[n].labels, ctx.id);
    }
  }

  /** A step of somebody else either queues the plan or leaves nothing to do where nothing was. */
  lemma RestStays(ctx: Context, w: World, a: Action, reported: set<Event>, w': World)
    requires Inv(ctx, w) && Next(ctx, w, a, w') && !a.Reconciled? && ReportsPlan(w, a, reported, w')
    requires w'.store.plan.Some? && (w.store.plan.Some? ==> NothingLeft(w.store))
    ensures NothingLeft(w'.store) || Asked(ctx, reported, w')
  {
    match a {
      case Create(p) => assert ctx.id in Enqueued(UpgradePlanCreated(p), w'.store.cluster.charts);
      case Elsewhere => NothingLeftElsewhere(ctx, w, w');
      case _ => UpdateAsks(ctx, w, a, reported, w');
    }
  }

  lemma NothingLeftElsewhere(ctx: Context, w: World, w': World)
    requires Inv(ctx, w) && HappensElsewhere(w, w') && NothingLeft(w.store)
    ensures NothingLeft(w'.store)
  {
  }

  lemma UpdateAsks(ctx: Context, w: World, a: Action, reported: set<Event>, w': World)
    requires Inv(ctx, w) && Next(ctx, w, a, w') && (a.Edit? || a.MarkDeleted?) && ReportsPlan(w, a, reported, w')
    requires w.store.plan.Some? && w'.store.plan.Some? && NothingLeft(w.store)
    ensures NothingLeft(w'.store) || Asked(ctx, reported, w')
  {
    var before, after := w.store.plan.value, w'.store.plan.value;
    if before.generation != after.generation {
      assert ctx.id in Enqueued(UpgradePlanUpdated(before, after), w'.store.cluster.charts);
    } else {
      assert Manifest(after, w'.store.cluster) == Manifest(before, w.store.cluster);
    }
  }

  /** So in a run a wake that happens ends the wait. */
  lemma WakeEndsTheWait(ctx: Context, r: Queued, i: nat, wake: Wake, e: Event)
    requires QueueStepAt(ctx, r, i) && e in r.reports[i] && ctx.id.name != ""
    requires Happens(wake, r.queues[i].after, e) && Owned(wake, r.queues[i].after, ctx.id)
    requires wake.ChartJobEnds? ==>
      wake.name in r.ws[i + 1].store.cluster.charts &&
      Carries(r.ws[i + 1].store.cluster.charts[wake.name].labels, ctx.id)
    ensures r.queues[i + 1].queued
  {
    WakeQueues(ctx, wake, r.queues[i].after, e, r.ws[i + 1].store.cluster.charts);
  }

  lemma ReconcileRemembers(ctx: Context, r: Queued, i: nat)
    requires IsQueuedRun(ctx, r) && AloneInCluster(ctx, r.ws, r.actions) && i < |r.actions| && r.actions[i].Reconciled?
    requires NotLeftAlone(r.ws[i], r.actions[i]) && NotForgotten(ctx, r.ws[i], r.queues[i])
    ensures NotForgotten(ctx, r.ws[i + 1], r.queues[i + 1])
  {
    assert QueueStepAt(ctx, r, i) && StepAt(ctx, r.ws, r.actions, i);
    if r.ws[i].store.plan.Some? && r.actions[i].outcome.Done? {
      NoSilentStallInRuns(ctx, r.ws, r.actions, i);
    }
  }

  lemma OthersRemember(ctx: Context, r: Queued, i: nat)
    requires IsQueuedRun(ctx, r) && i < |r.actions| && !r.actions[i].Reconciled?
    requires NotForgotten(ctx, r.ws[i], r.queues[i])
    ensures NotForgotten(ctx, r.ws[i + 1], r.queues[i + 1])
  {
    assert QueueStepAt(ctx, r, i) && StepAt(ctx, r.ws, r.actions, i);
    InvAlways(ctx, r.ws, r.actions, i);
    var w, w', q := r.ws[i], r.ws[i + 1], r.queues[i];
    if w'.store.plan.Some? && !q.queued {
      if w.store.plan.None? || NothingLeft(w.store) { RestStays(ctx, w, r.actions[i], r.reports[i], w'); }
    }
  }

  /** In a run with a work queue the plan is never forgotten, as long as no reconcile leaves it to itself. */
  lemma {:induction false} PlanNeverForgotten(ctx: Context, r: Queued, i: nat, j: nat)
    requires IsQueuedRun(ctx, r) && AloneInCluster(ctx, r.ws, r.actions) && i <= j < |r.ws|
    requires NotForgotten(ctx, r.ws[i], r.queues[i])
    requires forall k | i <= k < j :: NotLeftAlone(r.ws[k], r.actions[k])
    ensures NotForgotten(ctx, r.ws[j], r.queues[j])
    decreases j - i
  {
    if i < j {
      PlanNeverForgotten(ctx, r, i, j - 1);
      assert NotLeftAlone(r.ws[j - 1], r.actions[j - 1]);
      if r.actions[j - 1].Reconciled? { ReconcileRemembers(ctx, r, j - 1); } else { OthersRemember(ctx, r, j - 1); }
    }
  }

  // ---- and so comes to its end ----

  /** From `i` to `j` every reconcile is a cooperative one. */
  ghost predicate AllCooperative(r: Queued, release: Release, d: Distribution, i: nat, j: nat)
    requires j < |r.ws| == |r.actions| + 1
  {
    forall k | i <= k < j && r.actions[k].Reconciled? :: CooperativeStep(r.ws[k], r.actions[k], release, d)
  }

  function Reconciles(actions: seq<Action>, i: nat, j: nat): nat
    requires i <= j <= |actions|
  {
    if i == j then 0 else One(actions[j - 1].Reconciled?) + Reconciles(actions, i, j - 1)
  }

  lemma CooperativeNotLeftAlone(w: World, a: Action, release: Release, d: Distribution)
    requires CooperativeStep(w, a, release, d)
    ensures NotLeftAlone(w, a)
  {
    NoneUnsupported(w.store.cluster.nodes, release.os.supportedArchs);
  }

  lemma {:induction false} AllCount(r: Queued, release: Release, d: Distribution, i: nat, j: nat)
    requires i <= j < |r.ws| == |r.actions| + 1 && AllCooperative(r, release, d, i, j)
    ensures CooperativeSteps(r.ws, r.actions, release, d, i, j) >= Reconciles(r.actions, i, j)
    decreases j - i
  {
    if i < j { AllCount(r, release, d, i, j - 1); }
  }

  /**
   * Wakes and requeues alone bring a cooperative upgrade to its end. From a queued plan on, a stretch of a run in which
   * reconciles only run when asked for goes on, with the plan queued or a wake to come, until the upgrade is complete;
   * and no such stretch has as many reconciles as the bound without being complete.
   */
  lemma WakesAloneComplete(
    ctx: Context, r: Queued, release: Release, d: Distribution, i: nat, j: nat)
    requires IsQueuedRun(ctx, r) && AloneInCluster(ctx, r.ws, r.actions)
    requires Undisturbed(r.ws, r.actions, release, i, j) && r.queues[i].queued && AllCooperative(r, release, d, i, j)
    requires forall n | 0 <= n < |release.charts| :: VersionsAgree(release.charts[n])
    ensures var plan, q := r.ws[j].store.plan.value, r.queues[j];
      && (UpgradeComplete(plan, release) || q.queued || WakeLeft(q.before, q.after, ctx.id))
      && (Reconciles(r.actions, i, j) >= 9 + EntriesBound(release.charts) ==> UpgradeComplete(plan, release))
  {
    forall k | i <= k < j ensures NotLeftAlone(r.ws[k], r.actions[k]) {
      if r.actions[k].Reconciled? { CooperativeNotLeftAlone(r.ws[k], r.actions[k], release, d); }
    }
    PlanNeverForgotten(ctx, r, i, j);
    AllCount(r, release, d, i, j);
    if Reconciles(r.actions, i, j) >= 9 + EntriesBound(release.charts) {
      BoundedCompletion(ctx, r.ws, r.actions, release, d, i, j);
    }
    assert Underway(r.ws[j].store, r.ws[i].store, release);
  }
}
