/** What brings the controller back to a plan, and that no pass leaves work behind without a wake to come. */
module Wakeup {
  import opened Prelude
  import opened Api
  import opened Names
  import opened Nodes
  import opened Pass
  import opened Reconcile
  import opened Stages
  import opened PassStages
  import opened PassEffects
  import opened Runs
  import opened RunInvariants
  import Webhook

  // ---- watches ----

  /** What the watches report; a HelmChart is not watched. */
  datatype Event =
    | UpgradePlanCreated(plan: Plan)
    | UpgradePlanUpdated(planBefore: Plan, planAfter: Plan)
    | SucPlanCreated(sucPlan: SucPlan)
    | SucPlanUpdated(sucPlanBefore: SucPlan, sucPlanAfter: SucPlan)
    | SucPlanDeleted(sucPlan: SucPlan)
    | JobCreated(job: Job)
    | JobUpdated(jobBefore: Job, jobAfter: Job)
    | JobDeleted(job: Job)
    | SecretCreated(labels: Labels)
    | SecretUpdated(labelsBefore: Labels, labelsAfter: Labels)
    | SecretDeleted(labels: Labels)

  predicate JobFinished(job: Job) {
    exists x | x in job.conditions :: x.status == True && (x.ctype.JobComplete? || x.ctype.JobFailed?)
  }

  /** The watch predicates: which events are let through. */
  predicate Watched(e: Event) {
    match e
    case UpgradePlanCreated(_) => true
    case UpgradePlanUpdated(before, after) => before.generation != after.generation
    case SucPlanUpdated(before, after) => after.applying == [] && before.applying != []
    case JobUpdated(before, after) => JobFinished(after) && !JobFinished(before)
    case SecretCreated(_) => true
    case SecretUpdated(_, _) => true
    case _ => false
  }

  function RequestsFromLabels(labels: Labels): seq<Request> {
    if PlanNameLabel !in labels || labels[PlanNameLabel] == "" then []
    else [Request(if PlanNamespaceLabel in labels then labels[PlanNamespaceLabel] else "", labels[PlanNameLabel])]
  }

  /** A job of the controller's own, or else one the Helm controller runs for a chart. */
  function RequestsFromJob(job: Job, charts: map<string, ChartResource>): seq<Request> {
    if RequestsFromLabels(job.labels) != [] then RequestsFromLabels(job.labels)
    else if ChartLabel !in job.labels || job.labels[ChartLabel] == "" then []
    else if job.labels[ChartLabel] !in charts then []
    else RequestsFromLabels(charts[job.labels[ChartLabel]].labels)
  }

  /** The requests an event puts on the work queue; an update is mapped from both of its objects. */
  function Enqueued(e: Event, charts: map<string, ChartResource>): set<Request> {
    if !Watched(e) then {}
    else match e
      case UpgradePlanCreated(plan) => {KeyOf(plan)}
      case UpgradePlanUpdated(before, after) => {KeyOf(before), KeyOf(after)}
      case SucPlanUpdated(before, after) =>
        Elements(RequestsFromLabels(before.labels)) + Elements(RequestsFromLabels(after.labels))
      case JobUpdated(before, after) =>
        Elements(RequestsFromJob(before, charts)) + Elements(RequestsFromJob(after, charts))
      case SecretCreated(labels) => Elements(RequestsFromLabels(labels))
      case SecretUpdated(before, after) => Elements(RequestsFromLabels(before)) + Elements(RequestsFromLabels(after))
      case _ => {}
  }

  function Elements(requests: seq<Request>): set<Request> {
    set r | r in requests
  }

  /** The job watch waits for just what the evaluation of a chart's job calls final. */
  lemma {:induction false} FinishedMeansFinal(job: Job)
    ensures JobFinished(job) <==> FinalCondition(job.conditions).Some?
    decreases |job.conditions|
  {
    if job.conditions != [] {
      var rest := job.(conditions := job.conditions[1..]);
      FinishedMeansFinal(rest);
      assert job.conditions == [job.conditions[0]] + rest.conditions;
    }
  }

  /** Owner labels map back to the owner and to nothing else; the reverse needs the namespace label to be there. */
  lemma LabelsMapToOwner(labels: Labels, id: Request)
    requires id.name != ""
    ensures Carries(labels, id) <==> RequestsFromLabels(labels) == [id] && PlanNamespaceLabel in labels
  {
  }

  /**
   * Labels without the name of a plan ask for nothing; otherwise they ask for that plan, in the namespace they give.
   */
  lemma RequestsMean(labels: Labels)
    ensures ("lifecycle.suse.com/upgrade-plan-name" !in labels ||
      labels["lifecycle.suse.com/upgrade-plan-name"] == "") <==>
      RequestsFromLabels(labels) == []
    ensures RequestsFromLabels(labels) != [] && "lifecycle.suse.com/upgrade-plan-namespace" in labels ==>
      RequestsFromLabels(labels) == [Request(labels["lifecycle.suse.com/upgrade-plan-namespace"],
                                             labels["lifecycle.suse.com/upgrade-plan-name"])]
    ensures RequestsFromLabels(labels) != [] && "lifecycle.suse.com/upgrade-plan-namespace" !in labels ==>
      RequestsFromLabels(labels) == [Request("", labels["lifecycle.suse.com/upgrade-plan-name"])]
  {
  }

  /**
   * A job asks by its own labels; only if these ask for nothing, by those of the HelmChart it names, if there is one.
   */
  lemma JobRequestsMean(job: Job, charts: map<string, ChartResource>)
    ensures RequestsFromLabels(job.labels) != [] ==> RequestsFromJob(job, charts) == RequestsFromLabels(job.labels)
    ensures RequestsFromLabels(job.labels) == [] ==>
      forall n | n in charts && n != "" && "helmcharts.helm.cattle.io/chart" in job.labels
        && job.labels["helmcharts.helm.cattle.io/chart"] == n ::
        RequestsFromJob(job, charts) == RequestsFromLabels(charts[n].labels)
    ensures RequestsFromJob(job, charts) == [] || RequestsFromLabels(job.labels) != [] ||
      (exists n :: n in charts && n != "" && "helmcharts.helm.cattle.io/chart" in job.labels
        && job.labels["helmcharts.helm.cattle.io/chart"] == n)
  {
  }

  /** The events that never wake: only these ends, secrets coming or changing, and new generations do. */
  lemma OtherEventsDoNotWake(e: Event, charts: map<string, ChartResource>)
    requires Enqueued(e, charts) != {}
    ensures e.UpgradePlanCreated? || e.UpgradePlanUpdated? || e.SucPlanUpdated? || e.JobUpdated? || e.SecretCreated? ||
      e.SecretUpdated?
    ensures e.UpgradePlanUpdated? ==> e.planBefore.generation != e.planAfter.generation
    ensures e.SucPlanUpdated? ==> e.sucPlanBefore.applying != [] && e.sucPlanAfter.applying == []
    ensures e.JobUpdated? ==>
      && FinalCondition(e.jobBefore.conditions) == None && FinalCondition(e.jobAfter.conditions) != None
  {
    if e.JobUpdated? {
      FinishedMeansFinal(e.jobBefore);
      FinishedMeansFinal(e.jobAfter);
    }
  }

  /** A new generation, by an edit or by a deletion mark, always brings the controller to exactly this plan. */
  lemma NewGenerationsWake(ctx: Context, w: World, a: Action, w': World)
    requires Inv(ctx, w) && Next(ctx, w, a, w') && w.store.plan.Some? && w'.store.plan.Some?
    requires w'.store.plan.value.spec != w.store.plan.value.spec ||
      w'.store.plan.value.deleting != w.store.plan.value.deleting
    ensures Enqueued(UpgradePlanUpdated(w.store.plan.value, w'.store.plan.value), w'.store.cluster.charts) == {ctx.id}
  {
  }

  /** The controller's own updates of the plan, status and finalizers alike, never wake it by themselves. */
  lemma OwnUpdatesDoNotWake(ctx: Context, w: World, env: Env, o: Outcome, w': World)
    requires Inv(ctx, w) && Reconciles(ctx, w, env, o, w') && w.store.plan.Some? && w'.store.plan.Some?
    ensures Enqueued(UpgradePlanUpdated(w.store.plan.value, w'.store.plan.value), w'.store.cluster.charts) == {}
  {
  }

  // ---- wakes ----

  /** Something that is still to happen to an object a pass has left behind. */
  datatype Wake =
    | SecretAppears(name: string) | RolloutEnds(name: string)
    | ManifestJobEnds(name: string) | ChartJobEnds(name: string)

  /**
   * After a pass from `c` to `c'` it is still to happen: the secret is new, the SUC plan is being applied or is new
   * with nodes to apply to, the job has not finished, or the chart has just been written or its job is not there yet.
   */
  ghost predicate Awaited(wake: Wake, c: Cluster, c': Cluster) {
    match wake
    case SecretAppears(n) => n in c'.secrets && n !in c.secrets
    case RolloutEnds(n) => n in c'.sucPlans && Applies(c'.sucPlans[n], n !in c.sucPlans, c'.nodes)
    case ManifestJobEnds(n) => n in c'.manifestJobs && !JobFinished(c'.manifestJobs[n])
    case ChartJobEnds(n) =>
      n in c'.charts &&
      (n !in c.charts || c'.charts[n] != c.charts[n] || JobOpen(c'.charts[n], c'))
  }

  predicate Applies(p: SucPlan, created: bool, nodes: seq<Node>) {
    p.applying != [] || (created && Matching(nodes, p.selector) != [])
  }

  predicate JobOpen(chart: ChartResource, c: Cluster) {
    chart.jobName !in c.jobs || !JobFinished(c.jobs[chart.jobName])
  }

  /** The events by which it happens. A job of the Helm controller names its chart and carries no upgrade plan. */
  ghost predicate Happens(wake: Wake, c: Cluster, e: Event) {
    match wake
    case SecretAppears(n) => n in c.secrets && e == SecretCreated(c.secrets[n])
    case RolloutEnds(n) =>
      n in c.sucPlans && e.SucPlanUpdated? && e.sucPlanBefore.labels == e.sucPlanAfter.labels == c.sucPlans[n].labels &&
      e.sucPlanBefore.applying != [] && e.sucPlanAfter.applying == []
    case ManifestJobEnds(n) => n in c.manifestJobs && Finishes(e, c.manifestJobs[n].labels)
    case ChartJobEnds(n) => n in c.charts && e.JobUpdated? && HelmJobOf(e.jobAfter, n) && Finishes(e, e.jobAfter.labels)
  }

  predicate Finishes(e: Event, labels: Labels) {
    && e.JobUpdated? && e.jobBefore.labels == e.jobAfter.labels == labels
    && !JobFinished(e.jobBefore) && JobFinished(e.jobAfter)
  }

  predicate HelmJobOf(job: Job, chart: string) {
    ChartLabel in job.labels && job.labels[ChartLabel] == chart && PlanNameLabel !in job.labels
  }

  /** However it happens, the watches let it through and it brings the controller to exactly that plan. */
  ghost predicate Delivers(wake: Wake, c: Cluster, id: Request) {
    forall e :: Happens(wake, c, e) ==> Enqueued(e, c.charts) == {id}
  }

  /** The object the wake is about carries the plan's labels. */
  predicate Owned(wake: Wake, c: Cluster, id: Request) {
    match wake
    case SecretAppears(n) => n in c.secrets && Carries(c.secrets[n], id)
    case RolloutEnds(n) => n in c.sucPlans && Carries(c.sucPlans[n].labels, id)
    case ManifestJobEnds(n) => n in c.manifestJobs && Carries(c.manifestJobs[n].labels, id)
    case ChartJobEnds(n) => n != "" && n in c.charts && Carries(c.charts[n].labels, id)
  }

  /** Something of the plan's is still to happen, and when it does it brings the controller to exactly this plan. */
  ghost predicate WakeLeft(c: Cluster, c': Cluster, id: Request) {
    exists wake :: Awaited(wake, c, c') && Owned(wake, c', id) && Delivers(wake, c', id)
  }

  lemma OwnedSecretDelivers(n: string, c: Cluster, id: Request)
    requires n in c.secrets && Carries(c.secrets[n], id) && id.name != ""
    ensures Delivers(SecretAppears(n), c, id)
  {
    LabelsMapToOwner(c.secrets[n], id);
  }

  /** A changed secret of the plan brings the controller back as well, and so does a plan that is created. */
  lemma ChangesOfOwnDeliver(before: Labels, after: Labels, plan: Plan, charts: map<string, ChartResource>, id: Request)
    requires Carries(before, id) && Carries(after, id) && id.name != ""
    ensures Enqueued(SecretUpdated(before, after), charts) == {id}
    ensures Enqueued(UpgradePlanCreated(plan), charts) == {Request(plan.namespace, plan.name)}
  {
    LabelsMapToOwner(before, id);
    LabelsMapToOwner(after, id);
  }

  lemma OwnedRolloutDelivers(n: string, c: Cluster, id: Request)
    requires n in c.sucPlans && Carries(c.sucPlans[n].labels, id) && id.name != ""
    ensures Delivers(RolloutEnds(n), c, id)
  {
    LabelsMapToOwner(c.sucPlans[n].labels, id);
  }

  lemma OwnedManifestJobDelivers(n: string, c: Cluster, id: Request)
    requires n in c.manifestJobs && Carries(c.manifestJobs[n].labels, id) && id.name != ""
    ensures Delivers(ManifestJobEnds(n), c, id)
  {
    LabelsMapToOwner(c.manifestJobs[n].labels, id);
  }

  lemma OwnedChartDelivers(n: string, c: Cluster, id: Request)
    requires n in c.charts && Carries(c.charts[n].labels, id) && id.name != "" && n != ""
    ensures Delivers(ChartJobEnds(n), c, id)
  {
    LabelsMapToOwner(c.charts[n].labels, id);
  }

  // ---- what a pass leaves ----

  /** Charts annotated with a release are this plan's; there is no other upgrade plan to write them. */
  ghost predicate ChartsMarked(c: Cluster, id: Request) {
    forall n | n in c.charts && ReleaseAnnotation in c.charts[n].annotations :: Carries(c.charts[n].labels, id)
  }

  /** Names that exist are not empty, and the charts an upgrade has touched are marked. */
  ghost predicate Wakeable(plan: Plan, c: Cluster) {
    plan.name != "" && "" !in c.releases && ChartsMarked(c, KeyOf(plan))
  }

  /** A chart reported as running or unknown has a job to come, which finds its way back. */
  lemma ChartStepWakes(plan: Plan, rc: ReleaseChart, c: Cluster, faults: set<ApiCall>)
    requires Wakeable(plan, c) && plan.spec.releaseVersion != ""
    requires StateAt(plan, rc, c, faults) in {Some(ChartInProgress), Some(UnknownState)}
    ensures WakeLeft(c, UpgradeChart(plan, rc, c, faults).cluster, KeyOf(plan))
  {
    var name := rc.releaseName;
    var step := UpgradeChart(plan, rc, c, faults);
    UpgradeChartEffect(plan, rc, c, faults);
    if step.cluster == c && name in c.charts && c.charts[name].jobName in c.jobs {
      FinishedMeansFinal(c.jobs[c.charts[name].jobName]);
    }
    OwnedChartDelivers(name, step.cluster, KeyOf(plan));
    assert Awaited(ChartJobEnds(name), c, step.cluster);
  }

  lemma ChartPassWakes(plan: Plan, entry: ReleaseChart, c: Cluster, faults: set<ApiCall>)
    requires Wakeable(plan, c) && plan.spec.releaseVersion != "" && ChartPass(plan, entry, c, faults).outcome.Done?
    ensures WakeLeft(c, ChartPass(plan, entry, c, faults).cluster, KeyOf(plan))
  {
    var k := ChartPassEndsAt(plan, entry, c, faults);
    if k < |Positions(entry)| {
      ChartStepWakes(plan, Positions(entry)[k], c, faults);
    } else {
      WalkedToTheEnd(plan, entry, c, faults);
    }
  }

  /** An entry whose every position lets the walk pass is settled and requeued. */
  lemma WalkedToTheEnd(plan: Plan, entry: ReleaseChart, c: Cluster, faults: set<ApiCall>)
    requires Reaches(plan, entry, |Positions(entry)|, c, faults)
    ensures Verdict(plan, entry, |Positions(entry)|, c, faults).1.Requeue?
  {
    assert LetsPass(plan, entry, |entry.dependencyCharts|, c, faults);
  }

  /** A pass of a node stage that simply ends has just created one of its plans, the workers' only if there are any. */
  lemma RolloutEndsByCreating(r: Rollout, st: Status, c: Cluster, faults: set<ApiCall>)
    requires RolloutPass(r, st, c, faults).outcome.Done?
    ensures var c' := RolloutPass(r, st, c, faults).cluster;
      || (r.controlPlaneName !in c.sucPlans && c' == c.(sucPlans := c.sucPlans[r.controlPlaneName := r.controlPlane]))
      || (r.workerName !in c.sucPlans && !ControlPlaneOnly(c.nodes) &&
        c' == c.(sucPlans := c.sucPlans[r.workerName := r.worker]))
  {
  }

  /** The control-plane plan of a stage is still to be created, and no node is in the control plane. */
  ghost predicate NothingToApply(r: Rollout, c: Cluster) {
    r.controlPlaneName !in c.sucPlans && forall n | n in c.nodes :: !IsControlPlane(n)
  }

  lemma RolloutPassWakes(plan: Plan, r: Rollout, c: Cluster, faults: set<ApiCall>)
    requires WellBuilt(r, plan) && plan.name != "" && RolloutPass(r, plan.status, c, faults).outcome.Done?
    ensures var c' := RolloutPass(r, plan.status, c, faults).cluster;
      NothingToApply(r, c) || WakeLeft(c, c', KeyOf(plan))
  {
    var c' := RolloutPass(r, plan.status, c, faults).cluster;
    RolloutEndsByCreating(r, plan.status, c, faults);
    var created := if r.controlPlaneName !in c.sucPlans then r.controlPlaneName else r.workerName;
    OwnedRolloutDelivers(created, c', KeyOf(plan));
    if created == r.workerName && r.controlPlaneName in c.sucPlans {
      WorkersExist(c.nodes);
      assert Awaited(RolloutEnds(created), c, c');
    } else if n :| n in c.nodes && IsControlPlane(n) {
      SelectorsMeanRoles(n);
      MatchingIsFilter(c.nodes, ControlPlaneSelector, n);
      assert Awaited(RolloutEnds(created), c, c');
    }
  }

  lemma OsPassWakes(plan: Plan, release: Release, c: Cluster, faults: set<ApiCall>)
    requires plan.name != "" && OsPass(plan, release, c, faults).outcome.Done?
    ensures var secret := OsSecretName(release.os.zypperID, release.os.version, plan.status.sucNameSuffix);
      || (secret in c.secrets && NothingToApply(OsRollout(plan, release, c.nodes), c))
      || WakeLeft(c, OsPass(plan, release, c, faults).cluster, KeyOf(plan))
  {
    var c' := OsPass(plan, release, c, faults).cluster;
    var secret := OsSecretName(release.os.zypperID, release.os.version, plan.status.sucNameSuffix);
    if secret !in c.secrets {
      OwnerLabelsOwned(plan);
      OwnedSecretDelivers(secret, c', KeyOf(plan));
      assert Awaited(SecretAppears(secret), c, c');
    } else {
      RolloutsWellBuilt(plan, release, Distribution("", []), c.nodes);
      RolloutPassWakes(plan, OsRollout(plan, release, c.nodes), c, faults);
    }
  }

  lemma KubernetesPassWakes(plan: Plan, release: Release, c: Cluster, faults: set<ApiCall>)
    requires plan.name != "" && KubernetesPass(plan, release, c, faults).outcome.Done?
    ensures var c' := KubernetesPass(plan, release, c, faults).cluster;
      var d := TargetDistribution(c.nodes, release.kubernetes);
      d.Some? && (NothingToApply(KubernetesRollout(plan, d.value, c.nodes), c) || WakeLeft(c, c', KeyOf(plan)))
  {
    var d := TargetDistribution(c.nodes, release.kubernetes);
    RolloutsWellBuilt(plan, release, d.value, c.nodes);
    RolloutPassWakes(plan, KubernetesRollout(plan, d.value, c.nodes), c, faults);
  }

  lemma ManifestJobPassWakes(plan: Plan, c: Cluster, faults: set<ApiCall>)
    requires plan.name != "" && ManifestJobPass(plan, c, faults).outcome.Done?
    ensures WakeLeft(c, ManifestJobPass(plan, c, faults).cluster, KeyOf(plan))
  {
    var n, c' := ManifestJobName(plan.spec.releaseVersion), ManifestJobPass(plan, c, faults).cluster;
    OwnerLabelsOwned(plan);
    OwnedManifestJobDelivers(n, c', KeyOf(plan));
    assert Awaited(ManifestJobEnds(n), c, c');
  }

  /**
   * The two ways a live plan is left to itself, as what the pass reads tells beforehand: a node of an unsupported
   * architecture, or a node stage that comes to create its first plan while no node is in the control plane.
   */
  ghost predicate LeftAlone(plan: Plan, c: Cluster, env: Env) {
    var s := StageOf(plan, c, env);
    s.InvalidStage? ||
    (RolloutOf(plan, c, s).Some? && NothingToApply(RolloutOf(plan, c, s).value, c) &&
     (s.OsStage? ==> OsSecret(plan, c) in c.secrets))
  }

  /** Nothing is left to do for the stored plan. */
  ghost predicate NothingLeft(s: Store) {
    s.plan.None? ||
    (s.plan.value.deleting && UpgradePlanFinalizer !in s.plan.value.finalizers) ||
    (!s.plan.value.deleting && Upgraded(s.plan.value, s.cluster))
  }

  /** The generation is observed, every stage is behind it, and the release is recorded as installed. */
  ghost predicate Upgraded(plan: Plan, c: Cluster) {
    && Manifest(plan, c).Some? && plan.status.observedGeneration == plan.generation
    && StageAfter(plan.status, Manifest(plan, c).value).CompletedStage?
    && plan.status.lastSuccessfulReleaseVersion == plan.spec.releaseVersion
  }

  lemma NormalPassWakes(plan: Plan, c: Cluster, env: Env)
    requires Wakeable(plan, c) && plan.spec.releaseVersion != "" && NormalPass(plan, c, env).outcome.Done?
    ensures var p := NormalPass(plan, c, env);
      || (StageOf(plan, c, env).CompletedStage? && Upgraded(plan.(status := p.status), p.cluster))
      || LeftAlone(plan, c, env)
      || WakeLeft(c, p.cluster, KeyOf(plan))
  {
    PassOfStage(plan, c, env);
    match StageOf(plan, c, env) {
      case ManifestStage => ManifestJobPassWakes(plan, c, env.faults);
      case OsStage => OsPassWakes(plan, Manifest(plan, c).value, c, env.faults);
      case KubernetesStage => KubernetesPassWakes(plan, Manifest(plan, c).value, c, env.faults);
      case ChartStage(i) => ChartPassWakes(plan, Manifest(plan, c).value.charts[i], c, env.faults);
      case CompletedStage => CompletedMeansUpgraded(plan, c, env);
      case _ =>
    }
  }

  lemma CompletedMeansUpgraded(plan: Plan, c: Cluster, env: Env)
    requires StageOf(plan, c, env).CompletedStage?
    ensures var p := NormalPass(plan, c, env); Upgraded(plan.(status := p.status), p.cluster)
  {
    PassOfStage(plan, c, env);
    ManifestHasVersion(c.manifests, plan.spec.releaseVersion);
    var release := Manifest(plan, c).value;
    var st' := plan.status.(lastSuccessfulReleaseVersion := release.releaseVersion);
    assert StageAfter(st', release).CompletedStage? by { SameConditions(release.charts, plan.status, st'); }
  }

  lemma {:induction false} SameConditions(charts: seq<ReleaseChart>, st: Status, st': Status)
    requires st'.conditions == st.conditions
    ensures FirstUnfinished(charts, st') == FirstUnfinished(charts, st)
  {
    if charts != [] { SameConditions(charts[1..], st, st'); }
  }

  /** A delete that waits for a plan being applied is taken up again when that plan no longer is. */
  lemma BlockedDeleteWakes(plan: Plan, c: Cluster, c': Cluster)
    requires plan.name != "" && SomeOwnedPlanApplies(plan, c')
    ensures WakeLeft(c, c', KeyOf(plan))
  {
    var n :| n in c'.sucPlans && OwnedBy(c'.sucPlans[n].labels, plan) && c'.sucPlans[n].applying != [];
    OwnedRolloutDelivers(n, c', KeyOf(plan));
    assert Awaited(RolloutEnds(n), c, c');
  }

  /**
   * No silent stall. A reconcile that is neither requeued nor retried has nothing left to do, or it leaves a wake
   * behind that comes back to exactly this plan, unless it hit one of the two cases of `LeftAlone`.
   */
  lemma NoSilentStall(parse: Webhook.Parser, s: Store, env: Env, s': Store, o: Outcome)
    requires ReconcileStep(parse, s, env, s', o) && o.Done? && s.plan.Some? && Wakeable(s.plan.value, s.cluster)
    requires !s.plan.value.deleting ==> s.plan.value.spec.releaseVersion != ""
    ensures NothingLeft(s') || WakeLeft(s.cluster, s'.cluster, KeyOf(s.plan.value)) ||
            (!s.plan.value.deleting && LeftAlone(s.plan.value, s.cluster, env))
  {
    var plan, c := s.plan.value, s.cluster;
    if plan.deleting && UpgradePlanFinalizer in plan.finalizers {
      var v :| DeletePass(plan, c, env.faults, s'.cluster, v) &&
        DeletingVerdict(parse, plan, env.faults, v, s'.plan, o);
      if v.Blocked? { BlockedDeleteWakes(plan, c, s'.cluster); }
    } else if !plan.deleting {
      NormalPassWakes(plan, c, env);
    }
  }

  // ---- the two exceptions are stalls ----

  /** Nothing in the cluster is under way. */
  ghost predicate Quiet(c: Cluster) {
    && (forall n | n in c.sucPlans :: c.sucPlans[n].applying == [])
    && (forall n | n in c.manifestJobs :: JobFinished(c.manifestJobs[n]))
    && (forall n | n in c.charts :: !JobOpen(c.charts[n], c))
  }

  lemma NoControlPlaneMatches(nodes: seq<Node>)
    requires forall n | n in nodes :: !IsControlPlane(n)
    ensures Matching(nodes, ControlPlaneSelector) == []
  {
    if Matching(nodes, ControlPlaneSelector) != [] {
      var n := Matching(nodes, ControlPlaneSelector)[0];
      MatchingIsFilter(nodes, ControlPlaneSelector, n);
      SelectorsMeanRoles(n);
    }
  }

  lemma IdlePlanCreated(plan: Plan, r: Rollout, c: Cluster, faults: set<ApiCall>)
    requires WellBuilt(r, plan) && NothingToApply(r, c) && Quiet(c)
    ensures var p := RolloutPass(r, plan.status, c, faults);
      && (faults == {} ==> p.outcome.Done?)
      && (p.outcome.Done? ==> forall wake :: !Awaited(wake, c, p.cluster))
  {
    NoControlPlaneMatches(c.nodes);
  }

  /** In a quiet cluster a pass that leaves the plan alone ends with work undone and with no wake at all to come. */
  lemma LeftAloneIsAStall(plan: Plan, c: Cluster, env: Env)
    requires LeftAlone(plan, c, env) && Quiet(c)
    ensures env.faults == {} ==> NormalPass(plan, c, env).outcome.Done?
    ensures NormalPass(plan, c, env).outcome.Done? ==>
      forall wake :: !Awaited(wake, c, NormalPass(plan, c, env).cluster)
  {
    PassOfStage(plan, c, env);
    var s := StageOf(plan, c, env);
    if s.OsStage? {
      RolloutsWellBuilt(plan, Manifest(plan, c).value, Distribution("", []), c.nodes);
      IdlePlanCreated(plan, RolloutOf(plan, c, s).value, c, env.faults);
    } else if s.KubernetesStage? {
      var d := TargetDistribution(c.nodes, Manifest(plan, c).value.kubernetes).value;
      RolloutsWellBuilt(plan, Manifest(plan, c).value, d, c.nodes);
      IdlePlanCreated(plan, RolloutOf(plan, c, s).value, c, env.faults);
    }
  }

  /**
   * So in a quiet cluster those two are exactly the passes that end before the upgrade does and leave nothing to come.
   */
  lemma StallsExactlyWhen(plan: Plan, c: Cluster, env: Env)
    requires Wakeable(plan, c) && plan.spec.releaseVersion != "" && Quiet(c) && NormalPass(plan, c, env).outcome.Done?
    ensures !StageOf(plan, c, env).CompletedStage? && !WakeLeft(c, NormalPass(plan, c, env).cluster, KeyOf(plan)) <==>
            LeftAlone(plan, c, env)
  {
    NormalPassWakes(plan, c, env);
    if LeftAlone(plan, c, env) { LeftAloneIsAStall(plan, c, env); }
  }

  // ---- over runs ----

  /** No other upgrade plan is at work: only passes over this one annotate charts with a release. */
  ghost predicate AloneInCluster(ctx: Context, ws: seq<World>, actions: seq<Action>) {
    && ctx.id.name != "" && |ws| > |actions| && ChartsMarked(ws[0].store.cluster, ctx.id)
    && (forall i | 0 <= i < |ws| :: "" !in ws[i].store.cluster.releases)
    && (forall i | 0 <= i < |actions| && actions[i].Elsewhere? && ChartsMarked(ws[i].store.cluster, ctx.id) ::
          ChartsMarked(ws[i + 1].store.cluster, ctx.id))
  }

  lemma StepKeepsMarks(ctx: Context, w: World, a: Action, w': World)
    requires Inv(ctx, w) && Next(ctx, w, a, w') && !a.Elsewhere? && ChartsMarked(w.store.cluster, ctx.id)
    ensures ChartsMarked(w'.store.cluster, ctx.id)
  {
    var c, c' := w.store.cluster, w'.store.cluster;
    if a.Reconciled? && c'.charts != c.charts {
      var o := OneObjectPerPass(w.store.plan.value, c, a.env);
      assert o.ChartObject?;
      assert forall n | n in c'.charts && n != o.name :: n in c.charts && c'.charts[n] == c.charts[n];
    }
  }

  lemma {:induction false} ChartsStayMarked(ctx: Context, ws: seq<World>, actions: seq<Action>, i: nat)
    requires IsRun(ctx, ws, actions) && AloneInCluster(ctx, ws, actions) && i < |ws|
    ensures ChartsMarked(ws[i].store.cluster, ctx.id)
  {
    if i > 0 {
      ChartsStayMarked(ctx, ws, actions, i - 1);
      InvAlways(ctx, ws, actions, i - 1);
      assert StepAt(ctx, ws, actions, i - 1);
      if !actions[i - 1].Elsewhere? { StepKeepsMarks(ctx, ws[i - 1], actions[i - 1], ws[i]); }
    }
  }

  /**
   * In every run with a single upgrade plan, a reconcile after which nothing is requeued leaves no work without a wake.
   */
  lemma NoSilentStallInRuns(ctx: Context, ws: seq<World>, actions: seq<Action>, i: nat)
    requires IsRun(ctx, ws, actions) && AloneInCluster(ctx, ws, actions) && i < |actions|
    requires actions[i].Reconciled? && actions[i].outcome.Done? && ws[i].store.plan.Some?
    ensures var plan, c := ws[i].store.plan.value, ws[i].store.cluster;
      || NothingLeft(ws[i + 1].store)
      || WakeLeft(c, ws[i + 1].store.cluster, ctx.id)
      || (!plan.deleting && LeftAlone(plan, c, actions[i].env))
  {
    InvAlways(ctx, ws, actions, i);
    ChartsStayMarked(ctx, ws, actions, i);
    assert StepAt(ctx, ws, actions, i);
    NoSilentStall(ctx.parse, ws[i].store, actions[i].env, ws[i + 1].store, actions[i].outcome);
  }
}
