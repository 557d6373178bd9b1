/** What one reconcile pass over a live upgrade plan does, as a function of what it reads. */
module Pass {
  import opened Prelude
  import opened Api
  import opened Names
  import opened Nodes
  import Values
  import Containers

  /** What a pass hands back to the work queue; `Aborted` is a returned error. */
  datatype Outcome = Done | Requeue | RequeueAfterMinute | Aborted

  /** The status in memory at the end of the pass, the cluster it leaves, and the outcome. */
  datatype Pass = Pass(status: Status, cluster: Cluster, outcome: Outcome)

  /** What a pass cannot know beforehand: which API calls fail, and the random bytes (or their failure). */
  datatype Env = Env(faults: set<ApiCall>, random: Option<Draw>)

  // ---- conditions ----

  const PendingCondition := Condition(Unknown, Pending)
  const ErrorCondition := Condition(Unknown, Error)
  const InProgressCondition := Condition(False, InProgress)
  const SuccessfulCondition := Condition(True, Succeeded)
  const FailedCondition := Condition(False, Failed)
  const SkippedCondition := Condition(False, Skipped)

  function Set(st: Status, t: string, c: Condition): Status {
    st.(conditions := st.conditions[t := c])
  }

  predicate IsTrue(st: Status, t: string) {
    t in st.conditions && st.conditions[t].status == True
  }

  /** `isHelmUpgradeFinished`: succeeded, skipped or failed for good. */
  predicate ChartFinished(st: Status, t: string) {
    t in st.conditions &&
    (st.conditions[t].status == True ||
     (st.conditions[t].status == False && st.conditions[t].reason in {Skipped, Failed}))
  }

  function ChartType(chart: ReleaseChart): string {
    GetChartConditionType(chart.prettyName)
  }

  function OwnerLabels(plan: Plan): Labels {
    map[PlanNameLabel := plan.name, PlanNamespaceLabel := plan.namespace]
  }

  /** The labels by which an object is found again as belonging to the plan. */
  predicate OwnedBy(labels: Labels, plan: Plan) {
    && PlanNameLabel in labels && labels[PlanNameLabel] == plan.name
    && PlanNamespaceLabel in labels && labels[PlanNamespaceLabel] == plan.namespace
  }

  // ---- release manifest ----

  /** The first listed manifest of the version. */
  function FindManifest(manifests: seq<Release>, version: string): Option<Release> {
    if manifests == [] then None
    else if manifests[0].releaseVersion == version then Some(manifests[0])
    else FindManifest(manifests[1..], version)
  }

  function TrimV(version: string): string {
    if version != [] && version[0] == 'v' then version[1..] else version
  }

  function ManifestJobName(version: string): string {
    "apply-release-manifest-" + Dashed(TrimV(version), ".")
  }

  function ManifestJobPass(plan: Plan, c: Cluster, faults: set<ApiCall>): Pass {
    var name := ManifestJobName(plan.spec.releaseVersion);
    if TrimV(plan.spec.releaseVersion) == "" || name in c.manifestJobs || CreateManifestJob in faults
    then Pass(plan.status, c, Aborted)
    else Pass(plan.status, c.(manifestJobs := c.manifestJobs[name := Job(OwnerLabels(plan), [])]), Done)
  }

  // ---- a new generation ----

  function SetAllPending(st: Status, charts: seq<ReleaseChart>): Status {
    if charts == [] then st
    else Set(SetAllPending(st, charts[..|charts| - 1]), ChartType(charts[|charts| - 1]), PendingCondition)
  }

  function ObservePass(plan: Plan, release: Release, c: Cluster, random: Option<Draw>): Pass {
    var st := plan.status;
    if random.None? then Pass(st, c, Aborted)
    else
      var suffix := HexEncode(random.value);
      if suffix == st.sucNameSuffix then Pass(st, c, Requeue)
      else
        var observed := st.(sucNameSuffix := suffix, observedGeneration := plan.generation);
        var reset := Set(Set(observed, OsUpgraded, PendingCondition), KubernetesUpgraded, PendingCondition);
        Pass(SetAllPending(reset, release.charts), c, Requeue)
  }

  // ---- node stages ----

  /** One node stage: its condition, the state nodes are driven to, the gate behind it and the two plans. */
  datatype Rollout = Rollout(
    conditionType: string, target: Target, gate: Option<seq<CoreComponent>>,
    controlPlaneName: string, controlPlane: SucPlan, workerName: string, worker: SucPlan)

  function OsRollout(plan: Plan, release: Release, nodes: seq<Node>): Rollout {
    var os, suffix := release.os, plan.status.sucNameSuffix;
    var secret := Some(OsSecretName(os.zypperID, os.version, suffix));
    var drain := DrainOptions(nodes, plan.spec.disableDrain);
    Rollout(OsUpgraded, OsImage(os.prettyName), None,
      OsPlanName(ControlPlaneKey, os.zypperID, os.version, suffix),
      SucPlan(OwnerLabels(plan)[OsUpgradeLabel := "control-plane"], ControlPlaneSelector,
              release.releaseVersion, drain.0, secret, None, []),
      OsPlanName(WorkersKey, os.zypperID, os.version, suffix),
      SucPlan(OwnerLabels(plan)[OsUpgradeLabel := "worker"], WorkerSelector,
              release.releaseVersion, drain.1, secret, None, []))
  }

  function KubernetesRollout(plan: Plan, d: Distribution, nodes: seq<Node>): Rollout {
    var suffix := plan.status.sucNameSuffix;
    var drain := DrainOptions(nodes, plan.spec.disableDrain);
    var controlPlaneName := KubernetesPlanName(ControlPlaneKey, d.version, suffix);
    Rollout(KubernetesUpgraded, KubeletVersion(d.version), Some(d.coreComponents),
      controlPlaneName,
      SucPlan(OwnerLabels(plan)[KubernetesUpgradeLabel := "control-plane"], ControlPlaneSelector,
              d.version, drain.0, None, None, []),
      KubernetesPlanName(WorkersKey, d.version, suffix),
      SucPlan(OwnerLabels(plan)[KubernetesUpgradeLabel := "worker"], WorkerSelector,
              d.version, drain.1, None, Some(controlPlaneName), []))
  }

  function Started(r: Rollout, st: Status, c: Cluster, name: string, p: SucPlan, faults: set<ApiCall>): Pass {
    var st' := Set(st, r.conditionType, InProgressCondition);
    if CreateSucPlan(name) in faults then Pass(st', c, Aborted)
    else Pass(st', c.(sucPlans := c.sucPlans[name := p]), Done)
  }

  /** The end of a stage: success, unless core components hold it back. */
  function Finished(r: Rollout, st: Status, c: Cluster, faults: set<ApiCall>): Pass {
    match if r.gate.None? then AllUp else Scan(r.gate.value, c, faults)
    case ScanFailed => Pass(st, c, Aborted)
    case WaitingFor(_) => Pass(Set(st, r.conditionType, InProgressCondition), c, RequeueAfterMinute)
    case AllUp => Pass(Set(st, r.conditionType, SuccessfulCondition), c, Requeue)
  }

  function WorkerPass(r: Rollout, st: Status, c: Cluster, faults: set<ApiCall>): Pass {
    if GetSucPlan(r.workerName) in faults then Pass(st, c, Aborted)
    else if r.workerName !in c.sucPlans then Started(r, st, c, r.workerName, r.worker, faults)
    else
      var picked := Selected(c.nodes, c.sucPlans[r.workerName].selector);
      if picked.None? then Pass(st, c, Aborted)
      else if !AllUpgraded(picked.value, r.target)
      then Pass(Set(st, r.conditionType, InProgressCondition), c, RequeueAfterMinute)
      else Finished(r, st, c, faults)
  }

  function RolloutPass(r: Rollout, st: Status, c: Cluster, faults: set<ApiCall>): Pass {
    if GetSucPlan(r.controlPlaneName) in faults then Pass(st, c, Aborted)
    else if r.controlPlaneName !in c.sucPlans then Started(r, st, c, r.controlPlaneName, r.controlPlane, faults)
    else
      var picked := Selected(c.nodes, c.sucPlans[r.controlPlaneName].selector);
      if picked.None? then Pass(st, c, Aborted)
      else if !AllUpgraded(picked.value, r.target)
      then Pass(Set(st, r.conditionType, InProgressCondition), c, RequeueAfterMinute)
      else if ControlPlaneOnly(c.nodes) then Finished(r, st, c, faults)
      else WorkerPass(r, st, c, faults)
  }

  function OsPass(plan: Plan, release: Release, c: Cluster, faults: set<ApiCall>): Pass {
    var secret := OsSecretName(release.os.zypperID, release.os.version, plan.status.sucNameSuffix);
    if GetSecret(secret) in faults then Pass(plan.status, c, Aborted)
    else if secret !in c.secrets then
      if CreateSecret(secret) in faults then Pass(plan.status, c, Aborted)
      else Pass(plan.status, c.(secrets := c.secrets[secret := OwnerLabels(plan)]), Done)
    else RolloutPass(OsRollout(plan, release, c.nodes), plan.status, c, faults)
  }

  function KubernetesPass(plan: Plan, release: Release, c: Cluster, faults: set<ApiCall>): Pass {
    var d := TargetDistribution(c.nodes, release.kubernetes);
    if d.None? then Pass(plan.status, c, Aborted)
    else RolloutPass(KubernetesRollout(plan, d.value, c.nodes), plan.status, c, faults)
  }

  // ---- core components ----

  datatype ScanStatus = AllUp | WaitingFor(name: string) | ScanFailed

  datatype ComponentStatus = Upgraded | NotUpgraded | Missing | Broken

  predicate Complete(job: Job) {
    exists c | c in job.conditions :: c.status == True && c.ctype == JobComplete
  }

  predicate Available(d: Deployment) {
    exists c | c in d.conditions :: c.status == True && c.ctype == "Available"
  }

  predicate ImagesPresent(d: Deployment, component: CoreComponent) {
    var wanted := Containers.LastImages(component.containers);
    Containers.Answer(d.containers, wanted, false)
  }

  function StatusOf(component: CoreComponent, c: Cluster, faults: set<ApiCall>): ComponentStatus {
    var name := component.name;
    match component.ctype
    case HelmChartType =>
      if GetChart(name) in faults then Broken
      else if name !in c.charts then Missing
      else
        var job := c.charts[name].jobName;
        if GetJob(job) in faults then Broken
        else if job !in c.jobs || !Complete(c.jobs[job]) then NotUpgraded
        else if ReadRelease(name) in faults || name !in c.releases then Broken
        else if c.releases[name].version == component.version then Upgraded else NotUpgraded
    case DeploymentType =>
      if GetDeployment(name) in faults then Broken
      else if name !in c.deployments then Missing
      else if Available(c.deployments[name]) && ImagesPresent(c.deployments[name], component) then Upgraded
      else NotUpgraded
    case UnsupportedType => Broken
  }

  /** Missing components are passed over; the first that is broken or not upgraded decides. */
  function Scan(components: seq<CoreComponent>, c: Cluster, faults: set<ApiCall>): ScanStatus {
    if components == [] then AllUp
    else match StatusOf(components[0], c, faults)
      case Broken => ScanFailed
      case NotUpgraded => WaitingFor(components[0].name)
      case _ => Scan(components[1..], c, faults)
  }

  // ---- Helm charts ----

  datatype ChartState =
    | UnknownState | NotInstalled | VersionAlreadyInstalled | ChartInProgress | ChartFailed | ChartSucceeded

  /** The state reported for one chart, `None` for an error, and the cluster afterwards. */
  datatype ChartStep = ChartStep(state: Option<ChartState>, cluster: Cluster)

  /** The first user values given for the chart. */
  function UserValues(helm: seq<ChartValues>, chart: string): Values.Raw {
    if helm == [] then Values.Absent
    else if helm[0].chart == chart then helm[0].values
    else UserValues(helm[1..], chart)
  }

  function Annotation(chart: ChartResource): string {
    if ReleaseAnnotation in chart.annotations then chart.annotations[ReleaseAnnotation] else ""
  }

  function NewChart(plan: Plan, rc: ReleaseChart, installed: HelmRelease): Option<ChartResource> {
    var values := Values.HelmValues(Values.FromRelease(installed.config), rc.values,
      UserValues(plan.spec.helm, rc.name));
    if values.None? then None
    else Some(ChartResource(OwnerLabels(plan), map[ReleaseAnnotation := plan.spec.releaseVersion],
      rc.name, "", rc.version, rc.repository, installed.namespace, values.value, Some(6), ""))
  }

  function UpdatedChart(plan: Plan, rc: ReleaseChart, chart: ChartResource): Option<ChartResource> {
    var values := Values.HelmValues(Values.FromChart(chart.values), rc.values, UserValues(plan.spec.helm, rc.name));
    if values.None? then None
    else Some(chart.(
      labels := chart.labels[PlanNameLabel := plan.name][PlanNamespaceLabel := plan.namespace],
      annotations := chart.annotations[ReleaseAnnotation := plan.spec.releaseVersion],
      chartContent := "", chart := rc.name, version := rc.version, repo := rc.repository,
      values := values.value, backOffLimit := Some(6)))
  }

  /** The type of the first job condition that holds and is final. */
  function FinalCondition(conditions: seq<JobCondition>): Option<JobConditionType> {
    if conditions == [] then None
    else if conditions[0].status == True && !conditions[0].ctype.JobOther? then Some(conditions[0].ctype)
    else FinalCondition(conditions[1..])
  }

  function WriteChart(c: Cluster, name: string, chart: Option<ChartResource>, call: ApiCall,
      faults: set<ApiCall>): ChartStep {
    if chart.None? || call in faults then ChartStep(None, c)
    else ChartStep(Some(ChartInProgress), c.(charts := c.charts[name := chart.value]))
  }

  function UpgradeChart(plan: Plan, rc: ReleaseChart, c: Cluster, faults: set<ApiCall>): ChartStep {
    var name := rc.releaseName;
    if ReadRelease(name) in faults then ChartStep(None, c)
    else if name !in c.releases then ChartStep(Some(NotInstalled), c)
    else if GetChart(name) in faults then ChartStep(None, c)
    else if name !in c.charts then
      if c.releases[name].version == rc.version then ChartStep(Some(VersionAlreadyInstalled), c)
      else WriteChart(c, name, NewChart(plan, rc, c.releases[name]), CreateChart(name), faults)
    else
      var chart := c.charts[name];
      if chart.version != rc.version then WriteChart(c, name, UpdatedChart(plan, rc, chart), UpdateChart(name), faults)
      else if Annotation(chart) != plan.spec.releaseVersion then ChartStep(Some(VersionAlreadyInstalled), c)
      else if GetJob(chart.jobName) in faults then ChartStep(None, c)
      else if chart.jobName !in c.jobs then ChartStep(Some(UnknownState), c)
      else match FinalCondition(c.jobs[chart.jobName].conditions)
        case None => ChartStep(Some(ChartInProgress), c)
        case Some(t) => ChartStep(Some(if t.JobComplete? then ChartSucceeded else ChartFailed), c)
  }

  /** The condition a chart state maps to, and whether to requeue. */
  function Evaluate(s: ChartState): (Condition, bool) {
    match s
    case NotInstalled => (SkippedCondition, true)
    case VersionAlreadyInstalled => (SkippedCondition, true)
    case ChartInProgress => (InProgressCondition, false)
    case ChartSucceeded => (SuccessfulCondition, true)
    case ChartFailed => (FailedCondition, true)
    case UnknownState => (ErrorCondition, false)
  }

  predicate Ready(s: ChartState) {
    s.ChartSucceeded? || s.VersionAlreadyInstalled?
  }

  function Settle(st: Status, t: string, s: ChartState, c: Cluster): Pass {
    Pass(Set(st, t, Evaluate(s).0), c, if Evaluate(s).1 then Requeue else Done)
  }

  /** Where a walk over a list of charts stops: at an error, at a state, or nowhere. */
  datatype Walk =
    | WalkFailed(cluster: Cluster)
    | StoppedAt(state: ChartState, cluster: Cluster)
    | Walked(cluster: Cluster)

  function WalkDependencies(plan: Plan, deps: seq<ReleaseChart>, c: Cluster, faults: set<ApiCall>): Walk {
    if deps == [] then Walked(c)
    else
      var step := UpgradeChart(plan, deps[0], c, faults);
      if step.state.None? then WalkFailed(step.cluster)
      else if !Ready(step.state.value) then StoppedAt(step.state.value, step.cluster)
      else WalkDependencies(plan, deps[1..], step.cluster, faults)
  }

  function WalkAddons(plan: Plan, addons: seq<ReleaseChart>, c: Cluster, faults: set<ApiCall>): Walk {
    if addons == [] then Walked(c)
    else
      var step := UpgradeChart(plan, addons[0], c, faults);
      if step.state.None? then WalkFailed(step.cluster)
      else if step.state.value in {ChartInProgress, UnknownState} then StoppedAt(step.state.value, step.cluster)
      else WalkAddons(plan, addons[1..], step.cluster, faults)
  }

  function AddonsPass(plan: Plan, entry: ReleaseChart, core: ChartState, c: Cluster, faults: set<ApiCall>): Pass {
    var st, t := plan.status, ChartType(entry);
    match WalkAddons(plan, entry.addonCharts, c, faults)
    case WalkFailed(c') => Pass(st, c', Aborted)
    case StoppedAt(s, c') =>
      if s.ChartInProgress? then Pass(Set(st, t, InProgressCondition), c', Requeue) else Pass(st, c', Done)
    case Walked(c') => Settle(st, t, core, c')
  }

  function CorePass(plan: Plan, entry: ReleaseChart, c: Cluster, faults: set<ApiCall>): Pass {
    var st, t := plan.status, ChartType(entry);
    var core := UpgradeChart(plan, entry, c, faults);
    if core.state.None? then Pass(st, core.cluster, Aborted)
    else if core.state.value.NotInstalled? && entry.dependencyCharts != []
    then Pass(Set(st, t, FailedCondition), core.cluster, Requeue)
    else if !Ready(core.state.value) then Settle(st, t, core.state.value, core.cluster)
    else AddonsPass(plan, entry, core.state.value, core.cluster, faults)
  }

  function ChartPass(plan: Plan, entry: ReleaseChart, c: Cluster, faults: set<ApiCall>): Pass {
    match WalkDependencies(plan, entry.dependencyCharts, c, faults)
    case WalkFailed(c') => Pass(plan.status, c', Aborted)
    case StoppedAt(s, c') => Settle(plan.status, ChartType(entry), s, c')
    case Walked(c') => CorePass(plan, entry, c', faults)
  }

  // ---- the whole pass ----

  /** Index of the first entry that is not finished, or the number of entries. */
  function FirstUnfinished(charts: seq<ReleaseChart>, st: Status): (i: nat)
    ensures i <= |charts|
    ensures forall j | 0 <= j < i :: ChartFinished(st, ChartType(charts[j]))
    ensures i < |charts| ==> !ChartFinished(st, ChartType(charts[i]))
  {
    if charts == [] then 0
    else if !ChartFinished(st, ChartType(charts[0])) then 0
    else 1 + FirstUnfinished(charts[1..], st)
  }

  function StagePass(plan: Plan, release: Release, c: Cluster, faults: set<ApiCall>): Pass {
    var st := plan.status;
    if !IsTrue(st, OsUpgraded) then OsPass(plan, release, c, faults)
    else if !IsTrue(st, KubernetesUpgraded) then KubernetesPass(plan, release, c, faults)
    else
      var i := FirstUnfinished(release.charts, st);
      if i < |release.charts| then ChartPass(plan, release.charts[i], c, faults)
      else Pass(st.(lastSuccessfulReleaseVersion := release.releaseVersion), c, Done)
  }

  /** `reconcileNormal`. */
  function NormalPass(plan: Plan, c: Cluster, env: Env): Pass {
    var st := plan.status;
    if ListManifests in env.faults then Pass(st, c, Aborted)
    else
      var found := FindManifest(c.manifests, plan.spec.releaseVersion);
      if found.None? then ManifestJobPass(plan, c, env.faults)
      else if ListNodes in env.faults then Pass(st, c, Aborted)
      else
        var release := found.value;
        if Unsupported(c.nodes, Supported(release.os.supportedArchs)) != []
        then Pass(Set(st, ValidationFailed, Condition(True, UnsupportedArchitecture)), c, Done)
        else if st.observedGeneration != plan.generation then ObservePass(plan, release, c, env.random)
        else StagePass(plan, release, c, env.faults)
  }
}
