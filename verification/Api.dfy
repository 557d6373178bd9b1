/** The objects the controller reads and writes, as values. */
module Api {
  import opened Prelude
  import Values
  import Containers

  // ---- label and annotation keys, finalizer, condition types ----

  const PlanNameLabel: string := "lifecycle.suse.com/upgrade-plan-name"
  const PlanNamespaceLabel: string := "lifecycle.suse.com/upgrade-plan-namespace"
  const ReleaseAnnotation: string := "lifecycle.suse.com/release"
  const ControlPlaneLabel: string := "node-role.kubernetes.io/control-plane"
  const ChartLabel: string := "helmcharts.helm.cattle.io/chart"
  const OsUpgradeLabel: string := "os-upgrade"
  const KubernetesUpgradeLabel: string := "k8s-upgrade"
  const UpgradePlanFinalizer: string := "upgradeplan.lifecycle.suse.com/finalizer"

  const OsUpgraded: string := "OSUpgraded"
  const KubernetesUpgraded: string := "KubernetesUpgraded"
  const ValidationFailed: string := "ValidationFailed"

  type Labels = map<string, string>

  // ---- nodes ----

  datatype Truth = True | False | Unknown

  /** A condition of a node or a deployment. */
  datatype TypedCondition = TypedCondition(ctype: string, status: Truth)

  datatype Node = Node(
    name: string, labels: Labels, conditions: seq<TypedCondition>, unschedulable: bool,
    osImage: string, kubeletVersion: string, architecture: string)

  datatype Operator = In | NotIn

  datatype Requirement = Requirement(key: string, operator: Operator, values: seq<string>)

  /** The match expressions of a label selector. */
  type Selector = seq<Requirement>

  // ---- release manifests ----

  datatype Arch = X86 | Arm

  datatype OperatingSystem = OperatingSystem(
    version: string, zypperID: string, supportedArchs: seq<Arch>, prettyName: string)

  datatype ComponentType = HelmChartType | DeploymentType | UnsupportedType

  datatype CoreComponent = CoreComponent(
    name: string, version: string, containers: seq<Containers.Container>, ctype: ComponentType)

  datatype Distribution = Distribution(version: string, coreComponents: seq<CoreComponent>)

  datatype Kubernetes = Kubernetes(k3s: Distribution, rke2: Distribution)

  datatype ReleaseChart = ReleaseChart(
    releaseName: string, name: string, repository: string, version: string, prettyName: string,
    values: Values.Raw, dependencyCharts: seq<ReleaseChart>, addonCharts: seq<ReleaseChart>)

  datatype Release = Release(
    releaseVersion: string, os: OperatingSystem, kubernetes: Kubernetes, charts: seq<ReleaseChart>)

  // ---- upgrade plans ----

  datatype Reason = Error | Pending | InProgress | Skipped | Succeeded | Failed | UnsupportedArchitecture

  datatype Condition = Condition(status: Truth, reason: Reason)

  /** Conditions are a list keyed by type, so they are modelled as a map from type. */
  type Conditions = map<string, Condition>

  datatype Status = Status(
    conditions: Conditions, observedGeneration: nat, sucNameSuffix: string, lastSuccessfulReleaseVersion: string)

  datatype DisableDrain = DisableDrain(controlPlane: bool, worker: bool)

  datatype ChartValues = ChartValues(chart: string, values: Values.Raw)

  datatype Spec = Spec(releaseVersion: string, disableDrain: Option<DisableDrain>, helm: seq<ChartValues>)

  datatype Plan = Plan(
    name: string, namespace: string, generation: nat, deleting: bool, finalizers: seq<string>,
    spec: Spec, status: Status)

  /** Name and namespace of an upgrade plan: what a watch event is mapped to. */
  datatype Request = Request(namespace: string, name: string)

  function KeyOf(plan: Plan): Request { Request(plan.namespace, plan.name) }

  function GetChartConditionType(prettyName: string): string { prettyName + "Upgraded" }

  // ---- cluster objects ----

  datatype SucPlan = SucPlan(
    labels: Labels, selector: Selector, version: string, drain: bool,
    secret: Option<string>, prepareAfter: Option<string>, applying: seq<string>)

  datatype ChartResource = ChartResource(
    labels: Labels, annotations: map<string, string>, chart: string, chartContent: string, version: string,
    repo: string, targetNamespace: string, values: Values.Raw, backOffLimit: Option<int>, jobName: string)

  datatype HelmRelease = HelmRelease(namespace: string, version: string, config: Values.Fields)

  datatype JobConditionType = JobComplete | JobFailed | JobOther

  datatype JobCondition = JobCondition(ctype: JobConditionType, status: Truth)

  datatype Job = Job(labels: Labels, conditions: seq<JobCondition>)

  datatype Deployment = Deployment(conditions: seq<TypedCondition>, containers: seq<Containers.Container>)

  /** Everything outside the upgrade plan that the controller reads or writes. */
  datatype Cluster = Cluster(
    manifests: seq<Release>, manifestJobs: map<string, Job>, nodes: seq<Node>,
    secrets: map<string, Labels>, sucPlans: map<string, SucPlan>,
    charts: map<string, ChartResource>, jobs: map<string, Job>,
    releases: map<string, HelmRelease>, deployments: map<string, Deployment>)

  /** The API calls of one pass that may fail with an error other than "not found". */
  datatype ApiCall =
    | GetPlan | UpdatePlan | WriteStatus
    | ListManifests | CreateManifestJob | ListNodes
    | GetSecret(name: string) | CreateSecret(name: string)
    | GetSucPlan(name: string) | CreateSucPlan(name: string)
    | ReadRelease(name: string) | GetChart(name: string) | CreateChart(name: string) | UpdateChart(name: string)
    | GetJob(name: string) | GetDeployment(name: string)
    | ListSucPlans | ListSecrets | DeleteSucPlan(name: string) | DeleteSecret(name: string)

  /** Charts share a condition type only by sharing a pretty name; two pretty names would take a node stage's type. */
  lemma ChartConditionTypesDiffer(p: string, q: string)
    ensures GetChartConditionType(p) == GetChartConditionType(q) <==> p == q
    ensures GetChartConditionType(p) == OsUpgraded <==> p == "OS"
    ensures GetChartConditionType(p) == KubernetesUpgraded <==> p == "Kubernetes"
    ensures GetChartConditionType(p) != ValidationFailed
  {
    if GetChartConditionType(p) == GetChartConditionType(q) {
      EqualTails(p, "Upgraded", q, "Upgraded");
    }
    if GetChartConditionType(p) == OsUpgraded {
      assert OsUpgraded == "OS" + "Upgraded";
      EqualTails(p, "Upgraded", "OS", "Upgraded");
    }
    if GetChartConditionType(p) == KubernetesUpgraded {
      assert KubernetesUpgraded == "Kubernetes" + "Upgraded";
      EqualTails(p, "Upgraded", "Kubernetes", "Upgraded");
    }
    if p == "OS" { assert GetChartConditionType(p) == OsUpgraded; }
    if p == "Kubernetes" { assert GetChartConditionType(p) == KubernetesUpgraded; }
    var t := GetChartConditionType(p);
    assert t[|t| - 8] == 'U' && ValidationFailed[|ValidationFailed| - 8] == 'o';
  }
}
