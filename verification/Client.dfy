/** The objects the controller mutates in memory, and the API server it reads from and writes to. */
module Client {
  import opened Prelude
  import opened Api
  import opened Pass
  import opened Webhook
  import opened Reconcile
  import Values

  /** A Go `map[string]string`; several objects may hold the same one. */
  class StringMap {
    var m: Labels

    constructor (m: Labels)
      ensures this.m == m
    {
      this.m := m;
    }
  }

  /** A System Upgrade Controller plan in memory. Its labels are a reference to a map it may share. */
  class SucPlanObject {
    const name: string
    var labels: StringMap
    var selector: Selector
    var version: string
    var drain: bool
    var secret: Option<string>
    var prepareAfter: Option<string>
    var applying: seq<string>

    constructor (name: string, labels: StringMap)
      ensures this.name == name && this.labels == labels && selector == [] && version == "" && !drain
      ensures secret == None && prepareAfter == None && applying == []
    {
      this.name, this.labels, selector, version, drain := name, labels, [], "", false;
      secret, prepareAfter, applying := None, None, [];
    }

    function Value(): SucPlan
      reads this, labels
    {
      SucPlan(labels.m, selector, version, drain, secret, prepareAfter, applying)
    }

    /** A successful `Get` into the object replaces everything but its key. */
    method Load(stored: SucPlan)
      modifies this
      ensures Value() == stored && fresh(labels)
    {
      labels := new StringMap(stored.labels);
      selector, version, drain := stored.selector, stored.version, stored.drain;
      secret, prepareAfter, applying := stored.secret, stored.prepareAfter, stored.applying;
    }
  }

  /** A HelmChart resource in memory. */
  class ChartObject {
    const name: string
    var labels: Labels
    var annotations: map<string, string>
    var chart: string
    var chartContent: string
    var version: string
    var repo: string
    var targetNamespace: string
    var values: Values.Raw
    var backOffLimit: Option<int>
    var jobName: string

    constructor (name: string, stored: ChartResource)
      ensures this.name == name && Value() == stored
    {
      this.name := name;
      labels, annotations, chart, chartContent := stored.labels, stored.annotations, stored.chart, stored.chartContent;
      version, repo, targetNamespace := stored.version, stored.repo, stored.targetNamespace;
      values, backOffLimit, jobName := stored.values, stored.backOffLimit, stored.jobName;
    }

    function Value(): ChartResource
      reads this
    {
      ChartResource(labels, annotations, chart, chartContent, version, repo, targetNamespace, values, backOffLimit,
      jobName)
    }
  }

  /** An upgrade plan in memory: read at the start of a pass, updated in place, written back at its end. */
  class UpgradePlan {
    const name: string
    const namespace: string
    const generation: nat
    const deleting: bool
    const spec: Spec
    var finalizers: seq<string>
    var conditions: Conditions
    var observedGeneration: nat
    var sucNameSuffix: string
    var lastSuccessfulReleaseVersion: string

    constructor (stored: Plan)
      ensures Value() == stored
    {
      name, namespace, generation, deleting, spec := stored.name, stored.namespace, stored.generation, stored.deleting,
      stored.spec;
      finalizers := stored.finalizers;
      conditions := stored.status.conditions;
      observedGeneration, sucNameSuffix := stored.status.observedGeneration, stored.status.sucNameSuffix;
      lastSuccessfulReleaseVersion := stored.status.lastSuccessfulReleaseVersion;
    }

    function CurrentStatus(): Status
      reads this
    {
      Status(conditions, observedGeneration, sucNameSuffix, lastSuccessfulReleaseVersion)
    }

    function Value(): Plan
      reads this
    {
      Plan(name, namespace, generation, deleting, finalizers, spec, CurrentStatus())
    }

    /** `meta.SetStatusCondition`, behind all the `set*Condition` helpers. */
    method SetCondition(conditionType: string, condition: Condition)
      modifies this`conditions
      ensures CurrentStatus() == Set(old(CurrentStatus()), conditionType, condition)
      ensures Value() == old(Value()).(status := CurrentStatus())
    {
      conditions := conditions[conditionType := condition];
    }
  }

  /** What a `Get` answers. */
  datatype Got<+T> = Found(value: T) | NotFound | GetFailed

  function Fetch<T>(m: map<string, T>, name: string, fails: bool): Got<T> {
    if fails then GetFailed else if name in m then Found(m[name]) else NotFound
  }

  /** The API server during one pass: what it stores, and which calls to it fail. */
  class Server {
    var plan: Option<Plan>
    var cluster: Cluster
    const faults: set<ApiCall>

    constructor (store: Store, faults: set<ApiCall>)
      ensures plan == store.plan && cluster == store.cluster && this.faults == faults
    {
      plan, cluster, this.faults := store.plan, store.cluster, faults;
    }

    function Stored(): Store
      reads this
    {
      Store(plan, cluster)
    }

    method CreateSecret(name: string, labels: StringMap) returns (ok: bool)
      modifies this`cluster
      ensures ok <==> ApiCall.CreateSecret(name) !in faults
      ensures cluster == if ok then old(cluster).(secrets := old(cluster).secrets[name := labels.m]) else old(cluster)
    {
      ok := ApiCall.CreateSecret(name) !in faults;
      if ok { cluster := cluster.(secrets := cluster.secrets[name := labels.m]); }
    }

    method CreateSucPlan(p: SucPlanObject) returns (ok: bool)
      modifies this`cluster
      ensures ok <==> ApiCall.CreateSucPlan(p.name) !in faults
      ensures cluster ==
        if ok then old(cluster).(sucPlans := old(cluster).sucPlans[p.name := p.Value()]) else old(cluster)
    {
      ok := ApiCall.CreateSucPlan(p.name) !in faults;
      if ok { cluster := cluster.(sucPlans := cluster.sucPlans[p.name := p.Value()]); }
    }

    method CreateManifestJob(name: string, labels: StringMap) returns (ok: bool)
      modifies this`cluster
      ensures ok <==> ApiCall.CreateManifestJob !in faults && name !in old(cluster).manifestJobs
      ensures cluster ==
        if ok then old(cluster).(manifestJobs := old(cluster).manifestJobs[name := Job(labels.m, [])]) else old(cluster)
    {
      ok := ApiCall.CreateManifestJob !in faults && name !in cluster.manifestJobs;
      if ok { cluster := cluster.(manifestJobs := cluster.manifestJobs[name := Job(labels.m, [])]); }
    }

    method WriteHelmChart(chart: ChartObject, call: ApiCall) returns (ok: bool)
      modifies this`cluster
      ensures ok <==> call !in faults
      ensures cluster ==
        if ok then old(cluster).(charts := old(cluster).charts[chart.name := chart.Value()]) else old(cluster)
    {
      ok := call !in faults;
      if ok { cluster := cluster.(charts := cluster.charts[chart.name := chart.Value()]); }
    }

    /** An update goes through the admission webhook and leaves the stored status alone. */
    method UpdatePlan(parse: Parser, p: UpgradePlan) returns (ok: bool)
      requires plan.Some? && p.Value().status == plan.value.status
      modifies this`plan
      ensures ok <==> !UpdateFails(parse, old(plan).value, p.Value(), faults)
      ensures plan == if ok then Update(parse, old(plan).value, p.Value()) else old(plan)
    {
      ok := ApiCall.UpdatePlan !in faults && ValidateUpdate(parse, plan.value, p.Value()) == Allowed;
      if ok { plan := Update(parse, plan.value, p.Value()); }
    }

    method UpdateStatus(p: UpgradePlan) returns (ok: bool)
      requires plan.Some?
      modifies this`plan
      ensures ok <==> WriteStatus !in faults
      ensures plan == if ok then Some(old(plan).value.(status := p.CurrentStatus())) else old(plan)
    {
      ok := WriteStatus !in faults;
      if ok { plan := Some(plan.value.(status := p.CurrentStatus())); }
    }

    method DeleteSucPlan(name: string) returns (ok: bool)
      modifies this`cluster
      ensures ok <==> ApiCall.DeleteSucPlan(name) !in faults
      ensures cluster == if ok then old(cluster).(sucPlans := old(cluster).sucPlans - {name}) else old(cluster)
    {
      ok := ApiCall.DeleteSucPlan(name) !in faults;
      if ok { cluster := cluster.(sucPlans := cluster.sucPlans - {name}); }
    }

    method DeleteSecret(name: string) returns (ok: bool)
      modifies this`cluster
      ensures ok <==> ApiCall.DeleteSecret(name) !in faults
      ensures cluster == if ok then old(cluster).(secrets := old(cluster).secrets - {name}) else old(cluster)
    {
      ok := ApiCall.DeleteSecret(name) !in faults;
      if ok { cluster := cluster.(secrets := cluster.secrets - {name}); }
    }

    /** Objects carrying the owner's labels, in an order of the server's choosing. */
    method ListOwned(labelled: map<string, Labels>, owner: Plan) returns (items: seq<string>)
      ensures Distinct(items)
      ensures forall n :: n in items <==> n in labelled && OwnedBy(labelled[n], owner)
    {
      items := [];
      var rest := labelled.Keys;
      while rest != {}
        invariant rest <= labelled.Keys && Distinct(items)
        invariant forall n :: n in items <==> n in labelled && n !in rest && OwnedBy(labelled[n], owner)
        decreases rest
      {
        var n :| n in rest;
        rest := rest - {n};
        if OwnedBy(labelled[n], owner) {
          items := items + [n];
        }
      }
    }
  }
}
