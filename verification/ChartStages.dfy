/** `upgradeHelmChart` and `reconcileHelmChart`: one chart, and one chart entry with its dependencies and add-ons. */
module ChartStages {
  import opened Prelude
  import opened Api
  import opened Pass
  import opened Client
  import Values

  method FindUserValues(helm: seq<ChartValues>, chart: string) returns (userValues: Values.Raw)
    ensures userValues == UserValues(helm, chart)
  {
    userValues := Values.Absent;
    for i := 0 to |helm|
      invariant userValues == Values.Absent && UserValues(helm, chart) == UserValues(helm[i..], chart)
    {
      assert helm[i..][1..] == helm[i + 1..];
      if chart == helm[i].chart {
        return helm[i].values;
      }
    }
  }

  /** `updateHelmChart`: the stored chart is edited in place and written back. */
  method UpdateHelmChart(server: Server, plan: UpgradePlan, chart: ChartObject, releaseChart: ReleaseChart)
    returns (ok: bool)
    modifies server`cluster, chart
    ensures var was := old(chart.Value());
            ChartStep(if ok then Some(ChartInProgress) else None, server.cluster) ==
            WriteChart(old(server.cluster), chart.name, UpdatedChart(plan.Value(), releaseChart, was),
            UpdateChart(chart.name), server.faults)
  {
    var userValues := FindUserValues(plan.spec.helm, releaseChart.name);
    var values := Values.HelmValues(Values.FromChart(chart.values), releaseChart.values, userValues);
    if values.None? {
      return false;
    }
    chart.labels := chart.labels[PlanNameLabel := plan.name];
    chart.labels := chart.labels[PlanNamespaceLabel := plan.namespace];
    chart.annotations := chart.annotations[ReleaseAnnotation := plan.spec.releaseVersion];
    chart.chartContent := "";
    chart.chart := releaseChart.name;
    chart.version := releaseChart.version;
    chart.repo := releaseChart.repository;
    chart.values := values.value;
    chart.backOffLimit := Some(6);
    ok := server.WriteHelmChart(chart, UpdateChart(chart.name));
  }

  /** `createHelmChart`, from an installed release that no HelmChart manages yet. */
  method CreateHelmChart(server: Server, plan: UpgradePlan, name: string, installed: HelmRelease,
      releaseChart: ReleaseChart)
    returns (ok: bool)
    modifies server`cluster
    ensures ChartStep(if ok then Some(ChartInProgress) else None, server.cluster) ==
            WriteChart(old(server.cluster), name, NewChart(plan.Value(), releaseChart, installed), CreateChart(name),
            server.faults)
  {
    var userValues := FindUserValues(plan.spec.helm, releaseChart.name);
    var values := Values.HelmValues(Values.FromRelease(installed.config), releaseChart.values, userValues);
    if values.None? {
      return false;
    }
    var chart := new ChartObject(name, ChartResource(
      OwnerLabels(plan.Value()), map[ReleaseAnnotation := plan.spec.releaseVersion],
      releaseChart.name, "", releaseChart.version, releaseChart.repository, installed.namespace,
      values.value, Some(6), ""));
    ok := server.WriteHelmChart(chart, CreateChart(name));
  }

  method UpgradeHelmChart(server: Server, plan: UpgradePlan, releaseChart: ReleaseChart)
    returns (state: Option<ChartState>)
    modifies server`cluster
    ensures ChartStep(state, server.cluster) ==
            UpgradeChart(plan.Value(), releaseChart, old(server.cluster), server.faults)
  {
    var name := releaseChart.releaseName;
    var helmRelease;
    match Fetch(server.cluster.releases, name, ReadRelease(name) in server.faults) {
      case GetFailed => return None;
      case NotFound => return Some(NotInstalled);
      case Found(r) => helmRelease := r;
    }

    var stored;
    match Fetch(server.cluster.charts, name, GetChart(name) in server.faults) {
      case GetFailed => return None;
      case NotFound =>
        if helmRelease.version == releaseChart.version {
          return Some(VersionAlreadyInstalled);
        }
        var ok := CreateHelmChart(server, plan, name, helmRelease, releaseChart);
        return if ok then Some(ChartInProgress) else None;
      case Found(c) => stored := c;
    }
    var chart := new ChartObject(name, stored);

    if chart.version != releaseChart.version {
      var ok := UpdateHelmChart(server, plan, chart, releaseChart);
      return if ok then Some(ChartInProgress) else None;
    }
    if Annotation(chart.Value()) != plan.spec.releaseVersion {
      return Some(VersionAlreadyInstalled);
    }
    match Fetch(server.cluster.jobs, chart.jobName, GetJob(chart.jobName) in server.faults) {
      case GetFailed => return None;
      case NotFound => return Some(UnknownState);
      case Found(job) =>
        var final := FirstFinal(job.conditions);
        if final.None? {
          return Some(ChartInProgress);
        }
        return Some(if final.value.JobComplete? then ChartSucceeded else ChartFailed);
    }
  }

  /** `slices.IndexFunc` over the job conditions. */
  method FirstFinal(conditions: seq<JobCondition>) returns (r: Option<JobConditionType>)
    ensures r == FinalCondition(conditions)
  {
    for i := 0 to |conditions|
      invariant FinalCondition(conditions) == FinalCondition(conditions[i..])
    {
      assert conditions[i..][1..] == conditions[i + 1..];
      if conditions[i].status == True && (conditions[i].ctype == JobComplete || conditions[i].ctype == JobFailed) {
        return Some(conditions[i].ctype);
      }
    }
    return None;
  }

  method ReconcileHelmChart(server: Server, plan: UpgradePlan, chart: ReleaseChart) returns (o: Outcome)
    modifies server`cluster, plan`conditions
    ensures plan.Value() == old(plan.Value()).(status := plan.CurrentStatus())
    ensures Pass(plan.CurrentStatus(), server.cluster, o) ==
            ChartPass(old(plan.Value()), chart, old(server.cluster), server.faults)
  {
    var conditionType := GetChartConditionType(chart.prettyName);
    for i := 0 to |chart.dependencyCharts|
      invariant plan.Value() == old(plan.Value())
      invariant WalkDependencies(plan.Value(), chart.dependencyCharts, old(server.cluster), server.faults) ==
                WalkDependencies(plan.Value(), chart.dependencyCharts[i..], server.cluster, server.faults)
    {
      assert chart.dependencyCharts[i..][1..] == chart.dependencyCharts[i + 1..];
      var depState := UpgradeHelmChart(server, plan, chart.dependencyCharts[i]);
      if depState.None? {
        return Aborted;
      }
      if depState.value != ChartSucceeded && depState.value != VersionAlreadyInstalled {
        var (condition, requeue) := Evaluate(depState.value);
        plan.SetCondition(conditionType, condition);
        return if requeue then Requeue else Done;
      }
    }
    o := ReconcileCore(server, plan, chart);
  }

  /** `reconcileHelmChart` once every dependency is ready. */
  method ReconcileCore(server: Server, plan: UpgradePlan, chart: ReleaseChart) returns (o: Outcome)
    modifies server`cluster, plan`conditions
    ensures plan.Value() == old(plan.Value()).(status := plan.CurrentStatus())
    ensures Pass(plan.CurrentStatus(), server.cluster, o) ==
            CorePass(old(plan.Value()), chart, old(server.cluster), server.faults)
  {
    var conditionType := GetChartConditionType(chart.prettyName);
    var coreState := UpgradeHelmChart(server, plan, chart);
    if coreState.None? {
      return Aborted;
    }
    if coreState.value == NotInstalled && |chart.dependencyCharts| != 0 {
      plan.SetCondition(conditionType, FailedCondition);
      return Requeue;
    }
    if coreState.value != ChartSucceeded && coreState.value != VersionAlreadyInstalled {
      var (condition, requeue) := Evaluate(coreState.value);
      plan.SetCondition(conditionType, condition);
      return if requeue then Requeue else Done;
    }
    o := ReconcileAddons(server, plan, chart, coreState.value);
  }

  /** The add-on loop and the end of `reconcileHelmChart`. */
  method ReconcileAddons(server: Server, plan: UpgradePlan, chart: ReleaseChart, coreState: ChartState)
    returns (o: Outcome)
    modifies server`cluster, plan`conditions
    ensures plan.Value() == old(plan.Value()).(status := plan.CurrentStatus())
    ensures Pass(plan.CurrentStatus(), server.cluster, o) ==
            AddonsPass(old(plan.Value()), chart, coreState, old(server.cluster), server.faults)
  {
    var conditionType := GetChartConditionType(chart.prettyName);
    for i := 0 to |chart.addonCharts|
      invariant plan.Value() == old(plan.Value())
      invariant WalkAddons(plan.Value(), chart.addonCharts, old(server.cluster), server.faults) ==
                WalkAddons(plan.Value(), chart.addonCharts[i..], server.cluster, server.faults)
    {
      assert chart.addonCharts[i..][1..] == chart.addonCharts[i + 1..];
      var addonState := UpgradeHelmChart(server, plan, chart.addonCharts[i]);
      if addonState.None? {
        return Aborted;
      }
      match addonState.value {
        case ChartFailed =>
        case NotInstalled =>
        case ChartSucceeded =>
        case VersionAlreadyInstalled =>
        case ChartInProgress =>
          plan.SetCondition(conditionType, InProgressCondition);
          return Requeue;
        case UnknownState =>
          return Done;
      }
    }
    var (condition, requeue) := Evaluate(coreState);
    plan.SetCondition(conditionType, condition);
    return if requeue then Requeue else Done;
  }
}
