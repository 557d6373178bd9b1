/** When a core component counts as upgraded, in terms of what the cluster holds. */
module Components {
  import opened Api
  import opened Containers
  import opened Pass
  import opened Stages

  /** The job is there, and one of its conditions says that it is complete. */
  ghost predicate HasCompleted(job: string, c: Cluster) {
    job in c.jobs && SaysComplete(c.jobs[job])
  }

  ghost predicate SaysComplete(job: Job) {
    exists i :: 0 <= i < |job.conditions| && job.conditions[i] == JobCondition(JobComplete, True)
  }

  lemma CompleteMeans(job: Job)
    ensures Complete(job) <==>
      exists i :: 0 <= i < |job.conditions| && job.conditions[i] == JobCondition(JobComplete, True)
  {
    if i :| 0 <= i < |job.conditions| && job.conditions[i] == JobCondition(JobComplete, True) {
      assert job.conditions[i] in job.conditions;
    }
  }

  /**
   * A component that is a HelmChart is upgraded exactly when the chart is there, the job its status names has
   * completed, and the release is at the component's version. It is missing when there is no chart; an error is a
   * failed call, or a completed job without a release; everything else is not upgraded yet.
   */
  lemma ChartComponentMeans(x: CoreComponent, c: Cluster, faults: set<ApiCall>)
    requires x.ctype.HelmChartType?
    ensures StatusOf(x, c, faults).Missing? <==> GetChart(x.name) !in faults && x.name !in c.charts
    ensures StatusOf(x, c, faults).Upgraded? <==>
      && GetChart(x.name) !in faults && x.name in c.charts
      && GetJob(c.charts[x.name].jobName) !in faults && HasCompleted(c.charts[x.name].jobName, c)
      && ReadRelease(x.name) !in faults && x.name in c.releases && c.releases[x.name].version == x.version
    ensures StatusOf(x, c, faults).Broken? <==>
      || GetChart(x.name) in faults
      || (x.name in c.charts &&
          (GetJob(c.charts[x.name].jobName) in faults ||
           (HasCompleted(c.charts[x.name].jobName, c) && (ReadRelease(x.name) in faults || x.name !in c.releases))))
    ensures StatusOf(x, c, faults).NotUpgraded? <==>
      && GetChart(x.name) !in faults && x.name in c.charts && GetJob(c.charts[x.name].jobName) !in faults
      && (HasCompleted(c.charts[x.name].jobName, c) ==>
            ReadRelease(x.name) !in faults && x.name in c.releases && c.releases[x.name].version != x.version)
  {
    if x.name in c.charts && c.charts[x.name].jobName in c.jobs {
      CompleteMeans(c.jobs[c.charts[x.name].jobName]);
    }
  }

  /** One of the conditions of the deployment says that it is available. */
  ghost predicate SaysAvailable(d: Deployment) {
    exists i :: 0 <= i < |d.conditions| && d.conditions[i] == TypedCondition("Available", True)
  }

  lemma AvailableMeans(d: Deployment)
    ensures Available(d) <==> SaysAvailable(d)
  {
    if i :| 0 <= i < |d.conditions| && d.conditions[i] == TypedCondition("Available", True) {
      assert d.conditions[i] in d.conditions;
    }
  }

  /**
   * A component that is a Deployment is upgraded exactly when the deployment is there and available and, its containers
   * having unique names, runs every image listed; whether an image counts is asked of the one listed last for a name.
   */
  lemma DeploymentComponentMeans(x: CoreComponent, c: Cluster, faults: set<ApiCall>)
    requires x.ctype.DeploymentType?
    ensures StatusOf(x, c, faults).Broken? <==> GetDeployment(x.name) in faults
    ensures StatusOf(x, c, faults).Missing? <==> GetDeployment(x.name) !in faults && x.name !in c.deployments
    ensures x.name in c.deployments && UniqueNames(c.deployments[x.name].containers) ==>
      (StatusOf(x, c, faults).Upgraded? <==>
         && GetDeployment(x.name) !in faults && SaysAvailable(c.deployments[x.name])
         && ListedPresent(x.containers, c.deployments[x.name].containers))
    ensures StatusOf(x, c, faults).Upgraded? ==>
      GetDeployment(x.name) !in faults && x.name in c.deployments && SaysAvailable(c.deployments[x.name])
  {
    if x.name in c.deployments {
      AvailableMeans(c.deployments[x.name]);
      if UniqueNames(c.deployments[x.name].containers) {
        ListedExactly(x.containers, c.deployments[x.name].containers);
      }
    }
  }

  /** A component of any other type is an error. */
  lemma OtherComponentMeans(x: CoreComponent, c: Cluster, faults: set<ApiCall>)
    requires x.ctype.UnsupportedType?
    ensures StatusOf(x, c, faults).Broken?
  {
  }

  /** The cluster does not have the component, or has it at the version or with the images wanted. */
  ghost predicate AbsentOrUpgraded(x: CoreComponent, c: Cluster) {
    match x.ctype
    case HelmChartType =>
      x.name in c.charts ==>
        HasCompleted(c.charts[x.name].jobName, c) && x.name in c.releases && c.releases[x.name].version == x.version
    case DeploymentType =>
      x.name in c.deployments ==>
        && SaysAvailable(c.deployments[x.name])
        && (UniqueNames(c.deployments[x.name].containers) ==>
          ListedPresent(x.containers, c.deployments[x.name].containers))
    case UnsupportedType => false
  }

  /** No container name occurs twice in the component's deployment, if it is one. */
  ghost predicate UniqueContainers(x: CoreComponent, c: Cluster) {
    x.ctype.DeploymentType? && x.name in c.deployments ==> UniqueNames(c.deployments[x.name].containers)
  }

  lemma SettledMeans(x: CoreComponent, c: Cluster, faults: set<ApiCall>)
    ensures Settled(x, c, faults) ==> AbsentOrUpgraded(x, c)
    ensures faults == {} && UniqueContainers(x, c) && AbsentOrUpgraded(x, c) ==> Settled(x, c, faults)
  {
    match x.ctype {
      case HelmChartType => ChartComponentMeans(x, c, faults);
      case DeploymentType => DeploymentComponentMeans(x, c, faults);
      case UnsupportedType =>
    }
  }

  /** The scan passes over components that are absent or upgraded, and over no others. */
  lemma ScanMeans(components: seq<CoreComponent>, c: Cluster)
    requires forall x | x in components :: UniqueContainers(x, c)
    ensures Scan(components, c, {}) == AllUp <==> forall x | x in components :: AbsentOrUpgraded(x, c)
  {
    ScanIsExact(components, c, {});
    forall x | x in components ensures Settled(x, c, {}) <==> AbsentOrUpgraded(x, c) {
      SettledMeans(x, c, {});
    }
  }
}
