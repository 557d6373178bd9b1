/** `reconcileOS` and `reconcileKubernetes`: the two stages that drive nodes through created plans. */
module NodeStages {
  import opened Prelude
  import opened Api
  import opened Names
  import opened Nodes
  import opened Pass
  import opened Client
  import opened Builders
  import Containers

  /** Create one stage plan, with the condition set first, as both stages do. */
  method StartPlan(server: Server, plan: UpgradePlan, conditionType: string, p: SucPlanObject, ghost r: Rollout)
    returns (o: Outcome)
    requires r.conditionType == conditionType
    modifies server`cluster, plan`conditions
    ensures plan.Value() ==
      old(plan.Value()).(status := Set(old(plan.CurrentStatus()), conditionType, InProgressCondition))
    ensures Pass(plan.CurrentStatus(), server.cluster, o) ==
            Started(r, old(plan.CurrentStatus()), old(server.cluster), p.name, old(p.Value()), server.faults)
  {
    plan.SetCondition(conditionType, InProgressCondition);
    var ok := server.CreateSucPlan(p);
    o := if ok then Done else Aborted;
  }

  method ReconcileOS(server: Server, plan: UpgradePlan, release: Release, nodeList: seq<Node>) returns (o: Outcome)
    requires nodeList == server.cluster.nodes
    modifies server`cluster, plan`conditions
    ensures plan.Value() == old(plan.Value()).(status := plan.CurrentStatus())
    ensures Pass(plan.CurrentStatus(), server.cluster, o) ==
            OsPass(old(plan.Value()), release, old(server.cluster), server.faults)
  {
    var releaseOS := release.os;
    var identifierLabels := new StringMap(OwnerLabels(plan.Value()));
    var nameSuffix := plan.sucNameSuffix;
    var secretName := OsSecretName(releaseOS.zypperID, releaseOS.version, nameSuffix);

    match Fetch(server.cluster.secrets, secretName, GetSecret(secretName) in server.faults) {
      case GetFailed => return Aborted;
      case NotFound =>
        var ok := server.CreateSecret(secretName, identifierLabels);
        return if ok then Done else Aborted;
      case Found(_) =>
    }
    ghost var r := OsRollout(plan.Value(), release, nodeList);
    o := OsRolloutFrom(server, plan, release, nodeList, secretName, identifierLabels, r);
  }

  /** `reconcileOS` after the secret. */
  method OsRolloutFrom(server: Server, plan: UpgradePlan, release: Release, nodeList: seq<Node>, secretName: string,
                       identifierLabels: StringMap, ghost r: Rollout)
    returns (o: Outcome)
    requires nodeList == server.cluster.nodes && r == OsRollout(plan.Value(), release, nodeList)
    requires secretName == OsSecretName(release.os.zypperID, release.os.version, plan.sucNameSuffix)
    requires identifierLabels.m == OwnerLabels(plan.Value())
    modifies server`cluster, plan`conditions, identifierLabels
    ensures plan.Value() == old(plan.Value()).(status := plan.CurrentStatus())
    ensures Pass(plan.CurrentStatus(), server.cluster, o) ==
            RolloutPass(r, old(plan.CurrentStatus()), old(server.cluster), server.faults)
  {
    var drainControlPlane, drainWorker := ParseDrainOptions(nodeList, plan.spec.disableDrain);
    var controlPlanePlan := OSControlPlanePlan(plan.sucNameSuffix, release.releaseVersion, secretName, release.os,
      drainControlPlane, identifierLabels);
    assert controlPlanePlan.name == r.controlPlaneName && controlPlanePlan.Value() == r.controlPlane;
    match Fetch(server.cluster.sucPlans, controlPlanePlan.name, GetSucPlan(controlPlanePlan.name) in server.faults) {
      case GetFailed => return Aborted;
      case NotFound =>
        o := StartPlan(server, plan, OsUpgraded, controlPlanePlan, r);
        return;
      case Found(stored) => controlPlanePlan.Load(stored);
    }
    var nodes := FindMatchingNodes(nodeList, controlPlanePlan.selector);
    if nodes.None? {
      return Aborted;
    }
    var upgraded := IsOSUpgraded(nodes.value, release.os.prettyName);
    var controlPlaneOnly := ControlPlaneOnlyCluster(nodeList);
    if !upgraded {
      plan.SetCondition(OsUpgraded, InProgressCondition);
      return RequeueAfterMinute;
    } else if controlPlaneOnly {
      plan.SetCondition(OsUpgraded, SuccessfulCondition);
      return Requeue;
    }
    o := OsWorkers(server, plan, release, nodeList, secretName, drainWorker, identifierLabels, r);
  }

  /** The worker half of `reconcileOS`. */
  method OsWorkers(server: Server, plan: UpgradePlan, release: Release, nodeList: seq<Node>, secretName: string,
                   drainWorker: bool, identifierLabels: StringMap, ghost r: Rollout)
    returns (o: Outcome)
    requires nodeList == server.cluster.nodes && r == OsRollout(plan.Value(), release, nodeList)
    requires secretName == OsSecretName(release.os.zypperID, release.os.version, plan.sucNameSuffix)
    requires identifierLabels.m == OwnerLabels(plan.Value())[OsUpgradeLabel := "control-plane"]
    requires drainWorker == DrainOptions(nodeList, plan.spec.disableDrain).1
    modifies server`cluster, plan`conditions, identifierLabels
    ensures plan.Value() == old(plan.Value()).(status := plan.CurrentStatus())
    ensures Pass(plan.CurrentStatus(), server.cluster, o) ==
            WorkerPass(r, old(plan.CurrentStatus()), old(server.cluster), server.faults)
  {
    var workerPlan := OSWorkerPlan(plan.sucNameSuffix, release.releaseVersion, secretName, release.os, drainWorker,
      identifierLabels);
    assert identifierLabels.m == OwnerLabels(plan.Value())[OsUpgradeLabel := "worker"];
    assert workerPlan.name == r.workerName && workerPlan.Value() == r.worker;
    match Fetch(server.cluster.sucPlans, workerPlan.name, GetSucPlan(workerPlan.name) in server.faults) {
      case GetFailed => return Aborted;
      case NotFound =>
        o := StartPlan(server, plan, OsUpgraded, workerPlan, r);
        return;
      case Found(stored) => workerPlan.Load(stored);
    }
    var nodes := FindMatchingNodes(nodeList, workerPlan.selector);
    if nodes.None? {
      return Aborted;
    }
    var upgraded := IsOSUpgraded(nodes.value, release.os.prettyName);
    if !upgraded {
      plan.SetCondition(OsUpgraded, InProgressCondition);
      return RequeueAfterMinute;
    }
    plan.SetCondition(OsUpgraded, SuccessfulCondition);
    return Requeue;
  }

  method TargetKubernetesDistribution(nodeList: seq<Node>, kubernetes: Kubernetes) returns (d: Option<Distribution>)
    ensures d == TargetDistribution(nodeList, kubernetes)
    ensures d.Some? <==>
      nodeList != [] && (Occurs(nodeList[0].kubeletVersion, "k3s") || Occurs(nodeList[0].kubeletVersion, "rke2"))
    ensures d.Some? ==> d.value == if Occurs(nodeList[0].kubeletVersion, "k3s") then kubernetes.k3s else kubernetes.rke2
  {
    if |nodeList| == 0 {
      return None;
    }
    var kubeletVersion := nodeList[0].kubeletVersion;
    SubstringMeansOccurs(kubeletVersion, "k3s");
    SubstringMeansOccurs(kubeletVersion, "rke2");
    if HasSubstring(kubeletVersion, "k3s") {
      return Some(kubernetes.k3s);
    } else if HasSubstring(kubeletVersion, "rke2") {
      return Some(kubernetes.rke2);
    }
    return None;
  }

  method ReconcileKubernetes(server: Server, plan: UpgradePlan, release: Release, nodeList: seq<Node>)
    returns (o: Outcome)
    requires nodeList == server.cluster.nodes
    modifies server`cluster, plan`conditions
    ensures plan.Value() == old(plan.Value()).(status := plan.CurrentStatus())
    ensures Pass(plan.CurrentStatus(), server.cluster, o) ==
            KubernetesPass(old(plan.Value()), release, old(server.cluster), server.faults)
  {
    var d := TargetKubernetesDistribution(nodeList, release.kubernetes);
    if d.None? {
      return Aborted;
    }
    var identifierLabels := new StringMap(OwnerLabels(plan.Value()));
    ghost var r := KubernetesRollout(plan.Value(), d.value, nodeList);
    o := KubernetesRolloutFrom(server, plan, d.value, nodeList, identifierLabels, r);
  }

  /** `reconcileKubernetes` once the distribution is known. */
  method KubernetesRolloutFrom(server: Server, plan: UpgradePlan, d: Distribution, nodeList: seq<Node>,
                               identifierLabels: StringMap, ghost r: Rollout)
    returns (o: Outcome)
    requires nodeList == server.cluster.nodes && r == KubernetesRollout(plan.Value(), d, nodeList)
    requires identifierLabels.m == OwnerLabels(plan.Value())
    modifies server`cluster, plan`conditions, identifierLabels
    ensures plan.Value() == old(plan.Value()).(status := plan.CurrentStatus())
    ensures Pass(plan.CurrentStatus(), server.cluster, o) ==
            RolloutPass(r, old(plan.CurrentStatus()), old(server.cluster), server.faults)
  {
    var drainControlPlane, drainWorker := ParseDrainOptions(nodeList, plan.spec.disableDrain);
    var controlPlanePlan := KubernetesControlPlanePlan(plan.sucNameSuffix, d.version, drainControlPlane,
      identifierLabels);
    assert controlPlanePlan.name == r.controlPlaneName && controlPlanePlan.Value() == r.controlPlane;
    match Fetch(server.cluster.sucPlans, controlPlanePlan.name, GetSucPlan(controlPlanePlan.name) in server.faults) {
      case GetFailed => return Aborted;
      case NotFound =>
        o := StartPlan(server, plan, KubernetesUpgraded, controlPlanePlan, r);
        return;
      case Found(stored) => controlPlanePlan.Load(stored);
    }
    var nodes := FindMatchingNodes(nodeList, controlPlanePlan.selector);
    if nodes.None? {
      return Aborted;
    }
    var upgraded := IsKubernetesUpgraded(nodes.value, d.version);
    var controlPlaneOnly := ControlPlaneOnlyCluster(nodeList);
    if !upgraded {
      plan.SetCondition(KubernetesUpgraded, InProgressCondition);
      return RequeueAfterMinute;
    } else if controlPlaneOnly {
      o := FinishKubernetes(server, plan, d, r);
      return;
    }
    o := KubernetesWorkers(server, plan, d, nodeList, drainWorker, identifierLabels, r);
  }

  /** The worker half of `reconcileKubernetes`. */
  method KubernetesWorkers(server: Server, plan: UpgradePlan, d: Distribution, nodeList: seq<Node>, drainWorker: bool,
                           identifierLabels: StringMap, ghost r: Rollout)
    returns (o: Outcome)
    requires nodeList == server.cluster.nodes && r == KubernetesRollout(plan.Value(), d, nodeList)
    requires identifierLabels.m == OwnerLabels(plan.Value())[KubernetesUpgradeLabel := "control-plane"]
    requires drainWorker == DrainOptions(nodeList, plan.spec.disableDrain).1
    modifies server`cluster, plan`conditions, identifierLabels
    ensures plan.Value() == old(plan.Value()).(status := plan.CurrentStatus())
    ensures Pass(plan.CurrentStatus(), server.cluster, o) ==
            WorkerPass(r, old(plan.CurrentStatus()), old(server.cluster), server.faults)
  {
    var workerPlan := KubernetesWorkerPlan(plan.sucNameSuffix, d.version, drainWorker, identifierLabels);
    assert identifierLabels.m == OwnerLabels(plan.Value())[KubernetesUpgradeLabel := "worker"];
    assert workerPlan.name == r.workerName && workerPlan.Value() == r.worker;
    match Fetch(server.cluster.sucPlans, workerPlan.name, GetSucPlan(workerPlan.name) in server.faults) {
      case GetFailed => return Aborted;
      case NotFound =>
        o := StartPlan(server, plan, KubernetesUpgraded, workerPlan, r);
        return;
      case Found(stored) => workerPlan.Load(stored);
    }
    var nodes := FindMatchingNodes(nodeList, workerPlan.selector);
    if nodes.None? {
      return Aborted;
    }
    var upgraded := IsKubernetesUpgraded(nodes.value, d.version);
    if !upgraded {
      plan.SetCondition(KubernetesUpgraded, InProgressCondition);
      return RequeueAfterMinute;
    }
    o := FinishKubernetes(server, plan, d, r);
  }

  /** All nodes are upgraded: the core components decide. */
  method FinishKubernetes(server: Server, plan: UpgradePlan, d: Distribution, ghost r: Rollout) returns (o: Outcome)
    requires r.conditionType == KubernetesUpgraded && r.gate == Some(d.coreComponents)
    modifies plan`conditions
    ensures plan.Value() == old(plan.Value()).(status := plan.CurrentStatus())
    ensures Pass(plan.CurrentStatus(), server.cluster, o) ==
            Finished(r, old(plan.CurrentStatus()), server.cluster, server.faults)
  {
    var status := GetK8sCoreComponentsUpgradeStatus(server, d.coreComponents);
    match status {
      case ScanFailed => return Aborted;
      case WaitingFor(_) =>
        plan.SetCondition(KubernetesUpgraded, InProgressCondition);
        return RequeueAfterMinute;
      case AllUp =>
        plan.SetCondition(KubernetesUpgraded, SuccessfulCondition);
        return Requeue;
    }
  }

  method GetK8sCoreComponentsUpgradeStatus(server: Server, core: seq<CoreComponent>) returns (r: ScanStatus)
    ensures r == Scan(core, server.cluster, server.faults)
  {
    for i := 0 to |core|
      invariant Scan(core, server.cluster, server.faults) == Scan(core[i..], server.cluster, server.faults)
    {
      assert core[i..][1..] == core[i + 1..];
      var status := IsK8sCoreComponentUpgraded(server, core[i]);
      match status {
        case Missing =>
        case Broken => return ScanFailed;
        case NotUpgraded => return WaitingFor(core[i].name);
        case Upgraded =>
      }
    }
    return AllUp;
  }

  method IsK8sCoreComponentUpgraded(server: Server, component: CoreComponent) returns (r: ComponentStatus)
    ensures r == StatusOf(component, server.cluster, server.faults)
  {
    match component.ctype {
      case HelmChartType =>
        match Fetch(server.cluster.charts, component.name, GetChart(component.name) in server.faults) {
          case GetFailed => return Broken;
          case NotFound => return Missing;
          case Found(chart) =>
            match Fetch(server.cluster.jobs, chart.jobName, GetJob(chart.jobName) in server.faults) {
              case GetFailed => return Broken;
              case NotFound => return NotUpgraded;
              case Found(job) =>
                if !Complete(job) {
                  return NotUpgraded;
                }
                match Fetch(server.cluster.releases, component.name, ReadRelease(component.name) in server.faults) {
                  case GetFailed => return Broken;
                  case NotFound => return Broken;
                  case Found(installed) =>
                    return if installed.version == component.version then Upgraded else NotUpgraded;
                }
            }
        }
      case DeploymentType =>
        match Fetch(server.cluster.deployments, component.name, GetDeployment(component.name) in server.faults) {
          case GetFailed => return Broken;
          case NotFound => return Missing;
          case Found(deployment) =>
            if !Available(deployment) {
              return NotUpgraded;
            }
            var wanted := Containers.ConvertContainerSliceToMap(component.containers);
            var found := Containers.ContainsContainerImages(deployment.containers, wanted, false);
            return if found then Upgraded else NotUpgraded;
        }
      case UnsupportedType =>
        return Broken;
    }
  }
}
