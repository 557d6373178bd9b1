/** Builders of System Upgrade Controller plans: they fill a plan in place and write into the caller's labels. */
module Builders {
  import opened Prelude
  import opened Api
  import opened Names
  import opened Nodes
  import opened Client

  method BaseUpgradePlan(name: string, drain: bool, labels: StringMap) returns (plan: SucPlanObject)
    ensures fresh(plan) && plan.name == name && plan.labels == labels
    ensures plan.Value() == SucPlan(labels.m, [], "", drain, None, None, [])
  {
    plan := new SucPlanObject(name, labels);
    if drain {
      plan.drain := true;
    }
  }

  method BaseOSPlan(name: string, releaseVersion: string, secretName: string, drain: bool, labels: StringMap)
    returns (plan: SucPlanObject)
    ensures fresh(plan) && plan.name == name && plan.labels == labels
    ensures plan.Value() == SucPlan(labels.m, [], releaseVersion, drain, Some(secretName), None, [])
  {
    plan := BaseUpgradePlan(name, drain, labels);
    plan.secret := Some(secretName);
    plan.version := releaseVersion;
  }

  method OSControlPlanePlan(nameSuffix: string, releaseVersion: string, secretName: string, os: OperatingSystem,
                            drain: bool, labels: StringMap)
    returns (plan: SucPlanObject)
    modifies labels
    ensures labels.m == old(labels.m)[OsUpgradeLabel := "control-plane"]
    ensures fresh(plan) && plan.labels == labels
    ensures plan.name == OsPlanName(ControlPlaneKey, os.zypperID, os.version, nameSuffix)
    ensures plan.Value() == SucPlan(labels.m, ControlPlaneSelector, releaseVersion, drain, Some(secretName), None, [])
  {
    var name := OsPlanName(ControlPlaneKey, os.zypperID, os.version, nameSuffix);
    labels.m := labels.m[OsUpgradeLabel := "control-plane"];
    plan := BaseOSPlan(name, releaseVersion, secretName, drain, labels);
    plan.selector := [Requirement(ControlPlaneLabel, In, ["true"])];
  }

  method OSWorkerPlan(nameSuffix: string, releaseVersion: string, secretName: string, os: OperatingSystem,
                      drain: bool, labels: StringMap)
    returns (plan: SucPlanObject)
    modifies labels
    ensures labels.m == old(labels.m)[OsUpgradeLabel := "worker"]
    ensures fresh(plan) && plan.labels == labels
    ensures plan.name == OsPlanName(WorkersKey, os.zypperID, os.version, nameSuffix)
    ensures plan.Value() == SucPlan(labels.m, WorkerSelector, releaseVersion, drain, Some(secretName), None, [])
  {
    var name := OsPlanName(WorkersKey, os.zypperID, os.version, nameSuffix);
    labels.m := labels.m[OsUpgradeLabel := "worker"];
    plan := BaseOSPlan(name, releaseVersion, secretName, drain, labels);
    plan.selector := [Requirement(ControlPlaneLabel, NotIn, ["true"])];
  }

  method KubernetesControlPlanePlan(nameSuffix: string, version: string, drain: bool, labels: StringMap)
    returns (plan: SucPlanObject)
    modifies labels
    ensures labels.m == old(labels.m)[KubernetesUpgradeLabel := "control-plane"]
    ensures fresh(plan) && plan.labels == labels
    ensures plan.name == KubernetesPlanName(ControlPlaneKey, version, nameSuffix)
    ensures plan.Value() == SucPlan(labels.m, ControlPlaneSelector, version, drain, None, None, [])
  {
    var name := KubernetesPlanName(ControlPlaneKey, version, nameSuffix);
    labels.m := labels.m[KubernetesUpgradeLabel := "control-plane"];
    plan := BaseUpgradePlan(name, drain, labels);
    plan.selector := [Requirement(ControlPlaneLabel, In, ["true"])];
    plan.version := version;
  }

  method KubernetesWorkerPlan(nameSuffix: string, version: string, drain: bool, labels: StringMap)
    returns (plan: SucPlanObject)
    modifies labels
    ensures labels.m == old(labels.m)[KubernetesUpgradeLabel := "worker"]
    ensures fresh(plan) && plan.labels == labels
    ensures plan.name == KubernetesPlanName(WorkersKey, version, nameSuffix)
    ensures plan.Value() == SucPlan(labels.m, WorkerSelector, version, drain, None,
                                    Some(KubernetesPlanName(ControlPlaneKey, version, nameSuffix)), [])
  {
    var controlPlanePlanName := KubernetesPlanName(ControlPlaneKey, version, nameSuffix);
    var workerPlanName := KubernetesPlanName(WorkersKey, version, nameSuffix);
    labels.m := labels.m[KubernetesUpgradeLabel := "worker"];
    plan := BaseUpgradePlan(workerPlanName, drain, labels);
    plan.selector := [Requirement(ControlPlaneLabel, NotIn, ["true"])];
    plan.prepareAfter := Some(controlPlanePlanName);
    plan.version := version;
  }
}
