/** What the plans created for the System Upgrade Controller hold, and how names and labels read in full. */
module PlanContents {
  import opened Prelude
  import opened Api
  import opened Names
  import opened Nodes
  import opened Pass
  import opened PassStages
  import opened PassGuarantees

  // ---- created plans ----

  function RoleLabel(p: SucPlan): string {
    if p.selector == ControlPlaneSelector then "control-plane" else "worker"
  }

  /** Both roles are drained as the node list and the user's switches for just that role say. */
  lemma RolloutDrains(plan: Plan, release: Release, d: Distribution, nodes: seq<Node>)
    ensures var cp, w, off := |ControlPlanePlaces(nodes)|, |WorkerPlaces(nodes)|, plan.spec.disableDrain;
      && (OsRollout(plan, release, nodes).controlPlane.drain <==>
            !(off.Some? && off.value.controlPlane) && (cp > 1 || (cp == 0 && w > 1)))
      && (OsRollout(plan, release, nodes).worker.drain <==> !(off.Some? && off.value.worker) && w > 1)
      && (KubernetesRollout(plan, d, nodes).controlPlane.drain <==>
            !(off.Some? && off.value.controlPlane) && (cp > 1 || (cp == 0 && w > 1)))
      && (KubernetesRollout(plan, d, nodes).worker.drain <==> !(off.Some? && off.value.worker) && w > 1)
  {
    DrainOptionsMean(nodes, plan.spec.disableDrain);
  }

  /**
   * What a new plan of the OS stage holds: the release as its version, the secret of the generation, its role's drain.
   */
  lemma NewOsPlanHolds(plan: Plan, c: Cluster, env: Env, n: string)
    requires StoredSelectors(plan, c) && NewPlan(c, NormalPass(plan, c, env).cluster, n) &&
      StageOf(plan, c, env).OsStage?
    ensures Manifest(plan, c).Some?
    ensures var p, release := NormalPass(plan, c, env).cluster.sucPlans[n], Manifest(plan, c).value;
      && p.version == plan.spec.releaseVersion && p.prepareAfter == None && p.applying == []
      && p.secret == Some(OsSecretName(release.os.zypperID, release.os.version, plan.status.sucNameSuffix))
      && p.labels == OwnerLabels(plan)["os-upgrade" := RoleLabel(p)]
    ensures RoleDrained(plan, c.nodes, NormalPass(plan, c, env).cluster.sucPlans[n])
  {
    NewPlanComesFromRollout(plan, c, env, n);
    ManifestHasVersion(c.manifests, plan.spec.releaseVersion);
    RolloutDrains(plan, Manifest(plan, c).value, Distribution("", []), c.nodes);
    assert ControlPlaneSelector[0].operator != WorkerSelector[0].operator;
  }

  /**
   * A new plan of the Kubernetes stage: the distribution's version; workers wait for the control-plane plan of that
   * name.
   */
  lemma NewKubernetesPlanHolds(plan: Plan, c: Cluster, env: Env, n: string)
    requires StoredSelectors(plan, c) && NewPlan(c, NormalPass(plan, c, env).cluster, n)
    requires StageOf(plan, c, env).KubernetesStage?
    ensures Manifest(plan, c).Some? && TargetDistribution(c.nodes, Manifest(plan, c).value.kubernetes).Some?
    ensures var p := NormalPass(plan, c, env).cluster.sucPlans[n];
      var d := TargetDistribution(c.nodes, Manifest(plan, c).value.kubernetes).value;
      && p.version == d.version && p.secret == None && p.applying == []
      && p.prepareAfter == (if p.selector == ControlPlaneSelector then None
                            else Some(KubernetesPlanName(ControlPlaneKey, d.version, plan.status.sucNameSuffix)))
      && p.labels == OwnerLabels(plan)["k8s-upgrade" := RoleLabel(p)]
    ensures RoleDrained(plan, c.nodes, NormalPass(plan, c, env).cluster.sucPlans[n])
  {
    NewPlanComesFromRollout(plan, c, env, n);
    var release := Manifest(plan, c).value;
    RolloutDrains(plan, release, TargetDistribution(c.nodes, release.kubernetes).value, c.nodes);
    assert ControlPlaneSelector[0].operator != WorkerSelector[0].operator;
  }

  /** The plan selects one of the two roles, and is drained as the nodes and the user's switch for that role say. */
  predicate RoleDrained(plan: Plan, nodes: seq<Node>, p: SucPlan) {
    var cp, w, off := |ControlPlanePlaces(nodes)|, |WorkerPlaces(nodes)|, plan.spec.disableDrain;
    || (p.selector == ControlPlaneSelector &&
        (p.drain <==> !(off.Some? && off.value.controlPlane) && (cp > 1 || (cp == 0 && w > 1))))
    || (p.selector == WorkerSelector && (p.drain <==> !(off.Some? && off.value.worker) && w > 1))
  }

  // ---- names and labels in full ----

  /** Lower case changes capital letters only; dashes take the place of dots, and for Kubernetes of plus signs too. */
  lemma StemsMean(name: string, version: string, i: nat)
    ensures i < |name| ==> Lower(name)[i] == if 'A' <= name[i] <= 'Z' then (name[i] as int + 32) as char else name[i]
    ensures i < |version| ==> Dashed(version, ".")[i] == if version[i] == '.' then '-' else version[i]
    ensures i < |version| ==> KubernetesStem(version)[i] == if version[i] == '.' ||
      version[i] == '+' then '-' else version[i]
  {
  }

  /** The character is a lower-case hexadecimal digit of this value. */
  predicate HexOf(c: char, value: int) {
    if '0' <= c <= '9' then value == c as int - '0' as int else 'a' <= c <= 'f' && value == c as int - 'a' as int + 10
  }

  lemma DigitOf(n: int)
    requires 0 <= n < 16
    ensures HexOf(HexDigit(n), n)
  {
  }

  lemma HexSplits(bytes: seq<byte>)
    requires bytes != []
    ensures HexEncode(bytes)[..2] == [HexDigit(bytes[0] as int / 16), HexDigit(bytes[0] as int % 16)]
    ensures HexEncode(bytes)[2..] == HexEncode(bytes[1..]) && |HexEncode(bytes)| == 2 * |bytes|
  {
    HexLength(bytes);
  }

  /** Two hexadecimal digits for each byte, the higher one first. */
  lemma {:induction false} HexAt(bytes: seq<byte>, i: nat)
    requires i < |bytes|
    ensures |HexEncode(bytes)| == 2 * |bytes|
    ensures HexOf(HexEncode(bytes)[2 * i], bytes[i] as int / 16) &&
      HexOf(HexEncode(bytes)[2 * i + 1], bytes[i] as int % 16)
  {
    HexSplits(bytes);
    var text := HexEncode(bytes);
    if i == 0 {
      DigitOf(bytes[0] as int / 16);
      DigitOf(bytes[0] as int % 16);
      assert text[0] == text[..2][0] && text[1] == text[..2][1];
    } else {
      HexAt(bytes[1..], i - 1);
      assert text[2 * i] == text[2..][2 * (i - 1)] && text[2 * i + 1] == text[2..][2 * (i - 1) + 1];
    }
  }

  /** Names as they read in full. */
  lemma OsNamesReadAs()
    ensures OsPlanName(ControlPlaneKey, "SL-Micro", "6.0", "abcdef") == "control-plane-sl-micro-6-0-abcdef"
    ensures OsPlanName(WorkersKey, "SL-Micro", "6.0", "abcdef") == "workers-sl-micro-6-0-abcdef"
    ensures OsSecretName("SL-Micro", "6.0", "abcdef") == "os-upgrade-secret-sl-micro-6-0-abcdef"
  {
    assert Lower("SL-Micro") == "sl-micro" && Dashed("6.0", ".") == "6-0";
    assert OsStem("SL-Micro", "6.0") == "sl-micro-6-0";
  }

  lemma KubernetesNamesReadAs(suffix: string)
    ensures KubernetesPlanName(ControlPlaneKey, "v1.30.2+rke2r1", suffix) == "control-plane-v1-30-2-rke2r1-" + suffix
    ensures KubernetesPlanName(WorkersKey, "v1.30.2+rke2r1", suffix) == "workers-v1-30-2-rke2r1-" + suffix
  {
    assert KubernetesStem("v1.30.2+rke2r1") == "v1-30-2-rke2r1";
  }

  lemma ManifestJobReadsAs()
    ensures ManifestJobName("3.1.0") == "apply-release-manifest-3-1-0"
    ensures ManifestJobName("v3.1.0") == ManifestJobName("3.1.0")
  {
    assert TrimV("3.1.0") == "3.1.0" && TrimV("v3.1.0") == "3.1.0";
    assert Dashed("3.1.0", ".") == "3-1-0";
  }

  /** Owner labels and the conditions a component can be in, in full. */
  lemma LabelsAndConditionsReadAs(plan: Plan)
    ensures OwnerLabels(plan) == map[
      "lifecycle.suse.com/upgrade-plan-name" := plan.name,
      "lifecycle.suse.com/upgrade-plan-namespace" := plan.namespace]
    ensures PendingCondition == Condition(Unknown, Pending) && ErrorCondition == Condition(Unknown, Error)
    ensures InProgressCondition == Condition(False, InProgress) && SuccessfulCondition == Condition(True, Succeeded)
    ensures FailedCondition == Condition(False, Failed) && SkippedCondition == Condition(False, Skipped)
    ensures OsUpgraded == "OSUpgraded" && KubernetesUpgraded == "KubernetesUpgraded" &&
      ValidationFailed == "ValidationFailed"
    ensures GetChartConditionType("Rancher") == "RancherUpgraded"
  {
  }
}
