/** The reconciler: `Reconcile`, `reconcileNormal` and `reconcileDelete` over the objects in memory. */
module Controller {
  import opened Prelude
  import opened Api
  import opened Names
  import opened Nodes
  import opened Pass
  import opened Webhook
  import opened Reconcile
  import opened Client
  import NodeStages
  import ChartStages

  class UpgradePlanReconciler {
    const parse: Parser

    constructor (parse: Parser)
      ensures this.parse == parse
    {
      this.parse := parse;
    }

    method RetrieveReleaseManifest(server: Server, version: string) returns (r: Option<Release>)
      ensures r == FindManifest(server.cluster.manifests, version)
    {
      var manifests := server.cluster.manifests;
      for i := 0 to |manifests|
        invariant FindManifest(manifests, version) == FindManifest(manifests[i..], version)
      {
        assert manifests[i..][1..] == manifests[i + 1..];
        if manifests[i].releaseVersion == version {
          return Some(manifests[i]);
        }
      }
      return None;
    }

    method CreateReleaseManifest(server: Server, plan: UpgradePlan) returns (o: Outcome)
      modifies server`cluster
      ensures Pass(plan.CurrentStatus(), server.cluster, o) ==
              ManifestJobPass(plan.Value(), old(server.cluster), server.faults)
    {
      var labels := new StringMap(OwnerLabels(plan.Value()));
      if TrimV(plan.spec.releaseVersion) == "" {
        return Aborted;
      }
      var ok := server.CreateManifestJob(ManifestJobName(plan.spec.releaseVersion), labels);
      return if ok then Done else Aborted;
    }

    /** The status reset that opens a new generation. */
    method ObserveGeneration(plan: UpgradePlan, release: Release, random: Option<Draw>, ghost c: Cluster)
      returns (o: Outcome)
      modifies plan`conditions, plan`observedGeneration, plan`sucNameSuffix
      ensures plan.Value() == old(plan.Value()).(status := plan.CurrentStatus())
      ensures Pass(plan.CurrentStatus(), c, o) == ObservePass(old(plan.Value()), release, c, random)
    {
      var suffix := GenerateSuffix(random);
      if suffix.None? {
        return Aborted;
      }
      if suffix.value == plan.sucNameSuffix {
        return Requeue;
      }
      plan.sucNameSuffix := suffix.value;
      plan.observedGeneration := plan.generation;
      plan.SetCondition(OsUpgraded, PendingCondition);
      plan.SetCondition(KubernetesUpgraded, PendingCondition);
      ghost var reset := plan.CurrentStatus();
      for i := 0 to |release.charts|
        invariant plan.Value() == old(plan.Value()).(status := plan.CurrentStatus())
        invariant plan.CurrentStatus() == SetAllPending(reset, release.charts[..i])
      {
        assert release.charts[..i + 1][..i] == release.charts[..i];
        plan.SetCondition(GetChartConditionType(release.charts[i].prettyName), PendingCondition);
      }
      assert release.charts[..|release.charts|] == release.charts;
      return Requeue;
    }

    /** The stage switch and the chart loop. */
    method ReconcileStages(server: Server, plan: UpgradePlan, release: Release, nodeList: seq<Node>)
      returns (o: Outcome)
      requires nodeList == server.cluster.nodes
      modifies server`cluster, plan
      ensures plan.Value() == old(plan.Value()).(status := plan.CurrentStatus())
      ensures Pass(plan.CurrentStatus(), server.cluster, o) ==
              StagePass(old(plan.Value()), release, old(server.cluster), server.faults)
    {
      if !IsTrue(plan.CurrentStatus(), OsUpgraded) {
        o := NodeStages.ReconcileOS(server, plan, release, nodeList);
        return;
      } else if !IsTrue(plan.CurrentStatus(), KubernetesUpgraded) {
        o := NodeStages.ReconcileKubernetes(server, plan, release, nodeList);
        return;
      }
      for i := 0 to |release.charts|
        invariant plan.Value() == old(plan.Value()) && server.cluster == old(server.cluster)
        invariant FirstUnfinished(release.charts, plan.CurrentStatus()) ==
                  i + FirstUnfinished(release.charts[i..], plan.CurrentStatus())
      {
        assert release.charts[i..][1..] == release.charts[i + 1..];
        if !ChartFinished(plan.CurrentStatus(), GetChartConditionType(release.charts[i].prettyName)) {
          o := ChartStages.ReconcileHelmChart(server, plan, release.charts[i]);
          return;
        }
      }
      plan.lastSuccessfulReleaseVersion := release.releaseVersion;
      return Done;
    }

    method ReconcileNormal(server: Server, plan: UpgradePlan, random: Option<Draw>) returns (o: Outcome)
      modifies server`cluster, plan
      ensures plan.Value() == old(plan.Value()).(status := plan.CurrentStatus())
      ensures Pass(plan.CurrentStatus(), server.cluster, o) ==
              NormalPass(old(plan.Value()), old(server.cluster), Env(server.faults, random))
    {
      if ListManifests in server.faults {
        return Aborted;
      }
      var found := RetrieveReleaseManifest(server, plan.spec.releaseVersion);
      if found.None? {
        o := CreateReleaseManifest(server, plan);
        return;
      }
      var release := found.value;
      if ListNodes in server.faults {
        return Aborted;
      }
      var nodeList := server.cluster.nodes;
      var supportedArchitectures := SupportedArchitectures(release.os.supportedArchs);
      var unsupportedNodes := FindUnsupportedNodes(nodeList, supportedArchitectures);
      if |unsupportedNodes| > 0 {
        plan.SetCondition(ValidationFailed, Condition(True, UnsupportedArchitecture));
        return Done;
      }
      if plan.observedGeneration != plan.generation {
        o := ObserveGeneration(plan, release, random, server.cluster);
        return;
      }
      o := ReconcileStages(server, plan, release, nodeList);
    }

    /** The plan loop of `reconcileDelete`. */
    method DeleteSucPlans(server: Server, plan: UpgradePlan) returns (v: DeleteVerdict)
      modifies server`cluster
      ensures OnlyOwnedIdleRemoved(plan.Value(), old(server.cluster), server.cluster)
      ensures server.cluster.secrets == old(server.cluster.secrets)
      ensures v.Deleted? ==> NoOwnedPlan(plan.Value(), server.cluster)
      ensures v.Blocked? ==> SomeOwnedPlanApplies(plan.Value(), server.cluster)
      ensures v.DeleteAborted? ==> exists call :: call in server.faults && (call.ListSucPlans? || call.DeleteSucPlan?)
    {
      ghost var c := server.cluster;
      if ListSucPlans in server.faults {
        return DeleteAborted;
      }
      var labelled := map n | n in server.cluster.sucPlans :: server.cluster.sucPlans[n].labels;
      var items := server.ListOwned(labelled, plan.Value());
      assert forall n :: n in items <==> n in c.sucPlans && OwnedBy(c.sucPlans[n].labels, plan.Value());
      assert forall j | 0 <= j < |items| :: items[j] in items;
      for i := 0 to |items|
        invariant server.cluster.secrets == c.secrets && OnlyOwnedIdleRemoved(plan.Value(), c, server.cluster)
        invariant forall j | 0 <= j < i :: items[j] !in server.cluster.sucPlans
        invariant forall j | i <= j < |items| :: items[j] in server.cluster.sucPlans
      {
        assert items[i] in items;
        if server.cluster.sucPlans[items[i]].applying != [] {
          return Blocked;
        }
        IdlePlanRemoved(plan.Value(), c, server.cluster, items[i]);
        var ok := server.DeleteSucPlan(items[i]);
        if !ok {
          return DeleteAborted;
        }
      }
      return Deleted;
    }

    /** The secret loop of `reconcileDelete`. */
    method DeleteSecrets(server: Server, plan: UpgradePlan) returns (v: DeleteVerdict)
      requires NoOwnedPlan(plan.Value(), server.cluster)
      modifies server`cluster
      ensures OnlyOwnedIdleRemoved(plan.Value(), old(server.cluster), server.cluster)
      ensures server.cluster.sucPlans == old(server.cluster.sucPlans)
      ensures !v.Blocked? && (v.Deleted? ==> NoOwnedSecret(plan.Value(), server.cluster))
      ensures v.DeleteAborted? ==> exists call :: call in server.faults && (call.ListSecrets? || call.DeleteSecret?)
    {
      ghost var c := server.cluster;
      if ListSecrets in server.faults {
        return DeleteAborted;
      }
      var items := server.ListOwned(server.cluster.secrets, plan.Value());
      for i := 0 to |items|
        invariant server.cluster.sucPlans == c.sucPlans && OnlyOwnedIdleRemoved(plan.Value(), c, server.cluster)
        invariant forall j | 0 <= j < i :: items[j] !in server.cluster.secrets
      {
        assert items[i] in items;
        var ok := server.DeleteSecret(items[i]);
        if !ok {
          return DeleteAborted;
        }
      }
      return Deleted;
    }

    method ReconcileDelete(server: Server, plan: UpgradePlan) returns (v: DeleteVerdict)
      modifies server`cluster
      ensures DeletePass(plan.Value(), old(server.cluster), server.faults, server.cluster, v)
    {
      v := DeleteSucPlans(server, plan);
      if !v.Deleted? {
        return;
      }
      v := DeleteSecrets(server, plan);
    }

    /** A deleting plan that still has the finalizer. */
    method FinishDeleting(server: Server, plan: UpgradePlan) returns (o: Outcome)
      requires server.plan == Some(plan.Value()) && plan.deleting && UpgradePlanFinalizer in plan.finalizers
      modifies server`cluster, server`plan, plan`finalizers
      ensures DeletingStep(parse, old(plan.Value()), old(server.cluster), server.faults, server.Stored(), o)
    {
      ghost var was, c := plan.Value(), server.cluster;
      var v := ReconcileDelete(server, plan);
      if v.Blocked? {
        o := Done;
      } else if v.DeleteAborted? {
        o := Aborted;
      } else {
        plan.finalizers := Without(plan.finalizers, UpgradePlanFinalizer);
        assert plan.Value() == WithoutFinalizer(was);
        var ok := server.UpdatePlan(parse, plan);
        o := if ok then Done else Aborted;
      }
      assert DeletePass(was, c, server.faults, server.cluster, v);
      assert DeletingVerdict(parse, was, server.faults, v, server.plan, o);
    }

    /** `Reconcile`: exactly the relation `ReconcileStep` between the stores before and after. */
    method Reconcile(server: Server, random: Option<Draw>) returns (o: Outcome)
      modifies server`cluster, server`plan
      ensures ReconcileStep(parse, old(server.Stored()), Env(server.faults, random), server.Stored(), o)
    {
      if GetPlan in server.faults {
        return Aborted;
      }
      if server.plan.None? {
        return Done;
      }
      var plan := new UpgradePlan(server.plan.value);
      if plan.deleting {
        if UpgradePlanFinalizer !in plan.finalizers {
          return Done;
        }
        o := FinishDeleting(server, plan);
        return;
      }
      if UpgradePlanFinalizer !in plan.finalizers {
        plan.finalizers := plan.finalizers + [UpgradePlanFinalizer];
        var ok := server.UpdatePlan(parse, plan);
        return if ok then Requeue else Aborted;
      }
      o := ReconcileNormal(server, plan, random);
      var ok := server.UpdateStatus(plan);
      if !ok {
        o := Aborted;
      }
    }
  }
}
