/** What a node stage and a chart entry may do in one pass: the basis of the properties of passes and runs. */
module Stages {
  import opened Prelude
  import opened Api
  import opened Nodes
  import opened Pass

  // ---- node stages ----

  /** The stored plans of a stage select what the controller built them to select. */
  ghost predicate StageSelectors(r: Rollout, c: Cluster) {
    && (r.controlPlaneName in c.sucPlans ==> c.sucPlans[r.controlPlaneName].selector == ControlPlaneSelector)
    && (r.workerName in c.sucPlans ==> c.sucPlans[r.workerName].selector == WorkerSelector)
  }

  /** The control plane has a node and all of it is at the target. */
  ghost predicate ControlPlaneUp(r: Rollout, c: Cluster) {
    && Matching(c.nodes, ControlPlaneSelector) != []
    && AllUpgraded(Matching(c.nodes, ControlPlaneSelector), r.target)
  }

  /** Every listed node, control plane included, is at the target and no core component holds the stage back. */
  ghost predicate StageDone(r: Rollout, c: Cluster, faults: set<ApiCall>) {
    && ControlPlaneUp(r, c)
    && AllUpgraded(c.nodes, r.target)
    && (r.gate.Some? ==> Scan(r.gate.value, c, faults) == AllUp)
  }

  /** A pass of a node stage leaves the cluster alone, starts the control plane, or starts the workers behind it. */
  ghost predicate RolloutWrite(r: Rollout, c: Cluster, c': Cluster) {
    || c' == c
    || (r.controlPlaneName !in c.sucPlans && c' == c.(sucPlans := c.sucPlans[r.controlPlaneName := r.controlPlane]))
    || (r.controlPlaneName in c.sucPlans && r.workerName !in c.sucPlans
        && ControlPlaneUp(r, c) && !ControlPlaneOnly(c.nodes)
        && c' == c.(sucPlans := c.sucPlans[r.workerName := r.worker]))
  }

  ghost predicate RolloutStatus(r: Rollout, st: Status, c: Cluster, faults: set<ApiCall>, st': Status) {
    || st' == st
    || st' == Set(st, r.conditionType, InProgressCondition)
    || (st' == Set(st, r.conditionType, SuccessfulCondition) && StageDone(r, c, faults))
  }

  lemma ControlPlanePicked(nodes: seq<Node>)
    ensures ValidSelector(ControlPlaneSelector) && ValidSelector(WorkerSelector)
    ensures Selected(nodes, ControlPlaneSelector).Some? <==> Matching(nodes, ControlPlaneSelector) != []
  {
  }

  lemma FinishedStatus(r: Rollout, st: Status, c: Cluster, faults: set<ApiCall>)
    requires ControlPlaneUp(r, c) && AllUpgraded(c.nodes, r.target)
    ensures var p := Finished(r, st, c, faults); p.cluster == c && RolloutStatus(r, st, c, faults, p.status)
  {
  }

  lemma WorkerPassEffect(r: Rollout, st: Status, c: Cluster, faults: set<ApiCall>)
    requires StageSelectors(r, c) && ControlPlaneUp(r, c) && !ControlPlaneOnly(c.nodes) &&
      r.controlPlaneName in c.sucPlans
    ensures var p := WorkerPass(r, st, c, faults);
            RolloutWrite(r, c, p.cluster) && RolloutStatus(r, st, c, faults, p.status)
  {
    if r.workerName in c.sucPlans && GetSucPlan(r.workerName) !in faults {
      ControlPlanePicked(c.nodes);
      if AllUpgraded(Matching(c.nodes, WorkerSelector), r.target) {
        HalvesMakeAll(c.nodes, r.target);
        FinishedStatus(r, st, c, faults);
      }
    }
  }

  /** What one pass of a node stage may write and how it may change the status. */
  lemma RolloutEffect(r: Rollout, st: Status, c: Cluster, faults: set<ApiCall>)
    requires StageSelectors(r, c)
    ensures var p := RolloutPass(r, st, c, faults);
            RolloutWrite(r, c, p.cluster) && RolloutStatus(r, st, c, faults, p.status)
  {
    if r.controlPlaneName in c.sucPlans && GetSucPlan(r.controlPlaneName) !in faults {
      ControlPlanePicked(c.nodes);
      var picked := Matching(c.nodes, ControlPlaneSelector);
      if picked != [] && AllUpgraded(picked, r.target) {
        if ControlPlaneOnly(c.nodes) {
          HalvesMakeAll(c.nodes, r.target);
          FinishedStatus(r, st, c, faults);
        } else {
          WorkerPassEffect(r, st, c, faults);
        }
      }
    }
  }

  /** Past the control-plane-only check, an error-free worker half never fails for want of a worker. */
  lemma WorkerSelectionNeverFails(r: Rollout, st: Status, c: Cluster)
    requires StageSelectors(r, c) && !ControlPlaneOnly(c.nodes) &&
      (r.gate.Some? ==> !Scan(r.gate.value, c, {}).ScanFailed?)
    ensures WorkerPass(r, st, c, {}).outcome != Aborted
  {
    WorkersExist(c.nodes);
  }

  // ---- core components ----

  predicate Settled(component: CoreComponent, c: Cluster, faults: set<ApiCall>) {
    StatusOf(component, c, faults).Missing? || StatusOf(component, c, faults).Upgraded?
  }

  /** The scan passes exactly when every component is absent or upgraded; otherwise the first that is not decides. */
  lemma {:induction false} ScanIsExact(components: seq<CoreComponent>, c: Cluster, faults: set<ApiCall>)
    ensures Scan(components, c, faults) == AllUp <==> forall x | x in components :: Settled(x, c, faults)
    ensures Scan(components, c, faults) != AllUp ==>
      exists i :: 0 <= i < |components| && (forall j | 0 <= j < i :: Settled(components[j], c, faults)) &&
        match StatusOf(components[i], c, faults)
        case Broken => Scan(components, c, faults) == ScanFailed
        case NotUpgraded => Scan(components, c, faults) == WaitingFor(components[i].name)
        case _ => false
  {
    if components != [] && Settled(components[0], c, faults) {
      ScanIsExact(components[1..], c, faults);
      assert components == [components[0]] + components[1..];
      if Scan(components[1..], c, faults) != AllUp {
        var i :| 0 <= i < |components[1..]| && (forall j | 0 <= j < i :: Settled(components[1..][j], c, faults)) &&
          match StatusOf(components[1..][i], c, faults)
          case Broken => Scan(components[1..], c, faults) == ScanFailed
          case NotUpgraded => Scan(components[1..], c, faults) == WaitingFor(components[1..][i].name)
          case _ => false;
        forall j | 0 <= j < i + 1 ensures Settled(components[j], c, faults) {
          if j > 0 { assert components[j] == components[1..][j - 1]; }
        }
        assert components[i + 1] == components[1..][i];
      }
    } else if components != [] {
      assert components[0] in components && !Settled(components[0], c, faults);
    }
  }

  // ---- chart entries ----

  /** Dependencies, then the core chart, then the add-ons. */
  function Positions(entry: ReleaseChart): seq<ReleaseChart> {
    entry.dependencyCharts + [entry] + entry.addonCharts
  }

  function StateAt(plan: Plan, rc: ReleaseChart, c: Cluster, faults: set<ApiCall>): Option<ChartState> {
    UpgradeChart(plan, rc, c, faults).state
  }

  /** A dependency or the core chart lets the walk go on when ready, an add-on unless it is running or unknown. */
  predicate LetsPass(plan: Plan, entry: ReleaseChart, k: nat, c: Cluster, faults: set<ApiCall>)
    requires k < |Positions(entry)|
  {
    var s := StateAt(plan, Positions(entry)[k], c, faults);
    s.Some? && if k <= |entry.dependencyCharts| then Ready(s.value) else s.value !in {ChartInProgress, UnknownState}
  }

  /** The walk reaches position `k` in this pass. */
  predicate Reaches(plan: Plan, entry: ReleaseChart, k: nat, c: Cluster, faults: set<ApiCall>)
    requires k <= |Positions(entry)|
  {
    forall j | 0 <= j < k :: LetsPass(plan, entry, j, c, faults)
  }

  /** A chart as this plan writes it: at the wanted version, marked with the release and the owner. */
  ghost predicate WrittenFor(chart: ChartResource, plan: Plan, rc: ReleaseChart) {
    chart.version == rc.version && Annotation(chart) == plan.spec.releaseVersion && OwnedBy(chart.labels, plan)
  }

  lemma ChartsWrittenFor(plan: Plan, rc: ReleaseChart, installed: HelmRelease, chart: ChartResource)
    ensures NewChart(plan, rc, installed).Some? ==> WrittenFor(NewChart(plan, rc, installed).value, plan, rc)
    ensures UpdatedChart(plan, rc, chart).Some? ==> WrittenFor(UpdatedChart(plan, rc, chart).value, plan, rc)
  {
  }

  /** Either nothing is written, or the chart named after an installed release is brought to the wanted version. */
  ghost predicate ChartWrite(plan: Plan, rc: ReleaseChart, c: Cluster, step: ChartStep) {
    var name := rc.releaseName;
    step.cluster == c ||
    (&& step.state == Some(ChartInProgress)
     && name in c.releases && (name !in c.charts || c.charts[name].version != rc.version)
     && name in step.cluster.charts && WrittenFor(step.cluster.charts[name], plan, rc)
     && step.cluster == c.(charts := c.charts[name := step.cluster.charts[name]]))
  }

  lemma WriteChartEffect(plan: Plan, rc: ReleaseChart, c: Cluster, chart: Option<ChartResource>, call: ApiCall,
      faults: set<ApiCall>)
    requires var name := rc.releaseName;
      name in c.releases && (name !in c.charts || c.charts[name].version != rc.version)
    requires chart.Some? ==> WrittenFor(chart.value, plan, rc)
    ensures ChartWrite(plan, rc, c, WriteChart(c, rc.releaseName, chart, call, faults))
  {
  }

  lemma UpgradeChartEffect(plan: Plan, rc: ReleaseChart, c: Cluster, faults: set<ApiCall>)
    ensures ChartWrite(plan, rc, c, UpgradeChart(plan, rc, c, faults))
  {
    var name := rc.releaseName;
    if name in c.releases {
      if name in c.charts {
        ChartsWrittenFor(plan, rc, c.releases[name], c.charts[name]);
        if c.charts[name].version != rc.version {
          WriteChartEffect(plan, rc, c, UpdatedChart(plan, rc, c.charts[name]), UpdateChart(name), faults);
        }
      } else {
        var installed := c.releases[name];
        var created := NewChart(plan, rc, installed);
        assert created.Some? ==> WrittenFor(created.value, plan, rc);
        WriteChartEffect(plan, rc, c, created, CreateChart(name), faults);
      }
    }
  }

  /** Where a walk over dependencies ends: everywhere before it the charts are ready and nothing is written. */
  lemma {:induction false} DependencyWalk(plan: Plan, deps: seq<ReleaseChart>, c: Cluster, faults: set<ApiCall>)
    returns (k: nat)
    ensures k <= |deps|
    ensures forall j | 0 <= j < k :: var s := StateAt(plan, deps[j], c, faults); s.Some? && Ready(s.value)
    ensures var w := WalkDependencies(plan, deps, c, faults);
      if k == |deps| then w == Walked(c)
      else var step := UpgradeChart(plan, deps[k], c, faults);
           (step.state.None? && w == WalkFailed(step.cluster)) ||
           (step.state.Some? && !Ready(step.state.value) && w == StoppedAt(step.state.value, step.cluster))
  {
    k := 0;
    if deps != [] {
      UpgradeChartEffect(plan, deps[0], c, faults);
      var s := StateAt(plan, deps[0], c, faults);
      if s.Some? && Ready(s.value) {
        var k' := DependencyWalk(plan, deps[1..], c, faults);
        k := k' + 1;
        forall j | 0 <= j < k
          ensures StateAt(plan, deps[j], c, faults).Some? && Ready(StateAt(plan, deps[j], c, faults).value)
        {
          if j > 0 { assert deps[j] == deps[1..][j - 1]; }
        }
        if k < |deps| { assert deps[k] == deps[1..][k']; }
      }
    }
  }

  /** The same for add-ons, which go on past failed and missing charts. */
  lemma {:induction false} AddonWalk(plan: Plan, addons: seq<ReleaseChart>, c: Cluster, faults: set<ApiCall>)
    returns (k: nat)
    ensures k <= |addons|
    ensures forall j | 0 <= j < k ::
      var s := StateAt(plan, addons[j], c, faults); s.Some? && s.value !in {ChartInProgress, UnknownState}
    ensures var w := WalkAddons(plan, addons, c, faults);
      if k == |addons| then w == Walked(c)
      else var step := UpgradeChart(plan, addons[k], c, faults);
           (step.state.None? && w == WalkFailed(step.cluster)) ||
           (step.state.Some? && step.state.value in {ChartInProgress, UnknownState} &&
           w == StoppedAt(step.state.value, step.cluster))
  {
    k := 0;
    if addons != [] {
      UpgradeChartEffect(plan, addons[0], c, faults);
      var s := StateAt(plan, addons[0], c, faults);
      if s.Some? && s.value !in {ChartInProgress, UnknownState} {
        var k' := AddonWalk(plan, addons[1..], c, faults);
        k := k' + 1;
        forall j | 0 <= j < k ensures StateAt(plan, addons[j], c, faults).Some? &&
          StateAt(plan, addons[j], c, faults).value !in {ChartInProgress, UnknownState}
        {
          if j > 0 { assert addons[j] == addons[1..][j - 1]; }
        }
        if k < |addons| { assert addons[k] == addons[1..][k']; }
      }
    }
  }

  /** The condition of an entry after the walk ended at `k`, if it is set at all, and whether the pass is requeued. */
  function Verdict(plan: Plan, entry: ReleaseChart, k: nat, c: Cluster, faults: set<ApiCall>)
    : (Option<Condition>, Outcome)
    requires k <= |Positions(entry)|
  {
    var d := |entry.dependencyCharts|;
    var at := if k < |Positions(entry)| then StateAt(plan, Positions(entry)[k], c, faults)
              else StateAt(plan, entry, c, faults);
    if at.None? then (None, Aborted)
    else if k == d && at.value.NotInstalled? && d != 0 then (Some(FailedCondition), Requeue)
    else if k <= d || k == |Positions(entry)|
    then (Some(Evaluate(at.value).0), if Evaluate(at.value).1 then Requeue else Done)
    else if at.value.ChartInProgress? then (Some(InProgressCondition), Requeue)
    else (None, Done)
  }

  /** Where a pass over an entry ends, and what follows from that. */
  ghost predicate EndsAt(plan: Plan, entry: ReleaseChart, k: nat, c: Cluster, faults: set<ApiCall>, p: Pass) {
    && k <= |Positions(entry)| && Reaches(plan, entry, k, c, faults)
    && (k < |Positions(entry)| ==> !LetsPass(plan, entry, k, c, faults))
    && p.cluster == (if k < |Positions(entry)| then UpgradeChart(plan, Positions(entry)[k], c, faults).cluster else c)
    && p.outcome == Verdict(plan, entry, k, c, faults).1
    && p.status == SetIf(plan.status, ChartType(entry), Verdict(plan, entry, k, c, faults).0)
  }

  function SetIf(st: Status, t: string, condition: Option<Condition>): Status {
    if condition.Some? then Set(st, t, condition.value) else st
  }

  lemma AddonsEndAt(plan: Plan, entry: ReleaseChart, c: Cluster, faults: set<ApiCall>) returns (k: nat)
    requires Reaches(plan, entry, |entry.dependencyCharts|, c, faults)
    requires StateAt(plan, entry, c, faults).Some? && Ready(StateAt(plan, entry, c, faults).value)
    ensures EndsAt(plan, entry, k, c, faults, AddonsPass(plan, entry, StateAt(plan, entry, c, faults).value, c, faults))
  {
    var all, d := Positions(entry), |entry.dependencyCharts|;
    assert all[d] == entry && LetsPass(plan, entry, d, c, faults);
    var a := AddonWalk(plan, entry.addonCharts, c, faults);
    k := d + 1 + a;
    forall j | d < j < |all| ensures all[j] == entry.addonCharts[j - d - 1] {
    }
    forall j | 0 <= j < k ensures LetsPass(plan, entry, j, c, faults) {
    }
  }

  lemma CoreEndsAt(plan: Plan, entry: ReleaseChart, c: Cluster, faults: set<ApiCall>) returns (k: nat)
    requires Reaches(plan, entry, |entry.dependencyCharts|, c, faults)
    ensures EndsAt(plan, entry, k, c, faults, CorePass(plan, entry, c, faults))
  {
    var all, d := Positions(entry), |entry.dependencyCharts|;
    assert all[d] == entry;
    UpgradeChartEffect(plan, entry, c, faults);
    var core := StateAt(plan, entry, c, faults);
    k := d;
    if core.Some? && Ready(core.value) {
      k := AddonsEndAt(plan, entry, c, faults);
    }
  }

  /**
   * One pass over an entry ends at one position. Everything before it lets the pass go on and writes nothing;
   * the cluster, the outcome and the condition afterwards are what that one position makes of them.
   */
  lemma ChartPassEndsAt(plan: Plan, entry: ReleaseChart, c: Cluster, faults: set<ApiCall>) returns (k: nat)
    ensures EndsAt(plan, entry, k, c, faults, ChartPass(plan, entry, c, faults))
  {
    var deps, all := entry.dependencyCharts, Positions(entry);
    k := DependencyWalk(plan, deps, c, faults);
    assert forall j | 0 <= j < |deps| :: all[j] == deps[j];
    forall j | 0 <= j < k ensures LetsPass(plan, entry, j, c, faults) {
    }
    if k == |deps| {
      k := CoreEndsAt(plan, entry, c, faults);
    }
  }
}
