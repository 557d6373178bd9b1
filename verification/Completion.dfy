/** Bounded completion: in a cooperative environment every pass makes progress, and their number is bounded. */
module Completion {
  import opened Prelude
  import opened Api
  import opened Names
  import opened Nodes
  import opened Pass
  import opened Stages
  import opened PassStages
  import opened PassEffects
  import Webhook

  // ---- the measure ----

  function One(b: bool): nat { if b then 1 else 0 }

  /** Position `k` still has no HelmChart at its version. */
  predicate Unwritten(rc: ReleaseChart, c: Cluster) {
    rc.releaseName !in c.charts || c.charts[rc.releaseName].version != rc.version
  }

  function UnwrittenCount(rcs: seq<ReleaseChart>, c: Cluster): nat {
    if rcs == [] then 0 else One(Unwritten(rcs[0], c)) + UnwrittenCount(rcs[1..], c)
  }

  /** Passes an entry may take at most: one write for each of its charts, and one to end it. */
  function EntryBound(entry: ReleaseChart): nat {
    |entry.dependencyCharts| + |entry.addonCharts| + 2
  }

  function EntriesBound(charts: seq<ReleaseChart>): nat {
    if charts == [] then 0 else EntryBound(charts[0]) + EntriesBound(charts[1..])
  }

  /** Work left in the chart stage: the entry under way counts its unwritten charts, later ones their bound. */
  function ChartWork(charts: seq<ReleaseChart>, st: Status, c: Cluster): nat {
    if charts == [] then 0
    else if ChartFinished(st, ChartType(charts[0])) then ChartWork(charts[1..], st, c)
    else 1 + UnwrittenCount(Positions(charts[0]), c) + EntriesBound(charts[1..])
  }

  /** Work left in a node stage: its success, and each object not yet created. */
  function StageWork(done: bool, controlPlaneName: string, workerName: string, c: Cluster, missingSecret: bool): nat {
    if done then 0
    else 1 + One(missingSecret) + One(controlPlaneName !in c.sucPlans) + One(workerName !in c.sucPlans)
  }

  function OsWork(st: Status, release: Release, c: Cluster): nat {
    var os, suffix := release.os, st.sucNameSuffix;
    StageWork(IsTrue(st, OsUpgraded), OsPlanName(ControlPlaneKey, os.zypperID, os.version, suffix),
      OsPlanName(WorkersKey, os.zypperID, os.version, suffix), c,
      OsSecretName(os.zypperID, os.version, suffix) !in c.secrets)
  }

  function KubernetesWork(st: Status, d: Distribution, c: Cluster): nat {
    StageWork(IsTrue(st, KubernetesUpgraded), KubernetesPlanName(ControlPlaneKey, d.version, st.sucNameSuffix),
      KubernetesPlanName(WorkersKey, d.version, st.sucNameSuffix), c, false)
  }

  /** The number of passes a generation needs at most. */
  function Bound(release: Release): nat {
    9 + EntriesBound(release.charts)
  }

  /** The whole upgrade is behind us. */
  predicate UpgradeComplete(plan: Plan, release: Release) {
    && plan.status.observedGeneration == plan.generation
    && StageAfter(plan.status, release).CompletedStage?
    && plan.status.lastSuccessfulReleaseVersion == plan.spec.releaseVersion
  }

  function Measure(plan: Plan, release: Release, d: Distribution, c: Cluster): nat {
    if UpgradeComplete(plan, release) then 0
    else if plan.status.observedGeneration != plan.generation then Bound(release)
    else 1 + ChartWork(release.charts, plan.status, c) + KubernetesWork(plan.status, d, c)
         + OsWork(plan.status, release, c)
  }

  // ---- the cooperative environment ----

  /** Values given for a chart, in the manifest, by the user or in the cluster, all parse. */
  predicate ValuesParse(plan: Plan, rc: ReleaseChart, c: Cluster) {
    && !rc.values.Malformed? && !UserValues(plan.spec.helm, rc.name).Malformed?
    && (rc.releaseName in c.charts ==> !c.charts[rc.releaseName].values.Malformed?)
  }

  /** The job of every chart this upgrade has written is there and has ended, one way or the other. */
  ghost predicate JobsEnded(plan: Plan, rc: ReleaseChart, c: Cluster) {
    rc.releaseName in c.charts && Annotation(c.charts[rc.releaseName]) == plan.spec.releaseVersion ==>
      c.charts[rc.releaseName].jobName in c.jobs &&
      FinalCondition(c.jobs[c.charts[rc.releaseName].jobName].conditions).Some?
  }

  /** What has been started for a node stage has run to its end. */
  ghost predicate RolloutServed(r: Rollout, c: Cluster) {
    && (r.controlPlaneName in c.sucPlans ==> AllUpgraded(Matching(c.nodes, ControlPlaneSelector), r.target))
    && (r.workerName in c.sucPlans ==> AllUpgraded(Matching(c.nodes, WorkerSelector), r.target))
    && (AllUpgraded(c.nodes, r.target) && r.gate.Some? ==> Scan(r.gate.value, c, {}) == AllUp)
  }

  /** Before a pass: everything written so far has been carried out. */
  ghost predicate Cooperative(plan: Plan, release: Release, d: Distribution, c: Cluster) {
    && Manifest(plan, c) == Some(release) && StoredSelectors(plan, c)
    && AllSupported(c.nodes, release.os.supportedArchs)
    && (exists n :: n in c.nodes && IsControlPlane(n))
    && TargetDistribution(c.nodes, release.kubernetes) == Some(d)
    && RolloutServed(OsRollout(plan, release, c.nodes), c) && RolloutServed(KubernetesRollout(plan, d, c.nodes), c)
    && (forall i, k | 0 <= i < |release.charts| && 0 <= k < |Positions(release.charts[i])| ::
          ValuesParse(plan, Positions(release.charts[i])[k], c) && JobsEnded(plan, Positions(release.charts[i])[k], c))
  }

  /** A release name that occurs twice in an entry is wanted at one version. */
  ghost predicate VersionsAgree(entry: ReleaseChart) {
    forall j, k | 0 <= j < |Positions(entry)| && 0 <= k < |Positions(entry)| &&
      Positions(entry)[j].releaseName == Positions(entry)[k].releaseName ::
      Positions(entry)[j].version == Positions(entry)[k].version
  }

  // ---- counting ----

  lemma {:induction false} WritingOneCounts(rcs: seq<ReleaseChart>, k: nat, c: Cluster, c': Cluster)
    requires k < |rcs| && Unwritten(rcs[k], c) && !Unwritten(rcs[k], c')
    requires forall j | 0 <= j < |rcs| :: !Unwritten(rcs[j], c) ==> !Unwritten(rcs[j], c')
    ensures UnwrittenCount(rcs, c') < UnwrittenCount(rcs, c)
  {
    if k == 0 {
      NeverMore(rcs[1..], c, c');
    } else {
      WritingOneCounts(rcs[1..], k - 1, c, c');
    }
  }

  lemma {:induction false} NeverMore(rcs: seq<ReleaseChart>, c: Cluster, c': Cluster)
    requires forall j | 0 <= j < |rcs| :: !Unwritten(rcs[j], c) ==> !Unwritten(rcs[j], c')
    ensures UnwrittenCount(rcs, c') <= UnwrittenCount(rcs, c)
  {
    if rcs != [] {
      assert !Unwritten(rcs[0], c) ==> !Unwritten(rcs[0], c');
      forall j | 0 <= j < |rcs[1..]| && !Unwritten(rcs[1..][j], c) ensures !Unwritten(rcs[1..][j], c') {
        assert rcs[1..][j] == rcs[j + 1];
      }
      NeverMore(rcs[1..], c, c');
    }
  }

  lemma {:induction false} CountAtMost(rcs: seq<ReleaseChart>, c: Cluster)
    ensures UnwrittenCount(rcs, c) <= |rcs|
  {
    if rcs != [] { CountAtMost(rcs[1..], c); }
  }

  lemma {:induction false} WorkAtMost(charts: seq<ReleaseChart>, st: Status, c: Cluster)
    ensures ChartWork(charts, st, c) <= EntriesBound(charts)
  {
    if charts != [] {
      CountAtMost(Positions(charts[0]), c);
      WorkAtMost(charts[1..], st, c);
    }
  }

  /** Written charts stay at their versions between passes, so the work left does not grow. */
  ghost predicate ChartVersionsKept(c: Cluster, c': Cluster) {
    forall n | n in c.charts :: n in c'.charts && c'.charts[n].version == c.charts[n].version
  }

  lemma {:induction false} WorkKept(charts: seq<ReleaseChart>, st: Status, c: Cluster, c': Cluster)
    requires ChartVersionsKept(c, c')
    ensures ChartWork(charts, st, c') <= ChartWork(charts, st, c)
  {
    if charts != [] {
      NeverMore(Positions(charts[0]), c, c');
      WorkKept(charts[1..], st, c, c');
    }
  }

  /** Ending the first unfinished entry, or writing one of its charts, reduces the work. */
  lemma {:induction false} EntryEnded(charts: seq<ReleaseChart>, st: Status, st': Status, c: Cluster)
    requires var i := FirstUnfinished(charts, st);
      i < |charts| && ChartFinished(st', ChartType(charts[i]))
    requires forall j | 0 <= j < |charts| && ChartFinished(st, ChartType(charts[j])) ::
      ChartFinished(st', ChartType(charts[j]))
    ensures ChartWork(charts, st', c) < ChartWork(charts, st, c)
  {
    if ChartFinished(st, ChartType(charts[0])) {
      assert ChartFinished(st', ChartType(charts[0]));
      forall j | 0 <= j < |charts[1..]| && ChartFinished(st, ChartType(charts[1..][j]))
        ensures ChartFinished(st', ChartType(charts[1..][j]))
      {
        assert charts[1..][j] == charts[j + 1];
      }
      EntryEnded(charts[1..], st, st', c);
    } else {
      WorkAtMost(charts[1..], st', c);
    }
  }

  lemma {:induction false} EntryAdvanced(charts: seq<ReleaseChart>, st: Status, st': Status, c: Cluster, c': Cluster)
    requires var i := FirstUnfinished(charts, st);
      i < |charts| && UnwrittenCount(Positions(charts[i]), c') < UnwrittenCount(Positions(charts[i]), c)
    requires forall j | 0 <= j < |charts| ::
      ChartFinished(st, ChartType(charts[j])) <==> ChartFinished(st', ChartType(charts[j]))
    ensures ChartWork(charts, st', c') < ChartWork(charts, st, c)
  {
    assert ChartFinished(st, ChartType(charts[0])) <==> ChartFinished(st', ChartType(charts[0]));
    if ChartFinished(st, ChartType(charts[0])) {
      forall j | 0 <= j < |charts[1..]|
        ensures ChartFinished(st, ChartType(charts[1..][j])) <==> ChartFinished(st', ChartType(charts[1..][j]))
      {
        assert charts[1..][j] == charts[j + 1];
      }
      EntryAdvanced(charts[1..], st, st', c, c');
    }
  }

  // ---- progress of each stage ----

  /** Unless it is done, a served node stage creates what is missing next, or succeeds. */
  ghost predicate RolloutProgress(r: Rollout, st: Status, c: Cluster, p: Pass) {
    || (p.status == Set(st, r.conditionType, SuccessfulCondition) && p.cluster == c)
    || (p.status == Set(st, r.conditionType, InProgressCondition) &&
        ((r.controlPlaneName !in c.sucPlans &&
        p.cluster == c.(sucPlans := c.sucPlans[r.controlPlaneName := r.controlPlane])) ||
         (r.workerName !in c.sucPlans && p.cluster == c.(sucPlans := c.sucPlans[r.workerName := r.worker]))))
  }

  lemma ServedRolloutProgresses(r: Rollout, st: Status, c: Cluster)
    requires StageSelectors(r, c) && RolloutServed(r, c) && exists n :: n in c.nodes && IsControlPlane(n)
    ensures RolloutProgress(r, st, c, RolloutPass(r, st, c, {}))
  {
    var n :| n in c.nodes && IsControlPlane(n);
    SelectorsMeanRoles(n);
    MatchingIsFilter(c.nodes, ControlPlaneSelector, n);
    ControlPlanePicked(c.nodes);
    if r.controlPlaneName in c.sucPlans {
      if ControlPlaneOnly(c.nodes) {
        HalvesMakeAll(c.nodes, r.target);
      } else {
        WorkersExist(c.nodes);
        if r.workerName in c.sucPlans { HalvesMakeAll(c.nodes, r.target); }
      }
    }
  }

  /** With parsing values and ended jobs a chart is written, or it has a state that the walk can end on. */
  lemma ChartAnswers(plan: Plan, rc: ReleaseChart, c: Cluster)
    requires ValuesParse(plan, rc, c) && JobsEnded(plan, rc, c)
    ensures var step := UpgradeChart(plan, rc, c, {});
      step.state.Some? && (step.cluster == c ==> step.state.value !in {ChartInProgress, UnknownState})
  {
    var name := rc.releaseName;
    UpgradeChartEffect(plan, rc, c, {});
    if name in c.releases && name !in c.charts {
      NewChartParses(plan, rc, c.releases[name], c);
    } else if name in c.releases && c.charts[name].version != rc.version {
      UpdatedChartParses(plan, rc, c.charts[name]);
      assert UpgradeChart(plan, rc, c, {}).cluster.charts[name].version == rc.version;
    }
  }

  lemma NewChartParses(plan: Plan, rc: ReleaseChart, installed: HelmRelease, c: Cluster)
    requires !rc.values.Malformed? && !UserValues(plan.spec.helm, rc.name).Malformed?
    ensures NewChart(plan, rc, installed).Some?
  {
  }

  lemma UpdatedChartParses(plan: Plan, rc: ReleaseChart, chart: ChartResource)
    requires !rc.values.Malformed? && !UserValues(plan.spec.helm, rc.name).Malformed? && !chart.values.Malformed?
    ensures UpdatedChart(plan, rc, chart).Some?
  {
  }

  /** A write under one name settles every position of the entry that shares the name. */
  lemma WriteSettles(entry: ReleaseChart, k: nat, c: Cluster, c': Cluster)
    requires VersionsAgree(entry) && k < |Positions(entry)|
    requires var rc := Positions(entry)[k];
      && !Unwritten(rc, c')
      && forall n | n in c.charts && n != rc.releaseName :: n in c'.charts && c'.charts[n] == c.charts[n]
    ensures forall j | 0 <= j < |Positions(entry)| && !Unwritten(Positions(entry)[j], c) ::
      !Unwritten(Positions(entry)[j], c')
  {
  }

  ghost predicate EntryEnds(plan: Plan, entry: ReleaseChart, c: Cluster, p: Pass) {
    && p.cluster == c && Sets(plan.status, ChartType(entry), ChartConditions, p.status)
    && ChartFinished(p.status, ChartType(entry))
  }

  ghost predicate EntryAdvances(plan: Plan, entry: ReleaseChart, c: Cluster, p: Pass) {
    && UnwrittenCount(Positions(entry), p.cluster) < UnwrittenCount(Positions(entry), c)
    && p.cluster == c.(charts := p.cluster.charts)
    && (p.status == plan.status || p.status == Set(plan.status, ChartType(entry), InProgressCondition))
  }

  /** A pass over an entry either writes one of its missing charts, or ends the entry. */
  lemma EntryProgresses(plan: Plan, entry: ReleaseChart, c: Cluster)
    requires VersionsAgree(entry) && !ChartFinished(plan.status, ChartType(entry))
    requires forall k | 0 <= k < |Positions(entry)| ::
      ValuesParse(plan, Positions(entry)[k], c) && JobsEnded(plan, Positions(entry)[k], c)
    ensures var p := ChartPass(plan, entry, c, {}); EntryEnds(plan, entry, c, p) || EntryAdvances(plan, entry, c, p)
  {
    var all, d := Positions(entry), |entry.dependencyCharts|;
    var p := ChartPass(plan, entry, c, {});
    var k := ChartPassEndsAt(plan, entry, c, {});
    if k < |all| {
      ChartAnswers(plan, all[k], c);
      UpgradeChartEffect(plan, all[k], c, {});
      if p.cluster != c {
        WriteSettles(entry, k, c, p.cluster);
        WritingOneCounts(all, k, c, p.cluster);
      } else {
        EndingVerdict(plan, entry, k, c);
      }
    } else {
      assert LetsPass(plan, entry, d, c, {}) && all[d] == entry;
      EndingVerdict(plan, entry, k, c);
    }
  }

  lemma EndingVerdict(plan: Plan, entry: ReleaseChart, k: nat, c: Cluster)
    requires k <= |Positions(entry)| && Reaches(plan, entry, k, c, {})
    requires k < |Positions(entry)| ==> !LetsPass(plan, entry, k, c, {})
    requires k < |Positions(entry)| ==> StateAt(plan, Positions(entry)[k], c, {}).Some?
    requires k < |Positions(entry)| ==>
      StateAt(plan, Positions(entry)[k], c, {}).value !in {ChartInProgress, UnknownState}
    requires k == |Positions(entry)| ==> StateAt(plan, entry, c, {}).Some? && Ready(StateAt(plan, entry, c, {}).value)
    ensures var v := Verdict(plan, entry, k, c, {}).0;
      v.Some? && v.value in ChartConditions && v.value in {SuccessfulCondition, FailedCondition, SkippedCondition}
  {
  }

  // ---- progress of the whole pass ----

  /** The pass changes at most condition `t` and leaves the charts alone. */
  ghost predicate SameBut(st: Status, c: Cluster, p: Pass, t: string) {
    && (p.status == st || Sets(st, t, StageConditions, p.status))
    && p.cluster.charts == c.charts && p.cluster.manifests == c.manifests
    && c.sucPlans.Keys <= p.cluster.sucPlans.Keys && c.secrets.Keys <= p.cluster.secrets.Keys
  }

  lemma ProgressSets(r: Rollout, st: Status, c: Cluster, p: Pass)
    requires RolloutProgress(r, st, c, p)
    ensures SameBut(st, c, p, r.conditionType) && p.cluster.secrets == c.secrets
  {
    assert InProgressCondition in StageConditions && SuccessfulCondition in StageConditions;
  }

  lemma RolloutProgressCounts(r: Rollout, st: Status, c: Cluster, p: Pass, missingSecret: bool)
    requires RolloutProgress(r, st, c, p) && !IsTrue(st, r.conditionType)
    ensures StageWork(IsTrue(p.status, r.conditionType), r.controlPlaneName, r.workerName, p.cluster, missingSecret)
          < StageWork(false, r.controlPlaneName, r.workerName, c, missingSecret)
    ensures SameBut(st, c, p, r.conditionType) && p.cluster.secrets == c.secrets
  {
    ProgressSets(r, st, c, p);
  }

  lemma OsPassProgresses(plan: Plan, release: Release, c: Cluster)
    requires StoredSelectors(plan, c) && plan.status.observedGeneration == plan.generation
    requires RolloutServed(OsRollout(plan, release, c.nodes), c)
    requires (exists n :: n in c.nodes && IsControlPlane(n)) && !IsTrue(plan.status, OsUpgraded)
    ensures var p := OsPass(plan, release, c, {});
      OsWork(p.status, release, p.cluster) < OsWork(plan.status, release, c) && SameBut(plan.status, c, p, OsUpgraded)
  {
    var secret := OsSecretName(release.os.zypperID, release.os.version, plan.status.sucNameSuffix);
    if secret in c.secrets {
      var r := OsRollout(plan, release, c.nodes);
      RolloutsWellBuilt(plan, release, Distribution("", []), c.nodes);
      BuiltSelectors(r, plan, c);
      ServedRolloutProgresses(r, plan.status, c);
      RolloutProgressCounts(r, plan.status, c, RolloutPass(r, plan.status, c, {}), false);
    }
  }

  lemma KubernetesPassProgresses(plan: Plan, release: Release, d: Distribution, c: Cluster)
    requires StoredSelectors(plan, c) && plan.status.observedGeneration == plan.generation
    requires RolloutServed(KubernetesRollout(plan, d, c.nodes), c)
    requires (exists n :: n in c.nodes && IsControlPlane(n)) && !IsTrue(plan.status, KubernetesUpgraded)
    requires TargetDistribution(c.nodes, release.kubernetes) == Some(d)
    ensures var p := KubernetesPass(plan, release, c, {});
      KubernetesWork(p.status, d, p.cluster) < KubernetesWork(plan.status, d, c) &&
      SameBut(plan.status, c, p, KubernetesUpgraded)
  {
    var r := KubernetesRollout(plan, d, c.nodes);
    RolloutsWellBuilt(plan, release, d, c.nodes);
    BuiltSelectors(r, plan, c);
    ServedRolloutProgresses(r, plan.status, c);
    RolloutProgressCounts(r, plan.status, c, RolloutPass(r, plan.status, c, {}), false);
  }

  /** A stage condition is not a finished chart's before it is true, so charts that are finished stay so. */
  lemma {:induction false} NodeStageKeepsWork(charts: seq<ReleaseChart>, st: Status, t: string, st': Status, c: Cluster)
    requires t in {OsUpgraded, KubernetesUpgraded} && Sets(st, t, StageConditions, st')
    requires t in st.conditions && Webhook.Locks(st.conditions[t]) && !IsTrue(st, t)
    ensures ChartWork(charts, st', c) <= ChartWork(charts, st, c)
  {
    if charts != [] {
      NodeStageKeepsWork(charts[1..], st, t, st', c);
      WorkAtMost(charts[1..], st', c);
    }
  }

  /** Once observed, each node stage is recorded, and until it succeeds its condition locks the plan. */
  ghost predicate Orderly(plan: Plan) {
    plan.status.observedGeneration == plan.generation ==>
      forall t | t in {OsUpgraded, KubernetesUpgraded} :: t in plan.status.conditions &&
        (IsTrue(plan.status, t) || Webhook.Locks(plan.status.conditions[t]))
  }

  /** What the environment leaves alone between passes. */
  ghost predicate Kept(c: Cluster, c': Cluster) {
    ChartVersionsKept(c, c') && c.sucPlans.Keys <= c'.sucPlans.Keys && c.secrets.Keys <= c'.secrets.Keys
  }

  lemma MeasureKept(plan: Plan, release: Release, d: Distribution, c: Cluster, c': Cluster)
    requires Kept(c, c')
    ensures Measure(plan, release, d, c') <= Measure(plan, release, d, c)
  {
    WorkKept(release.charts, plan.status, c, c');
  }

  /** The plan after a pass whose status is written back. */
  function After(plan: Plan, p: Pass): Plan {
    plan.(status := p.status)
  }

  lemma ResetProgresses(plan: Plan, release: Release, d: Distribution, c: Cluster, random: Draw)
    requires plan.status.observedGeneration != plan.generation && HexEncode(random) != plan.status.sucNameSuffix
    ensures var p := ObservePass(plan, release, c, Some(random));
      Measure(After(plan, p), release, d, p.cluster) < Bound(release) && Orderly(After(plan, p))
  {
    ResetOpensGeneration(plan, release, c, Some(random));
    var p := ObservePass(plan, release, c, Some(random));
    assert IsReset(plan, release, p.status);
    assert OsUpgraded in Tracked(release) && KubernetesUpgraded in Tracked(release);
    WorkAtMost(release.charts, p.status, c);
  }

  /** In a node stage the measure falls with the work of that stage, if no other work grows. */
  lemma MeasureFallsWith(plan: Plan, plan': Plan, release: Release, d: Distribution, c: Cluster, c': Cluster)
    requires plan.status.observedGeneration == plan.generation && plan'.status.observedGeneration == plan'.generation
    requires !IsTrue(plan.status, OsUpgraded) || !IsTrue(plan.status, KubernetesUpgraded)
    requires ChartWork(release.charts, plan'.status, c') <= ChartWork(release.charts, plan.status, c)
    requires KubernetesWork(plan'.status, d, c') + OsWork(plan'.status, release, c')
           < KubernetesWork(plan.status, d, c) + OsWork(plan.status, release, c)
    ensures Measure(plan', release, d, c') < Measure(plan, release, d, c)
  {
  }

  /** The work that a pass in a node stage takes off that stage comes off the measure. */
  lemma NodeStageLowers(plan: Plan, release: Release, d: Distribution, c: Cluster, p: Pass, t: string)
    requires Orderly(plan) && plan.status.observedGeneration == plan.generation && !IsTrue(plan.status, t)
    requires t in {OsUpgraded, KubernetesUpgraded} && SameBut(plan.status, c, p, t)
    requires if t == OsUpgraded then OsWork(p.status, release, p.cluster) < OsWork(plan.status, release, c)
             else KubernetesWork(p.status, d, p.cluster) < KubernetesWork(plan.status, d, c)
    ensures Measure(After(plan, p), release, d, p.cluster) < Measure(plan, release, d, c) && Orderly(After(plan, p))
  {
    NodeStageCharts(plan, release, c, p, t);
    StageConditionsOrderly(plan, p, t, c);
    MeasureFallsWith(plan, After(plan, p), release, d, c, p.cluster);
  }

  lemma OsStageProgresses(plan: Plan, release: Release, d: Distribution, c: Cluster)
    requires Cooperative(plan, release, d, c) && Orderly(plan) && plan.status.observedGeneration == plan.generation
    requires !IsTrue(plan.status, OsUpgraded)
    ensures var p := OsPass(plan, release, c, {});
      Measure(After(plan, p), release, d, p.cluster) < Measure(plan, release, d, c) && Orderly(After(plan, p))
  {
    OsPassProgresses(plan, release, c);
    NodeStageLowers(plan, release, d, c, OsPass(plan, release, c, {}), OsUpgraded);
  }

  lemma KubernetesStageProgresses(plan: Plan, release: Release, d: Distribution, c: Cluster)
    requires Cooperative(plan, release, d, c) && Orderly(plan) && plan.status.observedGeneration == plan.generation
    requires IsTrue(plan.status, OsUpgraded) && !IsTrue(plan.status, KubernetesUpgraded)
    ensures var p := KubernetesPass(plan, release, c, {});
      Measure(After(plan, p), release, d, p.cluster) < Measure(plan, release, d, c) && Orderly(After(plan, p))
  {
    KubernetesPassProgresses(plan, release, d, c);
    NodeStageLowers(plan, release, d, c, KubernetesPass(plan, release, c, {}), KubernetesUpgraded);
  }

  lemma StageConditionsOrderly(plan: Plan, p: Pass, t: string, c: Cluster)
    requires Orderly(plan) && SameBut(plan.status, c, p, t) && t in {OsUpgraded, KubernetesUpgraded}
    ensures Orderly(After(plan, p))
    ensures plan.status.observedGeneration == p.status.observedGeneration &&
      p.status.sucNameSuffix == plan.status.sucNameSuffix
    ensures forall u | u != t :: IsTrue(plan.status, u) <==> IsTrue(p.status, u)
  {
  }

  lemma NodeStageCharts(plan: Plan, release: Release, c: Cluster, p: Pass, t: string)
    requires Orderly(plan) && plan.status.observedGeneration == plan.generation
    requires SameBut(plan.status, c, p, t) && t in {OsUpgraded, KubernetesUpgraded} && !IsTrue(plan.status, t)
    ensures ChartWork(release.charts, p.status, p.cluster) <= ChartWork(release.charts, plan.status, c)
  {
    WorkKept(release.charts, p.status, c, p.cluster);
    if p.status != plan.status {
      NodeStageKeepsWork(release.charts, plan.status, t, p.status, c);
    }
  }

  /** Both node stages are behind the plan, and its charts are under way. */
  ghost predicate InCharts(plan: Plan, release: Release) {
    plan.status.observedGeneration == plan.generation && StageAfter(plan.status, release).ChartStage?
  }

  lemma InChartsMeasure(plan: Plan, release: Release, d: Distribution, c: Cluster)
    requires InCharts(plan, release)
    ensures Measure(plan, release, d, c) == 1 + ChartWork(release.charts, plan.status, c)
  {
  }

  /** A pass that only sets a chart's condition leaves the measure at what remains for the charts. */
  lemma ChartMeasure(plan: Plan, release: Release, d: Distribution, t: string, st': Status, c: Cluster)
    requires InCharts(plan, release) && Orderly(plan)
    requires st' == plan.status ||
      (t !in {OsUpgraded, KubernetesUpgraded} && Sets(plan.status, t, ChartConditions, st'))
    ensures Orderly(plan.(status := st')) &&
      Measure(plan.(status := st'), release, d, c) <= 1 + ChartWork(release.charts, st', c)
  {
  }

  lemma UnfinishedNotNode(plan: Plan, release: Release)
    requires InCharts(plan, release)
    ensures ChartType(release.charts[StageAfter(plan.status, release).i]) !in {OsUpgraded, KubernetesUpgraded}
  {
  }

  lemma ChartStageProgresses(plan: Plan, release: Release, d: Distribution, c: Cluster)
    requires Cooperative(plan, release, d, c) && Orderly(plan) && InCharts(plan, release)
    requires forall i | 0 <= i < |release.charts| :: VersionsAgree(release.charts[i])
    ensures var p := ChartPass(plan, release.charts[StageAfter(plan.status, release).i], c, {});
      Measure(After(plan, p), release, d, p.cluster) < Measure(plan, release, d, c) && Orderly(After(plan, p))
  {
    var i := StageAfter(plan.status, release).i;
    var p := ChartPass(plan, release.charts[i], c, {});
    EntryProgresses(plan, release.charts[i], c);
    EntryCounts(plan, release, d, c, p);
  }

  lemma EntryCounts(plan: Plan, release: Release, d: Distribution, c: Cluster, p: Pass)
    requires Orderly(plan) && InCharts(plan, release)
    requires var entry := release.charts[StageAfter(plan.status, release).i];
      EntryEnds(plan, entry, c, p) || EntryAdvances(plan, entry, c, p)
    ensures Measure(After(plan, p), release, d, p.cluster) < Measure(plan, release, d, c) && Orderly(After(plan, p))
  {
    var charts, t := release.charts, ChartType(release.charts[StageAfter(plan.status, release).i]);
    UnfinishedNotNode(plan, release);
    InChartsMeasure(plan, release, d, c);
    if EntryEnds(plan, charts[StageAfter(plan.status, release).i], c, p) {
      EntryEnded(charts, plan.status, p.status, c);
    } else {
      assert InProgressCondition in ChartConditions;
      assert forall u :: ChartFinished(plan.status, u) <==> ChartFinished(p.status, u);
      EntryAdvanced(charts, plan.status, p.status, c, p.cluster);
    }
    ChartMeasure(plan, release, d, t, p.status, p.cluster);
  }

  /** A cooperative pass needs no faults and a random draw that gives a new suffix. */
  predicate GoodEnv(plan: Plan, env: Env) {
    env.faults == {} && env.random.Some? && HexEncode(env.random.value) != plan.status.sucNameSuffix
  }

  /** Every pass before the end makes the measure strictly smaller. */
  lemma EveryPassProgresses(plan: Plan, release: Release, d: Distribution, c: Cluster, env: Env)
    requires Cooperative(plan, release, d, c) && Orderly(plan) && GoodEnv(plan, env)
    requires forall i | 0 <= i < |release.charts| :: VersionsAgree(release.charts[i])
    ensures var p := NormalPass(plan, c, env);
      && Orderly(After(plan, p))
      && (if UpgradeComplete(plan, release) then UpgradeComplete(After(plan, p), release)
          else Measure(After(plan, p), release, d, p.cluster) < Measure(plan, release, d, c))
  {
    PassOfStage(plan, c, env);
    NoneUnsupported(c.nodes, release.os.supportedArchs);
    ManifestHasVersion(c.manifests, plan.spec.releaseVersion);
    match StageOf(plan, c, env) {
      case ResetStage => ResetProgresses(plan, release, d, c, env.random.value);
      case OsStage => OsStageProgresses(plan, release, d, c);
      case KubernetesStage => KubernetesStageProgresses(plan, release, d, c);
      case ChartStage(i) => ChartStageProgresses(plan, release, d, c);
      case _ =>
    }
  }
}
