/** One chart entry by itself: the condition on its versions under which its passes come to an end. */
module EntryVersions {
  import opened Prelude
  import opened Api
  import opened Pass
  import opened Stages
  import opened Completion
  import Values

  /** The job of the chart, if this upgrade has written the chart, is there and has completed. */
  ghost predicate JobSucceeded(plan: Plan, rc: ReleaseChart, c: Cluster) {
    rc.releaseName in c.charts && Annotation(c.charts[rc.releaseName]) == plan.spec.releaseVersion ==>
      c.charts[rc.releaseName].jobName in c.jobs &&
      FinalCondition(c.jobs[c.charts[rc.releaseName].jobName].conditions) == Some(JobComplete)
  }

  /** Every chart of the entry is installed, its values parse, and what has been written for it has succeeded. */
  ghost predicate EverythingSucceeds(plan: Plan, entry: ReleaseChart, c: Cluster) {
    forall k | 0 <= k < |Positions(entry)| :: InstalledAndWell(plan, Positions(entry)[k], c)
  }

  ghost predicate InstalledAndWell(plan: Plan, rc: ReleaseChart, c: Cluster) {
    ValuesParse(plan, rc, c) && JobSucceeded(plan, rc, c) && rc.releaseName in c.releases
  }

  /** The version the cluster has for a release: that of its HelmChart, or else of the release itself. */
  function VersionInCluster(name: string, c: Cluster): string
    requires name in c.releases
  {
    if name in c.charts then c.charts[name].version else c.releases[name].version
  }

  /** A chart that is installed and well is written exactly when it is at another version; otherwise it is ready. */
  lemma WrittenExactlyWhen(plan: Plan, rc: ReleaseChart, c: Cluster)
    requires InstalledAndWell(plan, rc, c)
    ensures StateAt(plan, rc, c, {}).Some?
    ensures VersionInCluster(rc.releaseName, c) != rc.version <==> StateAt(plan, rc, c, {}).value.ChartInProgress?
    ensures VersionInCluster(rc.releaseName, c) == rc.version <==> Ready(StateAt(plan, rc, c, {}).value)
  {
    if rc.releaseName !in c.charts {
      NewChartParses(plan, rc, c.releases[rc.releaseName], c);
    } else {
      UpdatedChartParses(plan, rc, c.charts[rc.releaseName]);
    }
  }

  lemma DisagreementStopsWalk(plan: Plan, entry: ReleaseChart, c: Cluster)
    requires !VersionsAgree(entry) && EverythingSucceeds(plan, entry, c)
    ensures !Reaches(plan, entry, |Positions(entry)|, c, {})
  {
    var all := Positions(entry);
    var i, j :| 0 <= i < |all| && 0 <= j < |all| && all[i].releaseName == all[j].releaseName &&
      all[i].version != all[j].version;
    var n := if VersionInCluster(all[i].releaseName, c) != all[i].version then i else j;
    WrittenExactlyWhen(plan, all[n], c);
    assert !LetsPass(plan, entry, n, c, {});
  }

  /** One release name at two versions, all installed and well: no pass ends the entry. */
  lemma DisagreeingEntryGoesOn(plan: Plan, entry: ReleaseChart, c: Cluster)
    requires !VersionsAgree(entry) && EverythingSucceeds(plan, entry, c) &&
      !ChartFinished(plan.status, ChartType(entry))
    ensures !ChartFinished(ChartPass(plan, entry, c, {}).status, ChartType(entry))
  {
    DisagreementStopsWalk(plan, entry, c);
    var k := ChartPassEndsAt(plan, entry, c, {});
    WrittenExactlyWhen(plan, Positions(entry)[k], c);
  }

  /** Passes over one entry that succeed in all they write: the statuses and clusters they start from. */
  datatype EntryCourse = EntryCourse(plan: Plan, entry: ReleaseChart, statuses: seq<Status>, clusters: seq<Cluster>)

  ghost predicate EntryStep(e: EntryCourse, i: int)
    requires 0 <= i < |e.statuses| - 1 && |e.clusters| == |e.statuses|
  {
    var plan := e.plan.(status := e.statuses[i]);
    var p := ChartPass(plan, e.entry, e.clusters[i], {});
    && EverythingSucceeds(plan, e.entry, e.clusters[i])
    && e.statuses[i + 1] == p.status && Kept(p.cluster, e.clusters[i + 1])
  }

  /** From an entry that has not ended, a pass over it as long as it has not. */
  ghost predicate IsEntryCourse(e: EntryCourse) {
    && |e.clusters| == |e.statuses| > 0 && !EntryOver(e, 0)
    && forall i | 0 <= i < |e.statuses| - 1 :: EntryOver(e, i) || EntryStep(e, i)
  }

  predicate EntryOver(e: EntryCourse, i: int)
    requires 0 <= i < |e.statuses|
  {
    ChartFinished(e.statuses[i], ChartType(e.entry))
  }

  function LeftToWrite(e: EntryCourse, i: nat): nat
    requires i < |e.clusters|
  {
    UnwrittenCount(Positions(e.entry), e.clusters[i])
  }

  lemma StepAdvances(e: EntryCourse, i: nat)
    requires IsEntryCourse(e) && VersionsAgree(e.entry) && i < |e.statuses| - 1 && !EntryOver(e, i)
    ensures EntryOver(e, i + 1) ||
      LeftToWrite(e, i + 1) < LeftToWrite(e, i)
  {
    var plan := e.plan.(status := e.statuses[i]);
    assert EntryStep(e, i);
    EntryProgresses(plan, e.entry, e.clusters[i]);
    NeverMore(Positions(e.entry), ChartPass(plan, e.entry, e.clusters[i], {}).cluster, e.clusters[i + 1]);
  }

  lemma {:induction false} AgreeingEntryEnds(e: EntryCourse, n: nat)
    requires IsEntryCourse(e) && VersionsAgree(e.entry) && n < |e.statuses|
    requires forall i | 0 <= i <= n :: !EntryOver(e, i)
    ensures LeftToWrite(e, n) + n <= |Positions(e.entry)|
  {
    if n == 0 {
      CountAtMost(Positions(e.entry), e.clusters[0]);
    } else {
      AgreeingEntryEnds(e, n - 1);
      assert !EntryOver(e, n - 1) && !EntryOver(e, n);
      StepAdvances(e, n - 1);
    }
  }

  lemma StepGoesOn(e: EntryCourse, i: nat)
    requires IsEntryCourse(e) && !VersionsAgree(e.entry) && i < |e.statuses| - 1 && !EntryOver(e, i)
    ensures !EntryOver(e, i + 1)
  {
    assert EntryStep(e, i);
    DisagreeingEntryGoesOn(e.plan.(status := e.statuses[i]), e.entry, e.clusters[i]);
  }

  lemma {:induction false} DisagreeingEntryNeverEnds(e: EntryCourse, n: nat)
    requires IsEntryCourse(e) && !VersionsAgree(e.entry) && n < |e.statuses|
    ensures !EntryOver(e, n)
  {
    if n > 0 {
      DisagreeingEntryNeverEnds(e, n - 1);
      StepGoesOn(e, n - 1);
    }
  }

  /**
   * The condition on versions is exact: where all charts of an entry are installed and all that is written succeeds,
   * the passes of the bound end the entry if and only if it does not want one release name at two versions. If it
   * does, no number of passes ends it.
   */
  lemma EntryEndsExactlyWhen(e: EntryCourse)
    requires IsEntryCourse(e) && |e.statuses| > EntryBound(e.entry)
    ensures (exists i :: 0 <= i <= EntryBound(e.entry) && EntryOver(e, i)) <==> VersionsAgree(e.entry)
    ensures !VersionsAgree(e.entry) ==> forall i | 0 <= i < |e.statuses| :: !EntryOver(e, i)
  {
    if VersionsAgree(e.entry) {
      if forall i | 0 <= i <= EntryBound(e.entry) :: !EntryOver(e, i) {
        AgreeingEntryEnds(e, EntryBound(e.entry));
      }
    } else {
      forall i | 0 <= i < |e.statuses| ensures !EntryOver(e, i) {
        DisagreeingEntryNeverEnds(e, i);
      }
    }
  }

  // ---- an entry that goes on for ever ----

  function Addon(version: string): ReleaseChart {
    ReleaseChart("x", "x", "", version, "X", Values.Absent, [], [])
  }

  /** The core chart is where it should be; one add-on is wanted at two versions. */
  const FlappingEntry := ReleaseChart("core", "core", "", "1", "Core", Values.Absent, [], [Addon("1"), Addon("2")])

  const FlappingPlan := Plan("plan", "ns", 1, false, [UpgradePlanFinalizer], Spec("1", None, []),
  Status(map[], 1, "s", ""))

  function FlappingChart(version: string): ChartResource {
    ChartResource(OwnerLabels(FlappingPlan), map[ReleaseAnnotation := "1"], "x", "", version, "", "",
      Values.Absent, Some(6), "job")
  }

  /** The add-on has been brought to the version, and the job its status names has completed. */
  function FlappingCluster(version: string): Cluster {
    Cluster([], map[], [], map[], map[], map["x" := FlappingChart(version)],
      map["job" := Job(map[], [JobCondition(JobComplete, True)])],
      map["core" := HelmRelease("", "1", map[]), "x" := HelmRelease("", "0", map[])], map[])
  }

  lemma AddonRewritten(plan: Plan, version: string, other: string)
    requires plan == FlappingPlan.(status := plan.status)
    ensures UpdatedChart(plan, Addon(other), FlappingChart(version)) == Some(FlappingChart(other))
  {
    var labels := OwnerLabels(FlappingPlan);
    assert PlanNameLabel != PlanNamespaceLabel by { assert |PlanNameLabel| != |PlanNamespaceLabel|; }
    assert labels[PlanNameLabel := "plan"][PlanNamespaceLabel := "ns"] == labels;
    assert map[ReleaseAnnotation := "1"][ReleaseAnnotation := "1"] == map[ReleaseAnnotation := "1"];
    assert UserValues([], "x") == Values.Absent;
  }

  lemma AddonLooks(plan: Plan, version: string, wanted: string)
    requires plan == FlappingPlan.(status := plan.status)
    ensures UpgradeChart(plan, Addon(wanted), FlappingCluster(version), {}) ==
      if version == wanted then ChartStep(Some(ChartSucceeded), FlappingCluster(version))
      else ChartStep(Some(ChartInProgress), FlappingCluster(wanted))
  {
    AddonRewritten(plan, version, wanted);
    var job := Job(map[], [JobCondition(JobComplete, True)]);
    assert FinalCondition(job.conditions) == Some(JobComplete);
    assert FlappingCluster(version).charts["x" := FlappingChart(wanted)] == FlappingCluster(wanted).charts;
  }

  /** A pass over the one version asks for the other. */
  lemma Flaps(plan: Plan, version: string, other: string)
    requires plan == FlappingPlan.(status := plan.status) && (version, other) in {("1", "2"), ("2", "1")}
    ensures EverythingSucceeds(plan, FlappingEntry, FlappingCluster(version))
    ensures ChartPass(plan, FlappingEntry, FlappingCluster(version), {}) ==
      Pass(Set(plan.status, ChartType(FlappingEntry), InProgressCondition), FlappingCluster(other), Requeue)
  {
    var c := FlappingCluster(version);
    assert "1"[0] != "2"[0];
    AddonLooks(plan, version, "1");
    AddonLooks(plan, version, "2");
    assert FlappingEntry.addonCharts[1..] == [Addon("2")];
    assert WalkAddons(plan, [Addon("2")], c, {}) ==
      if version == "2" then Walked(c) else StoppedAt(ChartInProgress, FlappingCluster("2"));
    assert WalkAddons(plan, FlappingEntry.addonCharts, c, {}) == StoppedAt(ChartInProgress, FlappingCluster(other));
    FlapsWell(plan, version);
  }

  lemma FlapsWell(plan: Plan, version: string)
    requires plan == FlappingPlan.(status := plan.status) && version in {"1", "2"}
    ensures EverythingSucceeds(plan, FlappingEntry, FlappingCluster(version))
  {
    assert UserValues([], "x") == Values.Absent && UserValues([], "core") == Values.Absent;
    assert FinalCondition([JobCondition(JobComplete, True)]) == Some(JobComplete);
    forall k | 0 <= k < |Positions(FlappingEntry)|
      ensures InstalledAndWell(plan, Positions(FlappingEntry)[k], FlappingCluster(version))
    {
    }
  }

  /** For every length there is a course of that many passes in which everything succeeds and the entry goes on. */
  lemma {:induction false} FlappingCourse(n: nat) returns (e: EntryCourse, version: string)
    ensures e.plan == FlappingPlan && e.entry == FlappingEntry && |e.statuses| == |e.clusters| == n + 1
    ensures IsEntryCourse(e) && !VersionsAgree(e.entry)
    ensures version in {"1", "2"} && e.clusters[n] == FlappingCluster(version)
  {
    assert Positions(FlappingEntry)[1] == Addon("1") && Positions(FlappingEntry)[2] == Addon("2") && "1"[0] != "2"[0];
    if n == 0 {
      version := "1";
      e := EntryCourse(FlappingPlan, FlappingEntry, [FlappingPlan.status], [FlappingCluster(version)]);
    } else {
      var shorter, was := FlappingCourse(n - 1);
      version := if was == "1" then "2" else "1";
      var plan := FlappingPlan.(status := shorter.statuses[n - 1]);
      Flaps(plan, was, version);
      var p := ChartPass(plan, FlappingEntry, FlappingCluster(was), {});
      e := shorter.(statuses := shorter.statuses + [p.status], clusters := shorter.clusters + [p.cluster]);
      Extended(shorter, e, n);
    }
  }

  /** A course and one more pass over the entry make a course. */
  lemma Extended(shorter: EntryCourse, e: EntryCourse, n: nat)
    requires IsEntryCourse(shorter) && |shorter.statuses| == n > 0
    requires e == shorter.(statuses := e.statuses, clusters := e.clusters) && |e.statuses| == |e.clusters| == n + 1
    requires e.statuses[..n] == shorter.statuses && e.clusters[..n] == shorter.clusters && EntryStep(e, n - 1)
    ensures IsEntryCourse(e)
  {
    assert forall i | 0 <= i < n :: e.statuses[i] == e.statuses[..n][i] && e.clusters[i] == e.clusters[..n][i];
    forall i | 0 <= i < n ensures EntryOver(e, i) || EntryStep(e, i) {
      if i < n - 1 {
        assert EntryOver(shorter, i) || EntryStep(shorter, i);
      }
    }
  }
}
