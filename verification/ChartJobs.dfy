/** Which job a chart's success speaks of: the one its status names, whether or not it ran for this upgrade. */
module ChartJobs {
  import opened Prelude
  import opened Api
  import opened Pass
  import opened Stages
  import opened PassStages
  import opened PassEffects
  import opened PassGuarantees
  import opened Runs
  import opened RunInvariants
  import opened RunTheorems
  import opened ChartOutcomes

  /** The job name in the status of a HelmChart; a chart that is not there has none. */
  function JobNameOf(name: string, c: Cluster): string {
    if name in c.charts then c.charts[name].jobName else ""
  }

  lemma WriteKeepsJobName(plan: Plan, rc: ReleaseChart, c: Cluster, faults: set<ApiCall>)
    ensures var c' := UpgradeChart(plan, rc, c, faults).cluster;
      c'.jobs == c.jobs && c'.releases == c.releases && forall n :: JobNameOf(n, c') == JobNameOf(n, c)
  {
    UpgradeChartEffect(plan, rc, c, faults);
  }

  /**
   * After a chart has been written and before anybody acts on it, the next look at it reports the end of a job exactly
   * when the status named that job, ended, already before the write. Whatever the release is at is not asked.
   */
  lemma NextLookExactlyWhen(plan: Plan, rc: ReleaseChart, c: Cluster, faults: set<ApiCall>)
    requires UpgradeChart(plan, rc, c, faults).cluster != c && "" !in c.jobs
    ensures var c' := UpgradeChart(plan, rc, c, faults).cluster;
      && UpgradeChart(plan, rc, c', {}).cluster == c'
      && (StateAt(plan, rc, c', {}) == Some(ChartSucceeded) <==> JobEndedAs(rc.releaseName, c, JobComplete))
      && (StateAt(plan, rc, c', {}) == Some(ChartFailed) <==> JobEndedAs(rc.releaseName, c, JobFailed))
  {
    var c', n := UpgradeChart(plan, rc, c, faults).cluster, rc.releaseName;
    UpgradeChartEffect(plan, rc, c, faults);
    WriteKeepsJobName(plan, rc, c, faults);
    assert JobNameOf(n, c') == JobNameOf(n, c);
    assert Installed(rc, c') && Marked(plan, rc, c');
    StateMeans(plan, rc, c', {}, ChartSucceeded);
    StateMeans(plan, rc, c', {}, ChartFailed);
  }

  /**
   * An add-on with a completed job of an earlier install is enough for two passes in a row, with nothing happening in
   * between, to end its entry: the release, at whatever version it is, has not been touched.
   */
  lemma StaleJobEndsEntry(plan: Plan, entry: ReleaseChart, addon: ReleaseChart, c: Cluster)
    requires entry.dependencyCharts == [] && entry.addonCharts == [addon] && addon.releaseName != entry.releaseName
    requires !ChartFinished(plan.status, ChartType(entry)) && Means(plan, entry, c, VersionAlreadyInstalled)
    requires addon.releaseName in c.charts && c.charts[addon.releaseName].version != addon.version &&
      Installed(addon, c)
    requires UpdatedChart(plan, addon, c.charts[addon.releaseName]).Some? &&
      JobEndedAs(addon.releaseName, c, JobComplete)
    ensures var p1 := ChartPass(plan, entry, c, {});
      var p2 := ChartPass(plan.(status := p1.status), entry, p1.cluster, {});
      && p1.outcome == Requeue && p1.cluster.charts.Keys == c.charts.Keys && Marked(plan, addon, p1.cluster)
      && ChartFinished(p2.status, ChartType(entry)) && p2.cluster.releases == c.releases && p2.cluster.jobs == c.jobs
  {
    FirstOfTwo(plan, entry, addon, c);
    var p1 := ChartPass(plan, entry, c, {});
    var plan' := plan.(status := p1.status);
    SecondOfTwo(plan', entry, addon, p1.cluster);
  }

  lemma SecondOfTwo(plan: Plan, entry: ReleaseChart, addon: ReleaseChart, c: Cluster)
    requires entry.dependencyCharts == [] && entry.addonCharts == [addon]
    requires !ChartFinished(plan.status, ChartType(entry)) && Means(plan, entry, c, VersionAlreadyInstalled)
    requires Means(plan, addon, c, ChartSucceeded)
    ensures var p := ChartPass(plan, entry, c, {}); ChartFinished(p.status, ChartType(entry)) && p.cluster == c
  {
    assert entry.addonCharts[0] == addon;
    assert AddonsEnded(plan, entry, c) by { assert ChartSucceeded in EndStates; }
    EntryEndsExactlyAs(plan, entry, c, SkippedCondition);
    EntryEndMeans(plan, entry, c, {}, SkippedCondition);
  }

  lemma FirstOfTwo(plan: Plan, entry: ReleaseChart, addon: ReleaseChart, c: Cluster)
    requires entry.dependencyCharts == [] && entry.addonCharts == [addon]
    requires Means(plan, entry, c, VersionAlreadyInstalled)
    requires addon.releaseName in c.charts && c.charts[addon.releaseName].version != addon.version &&
      Installed(addon, c)
    requires UpdatedChart(plan, addon, c.charts[addon.releaseName]).Some?
    ensures var chart := UpdatedChart(plan, addon, c.charts[addon.releaseName]).value;
      ChartPass(plan, entry, c, {}) ==
      Pass(Set(plan.status, ChartType(entry), InProgressCondition), c.(charts := c.charts[addon.releaseName := chart]),
      Requeue)
  {
    StateMeans(plan, entry, c, {}, VersionAlreadyInstalled);
  }

  // ---- jobs that are older than the write ----

  /** The job the status of the HelmChart names is there, ended or not. */
  predicate JobThere(name: string, c: Cluster) {
    JobNameOf(name, c) in c.jobs
  }

  /** Nothing happens but that jobs that are there gain conditions; no job is started. */
  predicate OnlyOldJobs(c: Cluster, c': Cluster) {
    && c' == c.(jobs := c'.jobs) && c'.jobs.Keys == c.jobs.Keys
    && forall n | n in c.jobs :: c'.jobs[n].labels == c.jobs[n].labels && c.jobs[n].conditions <= c'.jobs[n].conditions
  }

  lemma {:induction false} EarlierEndDecides(before: seq<JobCondition>, after: seq<JobCondition>)
    requires before <= after && FinalCondition(before).Some?
    ensures FinalCondition(after) == FinalCondition(before)
  {
    if before[0].status != True || before[0].ctype.JobOther? {
      EarlierEndDecides(before[1..], after[1..]);
    }
  }

  lemma {:induction false} NextConditionDecides(before: seq<JobCondition>, end: JobConditionType)
    requires FinalCondition(before).None? && !end.JobOther?
    ensures FinalCondition(before + [JobCondition(end, True)]) == Some(end)
  {
    if before != [] {
      NextConditionDecides(before[1..], end);
      assert (before + [JobCondition(end, True)])[1..] == before[1..] + [JobCondition(end, True)];
    }
  }

  /** The job named ends as given, unless it has ended before. */
  function WithEnd(name: string, c: Cluster, end: JobConditionType): Cluster
    requires JobThere(name, c)
  {
    var job := c.jobs[JobNameOf(name, c)];
    if FinalCondition(job.conditions).Some? then c
    else c.(jobs := c.jobs[JobNameOf(name, c) := job.(conditions := job.conditions + [JobCondition(end, True)])])
  }

  /** The state a chart is reported in when the job named has ended as given. */
  function Reported(end: JobConditionType): ChartState
    requires !end.JobOther?
  {
    if end.JobComplete? then ChartSucceeded else ChartFailed
  }

  /**
   * An installed chart marked by this upgrade is reported ended when the job its status names ends, whichever that is.
   */
  lemma NamedJobDecides(plan: Plan, rc: ReleaseChart, c: Cluster, end: JobConditionType)
    requires Installed(rc, c) && Marked(plan, rc, c) && !end.JobOther?
    requires JobThere(rc.releaseName, c) &&
      FinalCondition(c.jobs[JobNameOf(rc.releaseName, c)].conditions) in {None, Some(end)}
    ensures var later := WithEnd(rc.releaseName, c, end);
      OnlyOldJobs(c, later) && later.releases == c.releases && StateAt(plan, rc, later, {}) == Some(Reported(end))
  {
    var conditions := c.jobs[JobNameOf(rc.releaseName, c)].conditions;
    if FinalCondition(conditions).None? { NextConditionDecides(conditions, end); }
    StateMeans(plan, rc, WithEnd(rc.releaseName, c, end), {}, Reported(end));
  }

  /** Some course of the jobs that are there, and of nothing else, has the chart reported as ended in this way. */
  ghost predicate OldJobsCanEnd(plan: Plan, rc: ReleaseChart, c: Cluster, end: JobConditionType)
    requires !end.JobOther?
  {
    exists later :: OnlyOldJobs(c, later) && StateAt(plan, rc, later, {}) == Some(Reported(end))
  }

  /** The job named is there and has not ended the other way. */
  predicate CanStillEnd(name: string, c: Cluster, end: JobConditionType) {
    JobThere(name, c) && FinalCondition(c.jobs[JobNameOf(name, c)].conditions) in {None, Some(end)}
  }

  /**
   * For a marked chart, jobs that are there already can bring about an end exactly when the job named is one of them
   * and has not ended the other way.
   */
  lemma OldJobsEndExactlyWhen(plan: Plan, rc: ReleaseChart, c: Cluster, end: JobConditionType)
    requires Installed(rc, c) && Marked(plan, rc, c) && !end.JobOther?
    ensures OldJobsCanEnd(plan, rc, c, end) <==> CanStillEnd(rc.releaseName, c, end)
  {
    var n := rc.releaseName;
    if later :| OnlyOldJobs(c, later) && StateAt(plan, rc, later, {}) == Some(Reported(end)) {
      StateMeans(plan, rc, later, {}, Reported(end));
      if FinalCondition(c.jobs[JobNameOf(n, c)].conditions).Some? {
        EarlierEndDecides(c.jobs[JobNameOf(n, c)].conditions, later.jobs[JobNameOf(n, c)].conditions);
      }
    }
    if CanStillEnd(n, c, end) { NamedJobDecides(plan, rc, c, end); }
  }

  /**
   * After a write, a success (or failure) can rest on a job that was there before it exactly when the status named a
   * job that was there, complete or open (or failed or open). If it was gone, such an end takes another job.
   */
  lemma StaleEndExactlyWhen(plan: Plan, rc: ReleaseChart, c: Cluster, faults: set<ApiCall>, end: JobConditionType)
    requires UpgradeChart(plan, rc, c, faults).cluster != c && "" !in c.jobs && !end.JobOther?
    ensures OldJobsCanEnd(plan, rc, UpgradeChart(plan, rc, c, faults).cluster, end) <==>
      CanStillEnd(rc.releaseName, c, end)
  {
    var c' := UpgradeChart(plan, rc, c, faults).cluster;
    UpgradeChartEffect(plan, rc, c, faults);
    WriteKeepsJobName(plan, rc, c, faults);
    assert JobNameOf(rc.releaseName, c') == JobNameOf(rc.releaseName, c);
    OldJobsEndExactlyWhen(plan, rc, c', end);
  }

  /**
   * A chart written while a job of an earlier install is still open succeeds when that job completes; nothing is
   * upgraded.
   */
  lemma OpenJobCounts(plan: Plan, rc: ReleaseChart, c: Cluster, faults: set<ApiCall>)
    requires UpgradeChart(plan, rc, c, faults).cluster != c && "" !in c.jobs && JobThere(rc.releaseName, c)
    requires c.jobs[JobNameOf(rc.releaseName, c)].conditions == []
    ensures var c' := UpgradeChart(plan, rc, c, faults).cluster;
      && JobThere(rc.releaseName, c')
      && var later := WithEnd(rc.releaseName, c', JobComplete);
         OnlyOldJobs(c', later) && later.releases == c.releases && StateAt(plan, rc, later, {}) == Some(ChartSucceeded)
  {
    var c' := UpgradeChart(plan, rc, c, faults).cluster;
    UpgradeChartEffect(plan, rc, c, faults);
    WriteKeepsJobName(plan, rc, c, faults);
    assert JobNameOf(rc.releaseName, c') == JobNameOf(rc.releaseName, c);
    NamedJobDecides(plan, rc, c', JobComplete);
  }

  // ---- over runs ----

  lemma ChartPassKeepsJobNames(plan: Plan, entry: ReleaseChart, c: Cluster, faults: set<ApiCall>)
    ensures var c' := ChartPass(plan, entry, c, faults).cluster;
      c'.jobs == c.jobs && forall n :: JobNameOf(n, c') == JobNameOf(n, c)
  {
    if ChartPass(plan, entry, c, faults).cluster != c {
      var k := ChartPassWrite(plan, entry, c, faults);
      WriteKeepsJobName(plan, Positions(entry)[k], c, faults);
    }
  }

  lemma OtherWritesKeepJobs(c: Cluster, c': Cluster, o: Object)
    requires OnlyWrites(c, c', o)
    ensures c'.jobs == c.jobs
  {
  }

  lemma PassKeepsJobNames(plan: Plan, c: Cluster, env: Env)
    requires StoredSelectors(plan, c)
    ensures var c' := NormalPass(plan, c, env).cluster;
      c'.jobs == c.jobs && forall n :: JobNameOf(n, c') == JobNameOf(n, c)
  {
    var c' := NormalPass(plan, c, env).cluster;
    if StageOf(plan, c, env).ChartStage? {
      PassOfStage(plan, c, env);
      ChartPassKeepsJobNames(plan, Manifest(plan, c).value.charts[StageOf(plan, c, env).i], c, env.faults);
    } else if c' != c {
      if c'.charts != c.charts { ChartsComeInOrder(plan, c, env); }
      var o := OneObjectPerPass(plan, c, env);
      OtherWritesKeepJobs(c, c', o);
    }
  }

  predicate JobDone(w: World, n: string) {
    JobEndedAs(n, w.store.cluster, JobComplete)
  }

  /** Only the cluster itself starts and ends jobs and names them in the status of a HelmChart. */
  lemma OnlyOthersTouchJobs(ctx: Context, w: World, a: Action, w': World, n: string)
    requires Inv(ctx, w) && Next(ctx, w, a, w') && !a.Elsewhere?
    ensures w'.store.cluster.jobs == w.store.cluster.jobs
    ensures JobNameOf(n, w'.store.cluster) == JobNameOf(n, w.store.cluster)
  {
    if a.Reconciled? && Live(w.store) && w'.store.cluster != w.store.cluster {
      CreatedInNormalPass(ctx, w, a, w');
      PassKeepsJobNames(w.store.plan.value, w.store.cluster, a.env);
      assert JobNameOf(n, w'.store.cluster) == JobNameOf(n, w.store.cluster);
    }
  }

  /**
   * If the job named in the status was not there at the write, then before a success is found some step of the cluster
   * itself has made that job appear, or has had the status name one that is there.
   */
  lemma {:induction false} NewJobTakesAStepElsewhere(
    ctx: Context, ws: seq<World>, actions: seq<Action>, i: nat, j: nat, n: string) returns (k: nat)
    requires IsRun(ctx, ws, actions) && i <= j < |ws|
    requires !JobThere(n, ws[i].store.cluster) && JobThere(n, ws[j].store.cluster)
    ensures i <= k < j && actions[k].Elsewhere?
    ensures !JobThere(n, ws[k].store.cluster) && JobThere(n, ws[k + 1].store.cluster)
    decreases j - i
  {
    if JobThere(n, ws[j - 1].store.cluster) {
      k := NewJobTakesAStepElsewhere(ctx, ws, actions, i, j - 1, n);
    } else {
      k := j - 1;
      InvAlways(ctx, ws, actions, k);
      assert StepAt(ctx, ws, actions, k);
      if !actions[k].Elsewhere? { OnlyOthersTouchJobs(ctx, ws[k], actions[k], ws[k + 1], n); }
    }
  }

  /** A success found after a world in which the job was not complete takes a step of the cluster that completed it. */
  lemma {:induction false} SuccessTakesAStepElsewhere(
    ctx: Context, ws: seq<World>, actions: seq<Action>, i: nat, j: nat, n: string) returns (k: nat)
    requires IsRun(ctx, ws, actions) && i <= j < |ws| && !JobDone(ws[i], n) && JobDone(ws[j], n)
    requires forall m | i <= m < j :: "" !in ws[m].store.cluster.jobs
    ensures i <= k < j && actions[k].Elsewhere? && !JobDone(ws[k], n) && JobDone(ws[k + 1], n)
    decreases j - i
  {
    if JobDone(ws[j - 1], n) {
      k := SuccessTakesAStepElsewhere(ctx, ws, actions, i, j - 1, n);
    } else {
      k := j - 1;
      InvAlways(ctx, ws, actions, k);
      assert StepAt(ctx, ws, actions, k);
      if !actions[k].Elsewhere? { OnlyOthersTouchJobs(ctx, ws[k], actions[k], ws[k + 1], n); }
    }
  }
}
