/** What the end of a chart entry says about its charts, and what it does not say about the jobs behind it. */
module ChartOutcomes {
  import opened Prelude
  import opened Api
  import opened Pass
  import opened Reconcile
  import opened Stages
  import opened ChartContents
  import opened PassStages
  import opened PassEffects
  import opened PassGuarantees
  import opened Runs
  import opened RunInvariants
  import opened RunTheorems

  // ---- one chart ----

  /** The job the status of the HelmChart names is there, and its first final condition is the one given. */
  predicate JobEndedAs(name: string, c: Cluster, end: JobConditionType) {
    && name in c.charts && c.charts[name].jobName in c.jobs
    && FinalCondition(c.jobs[c.charts[name].jobName].conditions) == Some(end)
  }

  /** The HelmChart is at the version wanted and annotated with the release asked for. */
  predicate Marked(plan: Plan, rc: ReleaseChart, c: Cluster) {
    && rc.releaseName in c.charts && c.charts[rc.releaseName].version == rc.version
    && Annotation(c.charts[rc.releaseName]) == plan.spec.releaseVersion
  }

  predicate Installed(rc: ReleaseChart, c: Cluster) {
    rc.releaseName in c.releases
  }

  /** At the version wanted without this upgrade having brought it there. */
  predicate AlreadyThere(plan: Plan, rc: ReleaseChart, c: Cluster) {
    Installed(rc, c) &&
    if rc.releaseName in c.charts then c.charts[rc.releaseName].version == rc.version && !Marked(plan, rc, c)
    else c.releases[rc.releaseName].version == rc.version
  }

  /** What the four states that end a chart say about the cluster. */
  predicate Means(plan: Plan, rc: ReleaseChart, c: Cluster, s: ChartState) {
    match s
    case NotInstalled => !Installed(rc, c)
    case VersionAlreadyInstalled => AlreadyThere(plan, rc, c)
    case ChartSucceeded => Installed(rc, c) && Marked(plan, rc, c) && JobEndedAs(rc.releaseName, c, JobComplete)
    case ChartFailed => Installed(rc, c) && Marked(plan, rc, c) && JobEndedAs(rc.releaseName, c, JobFailed)
    case _ => false
  }

  const EndStates: set<ChartState> := {NotInstalled, VersionAlreadyInstalled, ChartSucceeded, ChartFailed}

  lemma {:induction false} FinalIsCompleteOrFailed(conditions: seq<JobCondition>)
    ensures FinalCondition(conditions) in {None, Some(JobComplete), Some(JobFailed)}
  {
    if conditions != [] { FinalIsCompleteOrFailed(conditions[1..]); }
  }

  /** A reported end says what it means, and without faults what it means is reported. */
  lemma StateMeans(plan: Plan, rc: ReleaseChart, c: Cluster, faults: set<ApiCall>, s: ChartState)
    requires s in EndStates
    ensures StateAt(plan, rc, c, faults) == Some(s) ==> Means(plan, rc, c, s)
    ensures faults == {} && Means(plan, rc, c, s) ==> StateAt(plan, rc, c, faults) == Some(s)
  {
    if rc.releaseName in c.charts && c.charts[rc.releaseName].jobName in c.jobs {
      FinalIsCompleteOrFailed(c.jobs[c.charts[rc.releaseName].jobName].conditions);
    }
  }

  /** The chart is at another version than the one wanted, whether it has a HelmChart or not. */
  predicate AtAnotherVersion(rc: ReleaseChart, c: Cluster) {
    Installed(rc, c) &&
    if rc.releaseName in c.charts then c.charts[rc.releaseName].version != rc.version
    else c.releases[rc.releaseName].version != rc.version
  }

  /** Some part of the values to be written does not parse. */
  predicate ValuesRefused(plan: Plan, rc: ReleaseChart, c: Cluster) {
    || rc.values.Malformed? || UserValues(plan.spec.helm, rc.name).Malformed?
    || (rc.releaseName in c.charts && c.charts[rc.releaseName].values.Malformed?)
  }

  /** The states that do not end a chart: written or waiting for its job, without a job, or not to be written. */
  lemma OtherStatesMean(plan: Plan, rc: ReleaseChart, c: Cluster)
    ensures StateAt(plan, rc, c, {}) == None <==> AtAnotherVersion(rc, c) && ValuesRefused(plan, rc, c)
    ensures StateAt(plan, rc, c, {}) == Some(UnknownState) <==>
      Installed(rc, c) && Marked(plan, rc, c) && c.charts[rc.releaseName].jobName !in c.jobs
    ensures StateAt(plan, rc, c, {}) == Some(ChartInProgress) <==>
      || (AtAnotherVersion(rc, c) && !ValuesRefused(plan, rc, c))
      || (Installed(rc, c) && Marked(plan, rc, c) && c.charts[rc.releaseName].jobName in c.jobs
          && FinalCondition(c.jobs[c.charts[rc.releaseName].jobName].conditions) == None)
    ensures UpgradeChart(plan, rc, c, {}).cluster != c ==> AtAnotherVersion(rc, c) && !ValuesRefused(plan, rc, c)
  {
    if rc.releaseName in c.releases {
      if rc.releaseName in c.charts {
        UpdatedChartMeans(plan, rc, c.charts[rc.releaseName]);
      } else {
        NewChartMeans(plan, rc, c.releases[rc.releaseName]);
      }
    }
  }

  // ---- one entry ----

  /** The first `n` dependencies are at their versions, brought there by this upgrade or before it. */
  predicate DependenciesReady(plan: Plan, entry: ReleaseChart, c: Cluster, n: nat)
    requires n <= |entry.dependencyCharts|
  {
    forall k | 0 <= k < n ::
      Means(plan, entry.dependencyCharts[k], c, ChartSucceeded) ||
      Means(plan, entry.dependencyCharts[k], c, VersionAlreadyInstalled)
  }

  /** Every add-on has come to an end, if only by failing or by not being installed. */
  ghost predicate AddonsEnded(plan: Plan, entry: ReleaseChart, c: Cluster) {
    forall k | 0 <= k < |entry.addonCharts| :: exists s :: s in EndStates && Means(plan, entry.addonCharts[k], c, s)
  }

  /** The dependency that ended the entry, all before it being ready. */
  ghost predicate DependencyEnded(plan: Plan, entry: ReleaseChart, c: Cluster, s: ChartState) {
    exists k | 0 <= k < |entry.dependencyCharts| ::
      DependenciesReady(plan, entry, c, k) && Means(plan, entry.dependencyCharts[k], c, s)
  }

  /** What the condition an entry ends with says about all of its charts. */
  ghost predicate EndMeans(plan: Plan, entry: ReleaseChart, c: Cluster, x: Condition) {
    var ready := DependenciesReady(plan, entry, c, |entry.dependencyCharts|);
    || (x == SuccessfulCondition && ready && Means(plan, entry, c, ChartSucceeded) && AddonsEnded(plan, entry, c))
    || (x == SkippedCondition &&
        ((ready && Means(plan, entry, c, VersionAlreadyInstalled) && AddonsEnded(plan, entry, c))
         || (entry.dependencyCharts == [] && Means(plan, entry, c, NotInstalled))
         || DependencyEnded(plan, entry, c, NotInstalled)))
    || (x == FailedCondition &&
        ((ready && Means(plan, entry, c, ChartFailed))
         || (ready && entry.dependencyCharts != [] && Means(plan, entry, c, NotInstalled))
         || DependencyEnded(plan, entry, c, ChartFailed)))
  }

  /** The pass ends an entry that had not ended, with condition `x`. */
  ghost predicate EndsWith(plan: Plan, entry: ReleaseChart, p: Pass, x: Condition) {
    && !ChartFinished(plan.status, ChartType(entry)) && ChartFinished(p.status, ChartType(entry))
    && p.status.conditions[ChartType(entry)] == x
  }

  lemma ReachedMeansReady(plan: Plan, entry: ReleaseChart, k: nat, c: Cluster, faults: set<ApiCall>)
    requires k <= |entry.dependencyCharts| && Reaches(plan, entry, k, c, faults)
    ensures DependenciesReady(plan, entry, c, k)
  {
    forall j | 0 <= j < k
      ensures Means(plan, entry.dependencyCharts[j], c, ChartSucceeded) ||
        Means(plan, entry.dependencyCharts[j], c, VersionAlreadyInstalled)
    {
      assert LetsPass(plan, entry, j, c, faults) && Positions(entry)[j] == entry.dependencyCharts[j];
      StateMeans(plan, entry.dependencyCharts[j], c, faults, StateAt(plan, entry.dependencyCharts[j], c, faults).value);
    }
  }

  lemma WalkedMeansEnded(plan: Plan, entry: ReleaseChart, c: Cluster, faults: set<ApiCall>)
    requires Reaches(plan, entry, |Positions(entry)|, c, faults)
    ensures AddonsEnded(plan, entry, c)
  {
    var d := |entry.dependencyCharts|;
    forall j | 0 <= j < |entry.addonCharts|
      ensures exists s :: s in EndStates && Means(plan, entry.addonCharts[j], c, s)
    {
      assert LetsPass(plan, entry, d + 1 + j, c, faults) && Positions(entry)[d + 1 + j] == entry.addonCharts[j];
      StateMeans(plan, entry.addonCharts[j], c, faults, StateAt(plan, entry.addonCharts[j], c, faults).value);
    }
  }

  /** However an entry ends, and whatever calls fail: nothing is written, and its condition means what it says. */
  lemma EntryEndMeans(plan: Plan, entry: ReleaseChart, c: Cluster, faults: set<ApiCall>, x: Condition)
    requires EndsWith(plan, entry, ChartPass(plan, entry, c, faults), x)
    ensures ChartPass(plan, entry, c, faults).cluster == c && EndMeans(plan, entry, c, x)
  {
    var all, d := Positions(entry), |entry.dependencyCharts|;
    var k := ChartPassEndsAt(plan, entry, c, faults);
    assert all[d] == entry;
    if k < |all| {
      var s := StateAt(plan, all[k], c, faults).value;
      UpgradeChartEffect(plan, all[k], c, faults);
      ReachedMeansReady(plan, entry, k, c, faults);
      StateMeans(plan, all[k], c, faults, s);
    } else {
      assert LetsPass(plan, entry, d, c, faults);
      ReachedMeansReady(plan, entry, d, c, faults);
      WalkedMeansEnded(plan, entry, c, faults);
      StateMeans(plan, entry, c, faults, StateAt(plan, entry, c, faults).value);
    }
  }

  lemma ReadyMeansPassed(plan: Plan, entry: ReleaseChart, c: Cluster, n: nat)
    requires n <= |entry.dependencyCharts| && DependenciesReady(plan, entry, c, n)
    ensures Reaches(plan, entry, n, c, {})
  {
    forall j | 0 <= j < n ensures LetsPass(plan, entry, j, c, {}) {
      assert Positions(entry)[j] == entry.dependencyCharts[j];
      StateMeans(plan, entry.dependencyCharts[j], c, {}, ChartSucceeded);
      StateMeans(plan, entry.dependencyCharts[j], c, {}, VersionAlreadyInstalled);
    }
  }

  lemma EndedMeansWalked(plan: Plan, entry: ReleaseChart, c: Cluster)
    requires Reaches(plan, entry, |entry.dependencyCharts| + 1, c, {}) && AddonsEnded(plan, entry, c)
    ensures Reaches(plan, entry, |Positions(entry)|, c, {})
  {
    var d := |entry.dependencyCharts|;
    forall j | 0 <= j < |Positions(entry)| ensures LetsPass(plan, entry, j, c, {}) {
      if j > d {
        assert Positions(entry)[j] == entry.addonCharts[j - d - 1];
        var s :| s in EndStates && Means(plan, entry.addonCharts[j - d - 1], c, s);
        StateMeans(plan, entry.addonCharts[j - d - 1], c, {}, s);
      }
    }
  }

  /** A walk that reaches a position it does not pass ends there. */
  lemma EndsWhereStopped(plan: Plan, entry: ReleaseChart, n: nat, c: Cluster)
    requires n <= |Positions(entry)| && Reaches(plan, entry, n, c, {})
    requires n < |Positions(entry)| ==> !LetsPass(plan, entry, n, c, {})
    ensures EndsAt(plan, entry, n, c, {}, ChartPass(plan, entry, c, {}))
  {
    var k := ChartPassEndsAt(plan, entry, c, {});
  }

  lemma DependencyEnds(plan: Plan, entry: ReleaseChart, c: Cluster, s: ChartState)
    requires !ChartFinished(plan.status, ChartType(entry)) && DependencyEnded(plan, entry, c, s)
    requires s in {NotInstalled, ChartFailed}
    ensures EndsWith(plan, entry, ChartPass(plan, entry, c, {}), Evaluate(s).0)
  {
    var k: nat :| k < |entry.dependencyCharts| && DependenciesReady(plan, entry, c, k) &&
      Means(plan, entry.dependencyCharts[k], c, s);
    assert Positions(entry)[k] == entry.dependencyCharts[k];
    ReadyMeansPassed(plan, entry, c, k);
    StateMeans(plan, entry.dependencyCharts[k], c, {}, s);
    EndsWhereStopped(plan, entry, k, c);
  }

  lemma CoreEnds(plan: Plan, entry: ReleaseChart, c: Cluster, s: ChartState)
    requires !ChartFinished(plan.status, ChartType(entry)) && s in EndStates && Means(plan, entry, c, s)
    requires DependenciesReady(plan, entry, c, |entry.dependencyCharts|) && (Ready(s) ==> AddonsEnded(plan, entry, c))
    ensures EndsWith(plan, entry, ChartPass(plan, entry, c, {}),
      if s.NotInstalled? && entry.dependencyCharts != [] then FailedCondition else Evaluate(s).0)
  {
    var d := |entry.dependencyCharts|;
    assert Positions(entry)[d] == entry;
    ReadyMeansPassed(plan, entry, c, d);
    StateMeans(plan, entry, c, {}, s);
    if Ready(s) {
      EndedMeansWalked(plan, entry, c);
      EndsWhereStopped(plan, entry, |Positions(entry)|, c);
    } else {
      EndsWhereStopped(plan, entry, d, c);
    }
  }

  /** Without faults a pass ends an entry with a condition exactly when the charts are as that condition says. */
  lemma EntryEndsExactlyAs(plan: Plan, entry: ReleaseChart, c: Cluster, x: Condition)
    requires !ChartFinished(plan.status, ChartType(entry))
    ensures EndsWith(plan, entry, ChartPass(plan, entry, c, {}), x) <==> EndMeans(plan, entry, c, x)
  {
    if EndsWith(plan, entry, ChartPass(plan, entry, c, {}), x) { EntryEndMeans(plan, entry, c, {}, x); }
    if EndMeans(plan, entry, c, x) {
      if DependencyEnded(plan, entry, c, NotInstalled) && x == SkippedCondition {
        DependencyEnds(plan, entry, c, NotInstalled);
      } else if DependencyEnded(plan, entry, c, ChartFailed) && x == FailedCondition {
        DependencyEnds(plan, entry, c, ChartFailed);
      } else {
        var s :| s in EndStates && Means(plan, entry, c, s);
        CoreEnds(plan, entry, c, s);
      }
    }
  }

  // ---- over runs ----

  /** In step `j` a pass over the stored plan ends entry `n` of its manifest, which has condition type `t`. */
  ghost predicate EndsEntryAt(w: World, a: Action, w': World, n: nat, t: string) {
    && a.Reconciled? && NormalPassed(w, a.env, w') && Manifest(w.store.plan.value, w.store.cluster).Some?
    && var plan, c := w.store.plan.value, w.store.cluster;
       var charts := Manifest(plan, c).value.charts;
       && n < |charts| && ChartType(charts[n]) == t && !ChartFinished(plan.status, t)
       && t in w'.store.plan.value.status.conditions
       && EndMeans(plan, charts[n], c, w'.store.plan.value.status.conditions[t])
  }

  /** Condition type `t` is that of a chart the generation observed tracks. */
  ghost predicate TracksChart(w: World, t: string) {
    w.store.plan.Some? && t in w.tracked && t !in {OsUpgraded, KubernetesUpgraded, ValidationFailed}
  }

  lemma ChartTurnsFinished(ctx: Context, w: World, a: Action, w': World, t: string) returns (n: nat)
    requires Inv(ctx, w) && Next(ctx, w, a, w') && w.store.plan.Some? && TracksChart(w', t)
    requires !ChartFinished(w.store.plan.value.status, t) && ChartFinished(w'.store.plan.value.status, t)
    ensures EndsEntryAt(w, a, w', n, t) && Observed(w'.store) == Observed(w.store)
  {
    StatusChangesInPasses(ctx, w, a, w');
    var plan, c := w.store.plan.value, w.store.cluster;
    PassStatus(plan, c, a.env);
    var s := StageOf(plan, c, a.env);
    assert s.ChartStage?;
    n := s.i;
    PassOfStage(plan, c, a.env);
    EntryEndMeans(plan, Manifest(plan, c).value.charts[n], c, a.env.faults, w'.store.plan.value.status.conditions[t]);
  }

  /** A reset makes every tracked chart pending, so a chart found ended before and after a step saw none. */
  lemma FinishedBefore(ctx: Context, w: World, a: Action, w': World, t: string)
    requires Inv(ctx, w) && Next(ctx, w, a, w') && w.store.plan.Some? && TracksChart(w', t)
    requires ChartFinished(w.store.plan.value.status, t) && ChartFinished(w'.store.plan.value.status, t)
    ensures Observed(w'.store) == Observed(w.store) && w'.tracked == w.tracked
    ensures w'.store.plan.value.status.conditions[t] == w.store.plan.value.status.conditions[t]
  {
    if w'.store.plan.value.status != w.store.plan.value.status {
      StatusChangesInPasses(ctx, w, a, w');
      PassStatus(w.store.plan.value, w.store.cluster, a.env);
      if Observed(w'.store) == Observed(w.store) {
        TerminalConditionsStay(w.store.plan.value, w.store.cluster, a.env, t);
      }
    }
  }

  ghost predicate FoundEnded(w: World, t: string) {
    TracksChart(w, t) && ChartFinished(w.store.plan.value.status, t)
  }

  function ConditionAt(s: Store, t: string): Option<Condition> {
    if s.plan.Some? && t in s.plan.value.status.conditions then Some(s.plan.value.status.conditions[t]) else None
  }

  ghost predicate SameEnd(w: World, w': World, t: string) {
    && w.store.plan.Some? && w'.store.plan.Some? && Observed(w'.store) == Observed(w.store)
    && ConditionAt(w'.store, t) == ConditionAt(w.store, t)
  }

  /** Between the two worlds the chart condition ends, in one generation. */
  ghost predicate TurnsEnded(w: World, w': World, t: string) {
    && w.store.plan.Some? && FoundEnded(w', t) && Observed(w'.store) == Observed(w.store)
    && !ChartFinished(w.store.plan.value.status, t)
  }

  /** What is found ended was so a step before, in the same generation, or is ended by that step. */
  lemma ChartStep(ctx: Context, w: World, a: Action, w': World, t: string)
    requires Inv(ctx, w) && Next(ctx, w, a, w') && FoundEnded(w', t)
    ensures (FoundEnded(w, t) && SameEnd(w, w', t)) || TurnsEnded(w, w', t)
  {
    PlanStoredBefore(ctx, w, a, w');
    if ChartFinished(w.store.plan.value.status, t) {
      FinishedBefore(ctx, w, a, w', t);
    } else {
      var n := ChartTurnsFinished(ctx, w, a, w', t);
    }
  }

  lemma ChartStepIn(ctx: Context, ws: seq<World>, actions: seq<Action>, i: nat, t: string)
    requires IsRun(ctx, ws, actions) && i < |ws| && FoundEnded(ws[i], t)
    ensures i > 0 && ((FoundEnded(ws[i - 1], t) && SameEnd(ws[i - 1], ws[i], t)) || TurnsEnded(ws[i - 1], ws[i], t))
  {
    InvAlways(ctx, ws, actions, i - 1);
    assert StepAt(ctx, ws, actions, i - 1);
    ChartStep(ctx, ws[i - 1], actions[i - 1], ws[i], t);
  }

  lemma {:induction false} EndIsRecorded(ctx: Context, ws: seq<World>, actions: seq<Action>, i: nat, t: string)
    returns (j: nat)
    requires IsRun(ctx, ws, actions) && i < |ws| && FoundEnded(ws[i], t)
    ensures j < i && TurnsEnded(ws[j], ws[j + 1], t) && ConditionAt(ws[j + 1].store, t) == ConditionAt(ws[i].store, t)
    ensures Stored(ws, j, i) && forall k | j <= k <= i :: Observed(ws[k].store) == Observed(ws[i].store)
  {
    ChartStepIn(ctx, ws, actions, i, t);
    if TurnsEnded(ws[i - 1], ws[i], t) {
      j := i - 1;
    } else {
      j := EndIsRecorded(ctx, ws, actions, i - 1, t);
    }
  }

  /**
   * A chart condition found ended was so recorded by an earlier pass of the same observed generation, and the cluster
   * of that pass was as the condition says, for every chart of the entry.
   */
  lemma ChartEndHasAPass(ctx: Context, ws: seq<World>, actions: seq<Action>, i: nat, t: string) returns (j: nat, n: nat)
    requires IsRun(ctx, ws, actions) && i < |ws| && FoundEnded(ws[i], t)
    ensures j < i && EndsEntryAt(ws[j], actions[j], ws[j + 1], n, t)
    ensures ConditionAt(ws[j + 1].store, t) == ConditionAt(ws[i].store, t) &&
      Observed(ws[j].store) == Observed(ws[i].store)
  {
    j := EndIsRecorded(ctx, ws, actions, i, t);
    InvAlways(ctx, ws, actions, j);
    assert StepAt(ctx, ws, actions, j);
    n := ChartTurnsFinished(ctx, ws[j], actions[j], ws[j + 1], t);
  }
}
