/** What a HelmChart holds once a pass has written it, field by field and value by value. */
module ChartContents {
  import opened Prelude
  import opened Api
  import opened Pass
  import opened Values

  // ---- reading lists ----

  /** Place `i` is the first that gives values for the chart. */
  predicate FirstFor(helm: seq<ChartValues>, chart: string, i: int) {
    0 <= i < |helm| && helm[i].chart == chart && forall j | 0 <= j < i :: helm[j].chart != chart
  }

  /** The user values of a chart are the ones given first for it, and none if none are given. */
  lemma {:induction false} UserValuesMean(helm: seq<ChartValues>, chart: string)
    ensures forall i :: FirstFor(helm, chart, i) ==> UserValues(helm, chart) == helm[i].values
    ensures (forall i | 0 <= i < |helm| :: helm[i].chart != chart) ==> UserValues(helm, chart) == Absent
  {
    if helm != [] && helm[0].chart != chart {
      var rest := helm[1..];
      UserValuesMean(rest, chart);
      assert forall i | 0 <= i < |rest| :: rest[i] == helm[i + 1];
      forall i | FirstFor(helm, chart, i) ensures UserValues(helm, chart) == helm[i].values {
        assert FirstFor(rest, chart, i - 1);
      }
    }
  }

  /** The condition that holds, is final, and has none such before it. */
  predicate FirstFinalAt(conditions: seq<JobCondition>, i: int) {
    && 0 <= i < |conditions| && conditions[i].status == True && conditions[i].ctype in {JobComplete, JobFailed}
    && forall j | 0 <= j < i :: conditions[j].status != True || conditions[j].ctype !in {JobComplete, JobFailed}
  }

  /** A job has ended as its first final condition says, and not at all if it has none. */
  lemma {:induction false} FinalConditionMeans(conditions: seq<JobCondition>, t: JobConditionType)
    ensures FinalCondition(conditions) == Some(t) <==>
      exists i :: FirstFinalAt(conditions, i) && conditions[i].ctype == t
    ensures FinalCondition(conditions) == None <==> forall i :: !FirstFinalAt(conditions, i)
  {
    if conditions != [] {
      if conditions[0].status == True && !conditions[0].ctype.JobOther? {
        assert FirstFinalAt(conditions, 0);
      } else {
        var rest := conditions[1..];
        FinalConditionMeans(rest, t);
        assert forall i | 0 <= i < |rest| :: rest[i] == conditions[i + 1];
        forall i ensures FirstFinalAt(rest, i) <==> FirstFinalAt(conditions, i + 1) {
        }
        forall i | FirstFinalAt(conditions, i) ensures FirstFinalAt(rest, i - 1) {
          assert FirstFinalAt(conditions, (i - 1) + 1);
        }
      }
    }
  }

  /** The manifest found is the first listed one of the version, and none exactly when none is listed. */
  lemma {:induction false} FindManifestMeans(manifests: seq<Release>, version: string)
    ensures FindManifest(manifests, version) == None <==>
      forall i | 0 <= i < |manifests| :: manifests[i].releaseVersion != version
    ensures forall i | 0 <= i < |manifests| && manifests[i].releaseVersion == version &&
      (forall j | 0 <= j < i :: manifests[j].releaseVersion != version) ::
        FindManifest(manifests, version) == Some(manifests[i])
  {
    if manifests != [] && manifests[0].releaseVersion != version {
      var rest := manifests[1..];
      FindManifestMeans(rest, version);
      assert forall i | 0 <= i < |rest| :: rest[i] == manifests[i + 1];
      forall i | 0 <= i < |manifests| && manifests[i].releaseVersion == version &&
        (forall j | 0 <= j < i :: manifests[j].releaseVersion != version)
        ensures FindManifest(manifests, version) == Some(manifests[i])
      {
        assert rest[i - 1] == manifests[i] && forall j | 0 <= j < i - 1 :: rest[j].releaseVersion != version;
      }
    }
  }

  /** The release a HelmChart is annotated with; without the annotation it is no release at all. */
  lemma AnnotationMeans(chart: ChartResource)
    ensures "lifecycle.suse.com/release" in chart.annotations ==>
      Annotation(chart) == chart.annotations["lifecycle.suse.com/release"]
    ensures "lifecycle.suse.com/release" !in chart.annotations ==> Annotation(chart) == ""
  {
  }

  // ---- what is written ----

  /**
   * At every path: the user's leaf, else the release's if the user spares the path, else the installed one if both do.
   */
  ghost predicate LaidInOrder(written: Raw, installed: Raw, release: Raw, user: Raw) {
    forall path: seq<string>, x: int | path != [] ::
      LookupRaw(written, path) == Some(Leaf(x)) <==>
        || LookupRaw(user, path) == Some(Leaf(x))
        || (SparesRaw(user, path) && LookupRaw(release, path) == Some(Leaf(x)))
        || (SparesRaw(user, path) && SparesRaw(release, path) && LookupRaw(installed, path) == Some(Leaf(x)))
  }

  lemma ValuesLaidInOrder(installed: Installed, release: Raw, user: Raw)
    requires HelmValues(installed, release, user).Some?
    ensures LaidInOrder(HelmValues(installed, release, user).value, InstalledRaw(installed), release, user)
  {
    forall path: seq<string> | path != []
      ensures forall x: int :: LookupRaw(HelmValues(installed, release, user).value, path) == Some(Leaf(x)) <==>
        || LookupRaw(user, path) == Some(Leaf(x))
        || (SparesRaw(user, path) && LookupRaw(release, path) == Some(Leaf(x)))
        || (SparesRaw(user, path) && SparesRaw(release, path) &&
          LookupRaw(InstalledRaw(installed), path) == Some(Leaf(x)))
    {
      HelmValuesPathSemantics(installed, release, user, path);
    }
  }

  /** Chart, repository, version and retries are those of the manifest and of nothing else. */
  predicate NamesChart(chart: ChartResource, rc: ReleaseChart) {
    && chart.chart == rc.name && chart.repo == rc.repository && chart.version == rc.version
    && chart.chartContent == "" && chart.backOffLimit == Some(6)
  }

  /** A chart created for an installed release: in the namespace of the release, over the values of the release. */
  lemma NewChartMeans(plan: Plan, rc: ReleaseChart, installed: HelmRelease)
    ensures NewChart(plan, rc, installed).None? <==>
      rc.values.Malformed? || UserValues(plan.spec.helm, rc.name).Malformed?
    ensures NewChart(plan, rc, installed).Some? ==>
      var chart := NewChart(plan, rc, installed).value;
      && NamesChart(chart, rc) && chart.targetNamespace == installed.namespace && chart.jobName == ""
      && chart.annotations == map[ReleaseAnnotation := plan.spec.releaseVersion]
      && OwnedBy(chart.labels, plan) && chart.labels.Keys == {PlanNameLabel, PlanNamespaceLabel}
      && LaidInOrder(chart.values, Parsed(installed.config), rc.values, UserValues(plan.spec.helm, rc.name))
  {
    HelmValuesFailExactlyWhen(FromRelease(installed.config), rc.values, UserValues(plan.spec.helm, rc.name));
    assert PlanNameLabel != PlanNamespaceLabel by { assert |PlanNameLabel| != |PlanNamespaceLabel|; }
    if NewChart(plan, rc, installed).Some? {
      ValuesLaidInOrder(FromRelease(installed.config), rc.values, UserValues(plan.spec.helm, rc.name));
    }
  }

  /** A chart updated in place: over the values it had, with its namespace, job and other labels left alone. */
  lemma UpdatedChartMeans(plan: Plan, rc: ReleaseChart, was: ChartResource)
    ensures UpdatedChart(plan, rc, was).None? <==>
      was.values.Malformed? || rc.values.Malformed? || UserValues(plan.spec.helm, rc.name).Malformed?
    ensures UpdatedChart(plan, rc, was).Some? ==>
      var chart := UpdatedChart(plan, rc, was).value;
      && NamesChart(chart, rc) && chart.targetNamespace == was.targetNamespace && chart.jobName == was.jobName
      && Annotation(chart) == plan.spec.releaseVersion && OwnedBy(chart.labels, plan)
      && (forall k | k in was.labels && k !in {PlanNameLabel, PlanNamespaceLabel} ::
            k in chart.labels && chart.labels[k] == was.labels[k])
      && (forall k | k in was.annotations && k != ReleaseAnnotation ::
            k in chart.annotations && chart.annotations[k] == was.annotations[k])
      && LaidInOrder(chart.values, was.values, rc.values, UserValues(plan.spec.helm, rc.name))
  {
    HelmValuesFailExactlyWhen(FromChart(was.values), rc.values, UserValues(plan.spec.helm, rc.name));
    assert PlanNameLabel != PlanNamespaceLabel by { assert |PlanNameLabel| != |PlanNamespaceLabel|; }
    if UpdatedChart(plan, rc, was).Some? {
      ValuesLaidInOrder(FromChart(was.values), rc.values, UserValues(plan.spec.helm, rc.name));
    }
  }

  /**
   * Whatever a chart call writes names the manifest's chart, and has its values laid in order over what was installed.
   */
  lemma WrittenChartMeans(plan: Plan, rc: ReleaseChart, c: Cluster, faults: set<ApiCall>)
    requires UpgradeChart(plan, rc, c, faults).cluster != c
    ensures rc.releaseName in c.releases && rc.releaseName in UpgradeChart(plan, rc, c, faults).cluster.charts
    ensures var n, chart := rc.releaseName, UpgradeChart(plan, rc, c, faults).cluster.charts[rc.releaseName];
      && NamesChart(chart, rc) && OwnedBy(chart.labels, plan) && Annotation(chart) == plan.spec.releaseVersion
      && chart.targetNamespace == (if n in c.charts then c.charts[n].targetNamespace else c.releases[n].namespace)
      && LaidInOrder(chart.values, if n in c.charts then c.charts[n].values else Parsed(c.releases[n].config),
        rc.values,
           UserValues(plan.spec.helm, rc.name))
  {
    var n := rc.releaseName;
    if n in c.charts {
      UpdatedChartMeans(plan, rc, c.charts[n]);
    } else {
      NewChartMeans(plan, rc, c.releases[n]);
    }
  }
}
