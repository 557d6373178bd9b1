# Upgrade controller: model and proofs

This project models the UpgradePlan controller: the reconcile loop that takes a Kubernetes cluster through an
operating system upgrade, then a Kubernetes upgrade, then a list of Helm chart upgrades, together with the admission
webhook that decides which edits of an upgrade plan may start a new generation.

## How it is built

- **Values.** `Api` holds the objects, `Nodes`, `Names`, `Containers`, `Values` and `Webhook` the decisions on them.
- **One pass as a function.** `Pass` says what one reconcile of a live plan makes of the status and the cluster it
  reads, given which API calls fail and which random bytes are drawn. `Reconcile` adds deletion, finalizers and the
  status write, which may be lost after objects have been written. It is a relation, since objects are listed in no
  fixed order when they are deleted.
- **The controller as it works.** `Client`, `Builders`, `NodeStages`, `ChartStages` and `Controller` hold the same code
  on objects that are updated in place: an upgrade plan in memory, a server whose cluster is written as the pass goes,
  the label map the plan builders share and write to. `ValuesHeap` holds the values merge on aliased maps. Each method
  is proved to do what `Pass` and `Reconcile` say, so the theorems below are about what these methods do.
- **Theorems on one pass.** `Stages` follows a node stage and a chart entry, `PassStages` which of them a pass gets to,
  `PassEffects` what a pass may write and set, `PassGuarantees` what follows from that. `ChartOutcomes` and `ChartJobs`
  say what the end of a chart entry tells about its charts and about the jobs behind them. `Components`, `ChartContents`,
  `PlanContents` and `Outcomes` say, without the functions that compute it, when a component counts as upgraded, what
  written charts and plans hold, and how a pass ends.
- **Theorems on runs.** `Runs` lets passes, users, the webhook and the rest of the cluster take turns in any order,
  `RunInvariants` proves the invariant of all of these steps, `RunTheorems` and `Creations` what follows for whole
  runs. `Completion` has the termination measure, `RunCompletion` the bound over runs, `EntryVersions` the exact
  condition behind it, `Deletions` the progress of deletion, `Wakeup` the watches and `WorkQueue` what they and the
  requeues make of an upgrade. `CalmRuns` and `SampleRuns` put together runs that show how far some guarantees go.

`dafny verify dfyconfig.toml` checks everything.

## Assumptions

- Reads are fresh, and no two reconciles of one upgrade plan overlap.
- While a live plan has its generation observed, the manifest found for it stays the same. Other manifests come and go.
- Status is written by the controller alone. The plans and secrets it created are changed by others only in the list
  of nodes a plan is being applied to; they are removed by the controller alone.
- If another owner has put a SUC plan under a name of the generation observed, it selects the role the name says.
- `version.ParseSemantic` and `Compare` are not part of this model. The parser is a parameter, and the comparison is
  precedence by section 11 of Semantic Versioning 2.0.0 on what it returns.
- Characters of names are ASCII where they are lowered. Containers of a pod template have unique names.
- For `RunCompletion`: others leave the versions of HelmCharts alone and remove no SUC plan or secret of a generation's
  names. The reconciles that are counted see no call fail and draw a suffix that differs; what was written before has
  been carried out, values parse, there is a control-plane node, and every node is of a supported architecture. All
  other reconciles may fail in any way. Release names within an entry need not differ, but have to agree on the version;
  `EntryVersions.EntryEndsExactlyWhen` shows why.
- For `Wakeup`: the upgrade plan is the only one, no object has an empty name, and a job of the Helm controller
  names its chart in a label and no upgrade plan.
- For `WorkQueue`: creations and updates of the upgrade plan are reported. Nothing else need be reported at any
  particular time.
- For `Deletions`: nobody else takes the finalizer off. As the API server does, runs admit no new finalizer on an object
  that is being deleted.
- Pretty names of charts may be equal or `OS` or `Kubernetes`; no theorem needs them to differ.

## What the proofs bring to light

- An entry that wants one release name at two versions, with all its charts installed and succeeding, is upgraded back
  and forth and never ends (`EntryVersions.EntryEndsExactlyWhen`, `EntryVersions.FlappingCourse`).
- A first node that changes its distribution within a generation makes it start the plans of both
  (`Creations.BothDistributionsStart`).
- Two kinds of pass leave a plan to itself with work undone: one over nodes of an unsupported architecture, and one that
  creates a control-plane plan while no node is in the control plane. In an otherwise quiet cluster nothing then brings
  the controller back (`Wakeup.StallsExactlyWhen`).
- A chart counts as succeeded when the job its status names is complete, even if that job is older than the update. Two
  passes in a row can end an entry in this way before anything has been upgraded (`ChartJobs.StaleJobEndsEntry`), and so
  can a job of an earlier install that is still open at the write (`ChartJobs.OpenJobCounts`). After a write a success
  can rest on such a job exactly when the job named was there and had not failed (`ChartJobs.StaleEndExactlyWhen`). If
  it was not there, the cluster has to come up with a job first (`ChartJobs.NewJobTakesAStepElsewhere`).
- The suffix is compared with the preceding one only. Generations meet in names exactly when their suffixes are equal
  (`Names.GenerationsMeetExactlyWhen`), and the first and the third can. The third then takes the plans and
  the secret of the first for its own (`SampleRuns.FirstAndThirdMeet`).
- `ValidationFailed`, once set, stays set, whatever the nodes become (`RunTheorems.ValidationFailedExactlyWhen`); a
  plan can be complete and still show it (`SampleRuns.CompletesThoughInvalid`).
- The lenient image check is exact for all that may be asked of a list only if no name is listed twice
  (`Containers.LenientExactIff`). A pod template cannot list one twice.
- Without control plane and with several workers `parseDrainOptions` still drains the control plane
  (`Nodes.DrainFollowsRedundancy`).
- Charts with one pretty name share a condition, and one named `OS` or `Kubernetes` shares that of a node stage
  (`Api.ChartConditionTypesDiffer`).
- An operating system whose stem equals that of the Kubernetes version would share its plan names
  (`Names.PlanNamesMeetExactlyWhen`, `Names.StemsCanMeet`).

## Model

| member | source | states |
|---|---|---|
| `RunCompletion.BoundedCompletion` | internal/controller/upgradeplan_controller.go:159-230 | in every run, `9 + Σ(dependencies + add-ons + 2)` cooperative reconciles of one generation leave every stage ended and the release recorded, whatever faulty, early or lost reconciles come between them, provided no entry wants one release name at two versions |
| `RunCompletion.MeasureFalls` | internal/controller/upgradeplan_controller.go:159-230 | along any undisturbed stretch of a run the upgrade is complete, or its measure is at most the bound less the cooperative reconciles so far |
| `RunCompletion.NoPassRaisesTheMeasure` | internal/controller/upgradeplan_controller.go:159-230 | no pass raises the measure, whichever calls fail, written back or lost, and a complete upgrade stays complete |
| `WorkQueue.WakesAloneComplete` | internal/controller/upgradeplan_controller.go:394-438 | with a work queue, wakes and requeues alone bring a cooperative upgrade to its end: until it is complete the plan is queued or a wake is to come, and no more reconciles than the bound are needed |
| `WorkQueue.PlanNeverForgotten` | internal/controller/upgradeplan_controller.go:394-438 | in any run of a single plan with a work queue, faults included, the stored plan is queued, has a wake to come or has nothing left to do, as long as no reconcile hits one of the two cases that leave it to itself |
| `WorkQueue.WakeEndsTheWait` | internal/controller/upgradeplan_controller.go:339-378 | a wake that happens queues the plan |
| `Completion.EveryPassProgresses` | internal/controller/upgradeplan_controller.go:159-230 | every cooperative pass over an unfinished upgrade strictly lowers the measure, and one over a finished upgrade leaves it finished |
| `Completion.EntryProgresses` | internal/controller/reconcile_helm.go:13-80 | a pass over a chart entry writes one of its missing charts, reducing those missing, or ends the entry |
| `Completion.ChartStageProgresses` | internal/controller/reconcile_helm.go:13-80 | so a pass in the chart stage lowers the measure of the whole upgrade |
| `Completion.ServedRolloutProgresses` | internal/controller/reconcile_kubernetes.go:42-107 | once started plans have been carried out, a node stage creates the next plan or succeeds |
| `Completion.OsStageProgresses` | internal/controller/reconcile_os.go:16-87 | a pass in the OS stage lowers the measure: the secret, each of the two plans and the success are one step each |
| `Completion.KubernetesStageProgresses` | internal/controller/reconcile_kubernetes.go:24-108 | the same for the Kubernetes stage, its core components included |
| `Completion.ResetProgresses` | internal/controller/upgradeplan_controller.go:187-209 | opening a generation takes the measure from its bound to strictly below it |
| `EntryVersions.EntryEndsExactlyWhen` | internal/controller/reconcile_helm.go:13-80 | the condition on versions is exact: where all charts of an entry are installed and all that is written succeeds, the passes of the bound end it if and only if it wants no release name at two versions; otherwise no number of passes does |
| `EntryVersions.FlappingCourse` | internal/controller/reconcile_helm.go:13-80 | for every length there is a course of passes, all succeeding, over an entry that wants a release name at two versions |
| `ChartOutcomes.ChartEndHasAPass` | internal/controller/upgradeplan_controller.go:219-223 | a chart condition found ended in a run was recorded by an earlier pass of the same observed generation, over a cluster that was as the condition says for every dependency, the core chart and every add-on |
| `ChartOutcomes.EntryEndsExactlyAs` | internal/controller/reconcile_helm.go:13-80 | without faults a pass ends an entry as succeeded, skipped or failed exactly when the charts of all its positions are as that condition says |
| `ChartOutcomes.EntryEndMeans` | internal/controller/reconcile_helm.go:13-80 | with faults too: an entry ends only so, and the pass that ends it writes nothing |
| `ChartOutcomes.StateMeans` | internal/controller/helm.go:235-294 | the four states that end a chart, in terms of release, version, annotation and the job its status names |
| `ChartOutcomes.OtherStatesMean` | internal/controller/helm.go:246-280 | the states that do not end a chart: written or with an open job, without a job, or refused for its values |
| `ChartContents.WrittenChartMeans` | internal/controller/helm.go:246-260 | what a chart call writes: chart, version, repository, namespace, owner and release, and the values laid in order over those installed |
| `ChartContents.UpdatedChartMeans` | internal/controller/helm.go:82-117 | an updated chart, field by field: namespace, job and other labels are kept; it fails exactly when values do not parse |
| `ChartContents.NewChartMeans` | internal/controller/helm.go:121-164 | a created chart, field by field |
| `ChartContents.UserValuesMean` | internal/controller/helm.go:85-91 | the first values given for the chart, or none |
| `ChartContents.FinalConditionMeans` | internal/controller/helm.go:272-283 | the first condition that holds and is final, by its place, or none |
| `ChartContents.FindManifestMeans` | internal/controller/release_manifest.go:27-33 | the first listed manifest of the version, by its place, or none |
| `ChartJobs.NextLookExactlyWhen` | internal/controller/helm.go:258-286 | after a chart has been written and before anybody acts on it, it is reported succeeded (or failed) exactly when its status named a completed (or failed) job already before the write |
| `ChartJobs.StaleJobEndsEntry` | internal/controller/reconcile_helm.go:49-79 | so a completed job of an earlier install lets two passes in a row end an entry whose add-on has not been upgraded |
| `ChartJobs.StaleEndExactlyWhen` | internal/controller/helm.go:258-286 | after a write a success can rest on a job that was there before it exactly when the status named a job that was there and had not failed (and a failure exactly when it had not completed), which can be read before the write |
| `ChartJobs.OldJobsEndExactlyWhen` | internal/controller/helm.go:262-293 | the same for any installed chart this upgrade has marked, over every course of the jobs that are there |
| `ChartJobs.OpenJobCounts` | internal/controller/helm.go:272-286 | a chart written while a job of an earlier install is open succeeds when that job completes, with no release changed |
| `ChartJobs.NewJobTakesAStepElsewhere` | internal/controller/helm.go:267-270 | over runs, if the job named was not there at the write, some step of the cluster itself makes it, or another named instead, appear before a success is found |
| `ChartJobs.SuccessTakesAStepElsewhere` | internal/controller/helm.go:272-284 | over runs, a success found after a world in which the job was not complete takes a step of the cluster that completed it, whether or not the job is older |
| `Wakeup.NoSilentStallInRuns` | internal/controller/upgradeplan_controller.go:394-438 | in every run with a single upgrade plan, a reconcile that is neither requeued nor retried has nothing left to do or leaves a wake that comes back to exactly that plan, but for two named cases |
| `Wakeup.NoSilentStall` | internal/controller/upgradeplan_controller.go:78-117 | the same for one reconcile from any stored state, deletes that are waiting included |
| `Wakeup.NormalPassWakes` | internal/controller/upgradeplan_controller.go:159-230 | the same for `reconcileNormal`, stage by stage |
| `Wakeup.LeftAloneIsAStall` | internal/controller/upgradeplan_controller.go:174-185 | the two cases, as the pass can be seen to be in beforehand, are stalls: in a quiet cluster it simply ends, and nothing is still to happen |
| `Wakeup.StallsExactlyWhen` | internal/controller/upgradeplan_controller.go:159-230 | in a quiet cluster those two cases are exactly the passes that end before the upgrade does and leave nothing to come |
| `Wakeup.BlockedDeleteWakes` | internal/controller/upgradeplan_controller.go:88-98 | a delete that waits for a plan being applied is taken up again when that plan no longer is |
| `Wakeup.ChartPassWakes` | internal/controller/reconcile_helm.go:13-80 | a chart pass that simply ends has left a job whose end is delivered |
| `Wakeup.ChartStepWakes` | internal/controller/helm.go:235-294 | a chart reported as running or unknown carries the labels its job is traced back by |
| `Wakeup.OsPassWakes` | internal/controller/reconcile_os.go:31-73 | an OS pass that simply ends has created the secret or a plan with nodes to apply to |
| `Wakeup.KubernetesPassWakes` | internal/controller/reconcile_kubernetes.go:42-83 | a Kubernetes pass that simply ends has created a plan with nodes to apply to |
| `Wakeup.ManifestJobPassWakes` | internal/controller/release_manifest.go:36-51 | the job that installs a missing manifest wakes its plan when it ends |
| `Wakeup.FinishedMeansFinal` | internal/controller/upgradeplan_controller.go:414-420 | the job watch waits for just what the evaluation of a chart job calls final |
| `Wakeup.OtherEventsDoNotWake` | internal/controller/upgradeplan_controller.go:395-437 | only new generations, plans that stop being applied, jobs that end, and secrets that come or change ask for a reconcile |
| `Wakeup.RequestsMean` | internal/controller/upgradeplan_controller.go:364-378 | what labels ask for |
| `Wakeup.JobRequestsMean` | internal/controller/upgradeplan_controller.go:339-362 | a job asks by its own labels, else by those of the HelmChart it names |
| `Wakeup.NewGenerationsWake` | internal/controller/upgradeplan_controller.go:395 | an edit of the spec or a deletion mark always reaches the controller |
| `Wakeup.OwnUpdatesDoNotWake` | internal/controller/upgradeplan_controller.go:395 | its own status and finalizer updates never do |
| `RunTheorems.EditsLockedMidUpgrade` | api/v1alpha1/upgradeplan_webhook.go:73-79 | while anything tracked by the observed generation of a live plan has not ended, every edit is refused |
| `RunTheorems.ResetOnlyAfterTheEnd` | internal/controller/upgradeplan_controller.go:187-210 | a generation is opened only when everything tracked by the previous one has ended, and under a different suffix of ten characters |
| `RunTheorems.NextGenerationHasFreshNames` | internal/controller/upgradeplan_controller.go:188-200 | no name of a plan or secret of one generation is a name of the next |
| `RunTheorems.FinalizerUpdatesAdmitted` | internal/controller/upgradeplan_controller.go:102-110 | the finalizer updates of the controller are never refused by the webhook |
| `RunTheorems.LastVersionNeverGoesDown` | internal/controller/upgradeplan_controller.go:228 | over any stretch of a run the last successful version is kept or replaced by one strictly above it |
| `RunTheorems.EndedConditionsStay` | internal/controller/upgradeplan_controller.go:212-223 | within one observed generation a condition that has ended never changes again |
| `RunTheorems.ValidationFailedExactlyWhen` | internal/controller/upgradeplan_controller.go:174-185 | the stored plan shows a failed validation exactly when some earlier pass over it found a node of an unsupported architecture |
| `RunTheorems.ValidationFailedStays` | internal/controller/upgradeplan_controller.go:174-185 | once set, it stays for the rest of the run, over other nodes and generations too |
| `SampleRuns.CompletesThoughInvalid` | internal/controller/upgradeplan_controller.go:174-229 | there is a run that ends complete, over supported nodes only, and still shows it |
| `RunInvariants.InvAlways` | internal/controller/upgradeplan_controller.go:78-117 | the invariant holds at every point of every run, whatever calls fail and whatever status writes are lost |
| `RunInvariants.NextKeeps` | internal/controller/upgradeplan_controller.go:78-117 | every creation, admitted edit, deletion mark, reconcile and step elsewhere keeps it |
| `RunInvariants.StatusKeeps` | internal/controller/upgradeplan_controller.go:159-230 | a pass keeps every tracked condition either ended or locking the plan |
| `RunInvariants.PassKeepsCluster` | internal/controller/upgradeplan_controller.go:159-230 | a pass adds only objects that carry their owner, and changes no plan or secret that is there |
| `RunTheorems.KubernetesStartsAfterOsSucceeded` | internal/controller/upgradeplan_controller.go:212-217 | even when status writes are lost, a Kubernetes plan is created only after an earlier pass of the same observed generation recorded OS success over a node list upgraded throughout |
| `RunTheorems.ChartsStartAfterNodes` | internal/controller/upgradeplan_controller.go:212-223 | a HelmChart is written only after OS and then Kubernetes success in two earlier passes of that generation, and in the order of the entries |
| `RunTheorems.SuccessHasAPass` | internal/controller/upgradeplan_controller.go:212-217 | a success found in the status was recorded by an earlier pass of the same observed generation |
| `RunTheorems.TurnsTrueHonestly` | internal/controller/reconcile_os.go:52-86 | that pass was in the stage concerned, and its nodes and components were all done |
| `RunTheorems.PlansCreatedOnce` | internal/controller/reconcile_kubernetes.go:42-83 | while the upgrade plan lives no SUC plan is created twice |
| `RunTheorems.SecretsCreatedOnce` | internal/controller/reconcile_os.go:31-37 | nor is any secret |
| `Creations.SixPlansAndOneSecret` | internal/controller/reconcile_os.go:26-73 | all a generation creates bears one of six plan names or the one secret name, fixed when it was opened: two names for the operating system and two for either distribution |
| `Creations.FourPlansOfOneDistribution` | internal/controller/reconcile_kubernetes.go:32-83 | four names, as long as the first node keeps its distribution |
| `Creations.BothDistributionsStart` | internal/controller/reconcile_kubernetes.go:179-194 | a first node that goes from one distribution to the other makes one generation start the control-plane plans of both |
| `Creations.RunFollows` | internal/controller/upgradeplan_controller.go:187-200 | along a run generations and observed generations only grow, and they fix spec, suffix and found manifests |
| `RunTheorems.DeletionIsComplete` | internal/controller/upgradeplan_controller.go:119-157 | when the finalizer goes, nothing is left of what passes over the plan created, in whatever generation |
| `RunTheorems.DeletionIsSafe` | internal/controller/upgradeplan_controller.go:135-154 | plans and secrets are removed only for the owner, only while deleting, never while being applied, and otherwise not touched |
| `Deletions.DeletesExactlyWhen` | internal/controller/upgradeplan_controller.go:88-104 | a reconcile of a deleting plan that no fault hits removes all it owns and the finalizer exactly when none of its SUC plans is being applied, and otherwise keeps the finalizer and every secret |
| `Deletions.DeletionEnds` | internal/controller/upgradeplan_controller.go:88-157 | over runs, whatever faulty or blocked reconciles come before, the first one that no fault hits over idle plans ends the deletion, and it stays ended |
| `PassEffects.OneObjectPerPass` | internal/controller/upgradeplan_controller.go:159-230 | a pass writes at most one object, labelled with its owner, and overwrites nothing but a HelmChart |
| `PassEffects.PassStatus` | internal/controller/upgradeplan_controller.go:159-230 | every status a pass can end with: one condition of its stage, a reset, or the recorded version |
| `PassEffects.ResetOpensGeneration` | internal/controller/upgradeplan_controller.go:187-210 | a drawn suffix that differs opens the generation with every tracked condition pending; nothing else changes the status |
| `PassEffects.AllPending` | internal/controller/upgradeplan_controller.go:202-207 | the loop sets exactly the conditions of the listed charts |
| `PassGuarantees.OsSuccessMeansEveryNode` | internal/controller/reconcile_os.go:52-86 | `OSUpgraded` turns true only over a list with a control-plane node, every listed node first-condition ready, schedulable and at the image |
| `PassGuarantees.KubernetesSuccessMeansEveryNode` | internal/controller/reconcile_kubernetes.go:51-107 | `KubernetesUpgraded` likewise at the version, and every core component absent from the cluster, or there with a completed job and a release at its version, or available with its images |
| `PassGuarantees.SuccessNeedsStageDone` | internal/controller/upgradeplan_controller.go:212-217 | a node condition turns true only in a pass of its own stage, and only when that stage is done |
| `PassGuarantees.TerminalConditionsStay` | internal/controller/upgradeplan_controller.go:212-223 | no pass of the same observed generation changes a condition that has ended |
| `PassGuarantees.VersionWrittenOnlyAtTheEnd` | internal/controller/upgradeplan_controller.go:219-229 | the last successful version is written only once everything tracked has ended, and is the version asked for |
| `PassGuarantees.KubernetesPlansComeAfterOs` | internal/controller/upgradeplan_controller.go:213-216 | a Kubernetes plan is created only from a persisted OS success of this generation |
| `PassGuarantees.WorkerPlansComeAfterControlPlane` | internal/controller/reconcile_kubernetes.go:56-83 | a worker plan is created only when there is a worker and a control plane that is upgraded throughout |
| `PassGuarantees.ChartsComeInOrder` | internal/controller/reconcile_helm.go:13-80 | a HelmChart is written only with both node stages done, all earlier entries ended and, in its entry, the positions before it let through |
| `PassGuarantees.NewPlanComesFromRollout` | internal/controller/reconcile_kubernetes.go:42-83 | every new SUC plan is one of the two its stage builds |
| `PassStages.NodeStageEffect` | internal/controller/reconcile_os.go:16-87 | a pass in a node stage writes nothing, the secret, or one plan of its rollout, and sets at most its own condition |
| `PassStages.ManifestHasVersion` | internal/controller/release_manifest.go:27-31 | a manifest found for a version is listed and has that version |
| `Stages.RolloutEffect` | internal/controller/reconcile_kubernetes.go:42-107 | workers start only behind an upgraded control plane, and success only over a stage that is done |
| `Stages.WorkerSelectionNeverFails` | internal/controller/reconcile_kubernetes.go:59-88 | past the control-plane-only check the worker half never fails for want of a worker |
| `Stages.ScanIsExact` | internal/controller/reconcile_kubernetes.go:110-128 | all components are reported upgraded exactly when each is absent or upgraded; otherwise the first that is not decides |
| `Components.ScanMeans` | internal/controller/reconcile_kubernetes.go:110-128 | without faults the scan passes exactly when every component is absent or upgraded in terms of charts, jobs, releases and deployments |
| `Components.ChartComponentMeans` | internal/controller/reconcile_kubernetes.go:132-156 | when a HelmChart component is missing, upgraded, not upgraded or an error: its chart, a completed job of the name in its status, and a release at its version |
| `Components.DeploymentComponentMeans` | internal/controller/reconcile_kubernetes.go:157-173 | the same for a Deployment: an `Available` condition, and an image for every name listed |
| `Components.OtherComponentMeans` | internal/controller/reconcile_kubernetes.go:174-176 | any other type is an error |
| `Outcomes.RolloutEndsExactly` | internal/controller/reconcile_kubernetes.go:42-107 | a fault-free pass of a node stage succeeds, starts a plan, fails or waits exactly when nodes, plans and components are so, and what it leaves in each case |
| `Outcomes.SecretComesFirst` | internal/controller/reconcile_os.go:26-37 | the OS stage first creates its secret, status untouched |
| `Outcomes.EntryGoesOn` | internal/controller/reconcile_helm.go:23-72 | what a running chart, or one without a job, makes of condition and outcome, by its place in the entry |
| `Outcomes.EntryRequeuesExactlyWhen` | internal/controller/reconcile_helm.go:16-79 | a chart pass is requeued exactly when it has ended the entry or stopped at a running add-on |
| `Outcomes.UnsupportedStopsThePass` | internal/controller/upgradeplan_controller.go:174-185 | a node of an unsupported architecture marks the validation as failed and stops everything else |
| `Outcomes.MissingManifestIsInstalled` | internal/controller/upgradeplan_controller.go:160-167 | without a manifest of the version its install job is created, or the pass fails |
| `Outcomes.NewGenerationOnlyResets` | internal/controller/upgradeplan_controller.go:187-210 | a pass over a new generation writes no object, takes the suffix of the bytes drawn, and draws again over an equal one |
| `Outcomes.FinalizerComesFirst` | internal/controller/upgradeplan_controller.go:106-111 | a live plan without the finalizer gets it and is looked at again; nothing else happens |
| `Outcomes.NothingToReconcile` | internal/controller/upgradeplan_controller.go:81-91 | a plan that is gone, or deleted and no longer held, is left alone |
| `Outcomes.LostStatusIsRetried` | internal/controller/upgradeplan_controller.go:113-116 | a status write that fails leaves the plan as it was, keeps what was written before it, and is retried |
| `Stages.ChartPassEndsAt` | internal/controller/reconcile_helm.go:13-80 | a pass over an entry ends at one position; all before it let the pass go on and wrote nothing, and that position decides cluster, condition and outcome |
| `Stages.DependencyWalk` | internal/controller/reconcile_helm.go:16-30 | where the dependency loop ends |
| `Stages.AddonWalk` | internal/controller/reconcile_helm.go:49-74 | where the add-on loop ends |
| `Controller.UpgradePlanReconciler.Reconcile` | internal/controller/upgradeplan_controller.go:78-117 | one call takes what is stored to a state the step relation allows, with that outcome, faults and lost status writes included |
| `Controller.UpgradePlanReconciler.ReconcileNormal` | internal/controller/upgradeplan_controller.go:159-230 | plan in memory, cluster and outcome end as the pass says; only the status of the plan changes |
| `Controller.UpgradePlanReconciler.ReconcileStages` | internal/controller/upgradeplan_controller.go:212-229 | the first unfinished stage runs, and after the last the version is recorded |
| `Controller.UpgradePlanReconciler.ObserveGeneration` | internal/controller/upgradeplan_controller.go:187-210 | the reset of a new generation, with a suffix equal to the current one refused |
| `Controller.UpgradePlanReconciler.ReconcileDelete` | internal/controller/upgradeplan_controller.go:119-157 | only owned idle plans and owned secrets go, secrets only once no owned plan is left; success leaves none |
| `Controller.UpgradePlanReconciler.DeleteSucPlans` | internal/controller/upgradeplan_controller.go:130-142 | the plan loop stops at a plan being applied |
| `Controller.UpgradePlanReconciler.DeleteSecrets` | internal/controller/upgradeplan_controller.go:144-154 | the secret loop |
| `Controller.UpgradePlanReconciler.FinishDeleting` | internal/controller/upgradeplan_controller.go:93-104 | the finalizer goes only after a complete delete |
| `Controller.UpgradePlanReconciler.RetrieveReleaseManifest` | internal/controller/release_manifest.go:18-34 | the first manifest of the version, or none |
| `Controller.UpgradePlanReconciler.CreateReleaseManifest` | internal/controller/release_manifest.go:36-51 | the install job is created under its owner, or the call fails |
| `Client.UpgradePlan.SetCondition` | internal/controller/upgradeplan_controller.go:307-337 | sets one condition of the plan in memory and leaves the others |
| `NodeStages.ReconcileOS` | internal/controller/reconcile_os.go:16-87 | status, cluster and outcome of the OS stage |
| `NodeStages.ReconcileKubernetes` | internal/controller/reconcile_kubernetes.go:24-108 | status, cluster and outcome of the Kubernetes stage |
| `NodeStages.GetK8sCoreComponentsUpgradeStatus` | internal/controller/reconcile_kubernetes.go:110-128 | the component loop answers as the scan, which `Stages.ScanIsExact` characterises |
| `NodeStages.IsK8sCoreComponentUpgraded` | internal/controller/reconcile_kubernetes.go:130-177 | the status of one component, by its type |
| `NodeStages.TargetKubernetesDistribution` | internal/controller/reconcile_kubernetes.go:179-194 | the distribution is k3s if that occurs in the first node's kubelet version, else rke2 if that occurs; no node or neither is an error |
| `ChartStages.ReconcileHelmChart` | internal/controller/reconcile_helm.go:13-80 | status, cluster and outcome of one chart entry |
| `ChartStages.ReconcileCore` | internal/controller/reconcile_helm.go:32-47 | from the core chart on |
| `ChartStages.ReconcileAddons` | internal/controller/reconcile_helm.go:49-79 | from the add-ons on |
| `ChartStages.UpgradeHelmChart` | internal/controller/helm.go:235-294 | state reported for a chart and the cluster afterwards |
| `ChartStages.UpdateHelmChart` | internal/controller/helm.go:82-117 | the chart object in memory and the stored chart after an update, or a failure that stores nothing |
| `ChartStages.CreateHelmChart` | internal/controller/helm.go:121-164 | the chart created for an installed release, or a failure |
| `ChartStages.FindUserValues` | internal/controller/helm.go:85-91 | the first user values given for the chart |
| `ChartStages.FirstFinal` | internal/controller/helm.go:272-283 | the first job condition that holds and is final |
| `Builders.OSControlPlanePlan` | internal/upgrade/os.go:71-110 | the built plan, and the label written into the map shared with the caller |
| `Builders.OSWorkerPlan` | internal/upgrade/os.go:112-131 | the same for workers: the shared map keeps its owner labels |
| `Builders.BaseOSPlan` | internal/upgrade/os.go:133-160 | secret and version of an OS plan |
| `Builders.KubernetesControlPlanePlan` | internal/upgrade/kubernetes.go:30-75 | the built plan and its label in the shared map |
| `Builders.KubernetesWorkerPlan` | internal/upgrade/kubernetes.go:77-110 | the same for workers, which wait for the control-plane plan of that name |
| `Builders.BaseUpgradePlan` | internal/upgrade/base.go:46-81 | name, drain and the caller's own label map |
| `Nodes.SelectorsPartition` | internal/upgrade/kubernetes.go:36-95 | the two selectors split the node list: each node, with its repetitions, falls on exactly one side |
| `Nodes.SelectorsSpelledOut` | internal/upgrade/os.go:77-128 | what the two selectors pick, down to label and value |
| `Nodes.HalvesMakeAll` | internal/controller/reconcile_kubernetes.go:51-93 | control plane and workers upgraded, or the only half there is, makes every node upgraded |
| `Nodes.WorkersExist` | internal/controller/reconcile_kubernetes.go:240-248 | a list that is not control plane only has a node for the worker selector |
| `Nodes.FindMatchingNodes` | internal/controller/reconcile_kubernetes.go:196-216 | the matching nodes in list order; a selector that does not parse or matches nothing is an error |
| `Nodes.MatchingIsFilter` | internal/controller/reconcile_kubernetes.go:204-208 | a node is picked exactly when it is listed and matches |
| `Nodes.MatchingKeepsOrder` | internal/controller/reconcile_kubernetes.go:204-208 | in list order, each as often as it is listed |
| `Nodes.NodeUpgradedMeans` | internal/controller/reconcile_kubernetes.go:219-235 | a node counts as upgraded exactly when its first condition of type `Ready` is true, it is schedulable, and it reports the image (or the version) |
| `Nodes.ReadyStatusMeans` | internal/controller/reconcile_os.go:91-98 | conditions of other types, wherever they stand, do not decide |
| `Nodes.IsOSUpgraded` | internal/controller/reconcile_os.go:89-109 | true exactly when every node of the list, place by place, is so at the image |
| `Nodes.IsKubernetesUpgraded` | internal/controller/reconcile_kubernetes.go:218-238 | true exactly when every node of the list, place by place, is so at the version |
| `Nodes.ControlPlaneOnlyCluster` | internal/controller/reconcile_kubernetes.go:240-248 | true exactly when every node is in the control plane |
| `Nodes.ParseDrainOptions` | internal/controller/upgradeplan_controller.go:263-301 | the two drain flags for any node list and any user setting, each as an iff |
| `Nodes.DrainOptionsMean` | internal/controller/upgradeplan_controller.go:263-301 | each flag, for every list and every setting of the user, counting the places of each role in the list |
| `PlanContents.NewOsPlanHolds` | internal/upgrade/os.go:71-160 | a new plan of the OS stage holds the release as its version, the secret of the generation, its role's label, and is drained as the nodes and the user's switch for that role say |
| `PlanContents.NewKubernetesPlanHolds` | internal/upgrade/kubernetes.go:30-110 | the same for the Kubernetes stage; workers wait for the control-plane plan of that name |
| `Nodes.DrainFollowsRedundancy` | internal/controller/upgradeplan_controller.go:273-286 | unless disabled a role is drained exactly when it has a second node; the exception is a list of several workers without control plane |
| `Nodes.SupportedArchitectures` | api/v1alpha1/releasemanifest_types.go:46-55 | both spellings of every listed architecture |
| `Nodes.FindUnsupportedNodes` | internal/controller/reconcile_os.go:111-121 | the names outside the supported set, in list order |
| `Nodes.UnsupportedMeans` | internal/controller/reconcile_os.go:111-121 | just the nodes outside the set, in list order |
| `Nodes.SupportedSpelledOut` | api/v1alpha1/releasemanifest_types.go:26-55 | the spellings, written out |
| `Nodes.NoneUnsupported` | internal/controller/upgradeplan_controller.go:174-175 | the report is empty exactly when every node runs a listed architecture under either spelling |
| `Names.GenerateSuffix` | internal/upgrade/base.go:38-44 | ten characters from five random bytes, or the failure of the source of randomness |
| `Names.HexInjective` | internal/upgrade/base.go:43 | different bytes give different suffixes |
| `PlanContents.HexAt` | internal/upgrade/base.go:43 | two hexadecimal digits for each byte, the higher first |
| `PlanContents.OsNamesReadAs` | internal/upgrade/os.go:162-168 | names of plans and secrets as they read in full |
| `PlanContents.KubernetesNamesReadAs` | internal/upgrade/kubernetes.go:17-20 | the same for Kubernetes plans |
| `PlanContents.ManifestJobReadsAs` | internal/upgrade/release_manifest.go:28 | the name of the install job, with or without a leading `v` |
| `Names.GenerationsShareNoName` | internal/upgrade/os.go:162-168 | names built with different suffixes of one length differ, for all versions |
| `Names.GenerationsMeetExactlyWhen` | internal/upgrade/os.go:162-168 | for suffixes of one length two generations can build a common name exactly when their suffixes are equal |
| `SampleRuns.FirstAndThirdMeet` | internal/controller/upgradeplan_controller.go:188-200 | there is a run in which the third generation draws the suffix of the first, finds its secret and plans in place, creates none of its own, and completes |
| `Names.PlanNamesMeetExactlyWhen` | internal/upgrade/kubernetes.go:17-20 | within a generation two plan names are equal exactly when role and stem are |
| `Names.StemsCanMeet` | internal/upgrade/os.go:162-164 | an operating system and a Kubernetes version whose plan names are all the same |
| `Api.ChartConditionTypesDiffer` | api/v1alpha1/upgradeplan_types.go:127-129 | two charts share a condition type exactly when they share a pretty name, and take a node stage's type exactly for the names `OS` and `Kubernetes` |
| `Webhook.AdmittedEdit` | api/v1alpha1/upgradeplan_webhook.go:56-101 | an admitted edit of a live plan found no locking condition, a version that parses, and one strictly above the last successful one |
| `Webhook.EditAllowedExactlyWhen` | api/v1alpha1/upgradeplan_webhook.go:46-101 | when a creation and an update are allowed, and when an update is refused for an upgrade under way, in terms of condition reasons, versions and precedence |
| `Webhook.PrecedenceIsStrictTotalOrder` | api/v1alpha1/upgradeplan_webhook.go:85-98 | the precedence behind the comparison is irreflexive, transitive and total |
| `Webhook.BelowMeans` | api/v1alpha1/upgradeplan_webhook.go:85-98 | the comparison is precedence: numbers from the left, a pre-release below its release, and pre-releases by their first difference |
| `Webhook.HigherNumbersWin` | api/v1alpha1/upgradeplan_webhook.go:91-98 | raising major, minor or patch raises the version, with anything behind it |
| `Webhook.PreReleasesInOrder` | api/v1alpha1/upgradeplan_webhook.go:91-98 | pre-releases below their release, shorter below longer, numbers by value and below texts, texts by their first difference |
| `Values.ReapplyIsFixpoint` | internal/controller/helm.go:166-214 | merging release and user values into the result of having merged them changes nothing, whatever was installed |
| `Values.HelmValuesPathSemantics` | internal/controller/helm.go:166-214 | at every path the user's leaf wins, then the release's if the user spares the path, then the installed one if both do |
| `Values.HelmValuesFailExactlyWhen` | internal/controller/helm.go:169-201 | the merge fails exactly when some part does not parse or the installed values are of another type |
| `Values.EmptyIsAbsent` | internal/controller/helm.go:204-206 | values without an entry are stored as absent |
| `Values.MergeTwiceFixpoint` | internal/controller/helm.go:184-202 | the same for the two merges on all nested maps |
| `Values.MergeAbsorbs` | internal/controller/helm.go:216-233 | laying the same map twice is laying it once |
| `Values.AssociativeExactlyWhen` | internal/controller/helm.go:216-233 | the merge is associative on three maps exactly when no map of the first meets a map of the third across a non-map of the second with something to add |
| `Values.MergeNotAssociative` | internal/controller/helm.go:216-233 | a scalar in the middle loses the left map |
| `Values.MergePathSemantics` | internal/controller/helm.go:216-233 | at every path the second map's leaf wins, and a leaf of the first survives exactly when every prefix of its path is unbound in the second, or a proper prefix bound to a map |
| `ValuesHeap.MergeMaps` | internal/controller/helm.go:216-233 | on shared, aliased maps the result is a fresh map that represents the merge, and no map that existed before is written |
| `ValuesHeap.MergeHelmValues` | internal/controller/helm.go:166-214 | the same for the whole merge: installed values and everything reachable from them still represent what they did |
| `ValuesHeap.LayAll` | internal/controller/helm.go:222-230 | the loop writes only to the fresh map, and each key ends with what the merge gives it |
| `Containers.ContainsContainerImages` | internal/upgrade/container.go:21-41 | the answer of the counting loop: no mismatch, and as many hits as names required |
| `Containers.CheckIsExact` | internal/upgrade/container.go:9-20 | as long as no name asked for occurs twice, the answer is the documented promise: every required name occurs, with a matching image |
| `Containers.ListedExactly` | internal/upgrade/container.go:21-41 | for containers with unique names, against the list itself: every name has a container, and the image listed last for it occurs in the container's |
| `Containers.LenientExactIff` | internal/upgrade/container.go:21-41 | the lenient check is as documented on a list, for whatever is asked for, exactly when no name occurs twice in it |
| `Containers.StrictExactIff` | internal/upgrade/container.go:21-41 | the strict check is exactly when no name occurs twice with one image only |
| `Containers.RepeatedNameIsRefused` | internal/upgrade/container.go:29-40 | asking for a name listed twice is refused though it is there |
| `Containers.RepeatedNameHidesMissingOne` | internal/upgrade/container.go:21-41 | a name listed twice can stand in for one that is missing |
| `Containers.FoundAll` | internal/upgrade/container.go:40 | as many names found as required means all of them found |
| `Containers.HitsCoverFound` | internal/upgrade/container.go:29 | hits are names found, but for repetitions |
| `Containers.StrictImpliesLenient` | internal/upgrade/container.go:15-20 | a strict success is a lenient one |
| `Containers.ConvertContainerSliceToMap` | api/v1alpha1/releasemanifest_types.go:118-125 | the map the loop builds |
| `Containers.LastImageWins` | api/v1alpha1/releasemanifest_types.go:118-125 | exactly the listed names, each with the image listed last for it |

## Left out

- The API server, informer caches, leader election, flags and manager setup: objects are maps in a cluster value, and a call fails or does what it is asked.
- The Helm storage client: an oracle gives the release found for a name, or none.
- Parsing and printing of JSON and YAML: values start as trees with opaque leaves, and text that does not parse is a case of its own. How Go tells a nil map from an empty one is not modelled.
- The random source: any five bytes, or a failure.
- Contents of SUC plans, secrets, charts and jobs that no branch reads: the OS upgrade script, images, tolerations, mount paths, timeouts, the pod of the manifest job, the name of its image.
- Events, logs, message texts, timestamps of conditions and the retry around the creation of the manifest job.
- Namespaces of cluster objects: each kind lives in the one namespace the controller uses; requests and owner labels do carry theirs.
- The panic of `Arch.Short` for an unknown architecture: the type admits the two that the schema admits.
- The order of map iteration in the merge: the heap loops take keys in any order.
- Generated deep copies, custom resource definitions, roles, chart packaging and tests.
- Controller.UpgradePlanReconciler.ReconcileDelete: which owned idle plans are already gone when a delete stops halfway is left open, because the listing order is.
- Wakeup.NoSilentStallInRuns: that an awaited event does come is up to the cluster; what is proved is that when it comes it is let through and brings back this plan.
- RunCompletion.BoundedCompletion: counts reconciles, not time, and takes the target distribution to be the same in those it counts; a chart that ends on a stale job counts as ended, as it does in the code.
- Controller.UpgradePlanReconciler.CreateReleaseManifest: an image name left empty in the configuration of the controller and the last of five attempts are not told apart from any other failure of the call that creates the job.
