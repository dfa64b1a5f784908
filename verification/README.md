# Elemental Lifecycle Manager: a verified model of its upgrade controller

The Elemental Lifecycle Manager upgrades a Kubernetes cluster to the version named in a `Release` resource. A reconcile
pass first upgrades the manager's own charts (the LCM phase), then resolves the release manifest and runs a pipeline of
three phases: the operating system and Kubernetes, each through System Upgrade Controller (SUC) plans for the control
plane and then the workers, and the Helm charts, one at a time in dependency order. Progress is kept in the status
conditions of the Release. A webhook decides which edits of the Release are admitted.

This project models that controller and proves what it promises.

* `Values`, `Charts`, `ChartSort`: the deep merge of Helm values and its JSON form, the chart configuration built from the
  manifests, and the depth-first sort of charts by dependency.
* `Api`, `Conditions`: the Release, the names derived from it and the in-place updates of its conditions.
* `Manifests`, `Clusters`: the release manifest, and the cluster as the API client sees it. Every call reads or writes one
  value, appends to a trace, and fails when it is one of the calls that currently fail.
* `ManifestCache`: the ConfigMap that keeps the JSON text of each manifest, whose numbers read back as floats.
* `HelmReconciler`, `Plans`, `PackagedComponents`, `Kubernetes`: the reconcilers of the phases.
* `Pipeline`, `ReleaseConfig`, `Controller`: the pipeline, the configuration of a release and one whole reconcile pass.
* `Outcomes`, `Failures`: what the Release shows at the end of a pass, when the controller stops, and that no failing call
  goes unnoticed.
* `StatusMachine`, `Webhook`, `System`: what each pass keeps of the status, which edits are admitted, and every run in which
  passes, edits and anything the cluster does on its own are interleaved.
* `Handlers`, `ActionOrder`: the pipeline as the manager builds it, that a pass starts one action, and what it has found
  before that action.
* `AvailabilityOrder`: when the wait for the packaged components depends on the iteration order of a map.
* `Frames`: what a pass can touch at all.
* `PlanCleanup`, `Progress`, `Effects`, `Convergence`, `Collisions`, `StuckUpgrades`: convergence, with a measure, exactly
  when it fails, and upgrades that never end.
* `Environments`: the environment that convergence relies on exists.

Each step of the controller is a function on the cluster value. Beside it, a class with the source's fields and loops has
methods whose postconditions equate the state they leave with that function, so that every lemma about the function is about
the method. Where the iteration order of a Go map reaches the API calls, that order is a parameter (`MapOrder`) that may
give another order for every single iteration, within a pass and from pass to pass; where it does not, the loop picks any
remaining key.

## What is proved

* **Sort.** An error exactly when the in-list Helm dependencies have a cycle; otherwise each name once, after its
  dependencies, with the charts of the first roots being exactly those they reach.
* **Merge and update.** The merged values by key path for any number of sources, with the exact condition for associativity;
  an update settles exactly when the merged values survive a round trip through JSON.
* **Phases.** One action per pass, and before it everything earlier in the order was found done: LCM charts, plans with
  their nodes, packaged components, charts sorted before. Success of the Kubernetes phase covers every node; the snapshot of
  the packaged components is frozen and older than every Kubernetes plan; change detection is exact.
* **Outcome.** At the end of every pass `Applied` says exactly what the other conditions add up to; a failed plan or
  chart, an error or a missing manifest reaches it, and then a newer edit is admitted. The controller stops only when the
  release is applied or failed. A failing call, other than to the cache, ends the pass in an error or fails LCM.
* **Status.** Over every run: the gates are passed in order, a true `Applied` condition means that everything is done and
  the version recorded, at most one Release exists, and the applied version only grows.
* **Cache.** The first pass for a version works with the manifest as the registry gives it and stores it; later passes read
  it back from JSON. Both give the same charts in the same order, write the same HelmCharts, and differ only in that the
  values from the cache always settle.
* **Convergence.** When no call fails and the environment completes each started action before the next pass, the release is
  applied within as many passes as there are charts and eight more, and then no pass writes anything. Given the rest, this
  happens exactly when LCM is upgraded already or the values of each of its charts still to be written survive JSON, and the
  sanitized forms of the version applied before and the wanted one differ or no plan is missing. Such an environment exists:
  from every plausible state, whatever a pass starts can be completed.

## Where the code and its documentation or expectations differ

* `docs/workflow.md:64` says that core charts are upgraded before solution charts. The code only lists them first; a core
  chart that depends on a solution chart comes after it (`ChartSort.CoreFirstIff`, `ChartSort.SolutionMayComeFirst`).
* The LCM phase decodes the manifest's own YAML in every pass, so an installed LCM chart with a whole number among its
  values is updated in every pass, because the number read back from JSON is of another type, and the release is never
  applied (`HelmReconciler.UpdateMayLoop`, `StuckUpgrades.StaysStuck`, `StuckUpgrades.NumberNeverApplied`). The charts of
  the Helm phase are spared this by the manifest cache: such a chart may be written once more by the pass that fills the
  cache, and then settles (`HelmReconciler.CachedSettles`, `Convergence.Converges`). Only where the cache cannot be filled
  does it loop.
* A packaged component without content is recorded with an empty hash but compared by the hash of the empty string, so it
  always counts as changed (`PackagedComponents.UnchangedYieldsNoneIff`).
* Deep merge is not associative (`Values.MergeAssociativeIff`, `Values.MergeNotAssociative`).
* Two different versions can have the same sanitized form, "1.0.0-rc.1" and "1.0.0-rc-1" for instance. An upgrade between
  them never ends, because each pass deletes the release's own plans as leftovers (`Api.SanitizeNotInjective`,
  `PlanCleanup.MistakenIff`, `Collisions.StaysTrapped`, `StuckUpgrades.CandidateNeverApplied`).
* The wait for the packaged components compares the target version with the version recorded from a node exactly, leading
  "v" included; only the node check strips a leading "v". On a cluster without packaged components the wait ends only when
  the two strings are equal (`PackagedComponents.AvailableIff`, `PackagedComponents.NoComponentsAvailableIff`).
* The answer of the availability check can depend on the iteration order of a map. Changed components are always checked
  before new ones, so this happens exactly when, among the changed components or, these all being ready, among the new ones,
  one check fails while another component is not ready (`AvailabilityOrder.OrderFreeIff`, `AvailabilityOrder.OrderMatters`).
* A completed job seen right after an update may belong to the previous one. Success of a chart therefore means that the
  job named by the HelmChart is complete, not that it ran for the new configuration; nothing stronger is claimed.

## Model

| member | source | states |
|---|---|---|
| Values.MergeMaps | internal/helm/values.go:91-106 | the recursive in-place loop, visiting keys in any order, computes one deep merge |
| Values.MergeHelmValues | internal/helm/values.go:32-49 | error exactly when some source does not decode, nothing when the merge is empty, otherwise the merge of all sources in order |
| Values.SourcesExact | internal/helm/values.go:52-88 | which sources decode and to what; the merge fails exactly when one of them does not |
| Values.MergeAt | internal/helm/values.go:91-106 | at every key path: the later source where it decides the path, both maps merged where both have one, the earlier source elsewhere |
| Values.MergeAllLeaf | internal/helm/values.go:32-49 | a non-map value is in the merge of all sources exactly when one source has it and no later source decides that path; that source is unique |
| Values.MergeAbsorbs | internal/helm/values.go:91-106 | merging `y` over `x` gives `y` exactly when every key of `x` is covered by `y` |
| Values.MergeLaws | internal/helm/values.go:91-106 | the empty map is the identity, merging is idempotent, and merging a source twice changes nothing |
| Values.MergeAssociativeIff | internal/helm/values.go:91-106 | grouping does not matter exactly when no non-map of the middle source cuts off keys of the first that the third would have kept |
| Values.MergeNotAssociative | internal/helm/values.go:98-102 | three sources for which grouping matters |
| Values.JsonRoundTripIff | internal/upgrade/reconcilers/helm.go:475-500 | a value survives being stored as JSON and read back exactly when no number in it is of the whole-number type |
| Values.DecodedIsNormal | internal/helm/values.go:78-86 | whatever is read from JSON survives storing it again |
| Values.MergeReadBack | internal/helm/values.go:91-106 | merging and reading back from JSON can be exchanged |
| Charts.IndexRepositories | internal/upgrade/config.go:174-177 | the map built by overwriting holds the last repository of each name |
| Charts.AddCharts | internal/upgrade/config.go:179-196 | appends one configuration for each chart in order, and ticks off exactly the runtime keys that name one of them |
| Charts.BuildHelmChartConfig | internal/upgrade/config.go:161-224 | the loop over both manifests gives the configurations or the set of unknown keys that the specification gives |
| Charts.BuildConfigComplete | internal/upgrade/config.go:161-224 | error exactly when some runtime key names no chart, reporting all of them; otherwise core charts then solution charts in order, each with the last same-named repository of its own manifest and its own runtime configuration; either manifest may be absent |
| ChartSort.DependencySorter.Visit | internal/upgrade/reconcilers/helm.go:163-191 | the closure's search with its visited and in-progress marks, for every graph and start |
| ChartSort.SortChartConfigsByDependencies | internal/upgrade/reconcilers/helm.go:150-201 | terminates on every input with the result whose properties the next rows give |
| ChartSort.SortErrorIffCycle | internal/upgrade/reconcilers/helm.go:150-201 | error exactly when the in-list Helm dependencies have a cycle; otherwise each name exactly once, with its last configuration, strictly after its in-list Helm dependencies |
| ChartSort.RootsPrefix | internal/upgrade/reconcilers/helm.go:193-199 | the part of the result due to the first `i` roots is exactly the charts they reach |
| ChartSort.OrderedInputUnchanged | internal/upgrade/reconcilers/helm.go:150-201 | a list of distinct names already in dependency order is returned unchanged |
| ChartSort.SortIdempotent | internal/upgrade/reconcilers/helm.go:150-201 | sorting twice equals sorting once |
| ChartSort.CoreFirstIff | docs/workflow.md:64 | all core charts precede all solution charts exactly when no core chart reaches a solution chart |
| ChartSort.SolutionMayComeFirst | docs/workflow.md:64 | an input for which a solution chart precedes a core chart |
| ChartSort.SortedCached | internal/upgrade/reconcilers/helm.go:150-201 | charts configured from a cached manifest are sorted as from the manifest itself, with the same error |
| Api.ConditionTypeInjective | internal/upgrade/phase.go:38-41 | different phases have different condition types, none of which is `Applied` or `ManifestResolved` |
| Api.SanitizeNormalizes | api/v1alpha1/release_types.go:81-87 | the result is always a valid name suffix, exactly the valid suffixes are left alone, and sanitizing is idempotent |
| Api.SanitizeKeepsAlphanumerics | api/v1alpha1/release_types.go:81-87 | no letter or digit is lost, added or moved; letters are only lowered |
| Api.SanitizeNotInjective | api/v1alpha1/release_types.go:84-87 | the versions "1.0.0-rc.1" and "1.0.0-rc-1" have the same sanitized form |
| Conditions.ReleaseObject.Set | internal/controller/condition.go:30-38 | replaces the first condition of the type or appends one, and changes nothing else |
| Conditions.ReleaseObject.InitializePendingConditions | internal/controller/condition.go:41-66 | adds a pending condition for LCM, the manifest, each phase and `Applied`, where missing, in this order |
| Conditions.ReleaseObject.UpdatePhaseCondition | internal/controller/condition.go:84-98 | a completing state leaves an already true phase untouched; any other state is recorded |
| Conditions.ReleaseObject.UpdatePhaseConditions | internal/controller/condition.go:77-81 | visits the recorded phases in an arbitrary order, each once |
| Conditions.ReleaseObject.UpdateAppliedCondition | internal/controller/condition.go:101-153 | sets `Applied` to the verdict over all conditions: failure first, then success of all phases, then progress |
| Conditions.FindUpdatePhases | internal/controller/condition.go:77-98 | after all updates the condition of each phase is a function of its old condition and its own new state; other types and the rest of the Release are unchanged |
| Conditions.PhaseUpdatesCommute | internal/controller/condition.go:77-98 | any two iteration orders give the same Release, with the same unique condition types |
| Outcomes.PassApplied | internal/controller/condition.go:101-153 | at the end of every pass over an observed generation `Applied` is false and Failed while LCM, the manifest or (with the manifest) a phase failed; else true when all is done; else false and InProgress while a phase is; else as before |
| Outcomes.FailureAdmitsEdit | internal/webhook/v1alpha1/release_webhook.go:145-147 | after a pass that leaves something failed, a newer edit that is valid otherwise is admitted |
| Outcomes.RunningDeniesEdit | internal/webhook/v1alpha1/release_webhook.go:135-152 | while a phase is in progress and nothing failed, every edit is denied |
| Outcomes.PassShown | internal/controller/release_controller.go:197-211 | a pass shows every report of its pipeline in the condition of the phase, or, on an error, only the failing phase as failed; it is repeated until the pipeline completed |
| Outcomes.LcmShown | internal/controller/release_controller.go:149-161 | an LCM phase that does not succeed is shown as it ended and ends the pass: after an error for good, otherwise to be repeated |
| Outcomes.ManifestShown | internal/controller/release_controller.go:163-169 | a manifest that cannot be had is shown as failed, and the pass ends in an error |
| Outcomes.LcmRejected | internal/controller/release_controller.go:136-147 | runtime configuration of a chart that LCM does not have fails the release without retrying |
| Outcomes.StopsOnlySettled | internal/controller/release_controller.go:117-211 | when the controller stops repeating a pass the release is applied or failed, exactly unless its configuration was rejected while an earlier phase is still shown as in progress and none as failed |
| Outcomes.FailedPlanFailsRelease | internal/upgrade/reconcilers/plan.go:132-136 | a failed plan of the operating system phase, with those before it done, is shown at the end of the pass as a failed phase and a failed release |
| Failures.NoFailureUnnoticed | internal/controller/release_controller.go:117-211 | a pass in which any call failed, other than one to the manifest cache, ends in an error or shows LCM as failed |
| HelmReconciler.HelmChartObject.ResolveHelmChartValues | internal/upgrade/reconcilers/helm.go:475-500 | all values and value secrets are replaced by the configuration's, or nothing is changed and the error returned |
| HelmReconciler.ReferencesAgreeIff | internal/upgrade/reconcilers/helm.go:299-306 | two repositories give the same stored reference of a chart exactly when they are of the same kind and their URLs agree, for OCI up to one trailing slash |
| HelmReconciler.HelmReconciler.Reconcile | internal/upgrade/reconcilers/helm.go:85-93 | skipped without charts, otherwise the whole phase |
| HelmReconciler.HelmReconciler.ReconcileHelmCharts | internal/upgrade/reconcilers/helm.go:96-147 | the loop with its two early exits leaves the cluster and the verdict of the run over all sorted charts |
| HelmReconciler.HelmReconciler.ReconcileChart | internal/upgrade/reconcilers/helm.go:204-256 | one chart: not installed, already at its version, created, updated or waiting for its job, with every error path |
| HelmReconciler.HelmReconciler.CreateHelmChartFromRelease | internal/upgrade/reconcilers/helm.go:260-281 | the HelmChart built in place is the one that takes over the Helm release, and is created; on an error nothing is written |
| HelmReconciler.HelmReconciler.UpdateHelmChart | internal/upgrade/reconcilers/helm.go:284-314 | the HelmChart changed in place is the retargeted one, and is sent; on an error nothing is written |
| HelmReconciler.HelmReconciler.EvaluateHelmChartJobStatus | internal/upgrade/reconcilers/helm.go:380-417 | the state by job, or by the HelmChart's own conditions when the job is gone |
| HelmReconciler.HelmReconciler.AggregateResults | internal/upgrade/reconcilers/helm.go:420-472 | the counters decide: failed if any chart failed, else in progress if any is, else succeeded |
| HelmReconciler.ChartStepExact | internal/upgrade/reconcilers/helm.go:204-417 | one chart on any cluster, case by case and in terms of its stored objects: what is left alone, created, updated or answered by the job, with every error |
| HelmReconciler.JobStateExact | internal/upgrade/reconcilers/helm.go:380-417 | the first true Complete or Failed condition of the job decides; without a job a true Failed condition of the HelmChart does; without a job name the chart is in progress |
| HelmReconciler.BuiltExact | internal/upgrade/reconcilers/helm.go:260-363 | what is created has the version, reference, values and secrets of the configuration, the labels of the release, the namespace and values the Helm release was installed with, and nothing else |
| HelmReconciler.RetargetedExact | internal/upgrade/reconcilers/helm.go:284-314 | an update fails exactly for a malformed URL or undecodable values; otherwise version, reference, values, secrets and the two labels are the configuration's, and all else is kept |
| HelmReconciler.ShouldUpdateExact | internal/upgrade/reconcilers/helm.go:511-544 | a HelmChart is left alone exactly when it has the version, the merged values and the secrets of the configuration; exact error condition |
| HelmReconciler.HelmPhaseEnds | internal/upgrade/reconcilers/helm.go:85-104 | skipped without charts, an error with a dependency cycle; the cluster is not touched then |
| HelmReconciler.UpdateSettlesIff | internal/upgrade/reconcilers/helm.go:284-314 | after an update the stored HelmChart needs another one exactly when the merged values are not JSON-normal |
| HelmReconciler.CreateSettlesIff | internal/upgrade/reconcilers/helm.go:260-281 | the same for a HelmChart created from a Helm release |
| HelmReconciler.UpdateMayLoop | internal/upgrade/reconcilers/helm.go:511-544 | a configuration that is updated again after every update |
| HelmReconciler.CachedSettles | internal/upgrade/reconcilers/helm.go:284-314 | what is created or updated for a configuration is never updated again on behalf of the cached manifest |
| HelmReconciler.CachedUpToDate | internal/upgrade/reconcilers/helm.go:511-544 | a HelmChart is up to date for the manifest exactly when it is so for the cached one and the merged values survive JSON |
| HelmReconciler.LastUpdateWins | internal/upgrade/reconcilers/helm.go:284-314 | an update leaves nothing of the configuration written before it |
| HelmReconciler.UpdateKeepsRest | internal/upgrade/reconcilers/helm.go:284-314 | the target namespace, the values taken over, the chart content, other labels, annotations and the status are kept |
| HelmReconciler.RunShape | internal/upgrade/reconcilers/helm.go:113-143 | only the last chart handled can stop the run, and a run that stops early was stopped or hit an error |
| HelmReconciler.RunIgnoresLater | internal/upgrade/reconcilers/helm.go:113-143 | charts after the handled ones are neither read nor written: the run without them is the same |
| HelmReconciler.StoppedStates | internal/upgrade/reconcilers/helm.go:128-143 | in progress occurs at most as the last result; a strict run without error has no failed chart |
| HelmReconciler.HelmPhaseExact | internal/upgrade/reconcilers/helm.go:96-147 | success exactly when the run covered every sorted chart and each is finished; progress and failure characterised likewise |
| HelmReconciler.HelmPhaseStarts | internal/upgrade/reconcilers/helm.go:96-147 | at most one upgrade-starting call, as the last one, and none when the phase completes |
| ReleaseConfig.RuntimeHelmChartConfigs | internal/controller/release_controller.go:227-253 | the last entry of a chart wins, restricted to the named charts unless none are named |
| ReleaseConfig.RuntimeChartsExact | internal/controller/release_controller.go:227-253 | a chart has runtime configuration exactly when an entry counts for it, and then that of the last one |
| ReleaseConfig.LcmUpgradeConfig | internal/controller/release_controller.go:257-324 | the loop over the raw manifest selects and reduces exactly the LCM charts |
| ReleaseConfig.NewUpgradeConfig | internal/upgrade/config.go:115-158 | the configuration of the pipeline, without the LCM charts, or the error |
| ReleaseConfig.UpgradeConfigExact | internal/upgrade/config.go:115-158 | exact error condition, and the versions the configuration takes from the core platform |
| ReleaseConfig.LcmConfigExact | internal/controller/release_controller.go:257-324 | error exactly when the Release configures the LCM chart and the manifest has none; only charts are configured |
| ReleaseConfig.UpgradeConfigCached | internal/upgrade/config.go:115-158 | from a cached manifest comes the same configuration, or error, but for the values as JSON decodes them |
| ReleaseConfig.CoreChartsSplit | internal/controller/release_controller.go:285-317 | each core chart is configured by exactly one of the LCM phase and the Helm phase |
| ReleaseConfig.LcmChartsExact | internal/controller/release_controller.go:287-297 | each LCM chart of the manifest is in the LCM configuration with its version and values, and nothing else is |
| Plans.IsControlPlaneOnlyCluster | internal/upgrade/reconcilers/os.go:122-129 | true exactly when every node carries the control plane label |
| Plans.SUCPlanReconciler.Reconcile | internal/upgrade/reconcilers/plan.go:57-74 | an existing plan is reported as it is, a missing one created; nodes are listed only for a complete plan |
| Plans.SUCPlanReconciler.GetOrCreatePlan | internal/upgrade/reconcilers/plan.go:76-98 | never writes when the plan exists |
| Plans.ParsePhaseStatusFromPlan | internal/upgrade/reconcilers/plan.go:116-145 | in progress while nodes are being worked on; otherwise the first deciding Complete condition counts |
| Plans.PlanStateExact | internal/upgrade/reconcilers/plan.go:116-145 | complete or failed by the first Complete condition that is true, or false with a reason; in progress without one and while a node is worked on |
| Plans.PlansForExact | internal/plan/kubernetes.go:35-110 | names, labels, version and selector of each plan, and when there is a worker plan |
| Plans.OSReconciler.Reconcile | internal/upgrade/reconcilers/os.go:48-94 | control plane before workers, stopping at the first plan that is not complete |
| Plans.OSReconciler.PreparePlans | internal/upgrade/reconcilers/os.go:96-119 | no worker plan for a cluster of control plane nodes only |
| Plans.RunPlansStarts | internal/upgrade/reconcilers/os.go:67-85 | a list of plans creates at most one plan, as its last call, and none when all are complete |
| Plans.RunPlansVerdict | internal/upgrade/reconcilers/plan.go:116-145 | a list that stops never ends with a state that completes a phase |
| Plans.OsPhaseStarts | internal/upgrade/reconcilers/os.go:48-94 | at most one upgrade-starting call, as the last one, and none when the phase completes |
| Kubernetes.OsPhaseVerdict | internal/upgrade/reconcilers/os.go:48-94 | without an error: skipped without a configuration, success when every plan is complete, otherwise failed or in progress as the first plan that is not |
| Kubernetes.FirstPlans | internal/plan/os.go:44-110 | the plans of the two phases carry the names, versions and labels of their kind |
| PackagedComponents.RKE2PackagedComponentsHandler.GenerateSnapshot | internal/upgrade/reconcilers/rke2_core.go:88-132 | reuses a snapshot labelled for the release and retakes any other; what it returns parses what is stored |
| PackagedComponents.RKE2PackagedComponentsHandler.CreateSnapshot | internal/upgrade/reconcilers/rke2_core.go:201-231 | source version from the first node, contents, create, read back, with every error path |
| PackagedComponents.RKE2PackagedComponentsHandler.FindRKE2PackagedComponents | internal/upgrade/reconcilers/rke2_core.go:441-488 | exactly the charts with the name prefix and the three annotations of a packaged component |
| PackagedComponents.ComponentsExact | internal/upgrade/reconcilers/rke2_core.go:441-488 | which charts are packaged components, by name prefix and annotations |
| PackagedComponents.RKE2PackagedComponentsHandler.PopulateSnapshot | internal/upgrade/reconcilers/rke2_core.go:234-257 | one record for each component, in map order, stopping at the first that has no Helm release |
| PackagedComponents.RKE2PackagedComponentsHandler.ParseSnapshot | internal/upgrade/reconcilers/rke2_core.go:285-300 | holds exactly the stored records, in some order |
| PackagedComponents.RKE2PackagedComponentsHandler.IndexRecords | internal/upgrade/reconcilers/rke2_core.go:333-336 | every name of the list is indexed by a record of that name |
| PackagedComponents.RKE2PackagedComponentsHandler.FindNewOrChanged | internal/upgrade/reconcilers/rke2_core.go:327-358 | through parsing and indexing, compares the current components with the stored records |
| PackagedComponents.RKE2PackagedComponentsHandler.ReconcileAvailability | internal/upgrade/reconcilers/rke2_core.go:135-184 | the whole check, with every error path |
| PackagedComponents.RKE2PackagedComponentsHandler.AllJobsComplete | internal/upgrade/reconcilers/rke2_core.go:157-176 | checks the pairs in order up to the first that is not complete |
| PackagedComponents.RKE2PackagedComponentsHandler.IsHelmChartJobComplete | internal/upgrade/reconcilers/rke2_core.go:371-431 | a job completed after the snapshot, or a Helm release advanced past it when the job is gone |
| PackagedComponents.PopulateExact | internal/upgrade/reconcilers/rke2_core.go:234-257 | exactly the listed components get a record, made from the release of their own name; nothing is written |
| PackagedComponents.SnapshotExact | internal/upgrade/reconcilers/rke2_core.go:201-257 | a new snapshot is labelled for the release, dated now and holds exactly the current components |
| PackagedComponents.RecordOfExact | internal/upgrade/reconcilers/rke2_core.go:260-283 | what is recorded of a component, and from where |
| PackagedComponents.SnapshotFrozen | internal/upgrade/reconcilers/rke2_core.go:88-132 | a snapshot labelled for the release is returned and left as it is; any other outcome leaves a new one, and nothing else changes |
| PackagedComponents.ParsedIndex | internal/upgrade/reconcilers/rke2_core.go:285-336 | populate, store, parse and index give back the stored map |
| PackagedComponents.FoundPairs | internal/upgrade/reconcilers/rke2_core.go:327-358 | a pair is found exactly when it reports a listed component that is missing from the snapshot or changed |
| PackagedComponents.ChangeDetectionExact | internal/upgrade/reconcilers/rke2_core.go:327-366 | relative to the components snapshotted, exactly those missing then or differing now are found |
| PackagedComponents.UnchangedYieldsNoneIff | internal/upgrade/reconcilers/rke2_core.go:270-272 | an unchanged cluster yields no pair exactly when every component has content |
| PackagedComponents.PairsReadyExact | internal/upgrade/reconcilers/rke2_core.go:157-176 | ready exactly when every pair passes its check; any other answer is the answer of one pair; only reads |
| PackagedComponents.PairReadyExact | internal/upgrade/reconcilers/rke2_core.go:371-431 | when one component is ready, by its job, the snapshot time and its Helm release, with every error |
| PackagedComponents.AvailableIff | internal/upgrade/reconcilers/rke2_core.go:135-184 | available exactly when each found pair passed its check, or there is none and the target version is the source version |
| PackagedComponents.NoComponentsAvailableIff | internal/upgrade/reconcilers/rke2_core.go:141-161 | without packaged components only a cluster that already had the target version becomes available |
| AvailabilityOrder.OrderFreeIff | internal/upgrade/reconcilers/rke2_core.go:327-358 | the answer is the same for all iteration orders exactly when the components cannot be listed, or no failing check competes with a component that is not ready: neither among the changed ones nor, when these are all ready, among the new ones |
| AvailabilityOrder.OrderMatters | internal/upgrade/reconcilers/rke2_core.go:157-176 | a cluster on which one order ends in an error and another in progress |
| Kubernetes.KubernetesReconciler.Reconcile | internal/upgrade/reconcilers/kubernetes.go:91-161 | snapshot, plans, node verification and availability in this order, with every early exit |
| Kubernetes.KubernetesPhaseVerdict | internal/upgrade/reconcilers/kubernetes.go:91-161 | without an error: skipped without a configuration; failed or in progress as the first plan that is not done; otherwise success or the wait for the components |
| Kubernetes.KubernetesReconciler.PreparePlans | internal/upgrade/reconcilers/kubernetes.go:163-184 | control plane before workers, no worker plan without workers |
| Kubernetes.AllNodesAtKubernetesVersion | internal/upgrade/reconcilers/kubernetes.go:187-227 | true exactly when there is a node and, of each, the first Ready condition is true, it is schedulable, and its version is the wanted one once a leading "v" is taken from either |
| Kubernetes.PreparedPlansPartition | internal/plan/kubernetes.go:53-86 | each node is matched by exactly one of the prepared plans |
| Kubernetes.RunPlansDone | internal/upgrade/reconcilers/kubernetes.go:116-136 | the plans end well only when each was complete with its nodes at the version, and then only by reading |
| Kubernetes.DonePlansRun | internal/upgrade/reconcilers/kubernetes.go:116-136 | conversely, when no call fails, plans that are done let the list end well |
| Kubernetes.RunPlansOrdered | internal/upgrade/reconcilers/kubernetes.go:116-136 | when a plan of the list is created, every plan before it existed and was complete, with its nodes at the version where one is given |
| Kubernetes.KubernetesSound | internal/upgrade/reconcilers/kubernetes.go:91-161 | success means all of that for every node of the cluster, and that one carries the control plane label |
| Kubernetes.KubernetesPhaseStarts | internal/upgrade/reconcilers/kubernetes.go:91-161 | at most one upgrade-starting call, as the last one, none when the phase completes; only plans and the snapshot change |
| Kubernetes.SnapshotPrecedesPlans | internal/upgrade/reconcilers/kubernetes.go:104-127 | when the phase creates a plan, the snapshot is from before it: unchanged, or taken earlier in the pass |
| Kubernetes.SnapshotFrozenOverRun | internal/upgrade/reconcilers/rke2_core.go:88-132 | over any run of passes, once a snapshot is labelled for the release every later pass sees the same one |
| Kubernetes.SnapshotPrecedesAllPlans | internal/upgrade/reconcilers/kubernetes.go:104-127 | over any run in which the plans of the release come into being, the snapshot that every later pass sees existed, or was taken, when none of these plans did |
| ManifestCache.ManifestCache.Get | internal/release/manifest_cache.go:43-84 | no manifest without a text, an error for text that is none, otherwise the decoded manifest |
| ManifestCache.ManifestCache.Set | internal/release/manifest_cache.go:58-117 | the ConfigMap is created when missing, and otherwise updated under the one key |
| ManifestCache.CacheRoundTrip | internal/release/manifest_cache.go:43-117 | a stored manifest is read back with its values as JSON decodes them; other versions, and a failed call, leave all as it was |
| Pipeline.Pipeline.GetPhases | internal/upgrade/pipeline.go:81-87 | the phases in handler order |
| Pipeline.Pipeline.Reconcile | internal/upgrade/pipeline.go:56-79 | the filled map, the cluster and the failed phase are those of the run over all handlers |
| Pipeline.RunShape | internal/upgrade/pipeline.go:56-79 | a prefix of the phases is reported, all but the last of them completed; an error comes from the phase after the prefix |
| Pipeline.RunPasses | internal/upgrade/pipeline.go:56-79 | each handler works on the cluster its predecessor left, and the state reported is its answer |
| Pipeline.RecordedExact | internal/upgrade/pipeline.go:62-79 | with distinct phases every report is in the result map, and nothing else |
| Pipeline.CompleteIffAllRan | internal/upgrade/phase.go:73-82 | over a partial result, `AllComplete` means that every handler ran and completed |
| Pipeline.PipelineStarts | internal/upgrade/pipeline.go:65-76 | phases that each start at most one action make a pipeline that does, after which no later phase was touched |
| Controller.ReleaseReconciler.ReconcileNormal | internal/controller/release_controller.go:117-211 | the whole pass in place, with the deferred update of `Applied` on every exit |
| Controller.ReleaseReconciler.ReconcileObserved | internal/controller/release_controller.go:133-165 | the LCM gate with each of its exits |
| Controller.ReleaseReconciler.ReconcileUpgrade | internal/controller/release_controller.go:164-195 | manifest, configuration and cleanup with each of their exits |
| Controller.ReleaseReconciler.ReconcilePipeline | internal/controller/release_controller.go:197-211 | on an error the partial result is dropped; otherwise it is recorded, and the version written when all is complete |
| Controller.ReleaseReconciler.GetOrRetrieveManifest | internal/controller/release_controller.go:377-400 | the cached manifest, or the registry's, which is then stored; failures of the cache are only logged |
| Controller.RetrieveTouchesCache | internal/controller/release_controller.go:377-400 | retrieval starts no action and touches nothing but the text of its version |
| Controller.RetrieveExact | docs/workflow.md:7 | when no call fails: cached manifests are used and only read; otherwise the registry's is used and stored, and the next pass finds it, read back from JSON |
| Controller.ReleaseReconciler.ParseUpgradeConfig | internal/controller/release_controller.go:434-451 | nodes are listed only when draining is enabled |
| Controller.DrainingReadsNodes | internal/controller/release_controller.go:403-451 | the nodes are read exactly unless draining is disabled, and only that read can fail the parsing |
| Controller.ReleaseReconciler.CleanupOldVersionPlans | internal/controller/release_controller.go:454-480 | every deletion is tried, and one failure fails the whole |
| Controller.ReportedInAnyOrder | internal/controller/condition.go:77-81 | the Release after a pipeline result does not depend on the iteration order of the result map |
| StatusMachine.PassKeepsStatus | internal/controller/release_controller.go:117-211 | every pass, from any cluster and with any registry answers, keeps the status invariant: well-formed conditions, gates in order, a truthful `Applied` |
| StatusMachine.PassKeepsGates | internal/controller/release_controller.go:133-211 | within a generation a true LCM condition is kept, no condition returns to pending, and a phase or the version changes only with the manifest resolved |
| StatusMachine.PassAgreement | internal/controller/release_controller.go:117-211 | over a whole pass, when its pipeline has no error, these agree: every handler completed, `AllComplete`, the pass is done with the version written, `Applied` is true; with an error nothing is applied; a pass that does not reach its pipeline keeps the version |
| StatusMachine.ApplyAgreement | internal/controller/release_controller.go:197-211 | the same agreement for the pipeline part from any state in which the manifest is resolved |
| StatusMachine.ResetKeeps | internal/controller/release_controller.go:123-129 | the reset for a new generation establishes the invariant |
| StatusMachine.ResetPending | internal/controller/condition.go:41-66 | after a reset each condition is present once, pending, and the applied version is kept |
| Outcomes.ResetShown | internal/controller/release_controller.go:123-129 | the first pass over a generation lists all conditions as pending in the order of the source, touches nothing else and is repeated soon |
| StatusMachine.UpdateAppliedKeeps | internal/controller/condition.go:101-153 | bringing `Applied` up to date keeps it truthful, also where it is left alone |
| Webhook.AdmittedUpdate | internal/webhook/v1alpha1/release_webhook.go:91-126 | an edit is admitted exactly when its version is valid and newer than the applied one, no upgrade is pending or running, and the registry and secrets are there |
| Webhook.UpdateDenied | internal/webhook/v1alpha1/release_webhook.go:91-131 | what each reason of a denial means; deletions are always denied |
| Webhook.AdmittedCreate | internal/webhook/v1alpha1/release_webhook.go:58-88 | a creation is admitted exactly when there is no Release yet, its version is valid, and the registry and secrets are there |
| System.PassMoves | internal/controller/release_controller.go:117-211 | a pass keeps name, spec and generation, and leaves the applied version or makes it the wanted one |
| System.NextKeepsInv | internal/controller/release_controller.go:117-211 | every step of the system keeps the invariant |
| System.RunIsSafe | internal/controller/release_controller.go:117-211 | in every state of every run: at most one Release, its wanted version is the applied one or newer, and its status invariant holds |
| System.VersionNeverShrinks | internal/webhook/v1alpha1/release_webhook.go:91-131 | a Release once created stays, and its applied version is later the same or a newer one |
| System.LcmStaysTrue | internal/controller/release_controller.go:135-165 | `LCMUpgraded`, once true, stays true for the rest of the generation |
| System.PhaseNeedsManifest | internal/controller/release_controller.go:166-205 | when a phase condition has left pending, the manifest had been resolved by then |
| Handlers.RealHandlersProper | cmd/main.go:209-217 | the status invariants hold of the pipeline that the manager builds |
| Handlers.OneActionPerPass | internal/controller/release_controller.go:117-211 | over LCM and the whole pipeline a pass issues at most one upgrade-starting call, and it is the last call of the pass |
| ActionOrder.ActionsInOrder | internal/controller/release_controller.go:117-211 | names the action a pass starts and what the pass found before it: the LCM charts finished, unless this generation had them before; every earlier plan complete, a Kubernetes plan with its nodes at the version; for a chart also the packaged components available and every chart sorted before it, among them its dependencies, finished or (outside LCM) failed; the snapshot is touched only after the operating system plans |
| Frames.PassTouchesOnly | internal/controller/release_controller.go:117-211 | from any cluster, whatever fails: nodes, jobs and Helm releases are untouched; created plans are those the release asks for; HelmCharts are created only for installed Helm releases, and an update keeps what it does not own; cached manifests are never replaced, and new ones are the registry's |
| PlanCleanup.CleanupExact | internal/controller/release_controller.go:454-480 | exactly the plans labelled for the old version go, except those whose deletion fails; success exactly when the list call and every deletion succeed |
| PlanCleanup.MistakenIff | internal/controller/release_controller.go:459-467 | a plan made for one version is taken for another version's exactly when both have the same sanitized form |
| Progress.WritingStep | internal/upgrade/reconcilers/helm.go:204-256 | a chart that needs a write gets one that settles it for the cached manifest, and nothing else changes |
| Progress.SettledStep | internal/upgrade/reconcilers/helm.go:204-256 | a chart that needs none is finished by reading only |
| Progress.ScanCharts | internal/upgrade/reconcilers/helm.go:113-143 | a run finds nothing to write and finishes every chart, or writes exactly the first chart that needs it |
| Progress.HelmProgress | internal/upgrade/reconcilers/helm.go:85-147 | the Helm phase completes exactly when nothing needs a write, and otherwise writes one chart |
| Progress.OsProgress | internal/upgrade/reconcilers/os.go:48-94 | the operating system phase creates the first missing plan, or succeeds by reading when there is none |
| Progress.KubernetesProgress | internal/upgrade/reconcilers/kubernetes.go:91-161 | the Kubernetes phase creates the first missing plan or succeeds, and leaves the release its own snapshot |
| Progress.SnapshotSucceeds | internal/upgrade/reconcilers/rke2_core.go:88-132 | without failing calls there always is a snapshot when each component has a release and there is a node |
| Progress.KubernetesReads | internal/upgrade/reconcilers/kubernetes.go:91-161 | with its snapshot in place the phase succeeds only by reading |
| Effects.PipelineAdvances | internal/upgrade/pipeline.go:56-79 | with everything started before completed, the pipeline completes every phase and finds nothing left, or starts exactly one missing action |
| Effects.GoalOfPass | internal/controller/release_controller.go:377-451 | a pass works towards the goal that the cached manifest gives, but for the values of its charts when nothing is cached yet |
| Effects.UpgradeEffect | internal/controller/release_controller.go:166-211 | the same for a pass, after the old version's plans are gone, and the Release reflects which of the two it was |
| Convergence.EveryPassProgresses | internal/controller/release_controller.go:117-211 | every pass with its completion makes the measure strictly smaller until the release is at rest |
| Convergence.RestIsFixed | internal/controller/release_controller.go:87-115 | at rest a pass only reads and ends with the Release it started with |
| Convergence.RestCanStay | internal/controller/release_controller.go:87-115 | an unchanged environment completes such a pass |
| Convergence.GoalSurvives | internal/release/manifest_cache.go:43-84 | the merged values of every chart of the Helm phase survive JSON once the manifest comes from the cache |
| Convergence.Converges | internal/controller/release_controller.go:117-211 | whatever the values of the charts of the Helm phase: within as many passes as there are charts and eight more the release is applied; from then on it never changes and every pass only reads |
| Collisions.StaysTrapped | internal/controller/release_controller.go:188-195 | with equal sanitized forms and a missing plan the release is never applied, since each pass deletes the plan that the one before created |
| StuckUpgrades.CandidateAdmitted | internal/webhook/v1alpha1/release_webhook.go:91-126 | an edit from one of two versions with the same sanitized form to the other is admitted when the version library takes it for newer |
| StuckUpgrades.CandidateNeverApplied | internal/controller/release_controller.go:188-195 | from a concrete cluster such an edit is never applied, though the environment completes everything |
| StuckUpgrades.UnsettledNeedsWriteIff | internal/upgrade/reconcilers/helm.go:204-256 | a chart whose values do not survive JSON has to be written exactly when it is installed and has a HelmChart or another version |
| StuckUpgrades.StaysStuck | internal/controller/release_controller.go:258-283 | a release is never applied while LCM is not upgraded and an LCM chart still to be written has values that do not survive JSON |
| StuckUpgrades.NumberNeverApplied | internal/controller/release_controller.go:258-283 | a concrete release whose LCM chart has a whole number among its values: there is a run, and it is never applied |
| StuckUpgrades.UpgradeEndsIff | internal/controller/release_controller.go:117-211 | the release is ever applied exactly when LCM is upgraded in this generation or the values of each LCM chart still to be written survive JSON, and the plans of the two versions can be told apart or no plan is missing |
| Environments.EveryPassCanComplete | docs/workflow.md:62-66 | whatever a pass starts from a plausible state can be completed by nodes, plans, jobs and charts alone, and the state stays plausible |
| Environments.StartExists | docs/workflow.md:62-66 | from every plausible state the environment reaches one that meets all hypotheses of convergence |
| Environments.CanBeApplied | internal/controller/release_controller.go:117-211 | from every plausible state that meets that condition there is a run in which the release is applied |

## Left out

* Registry access, OCI images and the parsing of YAML and JSON text: manifests and values are given decoded, and a text that
  does not parse is one error value.
* The raw manifests kept in memory: the raw manifest is a function of the version.
* The JSON form of a manifest: its types come from a library that is not part of this model, and reading it back changes
  nothing but the kind of its numbers here.
* Manager wiring, watches, TLS and flags. Log output.
* The conflict retry when the status is stored: a pass and its status update are one atomic step.
* Messages and transition times of conditions.
* Drain options: only the node list call they need, whose failure ends the pass. Of a plan its name, labels, version,
  selector and status are kept; the upgrade script, concurrency, tolerations and drain fields are not.
* URL parsing and the version library: a repository URL comes parsed, and versions are compared by an arbitrary comparison
  (`Webhook.Versions`), which `System.VersionNeverShrinks` needs to be a strict order.
* JSON numbers beyond 2^53, and numbers that are not finite: a JSON number is an exact real.
* Sharing of nested maps between merge sources and result: values are immutable here.
* Deletion of the snapshot polls until it is gone or times out: here it is gone, or the call fails.
* The encoding of a snapshot record as text: records are stored as they are.
* Case folding of letters outside ASCII in versions.
* A call that fails does so each time it is issued within a pass.
* A manifest without core platform is an error; other absent parts of a manifest that would panic are not modelled. A
  cluster without nodes, where the source would panic when it takes a snapshot, is an error as well.
* The name of a chart comes from a library: its own name when it has one, and the chart reference otherwise.
* Controller.ReleaseReconciler.ReconcileNormal: equal to the specified pass when the conditions of all phases are present,
  as they are after every reset; without them the order of new conditions would depend on map iteration.
* Kubernetes.KubernetesReconciler.Reconcile: for stored charts and snapshot records kept under their own names, as the
  API server and this handler keep them.
* Kubernetes.KubernetesSound: for one node list during the pass and stored plans that keep their selectors.
* PackagedComponents.ChangeDetectionExact: for a hash without collisions.
* Convergence.Converges: for an environment that undoes nothing, the cache included, and completes each started action
  before the next pass; what it has to complete is spelt out in `Effects.Quiescent` and `Effects.Completed`.
* StuckUpgrades.UpgradeEndsIff: for such an environment, which also uninstalls nothing, removes no HelmChart and leaves
  releases without one at their version (`Environments.KeepsInstalled`).
* Environments.CanBeApplied: for a cluster with a control plane node and a packaged component; without any packaged
  component a Kubernetes upgrade to another version is never reported available
  (`PackagedComponents.NoComponentsAvailableIff`).
* Kubernetes, Helm, the System Upgrade Controller and the helm-controller appear only as such environment steps.
