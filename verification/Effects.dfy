/** The effect of one pass when no call fails and everything started before it has completed: it starts exactly one
    missing action, or finds nothing left to do. */
module Effects {
  import opened Wrappers
  import opened Charts
  import opened Api
  import opened Conditions
  import opened Clusters
  import opened HelmReconciler
  import opened Values
  import opened Manifests
  import opened ManifestCache
  import opened ReleaseConfig
  import opened Plans
  import opened PackagedComponents
  import opened Kubernetes
  import opened Controller
  import opened StatusMachine
  import opened Handlers
  import opened PlanCleanup
  import opened Progress
  import opened Frames
  import ChartSort
  import Pipeline

  // ---------------------------------------------------------------- the goal

  /** What the Release asks for: the configurations of the two
      phases and the orders in which their charts are upgraded. */
  datatype Goal = Goal(lcm: Config, cfg: Config, lcmCharts: seq<ChartConfig>, charts: seq<ChartConfig>)

  /** The manifests can be had, and the goal is what they and the Release ask for once the manifest comes from the
      cache; the configurations are valid and acyclic. */
  ghost predicate Resolves(w: World, r: Release, c: Cluster, g: Goal) {
    && r.spec.version in w.lcm && LcmConfig(w.lcm[r.spec.version], r) == Ok(g.lcm)
    && LastingManifest(w, c, r.spec.version).Some?
    && UpgradeConfig(LastingManifest(w, c, r.spec.version).value, r) == Ok(g.cfg)
    && ChartSort.Sorted(g.lcm.helmCharts) == Ok(g.lcmCharts) && ChartSort.Sorted(g.cfg.helmCharts) == Ok(g.charts)
    && forall t | t in g.lcmCharts + g.charts :: Writable(t)
  }

  /** The plans of the version applied before can be told from the new ones. */
  predicate VersionsApart(r: Release) {
    r.status.version == "" || r.status.version == r.spec.version
    || SanitizeVersion(r.status.version) != SanitizeVersion(r.spec.version)
  }

  /** The snapshot is the release's own. */
  predicate Owned(g: Goal, c: Cluster) {
    c.snapshot.Some? && Owns(c.snapshot.value, g.cfg.GetOwner())
  }

  // ---------------------------------------------------------------- the environment

  /** The cluster as the pipeline finds it, the plans of the version applied before removed. */
  function Cleaned(r: Release, c: Cluster): Cluster {
    if r.status.version != "" && r.status.version != r.spec.version
    then c.(plans := c.plans - PlansOf(c.plans, Owner(r.name, r.status.version)))
    else c
  }

  /** Everything started for the goal has completed successfully, and no call fails. */
  ghost predicate Quiescent(g: Goal, hash: Hash, c: Cluster) {
    && c.faults == {} && ChartsKeyed(c.charts) && Snapshotable(c)
    && (forall p | p in OsPlans(g.cfg, c.nodes) && p.name in c.plans :: PlanDone(c, p, None))
    && (forall p | p in NodePlans(g.cfg, c.nodes) && p.name in c.plans :: PlanDone(c, p, Some(TargetVersion(g.cfg))))
    && (forall t | t in g.lcmCharts + g.charts :: ChartReady(c, t))
    && ((forall p | p in NodePlans(g.cfg, c.nodes) :: p.name in c.plans) ==>
          ComponentsSettled(c, hash, g.cfg.GetOwner(), TargetVersion(g.cfg)))
  }

  /** The environment after a pass left `c`: it undoes nothing. */
  predicate Completed(g: Goal, c: Cluster, c': Cluster) {
    && c'.plans.Keys == c.plans.Keys && (forall n | n in c.plans :: c'.plans[n].labels == c.plans[n].labels)
    && (ControlPlaneOnly(c'.nodes) <==> ControlPlaneOnly(c.nodes))
    && c'.snapshot == c.snapshot && c'.cache == c.cache
    && forall t | t in g.lcmCharts + g.charts && NeedsWrite(c', t) :: NeedsWrite(c, t)
  }

  datatype Moment = Moment(release: Release, cluster: Cluster)

  function PassOf(w: World, hash: Hash, m: Moment): Pass
    requires Enumerates(w.order)
  {
    ReleasePass(w, RealHandlers(hash, w.order), m.release, m.cluster)
  }

  /** A pass, and then the environment. */
  ghost predicate Step(g: Goal, w: World, hash: Hash, m: Moment, m': Moment)
    requires Enumerates(w.order)
  {
    && m'.release == PassOf(w, hash, m).release
    && Completed(g, PassOf(w, hash, m).cluster, m'.cluster)
    && Quiescent(g, hash, Cleaned(m'.release, m'.cluster))
  }

  // ---------------------------------------------------------------- the pipeline

  lemma HelmRun(cfg: Config, c: Cluster)
    ensures var run := Pipeline.RunPipeline([HelmHandler()], cfg, c);
            var (c', helm) := HelmPhase(c, cfg.GetOwner(), false, cfg.helmCharts);
            helm.Ok? ==> run == Pipeline.Run(c', [Pipeline.Report(PHASE_HELM_CHARTS, helm.value)], None)
  {
    var hs := [HelmHandler()];
    assert hs[1..] == [];
  }

  lemma KubernetesRun(hash: Hash, order: MapOrder, cfg: Config, c: Cluster)
    requires Enumerates(order)
    ensures var run := Pipeline.RunPipeline([KubernetesHandler(hash, order), HelmHandler()], cfg, c);
            var (c', kubernetes) := KubernetesPhase(c, cfg, hash, order);
            var rest := Pipeline.RunPipeline([HelmHandler()], cfg, c');
            kubernetes.Ok? ==>
              var report := Pipeline.Report(PHASE_KUBERNETES, kubernetes.value);
              run == if Completes(kubernetes.value)
                     then Pipeline.Run(rest.cluster, [report] + rest.reports, rest.failed)
                     else Pipeline.Run(c', [report], None)
  {
    var hs := [KubernetesHandler(hash, order), HelmHandler()];
    assert hs[1..] == [HelmHandler()];
  }

  lemma RealRun(hash: Hash, order: MapOrder, cfg: Config, c: Cluster)
    requires Enumerates(order)
    ensures var run := Pipeline.RunPipeline(RealHandlers(hash, order), cfg, c);
            var (c', os) := OsPhase(c, cfg);
            var rest := Pipeline.RunPipeline([KubernetesHandler(hash, order), HelmHandler()], cfg, c');
            os.Ok? ==>
              var report := Pipeline.Report(PHASE_OS, os.value);
              run == if Completes(os.value) then Pipeline.Run(rest.cluster, [report] + rest.reports, rest.failed)
                     else Pipeline.Run(c', [report], None)
  {
    var hs := RealHandlers(hash, order);
    assert hs[1..] == [KubernetesHandler(hash, order), HelmHandler()];
  }

  /** A missing plan was created. */
  ghost predicate PlanAdded(g: Goal, c: Cluster, c': Cluster) {
    exists p | p in Required(g.cfg, c.nodes) ::
      p.name !in c.plans
      && c' == c.(trace := c'.trace, snapshot := c'.snapshot, cache := c'.cache, plans := c.plans[p.name := p])
  }

  /** The HelmChart of `t` was written, and at most the snapshot besides. */
  ghost predicate ChartPut(c: Cluster, c': Cluster, t: ChartConfig) {
    exists h: HelmChart :: h.name == t.Name() && Settled(h, t)
                           && c' == c.(trace := c'.trace, snapshot := c'.snapshot, cache := c'.cache,
                                       charts := c.charts[t.Name() := h])
  }

  ghost predicate OneChartPut(g: Goal, c: Cluster, c': Cluster) {
    exists t | t in g.charts :: NeedsWrite(c, t) && ChartPut(c, c', t)
  }

  /** Every plan exists and no chart needs a write, so that at most the snapshot was taken. */
  predicate NothingLeft(g: Goal, c: Cluster, c': Cluster) {
    && (forall p | p in Required(g.cfg, c.nodes) :: p.name in c.plans)
    && (forall t | t in g.charts :: !NeedsWrite(c, t))
    && c' == c.(trace := c'.trace, snapshot := c'.snapshot, cache := c'.cache) && Owned(g, c')
  }

  /** A pipeline that ended found nothing left to do; one that did not started one missing action. */
  ghost predicate Effect(g: Goal, c: Cluster, c': Cluster, ended: bool) {
    if ended then NothingLeft(g, c, c') else PlanAdded(g, c, c') || OneChartPut(g, c, c')
  }

  /** The configuration and its sorted charts, as they come from a manifest. */
  predicate ProperGoal(g: Goal) {
    && g.cfg.os.Some? && g.cfg.os.value.imageParses && g.cfg.kubernetes.Some?
    && ChartSort.Sorted(g.cfg.helmCharts) == Ok(g.charts)
    && forall t | t in g.lcmCharts + g.charts :: Writable(t)
  }

  /** Nothing that decides about charts differs. */
  predicate SameCharts(c: Cluster, c': Cluster) {
    c'.charts == c.charts && c'.releases == c.releases && c'.jobs == c.jobs && c'.faults == c.faults
  }

  lemma SameChartsLeft(c: Cluster, c': Cluster)
    requires SameCharts(c, c')
    ensures forall t :: (ChartReady(c', t) <==> ChartReady(c, t)) && (NeedsWrite(c', t) <==> NeedsWrite(c, t))
  {
    forall t: ChartConfig | t.Name() in c.charts
      ensures JobState(c', c.charts[t.Name()]).1 == JobState(c, c.charts[t.Name()]).1
    {
    }
  }

  predicate Ended(run: Pipeline.Run, n: nat) {
    |run.reports| == n && forall x | x in run.reports :: Completes(x.state)
  }

  /** The effect, with nothing written when there was nothing to do and no snapshot to take. */
  ghost predicate Moved(g: Goal, c: Cluster, c': Cluster, ended: bool) {
    Effect(g, c, c', ended) && (ended && Owned(g, c) ==> OnlyRead(c, c'))
  }

  /** A run of the last `n` phases either completes them all and leaves nothing to do, or starts one missing action. */
  ghost predicate Advances(g: Goal, c: Cluster, run: Pipeline.Run, n: nat) {
    run.failed.None? && Moved(g, c, run.cluster, Ended(run, n))
  }

  lemma AdvancesAlone(g: Goal, c: Cluster, c': Cluster, n: nat, report: Pipeline.Report)
    requires n >= 1 && Moved(g, c, c', n == 1 && Completes(report.state)) && (n > 1 ==> !Completes(report.state))
    ensures Advances(g, c, Pipeline.Run(c', [report], None), n)
  {
    var run := Pipeline.Run(c', [report], None);
    assert run.reports[0] in run.reports;
    assert forall x :: x in run.reports <==> x == report;
  }

  /** A phase that completes before such a run. */
  lemma AdvancesAfter(g: Goal, c: Cluster, rest: Pipeline.Run, n: nat, report: Pipeline.Report)
    requires Advances(g, c, rest, n) && Completes(report.state)
    ensures Advances(g, c, Pipeline.Run(rest.cluster, [report] + rest.reports, rest.failed), n + 1)
  {
    var run := Pipeline.Run(rest.cluster, [report] + rest.reports, rest.failed);
    assert forall x :: x in run.reports <==> x == report || x in rest.reports;
  }

  /** The Helm phase after the other two completed, taking `c` to `c2`. */
  lemma HelmMoves(g: Goal, c: Cluster, c2: Cluster)
    requires ProperGoal(g) && c.faults == {} && ChartsKeyed(c.charts) && forall t | t in g.charts :: ChartReady(c, t)
    requires OnlySnapshot(c, c2) && Owned(g, c2) && (Owned(g, c) ==> OnlyRead(c, c2))
    requires forall p | p in Required(g.cfg, c.nodes) :: p.name in c.plans
    ensures var (c3, r) := HelmPhase(c2, g.cfg.GetOwner(), false, g.cfg.helmCharts);
            r.Ok? && Moved(g, c, c3, Completes(r.value))
  {
    SameChartsLeft(c, c2);
    forall t | t in g.charts ensures ChartReady(c2, t) && Writable(t) {
      assert t in g.lcmCharts + g.charts;
    }
    var i := HelmProgress(c2, g.cfg.GetOwner(), false, g.cfg.helmCharts, g.charts);
    var c3 := HelmPhase(c2, g.cfg.GetOwner(), false, g.cfg.helmCharts).0;
    if i < |g.charts| {
      ChartPutAfter(c, c2, c3, g.charts[i]);
    } else if Owned(g, c) {
      OnlyReadThen(c, c2, c3);
    }
  }

  lemma ChartPutAfter(c: Cluster, c2: Cluster, c3: Cluster, t: ChartConfig)
    requires OnlySnapshot(c, c2) && ChartWritten(c2, c3, t)
    ensures ChartPut(c, c3, t)
  {
    var h: HelmChart :| h.name == t.Name() && Settled(h, t)
                        && c3 == c2.(trace := c3.trace, charts := c2.charts[t.Name() := h]);
    assert c3 == c.(trace := c3.trace, snapshot := c3.snapshot, charts := c.charts[t.Name() := h]);
  }

  lemma QuiescentFrom(g: Goal, hash: Hash, c: Cluster, c': Cluster)
    requires Quiescent(g, hash, c) && c' == c.(trace := c'.trace, cache := c'.cache)
    ensures Quiescent(g, hash, c')
  {
    SameChartsLeft(c, c');
    if forall p | p in NodePlans(g.cfg, c.nodes) :: p.name in c.plans {
      SettledFrom(c, c', hash, g.cfg.GetOwner(), TargetVersion(g.cfg));
    }
  }

  lemma SettledFrom(c: Cluster, c': Cluster, hash: Hash, o: Owner, version: string)
    requires ComponentsSettled(c, hash, o, version) && c' == c.(trace := c'.trace, cache := c'.cache)
    ensures ComponentsSettled(c', hash, o, version)
  {
    if c.snapshot.Some? {
      SameVerdictsBut(c, c', c.snapshot.value.creationTime);
    }
  }

  lemma KubernetesPart(g: Goal, hash: Hash, order: MapOrder, c: Cluster)
    requires Enumerates(order) && CollisionFree(hash) && ProperGoal(g) && Quiescent(g, hash, c)
    requires forall p | p in OsPlans(g.cfg, c.nodes) :: p.name in c.plans
    ensures Advances(g, c, Pipeline.RunPipeline([KubernetesHandler(hash, order), HelmHandler()], g.cfg, c), 2)
  {
    var plans := NodePlans(g.cfg, c.nodes);
    var i := KubernetesProgress(c, g.cfg, hash, order, plans);
    KubernetesRun(hash, order, g.cfg, c);
    var c2 := KubernetesPhase(c, g.cfg, hash, order).0;
    if i < |plans| {
      assert plans[i] in Required(g.cfg, c.nodes);
      assert PlanAdded(g, c, c2);
      AdvancesAlone(g, c, c2, 2, Pipeline.Report(PHASE_KUBERNETES, InProgress));
    } else {
      KubernetesThenHelm(g, hash, order, c);
    }
  }

  lemma KubernetesThenHelm(g: Goal, hash: Hash, order: MapOrder, c: Cluster)
    requires Enumerates(order) && ProperGoal(g) && Quiescent(g, hash, c)
    requires forall p | p in Required(g.cfg, c.nodes) :: p.name in c.plans
    requires var (c2, r) := KubernetesPhase(c, g.cfg, hash, order);
             r == Ok(Succeeded) && OnlySnapshot(c, c2) && Owned(g, c2)
    ensures Advances(g, c, Pipeline.RunPipeline([KubernetesHandler(hash, order), HelmHandler()], g.cfg, c), 2)
  {
    var c2 := KubernetesPhase(c, g.cfg, hash, order).0;
    if Owned(g, c) {
      KubernetesReads(c, g.cfg, hash, order);
    }
    HelmMoves(g, c, c2);
    var (c3, r) := HelmPhase(c2, g.cfg.GetOwner(), false, g.cfg.helmCharts);
    AdvancesAlone(g, c, c3, 1, Pipeline.Report(PHASE_HELM_CHARTS, r.value));
    HelmRun(g.cfg, c2);
    KubernetesRun(hash, order, g.cfg, c);
    AdvancesAfter(g, c, Pipeline.RunPipeline([HelmHandler()], g.cfg, c2), 1,
                  Pipeline.Report(PHASE_KUBERNETES, Succeeded));
  }

  /** With everything started before completed, the pipeline completes every phase and leaves nothing to do, or starts
      exactly one missing action. */
  lemma PipelineAdvances(g: Goal, hash: Hash, order: MapOrder, c: Cluster)
    requires Enumerates(order) && CollisionFree(hash) && ProperGoal(g) && Quiescent(g, hash, c)
    ensures Advances(g, c, Pipeline.RunPipeline(RealHandlers(hash, order), g.cfg, c), 3)
  {
    var plans := OsPlans(g.cfg, c.nodes);
    var i := OsProgress(c, g.cfg, plans);
    RealRun(hash, order, g.cfg, c);
    var c1 := OsPhase(c, g.cfg).0;
    if i < |plans| {
      assert plans[i] in Required(g.cfg, c.nodes);
      assert PlanAdded(g, c, c1);
      AdvancesAlone(g, c, c1, 3, Pipeline.Report(PHASE_OS, InProgress));
    } else {
      QuiescentFrom(g, hash, c, c1);
      KubernetesPart(g, hash, order, c1);
      var rest := Pipeline.RunPipeline([KubernetesHandler(hash, order), HelmHandler()], g.cfg, c1);
      AdvancesFrom(g, c, c1, rest, 2);
      AdvancesAfter(g, c, rest, 2, Pipeline.Report(PHASE_OS, Succeeded));
    }
  }

  lemma AdvancesFrom(g: Goal, c: Cluster, c1: Cluster, run: Pipeline.Run, n: nat)
    requires OnlyRead(c, c1) && Advances(g, c1, run, n)
    ensures Advances(g, c, run, n)
  {
    EffectFrom(g, c, c1, run.cluster, Ended(run, n));
    if Ended(run, n) && Owned(g, c) {
      OnlyReadThen(c, c1, run.cluster);
    }
  }

  // ---------------------------------------------------------------- one pass

  /** The effect does not depend on the calls made before, nor on the cache. */
  lemma EffectFrom(g: Goal, c: Cluster, c1: Cluster, c': Cluster, ended: bool)
    requires c1 == c.(trace := c1.trace, cache := c1.cache) && Effect(g, c1, c', ended)
    ensures Effect(g, c, c', ended)
  {
    SameChartsLeft(c, c1);
    if !ended {
      if PlanAdded(g, c1, c') {
        var p :| p in Required(g.cfg, c1.nodes) && p.name !in c1.plans
          && c' == c1.(trace := c'.trace, snapshot := c'.snapshot, cache := c'.cache, plans := c1.plans[p.name := p]);
        assert c' == c.(trace := c'.trace, snapshot := c'.snapshot, cache := c'.cache, plans := c.plans[p.name := p]);
      } else {
        var t :| t in g.charts && NeedsWrite(c1, t) && ChartPut(c1, c', t);
        ChartPutFrom(c, c1, c', t);
      }
    }
  }

  lemma ChartPutFrom(c: Cluster, c1: Cluster, c': Cluster, t: ChartConfig)
    requires c1 == c.(trace := c1.trace, cache := c1.cache) && ChartPut(c1, c', t)
    ensures ChartPut(c, c', t)
  {
    var h: HelmChart :| h.name == t.Name() && Settled(h, t)
                        && c' == c1.(trace := c'.trace, snapshot := c'.snapshot, cache := c'.cache,
                                     charts := c1.charts[t.Name() := h]);
    assert c' == c.(trace := c'.trace, snapshot := c'.snapshot, cache := c'.cache, charts := c.charts[t.Name() := h]);
  }

  lemma CleanedPass(w: World, hs: seq<Pipeline.Handler>, r: Release, c: Cluster, cfg: Config) returns (c1: Cluster)
    requires Enumerates(w.order) && c.faults == {} && cfg.releaseVersion == r.spec.version
    ensures CleanAndApply(w, hs, r, c, cfg) == ApplyConfig(hs, r, c1, cfg)
    ensures c1 == Cleaned(r, c).(trace := c1.trace) && (r.status.version == r.spec.version ==> c1 == c)
  {
    c1 := c;
    if r.status.version != "" && r.status.version != cfg.releaseVersion {
      var o := Owner(r.name, r.status.version);
      CleanupExact(c, o, w.order);
      c1 := Cleanup(c, o, w.order).0;
      assert Undeletable(c, PlansOf(c.plans, o)) == {};
      assert PlansOf(c.plans, o) - {} == PlansOf(c.plans, o);
    }
  }

  /** How the Release reflects a pipeline that ended or not. */
  predicate Marked(r: Release, final: Release, ended: bool) {
    && SameSpec(r, final) && IsTrue(final, ConditionType(PHASE_LCM))
    && (IsTrue(final, CONDITION_APPLIED) <==> ended)
    && final.status.version == if ended then r.spec.version else r.status.version
  }

  lemma ApplyMarks(hs: seq<Pipeline.Handler>, r: Release, c: Cluster, cfg: Config)
    requires ProperHandlers(hs) && Gated(r, Pipeline.Phases(hs)) && IsTrue(r, CONDITION_MANIFEST_RESOLVED)
    requires Pipeline.RunPipeline(hs, cfg, c).failed.None? && cfg.releaseVersion == r.spec.version
    ensures var run, pass := Pipeline.RunPipeline(hs, cfg, c), ApplyConfig(hs, r, c, cfg);
            && Marked(r, UpdateApplied(pass.release, Pipeline.Phases(hs)), Ended(run, |hs|))
            && pass.cluster == run.cluster && (pass.outcome == Done <==> Ended(run, |hs|))
  {
    var run, phases := Pipeline.RunPipeline(hs, cfg, c), Pipeline.Phases(hs);
    MidwayStart(r, phases);
    ApplyAgreement(hs, r, r, c, cfg);
    if RanAll(run, hs) {
      CompletePass(hs, r, r, c, cfg);
    } else {
      IncompletePass(hs, r, r, c, cfg);
    }
    AppliedOnly(ApplyConfig(hs, r, c, cfg).release, phases);
    TypesDiffer(phases);
  }

  lemma ResolvedGoal(w: World, r: Release, c: Cluster, g: Goal)
    requires Resolves(w, r, c, g)
    ensures ProperGoal(g) && g.cfg.releaseVersion == r.spec.version && g.cfg.GetOwner() == OwnerOf(r)
    ensures g.lcm.GetOwner() == OwnerOf(r)
  {
  }

  function ManifestSet(r: Release): Release {
    SetCondition(r, CONDITION_MANIFEST_RESOLVED, true, Succeeded)
  }

  lemma ManifestSetGated(r: Release, phases: seq<Phase>)
    requires Gated(r, phases) && IsTrue(r, ConditionType(PHASE_LCM))
    ensures Gated(ManifestSet(r), phases) && IsTrue(ManifestSet(r), CONDITION_MANIFEST_RESOLVED)
    ensures SameSpec(r, ManifestSet(r)) && ManifestSet(r).status.version == r.status.version
  {
    MidwayStart(r, phases);
    SetManifest(r, r, phases, true);
  }

  // ---------------------------------------------------------------- the goal of one pass

  /** The goal `g` is `p` with the values of the manifest read back from the cache. */
  predicate ReadsBack(g: Goal, p: Goal) {
    p.cfg.Cached() == g.cfg && CachedConfigs(p.charts) == g.charts && p.lcmCharts == g.lcmCharts
  }

  /** Towards `p` a pass on this cluster works: the goal itself when the manifest is cached, and otherwise the goal with
      the values as the registry gives them. */
  ghost predicate PassGoal(w: World, r: Release, c: Cluster, g: Goal, p: Goal) {
    && Configured(w, r, c) == Some(p.cfg) && ProperGoal(p) && ReadsBack(g, p)
    && (InCache(c, r.spec.version).Some? ==> p == g)
  }

  lemma WritableCached(t: ChartConfig)
    ensures Writable(t.Cached()) <==> Writable(t)
  {
    CachedValues(t);
  }

  lemma GoalOfPass(w: World, r: Release, c: Cluster, g: Goal) returns (p: Goal)
    requires Resolves(w, r, c, g) && c.faults == {}
    ensures PassGoal(w, r, c, g, p)
  {
    var m := RetrieveManifest(w, r, c).1;
    RetrieveExact(w, r, c);
    UpgradeConfigCached(m.value, r);
    var cfg := UpgradeConfig(m.value, r).value;
    ChartSort.SortedCached(cfg.helmCharts);
    p := g.(cfg := cfg, charts := ChartSort.Sorted(cfg.helmCharts).value);
    forall t | t in p.charts ensures Writable(t) {
      var i :| 0 <= i < |p.charts| && p.charts[i] == t;
      assert g.charts[i] in g.lcmCharts + g.charts;
      WritableCached(t);
    }
    forall t | t in g.lcmCharts ensures Writable(t) {
      assert t in g.lcmCharts + g.charts;
    }
  }

  /** A chart that is done for the cached manifest is done, or only to be written once more, for the manifest. */
  lemma ReadyCached(c: Cluster, t: ChartConfig)
    ensures ChartReady(c, t.Cached()) ==> ChartReady(c, t)
    ensures NeedsWrite(c, t.Cached()) ==> NeedsWrite(c, t)
    ensures ChartReady(c, t) && !NeedsWrite(c, t) ==> !NeedsWrite(c, t.Cached())
  {
    if t.Name() in c.charts {
      CachedUpToDate(c.charts[t.Name()], t);
    }
  }

  lemma QuiescentForPass(g: Goal, p: Goal, hash: Hash, k: Cluster)
    requires ReadsBack(g, p) && Quiescent(g, hash, k)
    ensures Quiescent(p, hash, k)
  {
    forall t | t in p.lcmCharts + p.charts ensures ChartReady(k, t) {
      if t in p.lcmCharts {
        assert t in g.lcmCharts + g.charts;
      } else {
        var i :| 0 <= i < |p.charts| && p.charts[i] == t;
        assert g.charts[i] in g.lcmCharts + g.charts;
        ReadyCached(k, t);
      }
    }
  }

  /** What a pass does for the goal: as `Effect`, but the pass that fills the cache may write a chart that needs it only
      for the values as the registry gives them. */
  ghost predicate GoalEffect(g: Goal, c: Cluster, c': Cluster, ended: bool, cached: bool) {
    if ended then NothingLeft(g, c, c')
    else PlanAdded(g, c, c') || exists t | t in g.charts :: (NeedsWrite(c, t) || !cached) && ChartPut(c, c', t)
  }

  lemma NothingLeftForGoal(g: Goal, p: Goal, hash: Hash, k: Cluster, k': Cluster)
    requires ReadsBack(g, p) && Quiescent(p, hash, k) && NothingLeft(p, k, k')
    ensures NothingLeft(g, k, k')
  {
    forall t | t in g.charts ensures !NeedsWrite(k, t) {
      var i :| 0 <= i < |g.charts| && g.charts[i] == t;
      assert p.charts[i] in p.lcmCharts + p.charts;
      ReadyCached(k, p.charts[i]);
    }
  }

  lemma ChartPutCached(k: Cluster, k': Cluster, t: ChartConfig)
    requires ChartPut(k, k', t)
    ensures ChartPut(k, k', t.Cached())
  {
    var h: HelmChart :| h.name == t.Name() && Settled(h, t)
                        && k' == k.(trace := k'.trace, snapshot := k'.snapshot, cache := k'.cache,
                                    charts := k.charts[t.Name() := h]);
    ReadBackTwice(t.chart.values);
    assert t.Cached().Cached() == t.Cached();
    assert Settled(h, t.Cached());
  }

  lemma ChartPutForGoal(g: Goal, p: Goal, k: Cluster, k': Cluster)
    requires ReadsBack(g, p) && OneChartPut(p, k, k')
    ensures exists t | t in g.charts :: (NeedsWrite(k, t) || p != g) && ChartPut(k, k', t)
  {
    var t :| t in p.charts && NeedsWrite(k, t) && ChartPut(k, k', t);
    var i :| 0 <= i < |p.charts| && p.charts[i] == t;
    ChartPutCached(k, k', t);
    assert g.charts[i] == t.Cached() && g.charts[i] in g.charts;
  }

  lemma EffectForGoal(w: World, r: Release, c: Cluster, g: Goal, p: Goal, hash: Hash, k: Cluster, k': Cluster,
                      ended: bool)
    requires PassGoal(w, r, c, g, p) && Quiescent(p, hash, k) && Effect(p, k, k', ended)
    ensures GoalEffect(g, k, k', ended, InCache(c, r.spec.version).Some?)
  {
    assert Required(p.cfg, k.nodes) == Required(g.cfg, k.nodes);
    if ended {
      NothingLeftForGoal(g, p, hash, k, k');
    } else if !PlanAdded(p, k, k') {
      ChartPutForGoal(g, p, k, k');
    }
  }

  // ---------------------------------------------------------------- from the manifest on

  lemma ParseReads(m: Manifest, r: Release, c: Cluster, cfg: Config)
    requires UpgradeConfig(m, r) == Ok(cfg) && c.faults == {}
    ensures var (c', parsed) := ParseConfig(c, m, ManifestSet(r)); parsed == Ok(cfg) && OnlyRead(c, c')
  {
    assert Since(c, c) == [];
    var c' := ParseConfig(c, m, ManifestSet(r)).0;
    if c' != c {
      ReadOnce(c, c', NodesT);
    }
  }

  /** With the manifest resolved, the pass runs the pipeline on the cleaned cluster. */
  lemma ResolvedPass(w: World, hs: seq<Pipeline.Handler>, r: Release, c: Cluster, cfg: Config) returns (c1: Cluster)
    requires Enumerates(w.order) && Configured(w, r, c) == Some(cfg) && c.faults == {}
    ensures Upgrade(w, hs, r, c) == ApplyConfig(hs, ManifestSet(r), c1, cfg)
    ensures c1 == Cleaned(r, c).(trace := c1.trace, cache := c1.cache)
    ensures r.status.version == r.spec.version && InCache(c, r.spec.version).Some? ==> OnlyRead(c, c1)
  {
    var (k, m) := RetrieveManifest(w, r, c);
    RetrieveTouchesCache(w, r, c);
    RetrieveExact(w, r, c);
    ParseReads(m.value, r, k, cfg);
    var k1 := ParseConfig(k, m.value, ManifestSet(r)).0;
    c1 := CleanedPass(w, hs, ManifestSet(r), k1, cfg);
    if InCache(c, r.spec.version).Some? {
      OnlyReadThen(c, k, k1);
    }
  }

  /** After it the manifest is cached, and it is the one that later passes would have read before. */
  lemma UpgradeCaches(w: World, hash: Hash, r: Release, c: Cluster)
    requires Enumerates(w.order) && ChartsKeyed(c.charts) && c.faults == {}
    requires LastingManifest(w, c, r.spec.version).Some?
    ensures InCache(Upgrade(w, RealHandlers(hash, w.order), r, c).cluster, r.spec.version)
            == LastingManifest(w, c, r.spec.version)
  {
    var hs := RealHandlers(hash, w.order);
    RealHandlersFramed(hash, w.order);
    var (k, m) := RetrieveManifest(w, r, c);
    RetrieveTouchesCache(w, r, c);
    RetrieveExact(w, r, c);
    UpgradeToFramed(w, hs, m.value, r, k);
  }

  /** A pass from the manifest on. */
  lemma UpgradeEffect(g: Goal, w: World, hash: Hash, hs: seq<Pipeline.Handler>, r: Release, c: Cluster)
    returns (ended: bool)
    requires Enumerates(w.order) && CollisionFree(hash) && Resolves(w, r, c, g) && hs == RealHandlers(hash, w.order)
    requires Gated(r, Pipeline.Phases(hs)) && IsTrue(r, ConditionType(PHASE_LCM))
    requires Quiescent(g, hash, Cleaned(r, c))
    ensures PassEffect(g, hs, r, c, Upgrade(w, hs, r, c), ended)
  {
    RealHandlersProper(hash, w.order);
    ResolvedGoal(w, r, c, g);
    ManifestSetGated(r, Pipeline.Phases(hs));
    var p := GoalOfPass(w, r, c, g);
    var c1 := ResolvedPass(w, hs, r, c, p.cfg);
    UpgradeCaches(w, hash, r, c);
    QuiescentForPass(g, p, hash, Cleaned(r, c));
    QuiescentFrom(p, hash, Cleaned(r, c), c1);
    PipelineAdvances(p, hash, w.order, c1);
    var run := Pipeline.RunPipeline(hs, p.cfg, c1);
    ended := Ended(run, 3);
    ApplyMarks(hs, ManifestSet(r), c1, p.cfg);
    EffectFrom(p, Cleaned(r, c), c1, run.cluster, ended);
    EffectForGoal(w, r, c, g, p, hash, Cleaned(r, c), run.cluster, ended);
    if ended && Owned(g, c) && r.status.version == r.spec.version && InCache(c, r.spec.version).Some? {
      OnlyReadThen(c, c1, run.cluster);
    }
  }

  ghost predicate PassEffect(g: Goal, hs: seq<Pipeline.Handler>, r: Release, c: Cluster, pass: Pass, ended: bool) {
    var cached := InCache(c, r.spec.version).Some?;
    && GoalEffect(g, Cleaned(r, c), pass.cluster, ended, cached) && InCache(pass.cluster, r.spec.version).Some?
    && (ended && Owned(g, c) && r.status.version == r.spec.version && cached ==> OnlyRead(c, pass.cluster))
    && Marked(r, UpdateApplied(pass.release, Pipeline.Phases(hs)), ended)
    && (pass.outcome == Done <==> ended)
  }
}
