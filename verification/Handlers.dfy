/** The pipeline the manager builds (cmd/main.go): operating system, Kubernetes, Helm charts. */
module Handlers {
  import opened Wrappers
  import opened Charts
  import opened Api
  import opened Conditions
  import opened Clusters
  import opened HelmReconciler
  import opened ReleaseConfig
  import opened Manifests
  import opened Plans
  import opened PackagedComponents
  import opened Kubernetes
  import opened Controller
  import opened StatusMachine
  import Pipeline
  import ChartSort

  function OsHandler(): Pipeline.Handler {
    Pipeline.Handler(PHASE_OS, (c: Cluster, cfg: Config) => OsPhase(c, cfg))
  }

  function KubernetesHandler(hash: Hash, order: MapOrder): Pipeline.Handler
    requires Enumerates(order)
  {
    Pipeline.Handler(PHASE_KUBERNETES, (c: Cluster, cfg: Config) => KubernetesPhase(c, cfg, hash, order))
  }

  function HelmHandler(): Pipeline.Handler {
    Pipeline.Handler(PHASE_HELM_CHARTS,
                     (c: Cluster, cfg: Config) => HelmPhase(c, cfg.GetOwner(), false, cfg.helmCharts))
  }

  function RealHandlers(hash: Hash, order: MapOrder): seq<Pipeline.Handler>
    requires Enumerates(order)
  {
    [OsHandler(), KubernetesHandler(hash, order), HelmHandler()]
  }

  // ---------------------------------------------------------------- they are proper

  lemma OsStates(c: Cluster, cfg: Config)
    ensures var r := OsPhase(c, cfg).1;
            r.Ok? ==> r.value.Succeeded? || r.value.Skipped? || r.value.InProgress? || r.value.Failed?
  {
    if cfg.os.Some? && cfg.os.value.imageParses {
      var (c1, nodes) := c.ListNodes([]);
      if nodes.Ok? {
        RunPlansVerdict(c1, PlansFor(OS_CONTROL_PLANE, OS_WORKER, cfg.GetOwner(), cfg.os.value.version, nodes.value),
                        None);
      }
    }
  }

  lemma KubernetesStates(c: Cluster, cfg: Config, hash: Hash, order: MapOrder)
    requires Enumerates(order)
    ensures var r := KubernetesPhase(c, cfg, hash, order).1;
            r.Ok? ==> r.value.Succeeded? || r.value.Skipped? || r.value.InProgress? || r.value.Failed?
  {
    if cfg.kubernetes.Some? {
      var (c1, snapshot) := SnapshotFor(c, hash, order, cfg.GetOwner());
      if snapshot.Ok? {
        var (c2, nodes) := c1.ListNodes([]);
        if nodes.Ok? {
          UpgradeNodesStarts(c2, cfg, hash, order, nodes.value, snapshot.value);
        }
      }
    }
  }

  lemma HelmStates(c: Cluster, o: Owner, strict: bool, configs: seq<ChartConfig>)
    ensures var r := HelmPhase(c, o, strict, configs).1;
            r.Ok? ==> r.value.Succeeded? || r.value.Skipped? || r.value.InProgress? || r.value.Failed?
  {
    if configs != [] && ChartSort.Sorted(configs).Ok? {
      HelmPhaseExact(c, o, strict, configs, ChartSort.Sorted(configs).value);
    }
  }

  lemma RealPhases(hash: Hash, order: MapOrder)
    requires Enumerates(order)
    ensures Pipeline.Phases(RealHandlers(hash, order)) == [PHASE_OS, PHASE_KUBERNETES, PHASE_HELM_CHARTS]
    ensures ProperPhases(Pipeline.Phases(RealHandlers(hash, order)))
  {
    assert PHASE_OS[0] == 'O' && PHASE_KUBERNETES[0] == 'K' && PHASE_HELM_CHARTS[0] == 'H' && PHASE_LCM[0] == 'L';
  }

  /** The status invariants hold of the pipeline the manager builds. */
  lemma RealHandlersProper(hash: Hash, order: MapOrder)
    requires Enumerates(order)
    ensures ProperHandlers(RealHandlers(hash, order))
  {
    RealPhases(hash, order);
    var hs := RealHandlers(hash, order);
    forall h, c, cfg | h in hs && h.reconcile(c, cfg).1.Ok?
      ensures var s := h.reconcile(c, cfg).1.value; s.Succeeded? || s.Skipped? || s.InProgress? || s.Failed?
    {
      OsStates(c, cfg);
      KubernetesStates(c, cfg, hash, order);
      HelmStates(c, cfg.GetOwner(), false, cfg.helmCharts);
    }
  }

  // ---------------------------------------------------------------- one action per pass

  lemma ChartStepKeyed(c: Cluster, o: Owner, t: ChartConfig)
    requires ChartsKeyed(c.charts)
    ensures ChartsKeyed(ChartStep(c, o, t).0.charts)
  {
  }

  lemma {:induction false} RunKeyed(c: Cluster, o: Owner, strict: bool, ts: seq<ChartConfig>)
    requires ChartsKeyed(c.charts)
    ensures ChartsKeyed(RunCharts(c, o, strict, ts).cluster.charts)
    decreases |ts|
  {
    if ts != [] {
      ChartStepKeyed(c, o, ts[0]);
      RunKeyed(ChartStep(c, o, ts[0]).0, o, strict, ts[1..]);
    }
  }

  lemma HelmPhaseKeyed(c: Cluster, o: Owner, strict: bool, configs: seq<ChartConfig>)
    requires ChartsKeyed(c.charts)
    ensures ChartsKeyed(HelmPhase(c, o, strict, configs).0.charts)
  {
    if configs != [] && ChartSort.Sorted(configs).Ok? {
      RunKeyed(c, o, strict, ChartSort.Sorted(configs).value);
    }
  }

  predicate Keyed(c: Cluster) {
    ChartsKeyed(c.charts)
  }

  lemma OsFrugal()
    ensures Pipeline.Frugal(OsHandler(), Keyed)
  {
    forall c, cfg | Keyed(c)
      ensures var (c', r) := OsHandler().reconcile(c, cfg);
              Keyed(c') && StartsLast(c, c') && (r.Ok? && Completes(r.value) ==> Quiet(c, c'))
    {
      OsPhaseStarts(c, cfg);
    }
  }

  lemma KubernetesFrugal(hash: Hash, order: MapOrder)
    requires Enumerates(order)
    ensures Pipeline.Frugal(KubernetesHandler(hash, order), Keyed)
  {
    forall c, cfg | Keyed(c)
      ensures var (c', r) := KubernetesHandler(hash, order).reconcile(c, cfg);
              Keyed(c') && StartsLast(c, c') && (r.Ok? && Completes(r.value) ==> Quiet(c, c'))
    {
      KubernetesPhaseStarts(c, cfg, hash, order);
    }
  }

  lemma HelmFrugal()
    ensures Pipeline.Frugal(HelmHandler(), Keyed)
  {
    forall c, cfg: Config | Keyed(c)
      ensures var (c', r) := HelmHandler().reconcile(c, cfg);
              Keyed(c') && StartsLast(c, c') && (r.Ok? && Completes(r.value) ==> Quiet(c, c'))
    {
      HelmPhaseStarts(c, cfg.GetOwner(), false, cfg.helmCharts);
      HelmPhaseKeyed(c, cfg.GetOwner(), false, cfg.helmCharts);
    }
  }

  lemma {:induction false} DeleteAllQuiet(c: Cluster, names: seq<string>)
    ensures Quiet(c, DeleteAll(c, names).0) && DeleteAll(c, names).0.charts == c.charts
    decreases |names|
  {
    if names == [] {
      assert Since(c, c) == [];
    } else {
      var (c1, r) := c.DeletePlan(names[0]);
      LogOne(c, c1, Delete(PlanT(names[0])));
      DeleteAllQuiet(c1, names[1..]);
      QuietThen(c, c1, DeleteAll(c1, names[1..]).0);
    }
  }

  lemma CleanupQuiet(c: Cluster, o: Owner, order: MapOrder)
    requires Enumerates(order)
    ensures Quiet(c, Cleanup(c, o, order).0) && Cleanup(c, o, order).0.charts == c.charts
  {
    var (c1, plans) := c.ListPlans(OwnerLabels(o));
    LogOne(c, c1, Read(PlansT));
    if plans.Ok? {
      DeleteAllQuiet(c1, Listed(order, |c1.trace|, plans.value));
      QuietThen(c, c1, Cleanup(c, o, order).0);
    }
  }

  lemma ApplyStarts(hash: Hash, order: MapOrder, r: Release, c: Cluster, cfg: Config)
    requires Enumerates(order) && Keyed(c)
    ensures StartsLast(c, ApplyConfig(RealHandlers(hash, order), r, c, cfg).cluster)
  {
    OsFrugal();
    KubernetesFrugal(hash, order);
    HelmFrugal();
    Pipeline.PipelineStarts(RealHandlers(hash, order), cfg, c, Keyed);
  }

  lemma CleanAndApplyStarts(w: World, hash: Hash, r: Release, c: Cluster, cfg: Config)
    requires Enumerates(w.order) && Keyed(c)
    ensures StartsLast(c, CleanAndApply(w, RealHandlers(hash, w.order), r, c, cfg).cluster)
  {
    var o := Owner(r.name, r.status.version);
    var c1 := Cleanup(c, o, w.order).0;
    CleanupQuiet(c, o, w.order);
    QuietStartsLast(c, c1);
    ApplyStarts(hash, w.order, r, c, cfg);
    ApplyStarts(hash, w.order, r, c1, cfg);
    QuietThen(c, c1, ApplyConfig(RealHandlers(hash, w.order), r, c1, cfg).cluster);
  }

  lemma UpgradeToStarts(w: World, hash: Hash, m: Manifest, r: Release, c: Cluster)
    requires Enumerates(w.order) && Keyed(c)
    ensures StartsLast(c, UpgradeTo(w, RealHandlers(hash, w.order), m, r, c).cluster)
  {
    assert Since(c, c) == [];
    var r1 := SetCondition(r, CONDITION_MANIFEST_RESOLVED, true, Succeeded);
    var (c1, cfg) := ParseConfig(c, m, r1);
    if c1 != c {
      LogOne(c, c1, Read(NodesT));
    }
    QuietStartsLast(c, c1);
    if cfg.Ok? {
      CleanAndApplyStarts(w, hash, r1, c1, cfg.value);
      QuietThen(c, c1, CleanAndApply(w, RealHandlers(hash, w.order), r1, c1, cfg.value).cluster);
    }
  }

  lemma UpgradeStarts(w: World, hash: Hash, r: Release, c: Cluster)
    requires Enumerates(w.order) && Keyed(c)
    ensures StartsLast(c, Upgrade(w, RealHandlers(hash, w.order), r, c).cluster)
  {
    var (c1, m) := RetrieveManifest(w, r, c);
    RetrieveTouchesCache(w, r, c);
    QuietStartsLast(c, c1);
    if m.Some? {
      UpgradeToStarts(w, hash, m.value, r, c1);
      QuietThen(c, c1, UpgradeTo(w, RealHandlers(hash, w.order), m.value, r, c1).cluster);
    }
  }

  /** Over the LCM phase and the whole pipeline, a pass issues at most one call that starts an upgrade action, and it is
      the last call of the pass. */
  lemma OneActionPerPass(w: World, hash: Hash, r: Release, c: Cluster)
    requires Enumerates(w.order) && Keyed(c)
    ensures StartsLast(c, ReleasePass(w, RealHandlers(hash, w.order), r, c).cluster)
  {
    assert Since(c, c) == [];
    UpgradeStarts(w, hash, r, c);
    if !IsTrue(r, ConditionType(PHASE_LCM)) && r.spec.version in w.lcm && LcmConfig(w.lcm[r.spec.version], r).Ok? {
      var cfg := LcmConfig(w.lcm[r.spec.version], r).value;
      var (c1, state) := HelmPhase(c, cfg.GetOwner(), true, cfg.helmCharts);
      HelmPhaseStarts(c, cfg.GetOwner(), true, cfg.helmCharts);
      HelmPhaseKeyed(c, cfg.GetOwner(), true, cfg.helmCharts);
      if state == Ok(Succeeded) {
        var r1 := UpdatePhase(r, PHASE_LCM, state.value);
        UpgradeStarts(w, hash, r1, c1);
        QuietThen(c, c1, Upgrade(w, RealHandlers(hash, w.order), r1, c1).cluster);
      }
    }
  }
}
