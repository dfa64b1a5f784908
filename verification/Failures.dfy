/** No failing call goes unnoticed: a phase that issued one ends with an error, and so does the pass, except that
    failures of the manifest cache are only logged. */
module Failures {
  import opened Wrappers
  import opened Charts
  import opened Api
  import opened Conditions
  import opened Clusters
  import opened HelmReconciler
  import opened ReleaseConfig
  import opened Manifests
  import opened ManifestCache
  import opened Plans
  import opened PackagedComponents
  import opened Kubernetes
  import opened Controller
  import opened StatusMachine
  import opened Handlers
  import opened Frames
  import opened Outcomes
  import ChartSort
  import Pipeline

  // ---------------------------------------------------------------- calls that succeed

  /** No call issued between the two fails, but for calls to the manifest cache when these are `excused`. */
  predicate Clean(c: Cluster, c': Cluster, excused: bool) {
    && Continues(c, c') && c'.faults == c.faults
    && forall e | e in Since(c, c') && e in c.faults :: excused && e.t.CacheT?
  }

  lemma CleanNone(c: Cluster, excused: bool)
    ensures Clean(c, c, excused)
  {
    assert Since(c, c) == [];
  }

  lemma CleanOne(c: Cluster, c': Cluster, e: Event)
    requires c'.trace == c.trace + [e] && c'.faults == c.faults && e !in c.faults
    ensures Clean(c, c', false)
  {
    assert Since(c, c') == [e];
  }

  lemma CleanThen(a: Cluster, b: Cluster, c: Cluster, excused: bool)
    requires Clean(a, b, excused) && Clean(b, c, excused)
    ensures Clean(a, c, excused)
  {
    SinceConcat(a, b, c);
    forall e | e in Since(a, c) && e in a.faults ensures excused && e.t.CacheT? {
      assert e in Since(a, b) || e in Since(b, c);
    }
  }

  // ---------------------------------------------------------------- charts

  lemma JobStateClean(c: Cluster, h: HelmChart)
    requires JobState(c, h).1.Ok?
    ensures Clean(c, JobState(c, h).0, false)
  {
    if h.status.jobName == "" {
      CleanNone(c, false);
    } else {
      CleanOne(c, JobState(c, h).0, Read(JobT(h.status.jobName)));
    }
  }

  lemma ChartStepClean(c: Cluster, o: Owner, t: ChartConfig)
    requires ChartStep(c, o, t).1.Ok?
    ensures Clean(c, ChartStep(c, o, t).0, false)
  {
    var c' := ChartStep(c, o, t).0;
    var (c1, release) := c.RetrieveRelease(t.Name());
    CleanOne(c, c1, Read(ReleaseT(t.Name())));
    if release.value.Some? {
      var (c2, existing) := c1.GetChart(t.Name());
      CleanOne(c1, c2, Read(ChartT(t.Name())));
      CleanThen(c, c1, c2, false);
      if existing.value.None? && release.value.value.chartVersion != t.chart.version {
        CleanOne(c2, c', Create(ChartT(BuiltFrom(o, t, release.value.value).value.name)));
        CleanThen(c, c2, c', false);
      } else if existing.value.Some? && ShouldUpdate(existing.value.value, t) == Ok(true) {
        CleanOne(c2, c', Update(ChartT(Retargeted(existing.value.value, o, t).value.name)));
        CleanThen(c, c2, c', false);
      } else if existing.value.Some? {
        JobStateClean(c2, existing.value.value);
        CleanThen(c, c2, c', false);
      }
    }
  }

  lemma {:induction false} RunChartsClean(c: Cluster, o: Owner, strict: bool, ts: seq<ChartConfig>)
    requires RunCharts(c, o, strict, ts).error.None?
    ensures Clean(c, RunCharts(c, o, strict, ts).cluster, false)
    decreases |ts|
  {
    if ts == [] {
      CleanNone(c, false);
    } else {
      var (c1, r) := ChartStep(c, o, ts[0]);
      ChartStepClean(c, o, ts[0]);
      if !Stops(r.value, strict) {
        RunChartsClean(c1, o, strict, ts[1..]);
        CleanThen(c, c1, RunCharts(c1, o, strict, ts[1..]).cluster, false);
      }
    }
  }

  lemma HelmPhaseClean(c: Cluster, o: Owner, strict: bool, configs: seq<ChartConfig>)
    requires HelmPhase(c, o, strict, configs).1.Ok?
    ensures Clean(c, HelmPhase(c, o, strict, configs).0, false)
    ensures configs != [] ==> ChartSort.Sorted(configs).Ok?
  {
    if configs == [] {
      CleanNone(c, false);
    } else {
      RunChartsClean(c, o, strict, ChartSort.Sorted(configs).value);
    }
  }

  // ---------------------------------------------------------------- plans

  lemma ReportClean(c: Cluster, p: Plan)
    requires Report(c, p).1.Ok?
    ensures Clean(c, Report(c, p).0, false)
  {
    if PlanState(p) == PlanComplete {
      CleanOne(c, Report(c, p).0, Read(NodesT));
    } else {
      CleanNone(c, false);
    }
  }

  lemma SucReconcileClean(c: Cluster, p: Plan)
    requires SucReconcile(c, p).1.Ok?
    ensures Clean(c, SucReconcile(c, p).0, false)
  {
    var c' := SucReconcile(c, p).0;
    var (c1, existing) := c.GetPlan(p.name);
    CleanOne(c, c1, Read(PlanT(p.name)));
    if existing.value.Some? {
      ReportClean(c1, existing.value.value);
      CleanThen(c, c1, c', false);
    } else {
      var c2 := c1.CreatePlan(p).0;
      CleanOne(c1, c2, Create(PlanT(p.name)));
      CleanThen(c, c1, c2, false);
      ReportClean(c2, p);
      CleanThen(c, c2, c', false);
    }
  }

  lemma {:induction false} RunPlansClean(c: Cluster, plans: seq<Plan>, verify: Option<string>)
    requires RunPlans(c, plans, verify).1.Ok?
    ensures Clean(c, RunPlans(c, plans, verify).0, false)
    decreases |plans|
  {
    if plans == [] {
      CleanNone(c, false);
    } else {
      var c1 := SucReconcile(c, plans[0]).0;
      SucReconcileClean(c, plans[0]);
      if RunPlans(c, plans, verify).0 != c1 {
        RunPlansClean(c1, plans[1..], verify);
        CleanThen(c, c1, RunPlans(c1, plans[1..], verify).0, false);
      }
    }
  }

  lemma OsPhaseClean(c: Cluster, cfg: Config)
    requires OsPhase(c, cfg).1.Ok?
    ensures Clean(c, OsPhase(c, cfg).0, false) && (cfg.os.Some? ==> cfg.os.value.imageParses)
  {
    if cfg.os.None? {
      CleanNone(c, false);
    } else {
      var (c1, nodes) := c.ListNodes([]);
      CleanOne(c, c1, Read(NodesT));
      var plans := PlansFor(OS_CONTROL_PLANE, OS_WORKER, cfg.GetOwner(), cfg.os.value.version, nodes.value);
      RunPlansClean(c1, plans, None);
      CleanThen(c, c1, RunPlans(c1, plans, None).0, false);
    }
  }

  // ---------------------------------------------------------------- the snapshot and the components

  lemma {:induction false} PopulateClean(c: Cluster, hash: Hash, components: map<string, HelmChart>, names: seq<string>,
                                         data: map<string, ComponentRecord>)
    requires (forall n | n in names :: n in components) && Populate(c, hash, components, names, data).1.Ok?
    ensures Clean(c, Populate(c, hash, components, names, data).0, false)
    decreases |names|
  {
    if names == [] {
      CleanNone(c, false);
    } else {
      var h := components[names[0]];
      var (c1, release) := c.RetrieveRelease(h.name);
      CleanOne(c, c1, Read(ReleaseT(h.name)));
      var more := data[h.name := RecordOf(h, hash, release.value.value)];
      PopulateClean(c1, hash, components, names[1..], more);
      CleanThen(c, c1, Populate(c1, hash, components, names[1..], more).0, false);
    }
  }

  lemma StoreClean(c: Cluster, s: SnapshotMap)
    requires Store(c, s).1.Ok?
    ensures Clean(c, Store(c, s).0, false)
  {
    var c1 := c.CreateSnapshot(s).0;
    CleanOne(c, c1, Create(SnapshotT));
    CleanOne(c1, Store(c, s).0, Read(SnapshotT));
    CleanThen(c, c1, Store(c, s).0, false);
  }

  lemma TakeSnapshotClean(c: Cluster, hash: Hash, order: MapOrder, o: Owner)
    requires Enumerates(order) && TakeSnapshot(c, hash, order, o).1.Ok?
    ensures Clean(c, TakeSnapshot(c, hash, order, o).0, false)
  {
    var (c1, nodes) := c.ListNodes([]);
    CleanOne(c, c1, Read(NodesT));
    var (c2, components) := FindComponents(c1);
    CleanOne(c1, c2, Read(ChartsT));
    CleanThen(c, c1, c2, false);
    var names := Listed(order, |c2.trace|, components.value.Keys);
    var (c3, data) := Populate(c2, hash, components.value, names, map[]);
    PopulateClean(c2, hash, components.value, names, map[]);
    CleanThen(c, c2, c3, false);
    StoreClean(c3, BlankSnapshot(o).(sourceVersion := nodes.value[0].kubeletVersion, data := data.value));
    CleanThen(c, c3, TakeSnapshot(c, hash, order, o).0, false);
  }

  lemma SnapshotForClean(c: Cluster, hash: Hash, order: MapOrder, o: Owner)
    requires Enumerates(order) && SnapshotFor(c, hash, order, o).1.Ok?
    ensures Clean(c, SnapshotFor(c, hash, order, o).0, false)
  {
    var c' := SnapshotFor(c, hash, order, o).0;
    var (c1, existing) := c.GetSnapshot();
    CleanOne(c, c1, Read(SnapshotT));
    if existing.value.None? {
      TakeSnapshotClean(c1, hash, order, o);
      CleanThen(c, c1, c', false);
    } else if !Owns(existing.value.value, o) {
      var c2 := c1.DeleteSnapshot().0;
      CleanOne(c1, c2, Delete(SnapshotT));
      CleanThen(c, c1, c2, false);
      TakeSnapshotClean(c2, hash, order, o);
      CleanThen(c, c2, c', false);
    }
  }

  lemma PairReadyClean(c: Cluster, p: Pair, since: nat)
    requires PairReady(c, p, since).1.Ok?
    ensures Clean(c, PairReady(c, p, since).0, false)
  {
    var c' := PairReady(c, p, since).0;
    if p.chart.status.jobName == "" {
      CleanNone(c, false);
    } else {
      var (c1, job) := c.GetJob(p.chart.status.jobName);
      CleanOne(c, c1, Read(JobT(p.chart.status.jobName)));
      if job.value.None? {
        CleanOne(c1, c', Read(ReleaseT(p.chart.name)));
        CleanThen(c, c1, c', false);
      }
    }
  }

  lemma {:induction false} PairsReadyClean(c: Cluster, pairs: seq<Pair>, since: nat)
    requires PairsReady(c, pairs, since).1.Ok?
    ensures Clean(c, PairsReady(c, pairs, since).0, false)
    decreases |pairs|
  {
    if pairs == [] {
      CleanNone(c, false);
    } else {
      var (c1, r) := PairReady(c, pairs[0], since);
      PairReadyClean(c, pairs[0], since);
      if r.value {
        PairsReadyClean(c1, pairs[1..], since);
        CleanThen(c, c1, PairsReady(c1, pairs[1..], since).0, false);
      }
    }
  }

  lemma AvailabilityClean(c: Cluster, hash: Hash, order: MapOrder, target: string, s: SnapshotMap)
    requires Enumerates(order) && Availability(c, hash, order, target, s).1.Ok?
    ensures Clean(c, Availability(c, hash, order, target, s).0, false)
  {
    var c' := Availability(c, hash, order, target, s).0;
    var (c1, components) := FindComponents(c);
    CleanOne(c, c1, Read(ChartsT));
    var pairs := FindChanged(components.value, hash, s.data, Listed(order, |c1.trace|, components.value.Keys));
    if pairs != [] {
      PairsReadyClean(c1, pairs, s.creationTime);
      CleanThen(c, c1, c', false);
    }
  }

  lemma UpgradeNodesClean(c: Cluster, cfg: Config, hash: Hash, order: MapOrder, nodes: seq<Node>, s: SnapshotMap)
    requires Enumerates(order) && cfg.kubernetes.Some? && UpgradeNodes(c, cfg, hash, order, nodes, s).1.Ok?
    ensures Clean(c, UpgradeNodes(c, cfg, hash, order, nodes, s).0, false)
  {
    var (c1, r) := RunPlans(c, KubernetesPlans(cfg, nodes), Some(cfg.kubernetes.value.version));
    RunPlansClean(c, KubernetesPlans(cfg, nodes), Some(cfg.kubernetes.value.version));
    if r == Ok(None) {
      AvailabilityClean(c1, hash, order, cfg.kubernetes.value.version, s);
      CleanThen(c, c1, UpgradeNodes(c, cfg, hash, order, nodes, s).0, false);
    }
  }

  lemma KubernetesPhaseClean(c: Cluster, cfg: Config, hash: Hash, order: MapOrder)
    requires Enumerates(order) && KubernetesPhase(c, cfg, hash, order).1.Ok?
    ensures Clean(c, KubernetesPhase(c, cfg, hash, order).0, false)
  {
    if cfg.kubernetes.None? {
      CleanNone(c, false);
    } else {
      var (c1, snapshot) := SnapshotFor(c, hash, order, cfg.GetOwner());
      SnapshotForClean(c, hash, order, cfg.GetOwner());
      var (c2, nodes) := c1.ListNodes([]);
      CleanOne(c1, c2, Read(NodesT));
      CleanThen(c, c1, c2, false);
      UpgradeNodesClean(c2, cfg, hash, order, nodes.value, snapshot.value);
      CleanThen(c, c2, KubernetesPhase(c, cfg, hash, order).0, false);
    }
  }

  // ---------------------------------------------------------------- the pipeline

  ghost predicate Heeds(h: Pipeline.Handler, cfg: Config) {
    forall c: Cluster | h.reconcile(c, cfg).1.Ok? :: Clean(c, h.reconcile(c, cfg).0, false)
  }

  lemma RealHeeds(hash: Hash, order: MapOrder, h: Pipeline.Handler, cfg: Config)
    requires Enumerates(order) && h in RealHandlers(hash, order)
    ensures Heeds(h, cfg)
  {
    var hs := RealHandlers(hash, order);
    assert h == hs[0] || h == hs[1] || h == hs[2];
    forall c: Cluster | h.reconcile(c, cfg).1.Ok? ensures Clean(c, h.reconcile(c, cfg).0, false) {
      if h == OsHandler() {
        OsPhaseClean(c, cfg);
      } else if h == KubernetesHandler(hash, order) {
        KubernetesPhaseClean(c, cfg, hash, order);
      } else {
        HelmPhaseClean(c, cfg.GetOwner(), false, cfg.helmCharts);
      }
    }
  }

  lemma {:induction false} PipelineClean(hs: seq<Pipeline.Handler>, cfg: Config, c: Cluster)
    requires (forall h | h in hs :: Heeds(h, cfg)) && Pipeline.RunPipeline(hs, cfg, c).failed.None?
    ensures Clean(c, Pipeline.RunPipeline(hs, cfg, c).cluster, false)
    decreases |hs|
  {
    if hs == [] {
      CleanNone(c, false);
    } else {
      assert hs[0] in hs;
      var (c1, r) := hs[0].reconcile(c, cfg);
      if Completes(r.value) {
        PipelineClean(hs[1..], cfg, c1);
        CleanThen(c, c1, Pipeline.RunPipeline(hs[1..], cfg, c1).cluster, false);
      }
    }
  }

  lemma {:induction false} DeleteAllClean(c: Cluster, names: seq<string>)
    requires DeleteAll(c, names).1
    ensures Clean(c, DeleteAll(c, names).0, false)
    decreases |names|
  {
    if names == [] {
      CleanNone(c, false);
    } else {
      var c1 := c.DeletePlan(names[0]).0;
      CleanOne(c, c1, Delete(PlanT(names[0])));
      DeleteAllClean(c1, names[1..]);
      CleanThen(c, c1, DeleteAll(c1, names[1..]).0, false);
    }
  }

  lemma CleanupClean(c: Cluster, o: Owner, order: MapOrder)
    requires Enumerates(order) && Cleanup(c, o, order).1
    ensures Clean(c, Cleanup(c, o, order).0, false)
  {
    var (c1, plans) := c.ListPlans(OwnerLabels(o));
    CleanOne(c, c1, Read(PlansT));
    DeleteAllClean(c1, Listed(order, |c1.trace|, plans.value));
    CleanThen(c, c1, Cleanup(c, o, order).0, false);
  }

  // ---------------------------------------------------------------- the pass

  lemma Excused(c: Cluster, c': Cluster)
    requires Clean(c, c', false)
    ensures Clean(c, c', true)
  {
  }

  lemma CacheOnly(c: Cluster, c': Cluster, e: Event)
    requires c'.trace == c.trace + [e] && c'.faults == c.faults && e.t.CacheT?
    ensures Clean(c, c', true)
  {
    assert Since(c, c') == [e];
  }

  lemma CacheSetExcused(c: Cluster, version: string, m: Manifest)
    ensures Clean(c, CacheSet(c, version, m).0, true)
  {
    var (c1, texts) := c.GetCache();
    CacheOnly(c, c1, Read(CacheT));
    if texts.Ok? {
      CacheOnly(c1, CacheSet(c, version, m).0, if texts.value.None? then Create(CacheT) else Update(CacheT));
      CleanThen(c, c1, CacheSet(c, version, m).0, true);
    }
  }

  lemma RetrieveClean(w: World, r: Release, c: Cluster)
    ensures Clean(c, RetrieveManifest(w, r, c).0, true)
  {
    var v := r.spec.version;
    var (c1, cached) := CacheGet(c, v);
    CacheOnly(c, c1, Read(CacheT));
    if !(cached.Ok? && cached.value.Some?) && v in w.manifests {
      CacheSetExcused(c1, v, w.manifests[v]);
      CleanThen(c, c1, CacheSet(c1, v, w.manifests[v]).0, true);
    }
  }

  lemma ApplyClean(w: World, hash: Hash, hs: seq<Pipeline.Handler>, r: Release, c: Cluster, cfg: Config)
    requires Enumerates(w.order) && hs == RealHandlers(hash, w.order)
    requires CleanAndApply(w, hs, r, c, cfg).outcome != Errored
    ensures Clean(c, CleanAndApply(w, hs, r, c, cfg).cluster, false)
  {
    forall h | h in hs ensures Heeds(h, cfg) {
      RealHeeds(hash, w.order, h, cfg);
    }
    if r.status.version != "" && r.status.version != cfg.releaseVersion {
      var c1 := Cleanup(c, Owner(r.name, r.status.version), w.order).0;
      CleanupClean(c, Owner(r.name, r.status.version), w.order);
      PipelineClean(hs, cfg, c1);
      CleanThen(c, c1, Pipeline.RunPipeline(hs, cfg, c1).cluster, false);
    } else {
      PipelineClean(hs, cfg, c);
    }
  }

  lemma UpgradeClean(w: World, hash: Hash, hs: seq<Pipeline.Handler>, r: Release, c: Cluster)
    requires Enumerates(w.order) && hs == RealHandlers(hash, w.order) && Upgrade(w, hs, r, c).outcome != Errored
    ensures Clean(c, Upgrade(w, hs, r, c).cluster, true)
  {
    var (k, m) := RetrieveManifest(w, r, c);
    RetrieveClean(w, r, c);
    var r1 := SetCondition(r, CONDITION_MANIFEST_RESOLVED, true, Succeeded);
    var (k1, cfg) := ParseConfig(k, m.value, r1);
    if k1 == k {
      CleanNone(k, false);
    } else {
      CleanOne(k, k1, Read(NodesT));
    }
    if cfg.Ok? {
      ApplyClean(w, hash, hs, r1, k1, cfg.value);
      CleanThen(k, k1, Upgrade(w, hs, r, c).cluster, false);
    }
    Excused(k, Upgrade(w, hs, r, c).cluster);
    CleanThen(c, k, Upgrade(w, hs, r, c).cluster, true);
  }

  /** A pass during which any call failed, other than one to the
      manifest cache, ends as an error or shows LCM as failed. */
  lemma NoFailureUnnoticed(w: World, hash: Hash, hs: seq<Pipeline.Handler>, r: Release, c: Cluster)
    requires Enumerates(w.order) && hs == RealHandlers(hash, w.order)
    ensures var pass := ReleasePass(w, hs, r, c);
            Clean(c, pass.cluster, true) || pass.outcome == Errored || FalseFor(pass.release, "LCMUpgraded", Failed)
  {
    CleanNone(c, true);
    FixedTypes();
    if r.status.observedGeneration == r.generation && ReleasePass(w, hs, r, c).outcome != Errored {
      if IsTrue(r, ConditionType(PHASE_LCM)) {
        UpgradeClean(w, hash, hs, r, c);
      } else if LcmConfig(w.lcm[r.spec.version], r).Ok? {
        LcmClean(w, hash, hs, r, c, LcmConfig(w.lcm[r.spec.version], r).value);
      }
    }
  }

  lemma LcmClean(w: World, hash: Hash, hs: seq<Pipeline.Handler>, r: Release, c: Cluster, cfg: Config)
    requires Enumerates(w.order) && hs == RealHandlers(hash, w.order) && r.status.observedGeneration == r.generation
    requires !IsTrue(r, ConditionType(PHASE_LCM)) && r.spec.version in w.lcm
    requires LcmConfig(w.lcm[r.spec.version], r) == Ok(cfg) && ReleasePass(w, hs, r, c).outcome != Errored
    ensures var pass := ReleasePass(w, hs, r, c);
            Clean(c, pass.cluster, true) || FalseFor(pass.release, "LCMUpgraded", Failed)
  {
    FixedTypes();
    var (c1, state) := HelmPhase(c, cfg.GetOwner(), true, cfg.helmCharts);
    if state.Ok? {
      HelmPhaseClean(c, cfg.GetOwner(), true, cfg.helmCharts);
      Excused(c, c1);
    }
    if state == Ok(Succeeded) {
      UpgradeClean(w, hash, hs, UpdatePhase(r, PHASE_LCM, Succeeded), c1);
      CleanThen(c, c1, ReleasePass(w, hs, r, c).cluster, true);
    } else {
      LcmShown(w, hs, r, c, cfg);
    }
  }
}
