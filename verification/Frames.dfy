/** What a reconcile pass can touch at all, from any cluster, with any failing calls and any registry answers. */
module Frames {
  import opened Wrappers
  import opened Values
  import opened Charts
  import opened Api
  import opened Conditions
  import opened Clusters
  import opened HelmReconciler
  import opened ReleaseConfig
  import opened ManifestCache
  import opened Manifests
  import opened Plans
  import opened PackagedComponents
  import opened Kubernetes
  import opened Controller
  import opened Handlers
  import opened PlanCleanup
  import opened Progress
  import ChartSort
  import Pipeline

  /** The stored values can be read back. */
  predicate Readable(h: HelmChart) {
    h.spec.values.Some? ==> JsonFields(h.spec.values.value).Ok?
  }

  /** A HelmChart that was written, if at all, by an update: only
      the labels and what the configuration speaks about differ. */
  predicate ChartKept(h: HelmChart, h': HelmChart) {
    && h'.name == h.name && h'.annotations == h.annotations && h'.status == h.status
    && h'.spec.targetNamespace == h.spec.targetNamespace && h'.spec.valuesContent == h.spec.valuesContent
    && h'.spec.chartContent == h.spec.chartContent
    && (h' == h || Readable(h'))
  }

  /** A HelmChart created for an installed Helm release. */
  predicate ChartCreated(c: Cluster, h: HelmChart) {
    h.name in c.releases && h.annotations == map[] && Readable(h)
  }

  /** Plans are only removed, or taken from `wanted`. */
  predicate PlansFramed(plans: map<string, Plan>, plans': map<string, Plan>, wanted: seq<Plan>) {
    forall n | n in plans' ::
      (n in plans && plans'[n] == plans[n]) || (plans'[n] in wanted && plans'[n].name == n)
  }

  /** HelmCharts are only created for installed Helm releases, or updated. */
  predicate ChartsFramed(c: Cluster, charts': map<string, HelmChart>) {
    && ChartsKeyed(charts')
    && (forall n | n in c.charts :: n in charts' && ChartKept(c.charts[n], charts'[n]))
    && forall n | n in charts' && n !in c.charts :: ChartCreated(c, charts'[n])
  }

  /** From `c` to `c'` nodes, jobs, Helm releases, the manifest cache and the set of failing calls are untouched. */
  predicate Framed(c: Cluster, c': Cluster, wanted: seq<Plan>) {
    && c' == c.(trace := c'.trace, plans := c'.plans, charts := c'.charts, snapshot := c'.snapshot)
    && PlansFramed(c.plans, c'.plans, wanted) && ChartsFramed(c, c'.charts)
  }

  /** No manifest in the cache is replaced or removed, and new ones are the registry's. */
  ghost predicate CacheFilled(w: World, c: Cluster, c': Cluster) {
    forall v :: InCache(c', v) == InCache(c, v)
                || (InCache(c, v).None? && v in w.manifests && InCache(c', v) == Some(w.manifests[v].Cached()))
  }

  /** As `Framed`, for a pass that may fill the cache. */
  ghost predicate PassFramed(w: World, c: Cluster, c': Cluster, wanted: seq<Plan>) {
    Framed(c.(cache := c'.cache), c', wanted) && CacheFilled(w, c, c')
  }

  lemma FramedSame(c: Cluster, c': Cluster, wanted: seq<Plan>)
    requires ChartsKeyed(c.charts) && OnlySnapshot(c, c')
    ensures Framed(c, c', wanted)
  {
  }

  lemma FramedPlan(c: Cluster, c': Cluster, p: Plan, wanted: seq<Plan>)
    requires ChartsKeyed(c.charts) && p in wanted && c' == c.(trace := c'.trace, plans := c.plans[p.name := p])
    ensures Framed(c, c', wanted)
  {
  }

  lemma FramedChart(c: Cluster, c': Cluster, h: HelmChart, wanted: seq<Plan>)
    requires ChartsKeyed(c.charts) && c' == c.(trace := c'.trace, charts := c.charts[h.name := h])
    requires if h.name in c.charts then ChartKept(c.charts[h.name], h) else ChartCreated(c, h)
    ensures Framed(c, c', wanted)
  {
  }

  lemma FramedThen(a: Cluster, b: Cluster, c: Cluster, wanted: seq<Plan>)
    requires Framed(a, b, wanted) && Framed(b, c, wanted)
    ensures Framed(a, c, wanted)
  {
  }

  lemma FramedMore(c: Cluster, c': Cluster, some: seq<Plan>, wanted: seq<Plan>)
    requires Framed(c, c', some) && forall p | p in some :: p in wanted
    ensures Framed(c, c', wanted)
  {
  }

  // ---------------------------------------------------------------- charts

  lemma RetargetedKept(h: HelmChart, o: Owner, t: ChartConfig)
    requires Retargeted(h, o, t).Ok?
    ensures ChartKept(h, Retargeted(h, o, t).value) && Readable(Retargeted(h, o, t).value)
  {
  }

  predicate ChartStored(c: Cluster, c': Cluster, h: Result<HelmChart, Error>) {
    h.Ok? && c' == c.(trace := c'.trace, charts := c.charts[h.value.name := h.value])
  }

  /** A chart step writes nothing, or the HelmChart that its configuration wants. */
  lemma ChartStepShape(c: Cluster, o: Owner, t: ChartConfig)
    ensures var c' := ChartStep(c, o, t).0;
            || c' == c.(trace := c'.trace)
            || (t.Name() in c.charts && ChartStored(c, c', Retargeted(c.charts[t.Name()], o, t)))
            || (t.Name() !in c.charts && t.Name() in c.releases
                && ChartStored(c, c', BuiltFrom(o, t, c.releases[t.Name()])))
  {
    var c' := ChartStep(c, o, t).0;
    var (c1, release) := c.RetrieveRelease(t.Name());
    if release.Ok? && release.value.Some? {
      var (c2, existing) := c1.GetChart(t.Name());
      if existing.Ok? && existing.value.Some? && ShouldUpdate(existing.value.value, t) == Ok(true) {
        var h := Retargeted(existing.value.value, o, t);
        assert h.Ok? ==> c' == c2.UpdateChart(h.value).0;
      } else if existing.Ok? && existing.value.None? {
        var h := BuiltFrom(o, t, release.value.value);
        assert c' == c2 || (h.Ok? && c' == c2.CreateChart(h.value).0);
      }
    }
  }

  lemma BuiltCreated(c: Cluster, o: Owner, t: ChartConfig)
    requires t.Name() in c.releases && BuiltFrom(o, t, c.releases[t.Name()]).Ok?
    ensures var h := BuiltFrom(o, t, c.releases[t.Name()]).value; ChartCreated(c, h) && h.name == t.Name()
  {
    RetargetedKept(EmptyChart(t.Name(), TargetNamespace(t, c.releases[t.Name()])), o, t);
  }

  lemma ChartStepFramed(c: Cluster, o: Owner, t: ChartConfig)
    requires ChartsKeyed(c.charts)
    ensures Framed(c, ChartStep(c, o, t).0, [])
  {
    var c' := ChartStep(c, o, t).0;
    ChartStepShape(c, o, t);
    if c' == c.(trace := c'.trace) {
      FramedSame(c, c', []);
    } else if t.Name() in c.charts {
      RetargetedKept(c.charts[t.Name()], o, t);
      FramedChart(c, c', Retargeted(c.charts[t.Name()], o, t).value, []);
    } else {
      BuiltCreated(c, o, t);
      FramedChart(c, c', BuiltFrom(o, t, c.releases[t.Name()]).value, []);
    }
  }

  lemma {:induction false} RunChartsFramed(c: Cluster, o: Owner, strict: bool, ts: seq<ChartConfig>)
    requires ChartsKeyed(c.charts)
    ensures Framed(c, RunCharts(c, o, strict, ts).cluster, [])
    decreases |ts|
  {
    if ts != [] {
      var c1 := ChartStep(c, o, ts[0]).0;
      ChartStepFramed(c, o, ts[0]);
      RunChartsFramed(c1, o, strict, ts[1..]);
      FramedThen(c, c1, RunCharts(c1, o, strict, ts[1..]).cluster, []);
    }
  }

  lemma HelmPhaseFramed(c: Cluster, o: Owner, strict: bool, configs: seq<ChartConfig>)
    requires ChartsKeyed(c.charts)
    ensures Framed(c, HelmPhase(c, o, strict, configs).0, [])
  {
    if configs != [] && ChartSort.Sorted(configs).Ok? {
      RunChartsFramed(c, o, strict, ChartSort.Sorted(configs).value);
    }
  }

  lemma {:induction false} RunTouchesCharts(c: Cluster, o: Owner, strict: bool, ts: seq<ChartConfig>)
    ensures var c' := RunCharts(c, o, strict, ts).cluster; c' == c.(trace := c'.trace, charts := c'.charts)
    decreases |ts|
  {
    if ts != [] {
      ChartStepShape(c, o, ts[0]);
      RunTouchesCharts(ChartStep(c, o, ts[0]).0, o, strict, ts[1..]);
    }
  }

  lemma HelmTouchesCharts(c: Cluster, o: Owner, strict: bool, configs: seq<ChartConfig>)
    ensures var c' := HelmPhase(c, o, strict, configs).0; c' == c.(trace := c'.trace, charts := c'.charts)
  {
    if configs != [] && ChartSort.Sorted(configs).Ok? {
      RunTouchesCharts(c, o, strict, ChartSort.Sorted(configs).value);
    }
  }

  // ---------------------------------------------------------------- plans

  lemma SucReconcileFramed(c: Cluster, p: Plan, wanted: seq<Plan>)
    requires ChartsKeyed(c.charts) && p in wanted
    ensures Framed(c, SucReconcile(c, p).0, wanted)
  {
    var c' := SucReconcile(c, p).0;
    if c'.plans == c.plans {
      FramedSame(c, c', wanted);
    } else {
      FramedPlan(c, c', p, wanted);
    }
  }

  lemma {:induction false} RunPlansFramed(c: Cluster, plans: seq<Plan>, verify: Option<string>, wanted: seq<Plan>)
    requires ChartsKeyed(c.charts) && forall p | p in plans :: p in wanted
    ensures Framed(c, RunPlans(c, plans, verify).0, wanted)
    decreases |plans|
  {
    if plans != [] {
      assert plans[0] in plans;
      var c1 := SucReconcile(c, plans[0]).0;
      SucReconcileFramed(c, plans[0], wanted);
      RunPlansFramed(c1, plans[1..], verify, wanted);
      FramedThen(c, c1, RunPlans(c1, plans[1..], verify).0, wanted);
    }
  }

  lemma OsPhaseFramed(c: Cluster, cfg: Config)
    requires ChartsKeyed(c.charts)
    ensures Framed(c, OsPhase(c, cfg).0, Required(cfg, c.nodes))
  {
    var c' := OsPhase(c, cfg).0;
    var (c1, nodes) := c.ListNodes([]);
    FramedSame(c, c1, Required(cfg, c.nodes));
    if c' == c {
      FramedSame(c, c, Required(cfg, c.nodes));
    } else if nodes.Ok? {
      SelectAll(c.nodes);
      RunPlansFramed(c1, OsPlans(cfg, c.nodes), None, Required(cfg, c.nodes));
      FramedThen(c, c1, RunPlans(c1, OsPlans(cfg, c.nodes), None).0, Required(cfg, c.nodes));
    }
  }

  lemma UpgradeNodesFramed(c: Cluster, cfg: Config, hash: Hash, order: MapOrder, snapshot: SnapshotMap)
    requires Enumerates(order) && ChartsKeyed(c.charts) && cfg.kubernetes.Some?
    ensures Framed(c, UpgradeNodes(c, cfg, hash, order, c.nodes, snapshot).0, Required(cfg, c.nodes))
  {
    var version := cfg.kubernetes.value.version;
    RunPlansFramed(c, KubernetesPlans(cfg, c.nodes), Some(version), Required(cfg, c.nodes));
    var c1 := RunPlans(c, KubernetesPlans(cfg, c.nodes), Some(version)).0;
    var c2 := Availability(c1, hash, order, version, snapshot).0;
    AvailableIff(c1, hash, order, version, snapshot);
    FramedSame(c1, c2, Required(cfg, c.nodes));
    FramedThen(c, c1, c2, Required(cfg, c.nodes));
  }

  lemma KubernetesPhaseFramed(c: Cluster, cfg: Config, hash: Hash, order: MapOrder)
    requires Enumerates(order) && ChartsKeyed(c.charts)
    ensures Framed(c, KubernetesPhase(c, cfg, hash, order).0, Required(cfg, c.nodes))
  {
    var wanted := Required(cfg, c.nodes);
    if cfg.kubernetes.None? {
      FramedSame(c, c, wanted);
    } else {
      var (c1, snapshot) := SnapshotFor(c, hash, order, cfg.GetOwner());
      SnapshotFrozen(c, hash, order, cfg.GetOwner());
      FramedSame(c, c1, wanted);
      if snapshot.Ok? {
        var (c2, nodes) := c1.ListNodes([]);
        FramedSame(c, c2, wanted);
        SelectAll(c.nodes);
        if nodes.Ok? {
          UpgradeNodesFramed(c2, cfg, hash, order, snapshot.value);
          FramedThen(c, c2, UpgradeNodes(c2, cfg, hash, order, c.nodes, snapshot.value).0, wanted);
        }
      }
    }
  }

  // ---------------------------------------------------------------- the pass

  ghost predicate FramedHandler(h: Pipeline.Handler, cfg: Config) {
    forall c: Cluster | ChartsKeyed(c.charts) :: Framed(c, h.reconcile(c, cfg).0, Required(cfg, c.nodes))
  }

  lemma {:induction false} PipelineFramed(hs: seq<Pipeline.Handler>, cfg: Config, c: Cluster)
    requires ChartsKeyed(c.charts) && FramedHandlers(hs)
    ensures Framed(c, Pipeline.RunPipeline(hs, cfg, c).cluster, Required(cfg, c.nodes))
    decreases |hs|
  {
    if hs == [] {
      FramedSame(c, c, Required(cfg, c.nodes));
    } else {
      assert hs[0] in hs && FramedHandler(hs[0], cfg);
      var (c1, r) := hs[0].reconcile(c, cfg);
      if r.Ok? && Completes(r.value) {
        PipelineFramed(hs[1..], cfg, c1);
        FramedThen(c, c1, Pipeline.RunPipeline(hs[1..], cfg, c1).cluster, Required(cfg, c.nodes));
      }
    }
  }

  lemma OsHandlerFramed(cfg: Config)
    ensures FramedHandler(OsHandler(), cfg)
  {
    forall c: Cluster | ChartsKeyed(c.charts)
      ensures Framed(c, OsHandler().reconcile(c, cfg).0, Required(cfg, c.nodes))
    {
      OsPhaseFramed(c, cfg);
    }
  }

  lemma KubernetesHandlerFramed(hash: Hash, order: MapOrder, cfg: Config)
    requires Enumerates(order)
    ensures FramedHandler(KubernetesHandler(hash, order), cfg)
  {
    forall c: Cluster | ChartsKeyed(c.charts)
      ensures Framed(c, KubernetesHandler(hash, order).reconcile(c, cfg).0, Required(cfg, c.nodes))
    {
      KubernetesPhaseFramed(c, cfg, hash, order);
    }
  }

  lemma HelmHandlerFramed(cfg: Config)
    ensures FramedHandler(HelmHandler(), cfg)
  {
    forall c: Cluster | ChartsKeyed(c.charts)
      ensures Framed(c, HelmHandler().reconcile(c, cfg).0, Required(cfg, c.nodes))
    {
      HelmPhaseFramed(c, cfg.GetOwner(), false, cfg.helmCharts);
      FramedMore(c, HelmPhase(c, cfg.GetOwner(), false, cfg.helmCharts).0, [], Required(cfg, c.nodes));
    }
  }

  ghost predicate FramedHandlers(hs: seq<Pipeline.Handler>) {
    forall h, cfg | h in hs :: FramedHandler(h, cfg)
  }

  lemma RealHandlerFramed(hash: Hash, order: MapOrder, h: Pipeline.Handler, cfg: Config)
    requires Enumerates(order) && h in RealHandlers(hash, order)
    ensures FramedHandler(h, cfg)
  {
    var hs := RealHandlers(hash, order);
    assert h == hs[0] || h == hs[1] || h == hs[2];
    if h == OsHandler() {
      OsHandlerFramed(cfg);
    } else if h == KubernetesHandler(hash, order) {
      KubernetesHandlerFramed(hash, order, cfg);
    } else {
      HelmHandlerFramed(cfg);
    }
  }

  lemma RealHandlersFramed(hash: Hash, order: MapOrder)
    requires Enumerates(order)
    ensures FramedHandlers(RealHandlers(hash, order))
  {
    forall h, cfg | h in RealHandlers(hash, order) ensures FramedHandler(h, cfg) {
      RealHandlerFramed(hash, order, h, cfg);
    }
  }

  lemma CleanupFramed(c: Cluster, o: Owner, order: MapOrder, wanted: seq<Plan>)
    requires Enumerates(order) && ChartsKeyed(c.charts)
    ensures Framed(c, Cleanup(c, o, order).0, wanted)
  {
    CleanupExact(c, o, order);
  }

  /** The plans the release may create, when its manifest and configuration are valid. */
  function Wanted(w: World, r: Release, c: Cluster): seq<Plan> {
    if Configured(w, r, c).Some? then Required(Configured(w, r, c).value, c.nodes) else []
  }

  lemma CleanAndApplyFramed(w: World, hs: seq<Pipeline.Handler>, r: Release, c: Cluster, cfg: Config)
    requires Enumerates(w.order) && ChartsKeyed(c.charts) && FramedHandlers(hs)
    ensures Framed(c, CleanAndApply(w, hs, r, c, cfg).cluster, Required(cfg, c.nodes))
  {
    var o := Owner(r.name, r.status.version);
    var c1 := Cleanup(c, o, w.order).0;
    CleanupFramed(c, o, w.order, Required(cfg, c.nodes));
    PipelineFramed(hs, cfg, c);
    PipelineFramed(hs, cfg, c1);
    FramedThen(c, c1, Pipeline.RunPipeline(hs, cfg, c1).cluster, Required(cfg, c.nodes));
  }

  lemma RetrieveFills(w: World, r: Release, c: Cluster)
    ensures CacheFilled(w, c, RetrieveManifest(w, r, c).0)
  {
    var v := r.spec.version;
    var (c1, cached) := CacheGet(c, v);
    CacheGetExact(c, v);
    RetrieveTouchesCache(w, r, c);
    if !(cached.Ok? && cached.value.Some?) && v in w.manifests {
      CacheRoundTrip(c1, v, w.manifests[v]);
    }
  }

  lemma UpgradeToFramed(w: World, hs: seq<Pipeline.Handler>, m: Manifest, r: Release, c: Cluster)
    requires Enumerates(w.order) && ChartsKeyed(c.charts) && FramedHandlers(hs)
    ensures Framed(c, UpgradeTo(w, hs, m, r, c).cluster,
                   if UpgradeConfig(m, r).Ok? then Required(UpgradeConfig(m, r).value, c.nodes) else [])
  {
    var wanted := if UpgradeConfig(m, r).Ok? then Required(UpgradeConfig(m, r).value, c.nodes) else [];
    var r1 := SetCondition(r, CONDITION_MANIFEST_RESOLVED, true, Succeeded);
    var (c1, cfg) := ParseConfig(c, m, r1);
    FramedSame(c, c1, wanted);
    if cfg.Ok? {
      CleanAndApplyFramed(w, hs, r1, c1, cfg.value);
      FramedThen(c, c1, CleanAndApply(w, hs, r1, c1, cfg.value).cluster, wanted);
    }
  }

  lemma UpgradeFramed(w: World, hs: seq<Pipeline.Handler>, r: Release, c: Cluster)
    requires Enumerates(w.order) && ChartsKeyed(c.charts) && FramedHandlers(hs)
    ensures PassFramed(w, c, Upgrade(w, hs, r, c).cluster, Wanted(w, r, c))
  {
    var (c1, m) := RetrieveManifest(w, r, c);
    RetrieveTouchesCache(w, r, c);
    RetrieveFills(w, r, c);
    FramedSame(c.(cache := c1.cache), c1, Wanted(w, r, c));
    if m.Some? {
      UpgradeToFramed(w, hs, m.value, r, c1);
      FramedThen(c.(cache := c1.cache), c1, UpgradeTo(w, hs, m.value, r, c1).cluster, Wanted(w, r, c));
    }
  }

  /** A pass that wrote nothing but HelmCharts and went on from there. */
  lemma FramedThenPass(w: World, c: Cluster, c1: Cluster, c': Cluster, wanted: seq<Plan>)
    requires Framed(c, c1, []) && PassFramed(w, c1, c', wanted)
    ensures PassFramed(w, c, c', wanted)
  {
    FramedMore(c.(cache := c'.cache), c1.(cache := c'.cache), [], wanted);
    FramedThen(c.(cache := c'.cache), c1.(cache := c'.cache), c', wanted);
  }

  lemma FramedPass(w: World, c: Cluster, c': Cluster, wanted: seq<Plan>)
    requires Framed(c, c', wanted)
    ensures PassFramed(w, c, c', wanted)
  {
    assert c.(cache := c'.cache) == c;
  }

  /** Once an LCM phase that wrote nothing but HelmCharts has taken `c` to `c1`. */
  lemma AfterLcmFramed(w: World, hs: seq<Pipeline.Handler>, r: Release, c: Cluster, c1: Cluster,
                       state: Result<State, Error>)
    requires Enumerates(w.order) && FramedHandlers(hs) && Framed(c, c1, [])
    ensures PassFramed(w, c, AfterLcm(w, hs, r, c1, state).cluster, Wanted(w, r, c))
  {
    if state == Ok(Succeeded) {
      var r1 := UpdatePhase(r, PHASE_LCM, Succeeded);
      SameConfigured(w, r, r1, c, c1);
      UpgradeFramed(w, hs, r1, c1);
      FramedThenPass(w, c, c1, Upgrade(w, hs, r1, c1).cluster, Wanted(w, r, c));
    } else {
      FramedMore(c, c1, [], Wanted(w, r, c));
      FramedPass(w, c, c1, Wanted(w, r, c));
    }
  }

  lemma LcmFramed(w: World, hs: seq<Pipeline.Handler>, r: Release, c: Cluster)
    requires Enumerates(w.order) && ChartsKeyed(c.charts) && FramedHandlers(hs)
    ensures PassFramed(w, c, UpgradeLcm(w, hs, r, c).cluster, Wanted(w, r, c))
  {
    FramedSame(c, c, Wanted(w, r, c));
    FramedPass(w, c, c, Wanted(w, r, c));
    if r.spec.version in w.lcm && LcmConfig(w.lcm[r.spec.version], r).Ok? {
      var cfg := LcmConfig(w.lcm[r.spec.version], r).value;
      var (c1, state) := HelmPhase(c, cfg.GetOwner(), true, cfg.helmCharts);
      HelmPhaseFramed(c, cfg.GetOwner(), true, cfg.helmCharts);
      AfterLcmFramed(w, hs, r, c, c1, state);
    }
  }

  /** A pass touches nothing but plans, HelmCharts, the snapshot, the manifest cache and the Release. The plans it
      creates are those that the release asks for; HelmCharts are created only for installed Helm releases, and an
      update keeps what it does not own; the cache is only filled. */
  lemma PassTouchesOnly(w: World, hash: Hash, r: Release, c: Cluster)
    requires Enumerates(w.order) && ChartsKeyed(c.charts)
    ensures PassFramed(w, c, ReleasePass(w, RealHandlers(hash, w.order), r, c).cluster, Wanted(w, r, c))
  {
    var hs := RealHandlers(hash, w.order);
    RealHandlersFramed(hash, w.order);
    FramedSame(c, c, Wanted(w, r, c));
    FramedPass(w, c, c, Wanted(w, r, c));
    UpgradeFramed(w, hs, r, c);
    LcmFramed(w, hs, r, c);
  }

  /** So whether it fills the cache or not, later passes read the same manifest from it. */
  lemma FilledIsLasting(w: World, c: Cluster, c': Cluster, version: string)
    requires CacheFilled(w, c, c')
    ensures LastingManifest(w, c', version) == LastingManifest(w, c, version)
    ensures InCache(c, version).Some? ==> InCache(c', version) == InCache(c, version)
  {
    assert InCache(c', version) == InCache(c, version) || InCache(c, version).None?;
  }
}
