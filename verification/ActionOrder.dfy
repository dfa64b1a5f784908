/** The order of actions in a pass: what a pass has found before it starts an action. */
module ActionOrder {
  import opened Wrappers
  import opened Charts
  import opened Api
  import opened Conditions
  import opened Clusters
  import opened HelmReconciler
  import opened ReleaseConfig
  import opened Plans
  import opened PackagedComponents
  import opened Kubernetes
  import opened Controller
  import opened Handlers
  import opened PlanCleanup
  import opened Progress
  import opened Effects
  import opened Frames
  import ChartSort
  import Pipeline

  // ---------------------------------------------------------------- charts

  /** The chart lets the run go on: it is finished or, unless that is fatal, failed. */
  predicate Passes(c: Cluster, o: Owner, t: ChartConfig, strict: bool) {
    var r := ChartStep(c, o, t).1;
    r.Ok? && (Finished(r.value) || (!strict && r.value.ChartFailed?))
  }

  /** What a chart step finds depends on charts, releases, jobs and failing calls alone. */
  lemma SameStep(c: Cluster, c': Cluster, o: Owner, t: ChartConfig)
    requires SameCharts(c, c')
    ensures ChartStep(c', o, t).1 == ChartStep(c, o, t).1
  {
    var (c1, release) := c.RetrieveRelease(t.Name());
    if release.Ok? && release.value.Some? && t.Name() in c.charts {
      assert JobState(c'.Log(Read(ReleaseT(t.Name()))).Log(Read(ChartT(t.Name()))), c.charts[t.Name()]).1
          == JobState(c.Log(Read(ReleaseT(t.Name()))).Log(Read(ChartT(t.Name()))), c.charts[t.Name()]).1;
    }
  }

  lemma NeedyStops(c: Cluster, o: Owner, t: ChartConfig)
    requires NeedsWrite(c, t)
    ensures !Passes(c, o, t, true) && !Passes(c, o, t, false)
  {
  }

  lemma NotNeedyReads(c: Cluster, o: Owner, t: ChartConfig)
    requires !NeedsWrite(c, t)
    ensures OnlyRead(c, ChartStep(c, o, t).0)
  {
    var c' := ChartStep(c, o, t).0;
    var (c1, release) := c.RetrieveRelease(t.Name());
    ReadOnce(c, c1, ReleaseT(t.Name()));
    if release.Ok? && release.value.Some? {
      var (c2, existing) := c1.GetChart(t.Name());
      ReadOnce(c1, c2, ChartT(t.Name()));
      OnlyReadThen(c, c1, c2);
      if c' != c2 {
        ReadOnce(c2, c', JobT(existing.value.value.status.jobName));
        OnlyReadThen(c, c2, c');
      }
    }
  }

  lemma NeedyWrites(c: Cluster, o: Owner, t: ChartConfig)
    requires ChartsKeyed(c.charts) && NeedsWrite(c, t)
    ensures var c' := ChartStep(c, o, t).0; OnlyRead(c, c') || LastStarts(c, c', ChartT(t.Name()))
  {
    var c' := ChartStep(c, o, t).0;
    var (c1, release) := c.RetrieveRelease(t.Name());
    ReadOnce(c, c1, ReleaseT(t.Name()));
    if release.Ok? {
      var (c2, existing) := c1.GetChart(t.Name());
      ReadOnce(c1, c2, ChartT(t.Name()));
      OnlyReadThen(c, c1, c2);
      if c' != c2 {
        LogOne(c2, c', if t.Name() in c.charts then Update(ChartT(t.Name())) else Create(ChartT(t.Name())));
        OnlyReadQuiet(c, c2);
        QuietThenStarts(c, c2, c', ChartT(t.Name()));
      }
    }
  }

  /** A chart step only reads, or its last call starts the upgrade of a chart that needs it and then the run stops. */
  lemma ChartStepOne(c: Cluster, o: Owner, t: ChartConfig)
    requires ChartsKeyed(c.charts)
    ensures var c' := ChartStep(c, o, t).0;
            || OnlyRead(c, c')
            || (LastStarts(c, c', ChartT(t.Name())) && NeedsWrite(c, t) && !Passes(c, o, t, true)
                && !Passes(c, o, t, false))
  {
    if NeedsWrite(c, t) {
      NeedyStops(c, o, t);
      NeedyWrites(c, o, t);
    } else {
      NotNeedyReads(c, o, t);
    }
  }

  /** The sorted chart `ts[i]` needs its upgrade, and every chart before it lets the run go on. */
  predicate ChartTurn(c: Cluster, o: Owner, strict: bool, ts: seq<ChartConfig>, i: nat)
    requires i < |ts|
  {
    NeedsWrite(c, ts[i]) && forall j | 0 <= j < i :: Passes(c, o, ts[j], strict)
  }

  lemma SameTurn(c: Cluster, c': Cluster, o: Owner, strict: bool, ts: seq<ChartConfig>, i: nat)
    requires i < |ts| && SameCharts(c, c') && ChartTurn(c, o, strict, ts, i)
    ensures ChartTurn(c', o, strict, ts, i)
  {
    SameChartsLeft(c, c');
    forall j | 0 <= j < i ensures Passes(c', o, ts[j], strict) {
      SameStep(c, c', o, ts[j]);
    }
  }

  /** From `c` to `c'` a run over sorted charts started at most the upgrade of `ts[i]`, whose turn it was. */
  predicate ChartsStarted(c: Cluster, c': Cluster, o: Owner, strict: bool, ts: seq<ChartConfig>, i: nat) {
    && i <= |ts| && (i == |ts| ==> Quiet(c, c'))
    && (i < |ts| ==> LastStarts(c, c', ChartT(ts[i].Name())) && ChartTurn(c, o, strict, ts, i))
  }

  lemma ChartsStartedFurther(c: Cluster, c1: Cluster, c': Cluster, o: Owner, strict: bool, ts: seq<ChartConfig>, i: nat)
    requires ts != [] && OnlyRead(c, c1) && Passes(c, o, ts[0], strict)
    requires ChartsStarted(c1, c', o, strict, ts[1..], i)
    ensures ChartsStarted(c, c', o, strict, ts, i + 1)
  {
    OnlyReadQuiet(c, c1);
    QuietThen(c, c1, c');
    if i < |ts[1..]| {
      QuietThenStarts(c, c1, c', ChartT(ts[1..][i].Name()));
      SameTurn(c1, c, o, strict, ts[1..], i);
      forall j | 0 <= j < i + 1 ensures Passes(c, o, ts[j], strict) {
        assert j > 0 ==> Passes(c, o, ts[1..][j - 1], strict);
      }
    }
  }

  lemma {:induction false} RunOrdered(c: Cluster, o: Owner, strict: bool, ts: seq<ChartConfig>) returns (i: nat)
    requires ChartsKeyed(c.charts)
    ensures ChartsStarted(c, RunCharts(c, o, strict, ts).cluster, o, strict, ts, i)
    decreases |ts|
  {
    if ts == [] {
      assert Since(c, c) == [];
      i := 0;
    } else {
      var (c1, r) := ChartStep(c, o, ts[0]);
      ChartStepOne(c, o, ts[0]);
      if !Passes(c, o, ts[0], strict) {
        if OnlyRead(c, c1) {
          OnlyReadQuiet(c, c1);
          i := |ts|;
        } else {
          i := 0;
        }
      } else {
        RunContinues(c, o, strict, ts);
        var k := RunOrdered(c1, o, strict, ts[1..]);
        ChartsStartedFurther(c, c1, RunCharts(c1, o, strict, ts[1..]).cluster, o, strict, ts, k);
        i := k + 1;
      }
    }
  }

  /** The in-list Helm dependencies of a sorted chart come before it. */
  predicate DependenciesFirst(configs: seq<ChartConfig>, ts: seq<ChartConfig>, i: nat)
    requires i < |ts|
  {
    forall d | d in ChartSort.GraphOf(configs) && ChartSort.DependsOn(ts[i], d) ::
      exists j | 0 <= j < i :: ts[j].Name() == d
  }

  /** The Helm phase starts at most the upgrade of `Sorted(configs)[i]`, after every chart sorted before it, among them
      all of its dependencies, let the run go on. */
  predicate HelmStarted(c: Cluster, c': Cluster, o: Owner, strict: bool, configs: seq<ChartConfig>, i: nat) {
    match ChartSort.Sorted(configs)
    case Err(_) => Quiet(c, c') && i == 0
    case Ok(ts) => ChartsStarted(c, c', o, strict, ts, i) && (i < |ts| ==> DependenciesFirst(configs, ts, i))
  }

  lemma HelmOrdered(c: Cluster, o: Owner, strict: bool, configs: seq<ChartConfig>) returns (i: nat)
    requires ChartsKeyed(c.charts)
    ensures HelmStarted(c, HelmPhase(c, o, strict, configs).0, o, strict, configs, i)
  {
    assert Since(c, c) == [];
    i := 0;
    if configs == [] {
      assert ChartSort.GraphOf(configs) == map[] && ChartSort.Names(configs) == [];
    } else if ChartSort.Sorted(configs).Ok? {
      ChartSort.SortedIsOrder(configs);
      i := RunOrdered(c, o, strict, ChartSort.Sorted(configs).value);
    }
  }

  // ---------------------------------------------------------------- plans and components

  /** The OS phase completes only when each of its plans is complete,
      and then it only reads; else it changes only plans. */
  lemma OsCompleted(c: Cluster, cfg: Config)
    ensures var (c1, r) := OsPhase(c, cfg);
            && c1.charts == c.charts && c1.snapshot == c.snapshot && c1.nodes == c.nodes
            && (r.Ok? && Completes(r.value) ==>
                  OnlyRead(c, c1) && forall p | p in OsPlans(cfg, c.nodes) :: PlanDone(c, p, None))
  {
    assert Since(c, c) == [];
    if cfg.os.Some? && cfg.os.value.imageParses {
      var (c1, nodes) := c.ListNodes([]);
      ReadOnce(c, c1, NodesT);
      SelectAll(c.nodes);
      if nodes.Ok? {
        var plans := OsPlans(cfg, c.nodes);
        RunPlansVerdict(c1, plans, None);
        RunPlansStarts(c1, plans, None);
        RunPlansKeep(c1, plans, None);
        if RunPlans(c1, plans, None).1 == Ok(None) {
          RunPlansDone(c1, plans, None);
          SamePlansDone(c, c1, plans, None);
          OnlyReadThen(c, c1, RunPlans(c1, plans, None).0);
        }
      }
    }
  }

  lemma {:induction false} RunPlansKeep(c: Cluster, plans: seq<Plan>, verify: Option<string>)
    ensures RunPlans(c, plans, verify).0.nodes == c.nodes
    decreases |plans|
  {
    if plans != [] {
      RunPlansKeep(SucReconcile(c, plans[0]).0, plans[1..], verify);
    }
  }

  lemma OsOrdered(c: Cluster, cfg: Config) returns (i: nat)
    ensures PlansStarted(c, OsPhase(c, cfg).0, OsPlans(cfg, c.nodes), None, i)
  {
    var plans := OsPlans(cfg, c.nodes);
    assert Since(c, c) == [];
    i := |plans|;
    if cfg.os.Some? && cfg.os.value.imageParses {
      var (c1, nodes) := c.ListNodes([]);
      LogOne(c, c1, Read(NodesT));
      SelectAll(c.nodes);
      if nodes.Ok? {
        i := RunPlansOrdered(c1, plans, None);
        PlansStartedAfter(c, c1, RunPlans(c1, plans, None).0, plans, None, i);
      }
    }
  }

  lemma PlansStartedAfter(c: Cluster, c1: Cluster, c': Cluster, plans: seq<Plan>, verify: Option<string>, i: nat)
    requires Quiet(c, c1) && c1.plans == c.plans && c1.nodes == c.nodes && PlansStarted(c1, c', plans, verify, i)
    ensures PlansStarted(c, c', plans, verify, i)
  {
    QuietThen(c, c1, c');
    if i < |plans| {
      QuietThenStarts(c, c1, c', PlanT(plans[i].name));
      forall j | 0 <= j < i ensures PlanDone(c, plans[j], verify) {
        assert PlanDone(c1, plans[j], verify);
      }
    }
  }

  /** The snapshot that the release has after the phase, and the components compared with it. */
  ghost predicate ComponentsPassed(c: Cluster, c': Cluster, cfg: Config, hash: Hash) {
    && c'.snapshot.Some? && Owns(c'.snapshot.value, cfg.GetOwner())
    && ComponentsAvailable(c, hash, TargetVersion(cfg), c'.snapshot.value)
  }

  lemma SameAvailability(c: Cluster, c': Cluster, hash: Hash, target: string, s: SnapshotMap)
    requires c' == c.(trace := c'.trace, snapshot := c'.snapshot, plans := c'.plans, cache := c'.cache)
    ensures ComponentsAvailable(c', hash, target, s) <==> ComponentsAvailable(c, hash, target, s)
  {
    SameVerdictsBut(c, c', s.creationTime);
  }

  /** From `c` to `c'` the Kubernetes phase took its snapshot and created at most one plan. */
  ghost predicate NodesStarted(c: Cluster, c': Cluster, cfg: Config, i: nat) {
    PlansStarted(c, c', NodePlans(cfg, c.nodes), Some(TargetVersion(cfg)), i)
  }

  lemma UpgradeNodesOrdered(c: Cluster, cfg: Config, hash: Hash, order: MapOrder, snapshot: SnapshotMap)
    returns (i: nat)
    requires Enumerates(order) && cfg.kubernetes.Some?
    ensures var (c', r) := UpgradeNodes(c, cfg, hash, order, c.nodes, snapshot);
            && NodesStarted(c, c', cfg, i)
            && (r.Ok? && Completes(r.value) ==>
                  && c'.plans == c.plans
                  && (forall p | p in NodePlans(cfg, c.nodes) :: PlanDone(c, p, Some(TargetVersion(cfg))))
                  && ComponentsAvailable(c, hash, TargetVersion(cfg), snapshot))
  {
    var plans, verify := NodePlans(cfg, c.nodes), Some(TargetVersion(cfg));
    var (c1, r) := RunPlans(c, plans, verify);
    i := RunPlansOrdered(c, plans, verify);
    RunPlansVerdict(c, plans, verify);
    if r == Ok(None) {
      RunPlansDone(c, plans, verify);
      AvailableIff(c1, hash, order, TargetVersion(cfg), snapshot);
      SameAvailability(c, c1, hash, TargetVersion(cfg), snapshot);
      OnlyReadThen(c, c1, Availability(c1, hash, order, TargetVersion(cfg), snapshot).0);
      OnlyReadQuiet(c, Availability(c1, hash, order, TargetVersion(cfg), snapshot).0);
      i := |plans|;
    }
  }

  lemma KubernetesOrdered(c: Cluster, cfg: Config, hash: Hash, order: MapOrder) returns (i: nat)
    requires Enumerates(order) && Keyed(c)
    ensures var (c', r) := KubernetesPhase(c, cfg, hash, order);
            && NodesStarted(c, c', cfg, i)
            && (r.Ok? && Completes(r.value) ==>
                  && c'.plans == c.plans
                  && (forall p | p in NodePlans(cfg, c.nodes) :: PlanDone(c, p, Some(TargetVersion(cfg))))
                  && (cfg.kubernetes.Some? ==> ComponentsPassed(c, c', cfg, hash)))
  {
    assert Since(c, c) == [];
    i := |NodePlans(cfg, c.nodes)|;
    if cfg.kubernetes.Some? {
      var (c1, snapshot) := SnapshotFor(c, hash, order, cfg.GetOwner());
      SnapshotFrozen(c, hash, order, cfg.GetOwner());
      if snapshot.Ok? {
        var (c2, nodes) := c1.ListNodes([]);
        LogOne(c1, c2, Read(NodesT));
        QuietThen(c, c1, c2);
        SelectAll(c.nodes);
        if nodes.Ok? {
          i := UpgradeNodesOrdered(c2, cfg, hash, order, snapshot.value);
          NodesAfterSnapshot(c, c2, cfg, hash, order, snapshot.value, i);
        }
      }
    }
  }

  lemma NodesAfterSnapshot(c: Cluster, c2: Cluster, cfg: Config, hash: Hash, order: MapOrder, snapshot: SnapshotMap,
                           i: nat)
    requires Enumerates(order) && cfg.kubernetes.Some? && Quiet(c, c2) && OnlySnapshot(c, c2)
    requires c2.snapshot == Some(snapshot) && Owns(snapshot, cfg.GetOwner())
    requires var (c', r) := UpgradeNodes(c2, cfg, hash, order, c.nodes, snapshot);
             && NodesStarted(c2, c', cfg, i)
             && (r.Ok? && Completes(r.value) ==>
                   && c'.plans == c.plans
                   && (forall p | p in NodePlans(cfg, c.nodes) :: PlanDone(c2, p, Some(TargetVersion(cfg))))
                   && ComponentsAvailable(c2, hash, TargetVersion(cfg), snapshot))
    ensures var (c', r) := UpgradeNodes(c2, cfg, hash, order, c.nodes, snapshot);
            && NodesStarted(c, c', cfg, i)
            && (r.Ok? && Completes(r.value) ==>
                  && (forall p | p in NodePlans(cfg, c.nodes) :: PlanDone(c, p, Some(TargetVersion(cfg))))
                  && ComponentsPassed(c, c', cfg, hash))
  {
    var (c', r) := UpgradeNodes(c2, cfg, hash, order, c.nodes, snapshot);
    PlansStartedAfter(c, c2, c', NodePlans(cfg, c.nodes), Some(TargetVersion(cfg)), i);
    UpgradeNodesStarts(c2, cfg, hash, order, c.nodes, snapshot);
    SameAvailability(c, c2, hash, TargetVersion(cfg), snapshot);
    forall p | p in NodePlans(cfg, c.nodes) && PlanDone(c2, p, Some(TargetVersion(cfg)))
      ensures PlanDone(c, p, Some(TargetVersion(cfg)))
    {
    }
  }

  // ---------------------------------------------------------------- the pipeline

  /** The action a pass starts: an LCM chart, one of the required
      plans or one of the release's charts, by its position. */
  datatype Action = NoAction | LcmChart(i: nat) | PlanAction(i: nat) | ReleaseChart(i: nat)

  /** What a required plan is checked for: the Kubernetes version, if it is a plan of the Kubernetes phase. */
  function VerifyOf(cfg: Config, nodes: seq<Node>, i: nat): Option<string> {
    if i < |OsPlans(cfg, nodes)| then None else Some(TargetVersion(cfg))
  }

  /** It is the turn of plan `i` of those required: it is missing, and every plan before it is done. */
  predicate PlanTurn(k: Cluster, cfg: Config, i: nat)
    requires i < |Required(cfg, k.nodes)|
  {
    var plans := Required(cfg, k.nodes);
    plans[i].name !in k.plans && forall j | 0 <= j < i :: PlanDone(k, plans[j], VerifyOf(cfg, k.nodes, j))
  }

  predicate OsPlansDone(k: Cluster, cfg: Config) {
    forall p | p in OsPlans(cfg, k.nodes) :: PlanDone(k, p, None)
  }

  predicate NodePlansDone(k: Cluster, cfg: Config) {
    forall p | p in NodePlans(cfg, k.nodes) :: PlanDone(k, p, Some(TargetVersion(cfg)))
  }

  /** It is the turn of chart `i` of the release: all plans are done with their nodes at the version, the packaged
      components passed, and every chart sorted before it, among them its dependencies, lets the run go on. */
  ghost predicate ReleaseChartTurn(k: Cluster, c': Cluster, cfg: Config, hash: Hash, i: nat) {
    && OsPlansDone(k, cfg) && NodePlansDone(k, cfg)
    && (cfg.kubernetes.Some? ==> ComponentsPassed(k, c', cfg, hash))
    && ChartSort.Sorted(cfg.helmCharts).Ok?
    && var ts := ChartSort.Sorted(cfg.helmCharts).value;
       i < |ts| && ChartTurn(k, cfg.GetOwner(), false, ts, i) && DependenciesFirst(cfg.helmCharts, ts, i)
  }

  /** From `c` to `c'` the action was started and no other, in its turn on the cluster `k` that the pipeline found. */
  ghost predicate PipelineStarted(c: Cluster, k: Cluster, c': Cluster, cfg: Config, hash: Hash, a: Action) {
    match a
    case NoAction => Quiet(c, c')
    case LcmChart(_) => false
    case PlanAction(i) =>
      i < |Required(cfg, k.nodes)| && PlanTurn(k, cfg, i) && LastStarts(c, c', PlanT(Required(cfg, k.nodes)[i].name))
    case ReleaseChart(i) =>
      ReleaseChartTurn(k, c', cfg, hash, i)
      && LastStarts(c, c', ChartT(ChartSort.Sorted(cfg.helmCharts).value[i].Name()))
  }

  /** The Helm phase, after the other two took `k` to `c2`. */
  lemma HelmTurn(k: Cluster, c2: Cluster, cfg: Config, hash: Hash) returns (a: Action)
    requires Keyed(c2) && Quiet(k, c2) && SameCharts(k, c2) && c2.nodes == k.nodes
    requires OsPlansDone(k, cfg) && NodePlansDone(k, cfg)
             && (cfg.kubernetes.Some? ==> ComponentsPassed(k, c2, cfg, hash))
    ensures PipelineStarted(k, k, HelmPhase(c2, cfg.GetOwner(), false, cfg.helmCharts).0, cfg, hash, a)
  {
    var c3 := HelmPhase(c2, cfg.GetOwner(), false, cfg.helmCharts).0;
    var i := HelmOrdered(c2, cfg.GetOwner(), false, cfg.helmCharts);
    QuietThen(k, c2, c3);
    HelmTouchesCharts(c2, cfg.GetOwner(), false, cfg.helmCharts);
    a := NoAction;
    if ChartSort.Sorted(cfg.helmCharts).Ok? && i < |ChartSort.Sorted(cfg.helmCharts).value| {
      var ts := ChartSort.Sorted(cfg.helmCharts).value;
      QuietThenStarts(k, c2, c3, ChartT(ts[i].Name()));
      SameTurn(c2, k, cfg.GetOwner(), false, ts, i);
      a := ReleaseChart(i);
    }
  }

  lemma PlanOfNodes(k: Cluster, cfg: Config, i: nat)
    requires OsPlansDone(k, cfg) && i < |NodePlans(cfg, k.nodes)| && NodePlans(cfg, k.nodes)[i].name !in k.plans
    requires forall j | 0 <= j < i :: PlanDone(k, NodePlans(cfg, k.nodes)[j], Some(TargetVersion(cfg)))
    ensures var n := |OsPlans(cfg, k.nodes)| + i;
            && n < |Required(cfg, k.nodes)| && Required(cfg, k.nodes)[n] == NodePlans(cfg, k.nodes)[i]
            && PlanTurn(k, cfg, n)
  {
    var os, plans := OsPlans(cfg, k.nodes), Required(cfg, k.nodes);
    forall j | 0 <= j < |os| + i ensures PlanDone(k, plans[j], VerifyOf(cfg, k.nodes, j)) {
      if j < |os| {
        assert os[j] in os;
      } else {
        assert plans[j] == NodePlans(cfg, k.nodes)[j - |os|];
      }
    }
  }

  /** The Kubernetes and Helm phases, on the cluster `k` that the OS phase left. */
  lemma NodesThenHelm(k: Cluster, cfg: Config, hash: Hash, order: MapOrder) returns (a: Action)
    requires Enumerates(order) && Keyed(k) && OsPlansDone(k, cfg)
    ensures PipelineStarted(k, k, Pipeline.RunPipeline([KubernetesHandler(hash, order), HelmHandler()], cfg, k).cluster,
                            cfg, hash, a)
  {
    var hs := [KubernetesHandler(hash, order), HelmHandler()];
    assert hs[1..] == [HelmHandler()];
    assert hs[1..][1..] == [];
    var (c2, r) := KubernetesPhase(k, cfg, hash, order);
    var i := KubernetesOrdered(k, cfg, hash, order);
    KubernetesPhaseStarts(k, cfg, hash, order);
    KubernetesPhaseFramed(k, cfg, hash, order);
    if r.Ok? && Completes(r.value) {
      a := HelmTurn(k, c2, cfg, hash);
      HelmRunCluster(cfg, c2);
    } else if i < |NodePlans(cfg, k.nodes)| {
      PlanOfNodes(k, cfg, i);
      a := PlanAction(|OsPlans(cfg, k.nodes)| + i);
    } else {
      a := NoAction;
    }
  }

  lemma HelmRunCluster(cfg: Config, c: Cluster)
    ensures Pipeline.RunPipeline([HelmHandler()], cfg, c).cluster
            == HelmPhase(c, cfg.GetOwner(), false, cfg.helmCharts).0
  {
    var hs := [HelmHandler()];
    assert hs[1..] == [];
  }

  /** The action seen from an earlier point `c` of the pass, its turn on any cluster `k'` that agrees with `k`. */
  lemma StartedElsewhere(c: Cluster, c1: Cluster, k: Cluster, k': Cluster, c': Cluster, cfg: Config, hash: Hash,
                         a: Action)
    requires Quiet(c, c1) && PipelineStarted(c1, k, c', cfg, hash, a)
    requires k == k'.(trace := k.trace, cache := k.cache)
    ensures PipelineStarted(c, k', c', cfg, hash, a)
  {
    SameDone(k, k', cfg);
    match a
    case NoAction => QuietThen(c, c1, c');
    case PlanAction(i) =>
      QuietThenStarts(c, c1, c', PlanT(Required(cfg, k.nodes)[i].name));
      forall j | 0 <= j < i ensures PlanDone(k', Required(cfg, k.nodes)[j], VerifyOf(cfg, k.nodes, j)) {
        assert PlanDone(k, Required(cfg, k.nodes)[j], VerifyOf(cfg, k.nodes, j));
      }
    case ReleaseChart(i) =>
      var ts := ChartSort.Sorted(cfg.helmCharts).value;
      QuietThenStarts(c, c1, c', ChartT(ts[i].Name()));
      SameTurn(k, k', cfg.GetOwner(), false, ts, i);
      if cfg.kubernetes.Some? {
        SameAvailability(k, k', hash, TargetVersion(cfg), c'.snapshot.value);
      }
  }

  lemma SameDone(k: Cluster, k': Cluster, cfg: Config)
    requires k == k'.(trace := k.trace, cache := k.cache)
    ensures OsPlansDone(k, cfg) <==> OsPlansDone(k', cfg)
    ensures NodePlansDone(k, cfg) <==> NodePlansDone(k', cfg)
  {
    forall p, v ensures PlanDone(k, p, v) <==> PlanDone(k', p, v) {
    }
  }

  /** The whole pipeline starts at most one action, in its turn;
      the snapshot is touched only when the OS plans are done. */
  lemma PipelineInOrder(k: Cluster, cfg: Config, hash: Hash, order: MapOrder) returns (a: Action)
    requires Enumerates(order) && Keyed(k)
    ensures var c' := Pipeline.RunPipeline(RealHandlers(hash, order), cfg, k).cluster;
            PipelineStarted(k, k, c', cfg, hash, a) && (c'.snapshot != k.snapshot ==> OsPlansDone(k, cfg))
  {
    var hs := RealHandlers(hash, order);
    assert hs[1..] == [KubernetesHandler(hash, order), HelmHandler()];
    var (c1, r) := OsPhase(k, cfg);
    OsCompleted(k, cfg);
    if r.Ok? && Completes(r.value) {
      SameDone(k, c1, cfg);
      a := NodesThenHelm(c1, cfg, hash, order);
      OnlyReadQuiet(k, c1);
      StartedElsewhere(k, c1, c1, k, Pipeline.RunPipeline(hs[1..], cfg, c1).cluster, cfg, hash, a);
    } else {
      var i := OsOrdered(k, cfg);
      a := if i < |OsPlans(cfg, k.nodes)| then PlanAction(i) else NoAction;
    }
  }

  // ---------------------------------------------------------------- the pass

  /** The action was started in its turn, or none was; the snapshot was touched only with the OS plans done. */
  ghost predicate InTurn(c: Cluster, k: Cluster, c': Cluster, cfg: Config, hash: Hash, a: Action) {
    PipelineStarted(c, k, c', cfg, hash, a) && (c'.snapshot != c.snapshot ==> OsPlansDone(k, cfg))
  }

  lemma InTurnElsewhere(c: Cluster, c1: Cluster, k: Cluster, k': Cluster, c': Cluster, cfg: Config, hash: Hash,
                        a: Action)
    requires Quiet(c, c1) && c1.snapshot == c.snapshot && InTurn(c1, k, c', cfg, hash, a)
    requires k == k'.(trace := k.trace, cache := k.cache)
    ensures InTurn(c, k', c', cfg, hash, a)
  {
    StartedElsewhere(c, c1, k, k', c', cfg, hash, a);
    SameDone(k, k', cfg);
  }

  /** Deleting the plans of the version applied before starts
      nothing; a complete deletion leaves the cleaned cluster. */
  lemma CleanupLeavesCleaned(w: World, r: Release, c: Cluster)
    requires Enumerates(w.order) && r.status.version != "" && r.status.version != r.spec.version
    ensures var (c1, ok) := Cleanup(c, Owner(r.name, r.status.version), w.order);
            Quiet(c, c1) && c1.snapshot == c.snapshot && c1.charts == c.charts
            && (ok ==> c1 == Cleaned(r, c).(trace := c1.trace))
  {
    var o := Owner(r.name, r.status.version);
    CleanupQuiet(c, o, w.order);
    CleanupExact(c, o, w.order);
    assert PlansOf(c.plans, o) - {} == PlansOf(c.plans, o);
  }

  lemma CleanAndApplyInTurn(w: World, hash: Hash, r: Release, c: Cluster, cfg: Config) returns (a: Action)
    requires Enumerates(w.order) && Keyed(c) && cfg.releaseVersion == r.spec.version
    ensures InTurn(c, Cleaned(r, c), CleanAndApply(w, RealHandlers(hash, w.order), r, c, cfg).cluster, cfg, hash, a)
  {
    if r.status.version != "" && r.status.version != cfg.releaseVersion {
      var o := Owner(r.name, r.status.version);
      var (c1, ok) := Cleanup(c, o, w.order);
      CleanupLeavesCleaned(w, r, c);
      a := NoAction;
      if ok {
        a := PipelineInOrder(c1, cfg, hash, w.order);
        InTurnElsewhere(c, c1, c1, Cleaned(r, c), Pipeline.RunPipeline(RealHandlers(hash, w.order), cfg, c1).cluster,
                        cfg, hash, a);
      }
    } else {
      a := PipelineInOrder(c, cfg, hash, w.order);
    }
  }

  /** What the pass does from the manifest on is in turn. */
  ghost predicate UpgradeInTurn(w: World, hash: Hash, r: Release, c: Cluster, c': Cluster, a: Action) {
    match Configured(w, r, c)
    case None => Quiet(c, c') && c'.snapshot == c.snapshot && a == NoAction
    case Some(cfg) => InTurn(c, Cleaned(r, c), c', cfg, hash, a)
  }

  lemma UpgradeCases(w: World, hs: seq<Pipeline.Handler>, r: Release, c: Cluster) returns (c1: Cluster)
    requires Enumerates(w.order)
    ensures Quiet(c, c1) && c1 == c.(trace := c1.trace, cache := c1.cache)
    ensures var c' := Upgrade(w, hs, r, c).cluster;
            c' == c1
            || (Configured(w, r, c).Some?
                && c' == CleanAndApply(w, hs, ManifestSet(r), c1, Configured(w, r, c).value).cluster)
  {
    var (k, m) := RetrieveManifest(w, r, c);
    RetrieveTouchesCache(w, r, c);
    c1 := k;
    if m.Some? {
      c1 := ParseConfig(k, m.value, ManifestSet(r)).0;
      if c1 != k {
        LogOne(k, c1, Read(NodesT));
        QuietThen(c, k, c1);
      }
    }
  }

  lemma UpgradeOrdered(w: World, hash: Hash, r: Release, c: Cluster) returns (a: Action)
    requires Enumerates(w.order) && Keyed(c)
    ensures UpgradeInTurn(w, hash, r, c, Upgrade(w, RealHandlers(hash, w.order), r, c).cluster, a)
  {
    var hs := RealHandlers(hash, w.order);
    var c1 := UpgradeCases(w, hs, r, c);
    a := NoAction;
    if Upgrade(w, hs, r, c).cluster != c1 {
      var cfg := Configured(w, r, c).value;
      a := CleanAndApplyInTurn(w, hash, ManifestSet(r), c1, cfg);
      InTurnElsewhere(c, c1, Cleaned(ManifestSet(r), c1), Cleaned(r, c), Upgrade(w, hs, r, c).cluster, cfg, hash, a);
    }
  }

  // ---------------------------------------------------------------- the LCM phase

  /** The LCM charts in the order in which they are upgraded. */
  function SortedLcm(w: World, r: Release): Option<seq<ChartConfig>> {
    if r.spec.version in w.lcm && LcmConfig(w.lcm[r.spec.version], r).Ok?
       && ChartSort.Sorted(LcmConfig(w.lcm[r.spec.version], r).value.helmCharts).Ok?
    then Some(ChartSort.Sorted(LcmConfig(w.lcm[r.spec.version], r).value.helmCharts).value) else None
  }

  /** LCM was upgraded before in this generation, or this pass finds each of its charts finished. */
  predicate LcmPassed(w: World, r: Release, c: Cluster) {
    IsTrue(r, ConditionType(PHASE_LCM))
    || (SortedLcm(w, r).Some? && forall t | t in SortedLcm(w, r).value :: Passes(c, OwnerOf(r), t, true))
  }

  lemma {:induction false} RunPassed(c: Cluster, o: Owner, ts: seq<ChartConfig>)
    requires ChartsKeyed(c.charts)
    requires var run := RunCharts(c, o, true, ts);
             run.error.None? && |run.states| == |ts| && forall s | s in run.states :: Finished(s)
    ensures OnlyRead(c, RunCharts(c, o, true, ts).cluster) && forall t | t in ts :: Passes(c, o, t, true)
    decreases |ts|
  {
    if ts == [] {
      assert Since(c, c) == [];
    } else {
      var (c1, r) := ChartStep(c, o, ts[0]);
      var run := RunCharts(c, o, true, ts);
      assert r.Ok? && r.value == run.states[0] && run.states[0] in run.states;
      RunContinues(c, o, true, ts);
      ChartStepOne(c, o, ts[0]);
      var rest := RunCharts(c1, o, true, ts[1..]);
      assert forall s | s in rest.states :: s in run.states;
      RunPassed(c1, o, ts[1..]);
      OnlyReadThen(c, c1, rest.cluster);
      forall t | t in ts ensures Passes(c, o, t, true) {
        if t in ts[1..] {
          SameStep(c, c1, o, t);
        }
      }
    }
  }

  /** The action of a pass and what it found before: none; an LCM chart after the LCM
      charts sorted before it; or, with LCM upgraded, a plan after the plans before
      it, or a chart after all plans, the components and the charts before it. */
  ghost predicate StartedInTurn(w: World, hash: Hash, r: Release, c: Cluster, c': Cluster, a: Action) {
    match a
    case NoAction => Quiet(c, c')
    case LcmChart(i) =>
      && !IsTrue(r, ConditionType(PHASE_LCM)) && SortedLcm(w, r).Some?
      && var ts := SortedLcm(w, r).value;
         i < |ts| && ChartTurn(c, OwnerOf(r), true, ts, i) && LastStarts(c, c', ChartT(ts[i].Name()))
    case _ =>
      LcmPassed(w, r, c) && Configured(w, r, c).Some?
      && PipelineStarted(c, Cleaned(r, c), c', Configured(w, r, c).value, hash, a)
  }

  /** The snapshot was touched only with LCM upgraded and the OS plans done. */
  ghost predicate SnapshotInTurn(w: World, r: Release, c: Cluster, c': Cluster) {
    c'.snapshot != c.snapshot ==>
      LcmPassed(w, r, c) && Configured(w, r, c).Some? && OsPlansDone(Cleaned(r, c), Configured(w, r, c).value)
  }

  ghost predicate Justified(w: World, hash: Hash, r: Release, c: Cluster, c': Cluster, a: Action) {
    StartedInTurn(w, hash, r, c, c', a) && SnapshotInTurn(w, r, c, c')
  }

  lemma UpgradeJustified(w: World, hash: Hash, r: Release, c: Cluster, r1: Release, c1: Cluster, c': Cluster, a: Action)
    requires LcmPassed(w, r, c) && OnlyRead(c, c1) && UpgradeInTurn(w, hash, r1, c1, c', a)
    requires r1.name == r.name && r1.spec == r.spec && r1.status.version == r.status.version
    ensures Justified(w, hash, r, c, c', a)
  {
    OnlyReadQuiet(c, c1);
    SameConfigured(w, r, r1, c, c1);
    match Configured(w, r, c)
    case None => QuietThen(c, c1, c');
    case Some(cfg) => InTurnElsewhere(c, c1, Cleaned(r1, c1), Cleaned(r, c), c', cfg, hash, a);
  }

  lemma LcmSucceeded(w: World, r: Release, c: Cluster, cfg: Config)
    requires ChartsKeyed(c.charts) && r.spec.version in w.lcm && LcmConfig(w.lcm[r.spec.version], r) == Ok(cfg)
    requires HelmPhase(c, cfg.GetOwner(), true, cfg.helmCharts).1 == Ok(Succeeded)
    ensures OnlyRead(c, HelmPhase(c, cfg.GetOwner(), true, cfg.helmCharts).0) && LcmPassed(w, r, c)
  {
    var ts := ChartSort.Sorted(cfg.helmCharts).value;
    HelmPhaseExact(c, cfg.GetOwner(), true, cfg.helmCharts, ts);
    RunPassed(c, cfg.GetOwner(), ts);
  }

  /** A pass that ends with the LCM phase. */
  lemma LcmJustified(w: World, hash: Hash, r: Release, c: Cluster, cfg: Config) returns (a: Action)
    requires ChartsKeyed(c.charts) && !IsTrue(r, ConditionType(PHASE_LCM))
    requires r.spec.version in w.lcm && LcmConfig(w.lcm[r.spec.version], r) == Ok(cfg)
    ensures Justified(w, hash, r, c, HelmPhase(c, cfg.GetOwner(), true, cfg.helmCharts).0, a)
  {
    var i := HelmOrdered(c, cfg.GetOwner(), true, cfg.helmCharts);
    HelmTouchesCharts(c, cfg.GetOwner(), true, cfg.helmCharts);
    a := if SortedLcm(w, r).Some? && i < |SortedLcm(w, r).value| then LcmChart(i) else NoAction;
  }

  lemma AfterLcmJustified(w: World, hash: Hash, r: Release, c: Cluster, cfg: Config) returns (a: Action)
    requires Enumerates(w.order) && ChartsKeyed(c.charts) && !IsTrue(r, ConditionType(PHASE_LCM))
    requires r.spec.version in w.lcm && LcmConfig(w.lcm[r.spec.version], r) == Ok(cfg)
    ensures var (c1, state) := HelmPhase(c, cfg.GetOwner(), true, cfg.helmCharts);
            Justified(w, hash, r, c, AfterLcm(w, RealHandlers(hash, w.order), r, c1, state).cluster, a)
  {
    var (c1, state) := HelmPhase(c, cfg.GetOwner(), true, cfg.helmCharts);
    if state == Ok(Succeeded) {
      var r1 := UpdatePhase(r, PHASE_LCM, Succeeded);
      LcmSucceeded(w, r, c, cfg);
      a := UpgradeOrdered(w, hash, r1, c1);
      UpgradeJustified(w, hash, r, c, r1, c1, Upgrade(w, RealHandlers(hash, w.order), r1, c1).cluster, a);
    } else {
      a := LcmJustified(w, hash, r, c, cfg);
    }
  }

  lemma NothingJustified(w: World, hash: Hash, r: Release, c: Cluster)
    ensures Justified(w, hash, r, c, c, NoAction)
  {
    assert Since(c, c) == [];
  }

  /** Every action is started in its turn, over the LCM phase and the whole pipeline: a pass that starts one has found,
      since it began, everything earlier in the order done. */
  lemma ActionsInOrder(w: World, hash: Hash, r: Release, c: Cluster) returns (a: Action)
    requires Enumerates(w.order) && ChartsKeyed(c.charts)
    ensures Justified(w, hash, r, c, ReleasePass(w, RealHandlers(hash, w.order), r, c).cluster, a)
  {
    NothingJustified(w, hash, r, c);
    a := NoAction;
    if r.status.observedGeneration == r.generation {
      if IsTrue(r, ConditionType(PHASE_LCM)) {
        a := UpgradeOrdered(w, hash, r, c);
        assert Since(c, c) == [];
        UpgradeJustified(w, hash, r, c, r, c, Upgrade(w, RealHandlers(hash, w.order), r, c).cluster, a);
      } else if r.spec.version in w.lcm && LcmConfig(w.lcm[r.spec.version], r).Ok? {
        a := AfterLcmJustified(w, hash, r, c, LcmConfig(w.lcm[r.spec.version], r).value);
      }
    }
  }
}
