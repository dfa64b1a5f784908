/** Upgrades that never end, and exactly when one ends. */
module StuckUpgrades {
  import opened Wrappers
  import opened Values
  import opened Charts
  import opened Api
  import opened Conditions
  import opened Clusters
  import opened HelmReconciler
  import opened Manifests
  import opened ManifestCache
  import opened ReleaseConfig
  import opened Plans
  import opened PackagedComponents
  import opened Kubernetes
  import opened Controller
  import opened StatusMachine
  import opened Handlers
  import opened Webhook
  import opened Effects
  import opened Convergence
  import opened Collisions
  import opened Frames
  import opened Environments
  import AvailabilityOrder
  import opened Progress
  import PlanCleanup
  import ChartSort
  import Pipeline
  import System

  // ---------------------------------------------------------------- LCM charts that do not survive JSON

  /** No stored HelmChart ever matches a configuration that does not survive JSON. */
  lemma NeverUpToDate(h: HelmChart, t: ChartConfig)
    requires !SurvivesJson(t)
    ensures ShouldUpdate(h, t) != Ok(false)
  {
    CachedUpToDate(h, t);
  }

  /** Such a chart has to be written exactly when it is installed
      and a HelmChart manages it or its version is another. */
  lemma UnsettledNeedsWriteIff(c: Cluster, t: ChartConfig)
    requires !SurvivesJson(t) && ChartReady(c, t)
    ensures NeedsWrite(c, t) <==>
            t.Name() in c.releases && (t.Name() in c.charts || c.releases[t.Name()].chartVersion != t.chart.version)
  {
    if t.Name() in c.charts {
      NeverUpToDate(c.charts[t.Name()], t);
    }
  }

  /** LCM is not upgraded, and one of its charts has to be written whose values do not survive JSON. */
  predicate LcmStuck(g: Goal, m: Moment, t: ChartConfig) {
    !LcmDone(m.release) && t in g.lcmCharts && NeedsWrite(m.cluster, t) && !SurvivesJson(t)
  }

  /** Such a chart has to be written again after it was, as long as nothing is uninstalled. */
  lemma StillNeedsWrite(c: Cluster, c': Cluster, c'': Cluster, t: ChartConfig)
    requires NeedsWrite(c, t) && !SurvivesJson(t)
    requires c'.releases == c.releases && c.charts.Keys <= c'.charts.Keys && KeepsInstalled(c', c'')
             && ChartReady(c'', t)
    ensures NeedsWrite(c'', t)
  {
    UnsettledNeedsWriteIff(c'', t);
  }

  /** The pass leaves LCM not upgraded, releases untouched and HelmCharts in place. */
  predicate LeavesStuck(m: Moment, pass: Pass) {
    && !LcmDone(pass.release) && pass.cluster.releases == m.cluster.releases
    && m.cluster.charts.Keys <= pass.cluster.charts.Keys
  }

  lemma StuckWrites(g: Goal, m: Moment, c1: Cluster, i: nat, pass: Pass)
    requires Gated(m.release, REAL_PHASES) && !IsTrue(m.release, ConditionType(PHASE_LCM))
    requires i < |g.lcmCharts| && ChartPut(m.cluster, c1, g.lcmCharts[i]) && pass.cluster == c1
    requires pass.release == UpdateApplied(UpdatePhase(m.release, PHASE_LCM, InProgress), REAL_PHASES)
    ensures LeavesStuck(m, pass)
  {
    LcmMarks(m.release, InProgress);
  }

  lemma StuckLcmPass(g: Goal, w: World, hash: Hash, m: Moment, t: ChartConfig)
    requires Enumerates(w.order) && Ready(g, w, hash, m) && LcmStuck(g, m, t)
    requires m.release.status.observedGeneration == m.release.generation
    ensures LeavesStuck(m, PassOf(w, hash, m))
  {
    var i, c1, s := LcmCases(g, w, hash, m);
    StuckWrites(g, m, c1, i, PassOf(w, hash, m));
  }

  lemma StuckPass(g: Goal, w: World, hash: Hash, m: Moment, t: ChartConfig)
    requires Enumerates(w.order) && Ready(g, w, hash, m) && LcmStuck(g, m, t)
    ensures LeavesStuck(m, PassOf(w, hash, m))
  {
    if m.release.status.observedGeneration != m.release.generation {
      ResetPending(m.release, Pipeline.Phases(RealHandlers(hash, w.order)));
    } else {
      StuckLcmPass(g, w, hash, m, t);
    }
  }

  lemma QuiescentReady(g: Goal, hash: Hash, r: Release, c: Cluster, t: ChartConfig)
    requires Quiescent(g, hash, Cleaned(r, c)) && t in g.lcmCharts
    ensures ChartReady(c, t)
  {
    SameChartsLeft(c, Cleaned(r, c));
    assert t in g.lcmCharts + g.charts;
  }

  lemma StuckStep(g: Goal, w: World, hash: Hash, m: Moment, m': Moment, t: ChartConfig)
    requires Enumerates(w.order) && Ready(g, w, hash, m) && LcmStuck(g, m, t) && Step(g, w, hash, m, m')
    requires KeepsInstalled(PassOf(w, hash, m).cluster, m'.cluster)
    ensures LcmStuck(g, m', t)
  {
    StuckPass(g, w, hash, m, t);
    QuiescentReady(g, hash, m'.release, m'.cluster, t);
    StillNeedsWrite(m.cluster, PassOf(w, hash, m).cluster, m'.cluster, t);
  }

  /** A release is never applied while LCM is not upgraded and an LCM chart that has to be written does not survive
      JSON: the LCM phase reads the manifest's own text in every pass, and so writes the chart in every pass. */
  lemma {:induction false} StaysStuck(g: Goal, w: World, hash: Hash, run: nat -> Moment, t: ChartConfig, i: nat, n: nat)
    requires Enumerates(w.order) && i <= n && Ready(g, w, hash, run(i)) && LcmStuck(g, run(i), t)
    requires forall k: nat :: StepAt(g, w, hash, run, k) && InstalledKeptAt(w, hash, run, k)
    ensures Ready(g, w, hash, run(n)) && LcmStuck(g, run(n), t) && !Applied(run(n).release)
    decreases n - i
  {
    if i < n {
      assert StepAt(g, w, hash, run, i) && InstalledKeptAt(w, hash, run, i);
      StuckStep(g, w, hash, run(i), run(i + 1), t);
      StepKeepsReady(g, w, hash, run(i), run(i + 1));
      StaysStuck(g, w, hash, run, t, i + 1, n);
    }
  }

  // ---------------------------------------------------------------- exactly when an upgrade ends

  /** The release is ever applied exactly when LCM is upgraded already or each of its charts still to be written
      survives JSON, and the plans of the two versions can be told apart or no plan is missing. */
  lemma UpgradeEndsIff(g: Goal, w: World, hash: Hash, run: nat -> Moment)
    requires Enumerates(w.order) && Ready(g, w, hash, run(0))
    requires forall k: nat :: StepAt(g, w, hash, run, k) && InstalledKeptAt(w, hash, run, k)
    ensures LcmSettles(g, run(0)) && PlansSettle(g, run(0).release, run(0).cluster)
            <==> exists n: nat :: Applied(run(n).release)
  {
    if !PlansSettle(g, run(0).release, run(0).cluster) {
      forall n: nat ensures !Applied(run(n).release) {
        StaysTrapped(g, w, hash, run, 0, n);
      }
    } else if !LcmSettles(g, run(0)) {
      var t :| t in g.lcmCharts && NeedsWrite(run(0).cluster, t) && !SurvivesJson(t);
      forall n: nat ensures !Applied(run(n).release) {
        StaysStuck(g, w, hash, run, t, 0, n);
      }
    } else {
      var n := Converges(g, w, hash, run);
      assert Resting(w, hash, run(n).release, run(n));
    }
  }

  // ---------------------------------------------------------------- a concrete collision

  const OS: OSConfig := OSConfig("6.1", true)
  const KUBERNETES: KubernetesConfig := KubernetesConfig("v1.33.0")
  const NO_CHARTS: HelmManifest := HelmManifest([], [])

  /** An LCM chart with a whole number among its values. */
  const NUMBER_CHART: Chart :=
    Chart("", LCM_CHART, "1.1.0", "", "", Plain("https://charts"), map["replicas" := Int(3)], [])

  /** A release applied at one release candidate and edited to the next, whose name differs in a separator only. */
  function AppliedCandidate(): Release {
    Release("release", 1, Spec(OLD_CANDIDATE, "registry", true, []),
            Status(OLD_CANDIDATE, [Condition(CONDITION_APPLIED, true, Succeeded, 1)], 1))
  }

  function EditedCandidate(): Release {
    System.Edited(AppliedCandidate(), Spec(NEW_CANDIDATE, "registry", true, []))
  }

  /** The edit is admitted whenever the version library takes the new candidate for the newer one. */
  lemma CandidateAdmitted(vs: Versions, secrets: Secrets)
    requires Signs(vs) && vs.parses(NEW_CANDIDATE) && Newer(vs, NEW_CANDIDATE, OLD_CANDIDATE)
    ensures ValidateUpdate(vs, secrets, AppliedCandidate(), EditedCandidate().spec).None?
  {
    SanitizeNotInjective();
    AdmittedUpdate(vs, secrets, AppliedCandidate(), EditedCandidate().spec);
  }

  /** Core manifests for one version, with LCM charts at most. */
  function BareWorld(version: string, lcm: HelmManifest, order: MapOrder): World {
    World(map[version := lcm], map[version := Manifest(Some(CorePlatform(OS, KUBERNETES, Some(lcm))), None)], order)
  }

  function BareGoal(r: Release, ts: seq<ChartConfig>): Goal {
    Goal(Config(r.name, r.spec.version, None, None, ts),
         Config(r.name, r.spec.version, Some(OS), Some(KUBERNETES), []), ts, [])
  }

  lemma NoRuntime(m: HelmManifest)
    ensures BuildConfig(Some(m), None, map[]) == Ok(ConfigsOf(Some(m), map[]))
  {
    var none: map<string, RuntimeChart> := map[];
    assert none.Keys == {} && none.Keys - ChartNames(Some(m)) - ChartNames(None) == {};
    assert BuildConfig(Some(m), None, none) == Ok(ConfigsOf(Some(m), none) + ConfigsOf(None, none));
    assert ConfigsOf(Some(m), none) + ConfigsOf(None, none) == ConfigsOf(Some(m), none);
  }

  lemma BareResolves(r: Release, order: MapOrder, c: Cluster)
    requires r.spec.components == [] && c.cache.None?
    ensures Resolves(BareWorld(r.spec.version, NO_CHARTS, order), r, c, BareGoal(r, []))
  {
    NoRuntime(NO_CHARTS);
    assert RuntimeCharts([], [LCM_CHART]) == map[] && RuntimeCharts([], []) == map[];
    assert ReleaseConfig.LcmCharts([]) == [] && WithoutLcm([]) == [];
    assert ConfigsOf(Some(NO_CHARTS), map[]) == [];
    assert CachedCharts([]) == [];
    ChartSort.OrderedInputUnchanged([]);
  }

  /** Any order of iteration. */
  ghost function SomeOrder(): (order: MapOrder)
    ensures Enumerates(order)
  {
    (calls, keys) => AvailabilityOrder.Enumeration(keys)
  }

  /** One control plane node and one packaged component. */
  function CandidateCluster(): Cluster {
    Cluster([Node("node", {CONTROL_PLANE_LABEL}, [], false, "v1.32.0")], map[],
            map["rke2-canal" := AvailabilityOrder.ChangedComponent("rke2-canal", "")], map[],
            map["rke2-canal" := HelmRelease("1", "kube-system", map[], 1)], None, None, 0, {}, [])
  }

  lemma CandidatePlausible(g: Goal)
    ensures Plausible(g, CandidateCluster()) && ChartsKeyed(CandidateCluster().charts)
    ensures forall n | n in Components(CandidateCluster().charts) :: n in CandidateCluster().releases
  {
    var c := CandidateCluster();
    AvailabilityOrder.ChangedIsComponent("rke2-canal", "");
    assert c.nodes[0] in c.nodes && IsControlPlane(c.nodes[0]);
    assert "rke2-canal" in Components(c.charts);
  }

  lemma CandidateTrapped(c: Cluster)
    requires c.plans == map[]
    ensures Trapped(BareGoal(EditedCandidate(), []), EditedCandidate(), c)
  {
    SanitizeNotInjective();
    var r := EditedCandidate();
    var plans := Required(BareGoal(r, []).cfg, c.nodes);
    CountNone(plans, (p: Plan) => p.name !in Cleaned(r, c).plans);
    assert plans[0] in plans;
  }

  /** The edit from one candidate to the next, on a cluster with nothing left to complete. */
  lemma CandidateInReach(hash: Hash) returns (g: Goal, w: World, m: Moment)
    requires CollisionFree(hash)
    ensures Enumerates(w.order) && InReach(g, w, hash, m) && m.release == EditedCandidate()
    ensures Trapped(g, m.release, m.cluster)
  {
    var r := EditedCandidate();
    g, w := BareGoal(r, []), BareWorld(r.spec.version, NO_CHARTS, SomeOrder());
    m := Moment(r, Respond(g, hash, CandidateCluster()));
    BareResolves(r, w.order, CandidateCluster());
    CandidatePlausible(g);
    StartExists(g, w, hash, r, CandidateCluster());
    CandidateTrapped(m.cluster);
  }

  /** There is a run from it, and the release is applied in none. */
  lemma CandidateNeverApplied(hash: Hash) returns (g: Goal, w: World, run: nat -> Moment)
    requires CollisionFree(hash)
    ensures Enumerates(w.order) && Ready(g, w, hash, run(0)) && run(0).release == EditedCandidate()
    ensures forall k: nat :: StepAt(g, w, hash, run, k)
    ensures forall n: nat :: !Applied(run(n).release)
  {
    var m;
    g, w, m := CandidateInReach(hash);
    run := RunExists(g, w, hash, m);
    forall n: nat ensures !Applied(run(n).release) {
      StaysTrapped(g, w, hash, run, 0, n);
    }
  }

  // ---------------------------------------------------------------- a concrete whole number

  function FreshRelease(): Release {
    Release("release", 1, Spec("1.1.0", "registry", true, []), Status("", [], 0))
  }

  /** As the candidates' cluster, with the LCM chart installed at an older version. */
  function NumberCluster(): Cluster {
    CandidateCluster().(releases := CandidateCluster().releases[LCM_CHART := HelmRelease("1.0.0", "lcm", map[], 1)])
  }

  function NumberConfig(): ChartConfig {
    ChartConfig(NUMBER_CHART, None, NO_RUNTIME)
  }

  lemma NumberWritable()
    ensures Writable(NumberConfig()) && !SurvivesJson(NumberConfig())
  {
    ManifestValuesOnly(NumberConfig());
    assert "replicas" in NUMBER_CHART.values;
  }

  const NUMBER_MANIFEST: HelmManifest := HelmManifest([NUMBER_CHART], [])

  lemma NumberLcm()
    ensures LcmConfig(NUMBER_MANIFEST, FreshRelease()) == Ok(BareGoal(FreshRelease(), [NumberConfig()]).lcm)
    ensures ChartSort.Sorted([NumberConfig()]) == Ok([NumberConfig()])
  {
    assert RuntimeCharts([], [LCM_CHART]) == map[];
    NoRuntime(NUMBER_MANIFEST);
    assert [NUMBER_CHART][..0] == [] && ReleaseConfig.LcmCharts([NUMBER_CHART]) == [NUMBER_CHART];
    assert ConfigsOf(Some(NUMBER_MANIFEST), map[]) == [NumberConfig()];
    ChartSort.OrderedInputUnchanged([NumberConfig()]);
  }

  lemma NumberUpgrade()
    ensures var m := Manifest(Some(CorePlatform(OS, KUBERNETES, Some(NUMBER_MANIFEST))), None).Cached();
            UpgradeConfig(m, FreshRelease()) == Ok(BareGoal(FreshRelease(), []).cfg)
    ensures ChartSort.Sorted([]) == Ok([])
  {
    assert RuntimeCharts([], []) == map[];
    ChartSort.OrderedInputUnchanged([]);
    var cached := HelmManifest(CachedCharts([NUMBER_CHART]), []);
    NoRuntime(cached);
    assert ConfigsOf(Some(cached), map[]) == [NumberConfig().Cached()];
    assert [NumberConfig().Cached()][1..] == [] && WithoutLcm([NumberConfig().Cached()]) == [];
  }

  lemma NumberResolves(order: MapOrder, c: Cluster)
    requires c.cache.None?
    ensures Resolves(BareWorld("1.1.0", NUMBER_MANIFEST, order), FreshRelease(), c,
                     BareGoal(FreshRelease(), [NumberConfig()]))
  {
    NumberLcm();
    NumberUpgrade();
    NumberWritable();
  }

  /** The LCM chart is still to be written on any cluster with these releases and charts. */
  lemma NumberStuck(c: Cluster)
    requires c.releases == NumberCluster().releases && c.charts.Keys == NumberCluster().charts.Keys
    ensures LcmStuck(BareGoal(FreshRelease(), [NumberConfig()]), Moment(FreshRelease(), c), NumberConfig())
  {
    NumberWritable();
    assert |LCM_CHART| > |"rke2-canal"| && LCM_CHART !in c.charts;
    assert "1.0.0" != "1.1.0" by {
      assert "1.0.0"[2] != "1.1.0"[2];
    }
  }

  lemma NumberInReach(hash: Hash) returns (g: Goal, w: World, m: Moment)
    requires CollisionFree(hash)
    ensures Enumerates(w.order) && InReach(g, w, hash, m) && m.release == FreshRelease()
    ensures LcmStuck(g, m, NumberConfig())
  {
    var r, c := FreshRelease(), NumberCluster();
    g, w := BareGoal(r, [NumberConfig()]), BareWorld("1.1.0", NUMBER_MANIFEST, SomeOrder());
    m := Moment(r, Respond(g, hash, c));
    NumberStuck(m.cluster);
    NumberResolves(w.order, c);
    NumberPlausible(g);
    NumberReadable();
    StartExists(g, w, hash, r, c);
  }

  lemma NumberReadable()
    ensures GoalReadable(BareGoal(FreshRelease(), [NumberConfig()]), NumberCluster())
  {
    NumberStuck(NumberCluster());
  }

  lemma NumberPlausible(g: Goal)
    ensures Plausible(g, NumberCluster()) && ChartsKeyed(NumberCluster().charts)
    ensures forall n | n in Components(NumberCluster().charts) :: n in NumberCluster().releases
  {
    CandidatePlausible(g);
    assert NumberCluster().charts == CandidateCluster().charts && NumberCluster().plans == CandidateCluster().plans;
  }

  /** A whole number among the values of an installed LCM chart: there is a run, and the release is applied in none. */
  lemma NumberNeverApplied(hash: Hash) returns (g: Goal, w: World, run: nat -> Moment)
    requires CollisionFree(hash)
    ensures Enumerates(w.order) && Ready(g, w, hash, run(0)) && run(0).release == FreshRelease()
    ensures forall k: nat :: StepAt(g, w, hash, run, k) && InstalledKeptAt(w, hash, run, k)
    ensures forall n: nat :: !Applied(run(n).release)
  {
    var m;
    g, w, m := NumberInReach(hash);
    run := RunExists(g, w, hash, m);
    forall n: nat ensures !Applied(run(n).release) {
      StaysStuck(g, w, hash, run, NumberConfig(), 0, n);
    }
  }
}
