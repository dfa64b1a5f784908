/** Convergence: when no call fails and everything a pass starts is completed before the next one, the measure below
    shrinks with every pass until the release is applied, and then nothing changes any more. */
module Convergence {
  import opened Wrappers
  import opened Charts
  import opened Api
  import opened Conditions
  import opened Clusters
  import opened HelmReconciler
  import opened Values
  import opened ManifestCache
  import opened ReleaseConfig
  import opened Plans
  import opened PackagedComponents
  import opened Kubernetes
  import opened Controller
  import opened StatusMachine
  import opened Handlers
  import opened PlanCleanup
  import opened Progress
  import opened Frames
  import opened Effects
  import ChartSort
  import Pipeline
  import System

  // ---------------------------------------------------------------- counting

  function Count<T>(s: seq<T>, p: T -> bool): (n: nat)
    ensures n <= |s|
  {
    if s == [] then 0 else (if p(s[0]) then 1 else 0) + Count(s[1..], p)
  }

  lemma {:induction false} CountLess<T>(s: seq<T>, p: T -> bool, q: T -> bool)
    requires forall x | x in s && q(x) :: p(x)
    ensures Count(s, q) <= Count(s, p)
    ensures (exists x | x in s :: p(x) && !q(x)) ==> Count(s, q) < Count(s, p)
    decreases |s|
  {
    if s != [] {
      assert s[0] in s && s == [s[0]] + s[1..];
      CountLess(s[1..], p, q);
    }
  }

  lemma {:induction false} CountNone<T>(s: seq<T>, p: T -> bool)
    ensures Count(s, p) == 0 <==> forall x | x in s :: !p(x)
    decreases |s|
  {
    if s != [] {
      assert s[0] in s && s == [s[0]] + s[1..];
      CountNone(s[1..], p);
    }
  }

  // ---------------------------------------------------------------- the measure

  function Missing(plans: seq<Plan>, have: map<string, Plan>): nat {
    Count(plans, (p: Plan) => p.name !in have)
  }

  function PlansLeft(g: Goal, c: Cluster): nat {
    Missing(Required(g.cfg, c.nodes), c.plans)
  }

  function ChartsLeft(c: Cluster, ts: seq<ChartConfig>): nat {
    Count(ts, (t: ChartConfig) => NeedsWrite(c, t))
  }

  /** The release is applied. */
  predicate Applied(r: Release) {
    r.status.observedGeneration == r.generation && IsTrue(r, CONDITION_APPLIED) && r.status.version == r.spec.version
  }

  predicate AtRest(g: Goal, m: Moment) {
    && Applied(m.release) && IsTrue(m.release, ConditionType(PHASE_LCM)) && Owned(g, m.cluster)
    && PlansLeft(g, Cleaned(m.release, m.cluster)) == 0 && ChartsLeft(m.cluster, g.charts) == 0
    && IsCached(m)
  }

  /** The manifest of the wanted version is in the cache. */
  predicate IsCached(m: Moment) {
    InCache(m.cluster, m.release.spec.version).Some?
  }

  /** A bound on the passes still needed: the reset of a new generation, the LCM charts, then one pass that fills the
      cache, one for each plan and chart that is missing and one that finds everything done. */
  function Measure(g: Goal, m: Moment): nat {
    var pipeline := 6 + |g.charts|;
    if m.release.status.observedGeneration != m.release.generation then 2 + |g.lcmCharts| + pipeline
    else if !IsTrue(m.release, ConditionType(PHASE_LCM)) then 1 + ChartsLeft(m.cluster, g.lcmCharts) + pipeline
    else if AtRest(g, m) then 0
    else
      (if IsCached(m) then 1 else 2) + PlansLeft(g, Cleaned(m.release, m.cluster)) + ChartsLeft(m.cluster, g.charts)
  }

  /** The merged values of the chart are the same when they are read back from JSON. */
  predicate SurvivesJson(t: ChartConfig) {
    CustomValues(t).Ok? ==> JsonNormal(Obj(CustomFields(t)))
  }

  /** A release in its observed generation with LCM upgraded. */
  predicate LcmDone(r: Release) {
    r.status.observedGeneration == r.generation && IsTrue(r, ConditionType(PHASE_LCM))
  }

  /** The LCM phase is over, or each LCM chart it still has to write survives JSON. */
  predicate LcmSettles(g: Goal, m: Moment) {
    LcmDone(m.release) || forall t | t in g.lcmCharts && NeedsWrite(m.cluster, t) :: SurvivesJson(t)
  }

  /** No plan that is still missing would be taken for one of the version applied before. */
  predicate PlansSettle(g: Goal, r: Release, c: Cluster) {
    VersionsApart(r) || PlansLeft(g, Cleaned(r, c)) == 0
  }

  // ---------------------------------------------------------------- the measure shrinks

  /** A chart that was written and survives JSON needs no write any more, and no other chart needs one for it. */
  lemma ChartPutSettles(c: Cluster, c': Cluster, ts: seq<ChartConfig>, t: ChartConfig)
    requires t in ts && ChartPut(c, c', t) && SurvivesJson(t) && ChartSort.DistinctNames(ts)
    ensures !NeedsWrite(c', t) && forall x | x in ts && NeedsWrite(c', x) :: NeedsWrite(c, x)
  {
    CachedUpToDate(c'.charts[t.Name()], t);
    var i :| 0 <= i < |ts| && ts[i] == t;
    forall x | x in ts && NeedsWrite(c', x) ensures NeedsWrite(c, x) {
      var j :| 0 <= j < |ts| && ts[j] == x;
    }
  }

  lemma ChartsShrink(c: Cluster, c': Cluster, c'': Cluster, ts: seq<ChartConfig>, t: ChartConfig)
    requires t in ts && ChartPut(c, c', t) && SurvivesJson(t) && ChartSort.DistinctNames(ts)
    requires forall x | x in ts && NeedsWrite(c'', x) :: NeedsWrite(c', x)
    ensures ChartsLeft(c'', ts) <= ChartsLeft(c, ts)
    ensures NeedsWrite(c, t) ==> ChartsLeft(c'', ts) < ChartsLeft(c, ts)
  {
    ChartPutSettles(c, c', ts, t);
    var p, q := (x: ChartConfig) => NeedsWrite(c, x), (x: ChartConfig) => NeedsWrite(c'', x);
    CountLess(ts, p, q);
    if NeedsWrite(c, t) {
      assert p(t) && !q(t);
    }
  }

  lemma ChartsKept(c: Cluster, c'': Cluster, ts: seq<ChartConfig>)
    requires forall x | x in ts && NeedsWrite(c'', x) :: NeedsWrite(c, x)
    ensures ChartsLeft(c'', ts) <= ChartsLeft(c, ts)
  {
    CountLess(ts, (x: ChartConfig) => NeedsWrite(c, x), (x: ChartConfig) => NeedsWrite(c'', x));
  }

  lemma RequiredLabels(cfg: Config, nodes: seq<Node>)
    ensures forall p | p in Required(cfg, nodes) :: p.labels == OwnerLabels(cfg.GetOwner())
  {
  }

  lemma RequiredSame(cfg: Config, nodes: seq<Node>, nodes': seq<Node>)
    requires ControlPlaneOnly(nodes) <==> ControlPlaneOnly(nodes')
    ensures Required(cfg, nodes) == Required(cfg, nodes')
  {
  }

  lemma NewLabelsSurvive(r: Release, labels: map<string, string>)
    requires VersionsApart(r) && r.status.version != "" && r.status.version != r.spec.version
             && labels == OwnerLabels(OwnerOf(r))
    ensures !HasLabels(labels, OwnerLabels(Owner(r.name, r.status.version)))
  {
    MistakenIff("", r.name, r.spec.version, r.status.version, "", []);
  }

  /** A plan that survived the cleanup once survives the next one. */
  lemma PlanKept(g: Goal, r: Release, c: Cluster, c': Cluster, c'': Cluster, name: string)
    requires Completed(g, c', c'') && name in Cleaned(r, c).plans && name in c'.plans
    requires c'.plans[name] == Cleaned(r, c).plans[name]
    ensures name in Cleaned(r, c'').plans
  {
  }

  /** A plan just created survives it when the versions can be told apart. */
  lemma NewPlanKept(g: Goal, r: Release, c': Cluster, c'': Cluster, name: string)
    requires VersionsApart(r) && Completed(g, c', c'') && name in c'.plans
    requires c'.plans[name].labels == OwnerLabels(OwnerOf(r))
    ensures name in Cleaned(r, c'').plans
  {
    if r.status.version != "" && r.status.version != r.spec.version {
      NewLabelsSurvive(r, c'.plans[name].labels);
    }
  }

  lemma MissingLess(plans: seq<Plan>, have: map<string, Plan>, have': map<string, Plan>)
    requires forall x | x in plans && x.name in have :: x.name in have'
    ensures Missing(plans, have') <= Missing(plans, have)
    ensures (exists p | p in plans :: p.name !in have && p.name in have') ==>
            Missing(plans, have') < Missing(plans, have)
  {
    var before, after := (x: Plan) => x.name !in have, (x: Plan) => x.name !in have';
    if exists p | p in plans :: p.name !in have && p.name in have' {
      var p :| p in plans && p.name !in have && p.name in have';
      assert before(p) && !after(p);
    }
    CountLess(plans, before, after);
  }

  /** The pass kept the plans it found after the cleanup. */
  predicate PlansOnlyAdded(r: Release, c: Cluster, c': Cluster) {
    forall n | n in Cleaned(r, c).plans :: n in c'.plans && c'.plans[n] == Cleaned(r, c).plans[n]
  }

  /** Of the plans missing after the next cleanup, all were missing before. */
  lemma NoPlanLost(g: Goal, r: Release, c: Cluster, c': Cluster, c'': Cluster)
    requires Completed(g, c', c'') && PlansOnlyAdded(r, c, c') && c'.nodes == c.nodes
    ensures PlansLeft(g, Cleaned(r, c'')) == Missing(Required(g.cfg, c.nodes), Cleaned(r, c'').plans)
    ensures forall n | n in Cleaned(r, c).plans :: n in Cleaned(r, c'').plans
    ensures PlansLeft(g, Cleaned(r, c'')) <= PlansLeft(g, Cleaned(r, c))
  {
    RequiredSame(g.cfg, c''.nodes, c.nodes);
    forall n | n in Cleaned(r, c).plans ensures n in Cleaned(r, c'').plans {
      PlanKept(g, r, c, c', c'', n);
    }
    MissingLess(Required(g.cfg, c.nodes), Cleaned(r, c).plans, Cleaned(r, c'').plans);
  }

  /** Creating a plan leaves one plan less to create. */
  lemma PlanAddedShrinks(g: Goal, r: Release, c: Cluster, c': Cluster, c'': Cluster)
    requires VersionsApart(r) && g.cfg.GetOwner() == OwnerOf(r) && PlanAdded(g, Cleaned(r, c), c')
             && Completed(g, c', c'')
    ensures PlansLeft(g, Cleaned(r, c'')) < PlansLeft(g, Cleaned(r, c))
    ensures ChartsLeft(c'', g.charts) <= ChartsLeft(c, g.charts)
  {
    var c0 := Cleaned(r, c);
    var p :| p in Required(g.cfg, c0.nodes) && p.name !in c0.plans
             && c' == c0.(trace := c'.trace, snapshot := c'.snapshot, cache := c'.cache,
                          plans := c0.plans[p.name := p]);
    RequiredLabels(g.cfg, c.nodes);
    NoPlanLost(g, r, c, c', c'');
    NewPlanKept(g, r, c', c'', p.name);
    MissingLess(Required(g.cfg, c.nodes), c0.plans, Cleaned(r, c'').plans);
    ChartsStay(g, c, c', c'');
  }

  /** With no plan missing, none is created. */
  lemma NonePlanAdded(g: Goal, c: Cluster, c': Cluster)
    requires PlansLeft(g, c) == 0
    ensures !PlanAdded(g, c, c')
  {
    CountNone(Required(g.cfg, c.nodes), (p: Plan) => p.name !in c.plans);
  }

  lemma ChartsStay(g: Goal, c: Cluster, c': Cluster, c'': Cluster)
    requires SameCharts(c, c') && Completed(g, c', c'')
    ensures ChartsLeft(c'', g.charts) <= ChartsLeft(c, g.charts)
  {
    SameChartsLeft(c, c');
    forall t | t in g.charts && NeedsWrite(c'', t) ensures NeedsWrite(c, t) {
      assert t in g.lcmCharts + g.charts;
    }
    ChartsKept(c, c'', g.charts);
  }

  /** Writing a chart that needs it leaves one chart less to write, and writing another leaves no more. */
  lemma ChartPutShrinks(g: Goal, r: Release, c: Cluster, c': Cluster, c'': Cluster, t: ChartConfig)
    requires ChartSort.DistinctNames(g.charts) && t in g.charts && SurvivesJson(t)
    requires ChartPut(Cleaned(r, c), c', t) && Completed(g, c', c'')
    ensures PlansLeft(g, Cleaned(r, c'')) <= PlansLeft(g, Cleaned(r, c))
    ensures ChartsLeft(c'', g.charts) <= ChartsLeft(c, g.charts)
    ensures NeedsWrite(Cleaned(r, c), t) ==> ChartsLeft(c'', g.charts) < ChartsLeft(c, g.charts)
  {
    var c0 := Cleaned(r, c);
    NoPlanLost(g, r, c, c', c'');
    SameChartsLeft(c, c0);
    forall x | x in g.charts && NeedsWrite(c'', x) ensures NeedsWrite(c', x) {
      assert x in g.lcmCharts + g.charts;
    }
    ChartsShrink(c0, c', c'', g.charts, t);
    ChartsKept(c, c0, g.charts);
    ChartsKept(c0, c, g.charts);
  }

  /** After a pass that found nothing left to do, nothing is left. */
  lemma NothingLeftRests(g: Goal, r: Release, c: Cluster, c': Cluster, c'': Cluster)
    requires NothingLeft(g, c, c') && Completed(g, c', c'')
    requires r.status.version == r.spec.version
    ensures PlansLeft(g, Cleaned(r, c'')) == 0 && ChartsLeft(c'', g.charts) == 0 && Owned(g, c'')
  {
    RequiredSame(g.cfg, c''.nodes, c.nodes);
    CountNone(Required(g.cfg, c.nodes), (p: Plan) => p.name !in c''.plans);
    SameChartsLeft(c, c');
    forall t | t in g.charts ensures !NeedsWrite(c'', t) {
      assert t in g.lcmCharts + g.charts;
    }
    CountNone(g.charts, (t: ChartConfig) => NeedsWrite(c'', t));
  }

  // ---------------------------------------------------------------- every pass makes progress

  const REAL_PHASES := [PHASE_OS, PHASE_KUBERNETES, PHASE_HELM_CHARTS]

  /** Where a pass starts: the goal is resolved, the status is sound and everything started before is completed. */
  ghost predicate Ready(g: Goal, w: World, hash: Hash, m: Moment)
    requires Enumerates(w.order)
  {
    && CollisionFree(hash) && StatusInv(m.release, REAL_PHASES) && Resolves(w, m.release, m.cluster, g)
    && Quiescent(g, hash, Cleaned(m.release, m.cluster))
  }

  lemma SameResolved(w: World, r: Release, r': Release, c: Cluster, c': Cluster, g: Goal)
    requires Resolves(w, r, c, g) && r'.name == r.name && r'.spec == r.spec
    requires LastingManifest(w, c', r.spec.version) == LastingManifest(w, c, r.spec.version)
    ensures Resolves(w, r', c', g)
  {
  }

  /** Whatever a pass and its completion do, later passes read the same manifest. */
  lemma StepKeepsManifest(g: Goal, w: World, hash: Hash, m: Moment, m': Moment)
    requires Enumerates(w.order) && Ready(g, w, hash, m) && Step(g, w, hash, m, m')
    ensures LastingManifest(w, m'.cluster, m.release.spec.version)
            == LastingManifest(w, m.cluster, m.release.spec.version)
  {
    var c' := PassOf(w, hash, m).cluster;
    PassTouchesOnly(w, hash, m.release, m.cluster);
    FilledIsLasting(w, m.cluster, c', m.release.spec.version);
    assert InCache(m'.cluster, m.release.spec.version) == InCache(c', m.release.spec.version);
  }

  lemma StepKeepsReady(g: Goal, w: World, hash: Hash, m: Moment, m': Moment)
    requires Enumerates(w.order) && Ready(g, w, hash, m) && Step(g, w, hash, m, m')
    ensures Ready(g, w, hash, m') && (VersionsApart(m.release) ==> VersionsApart(m'.release))
  {
    var hs := RealHandlers(hash, w.order);
    RealHandlersProper(hash, w.order);
    RealPhases(hash, w.order);
    PassKeepsStatus(w, hs, m.release, m.cluster);
    System.PassMoves(w, hs, m.release, m.cluster);
    StepKeepsManifest(g, w, hash, m, m');
    SameResolved(w, m.release, m'.release, m.cluster, m'.cluster, g);
  }

  lemma UpgradingBound(g: Goal, m: Moment)
    requires m.release.status.observedGeneration == m.release.generation && IsTrue(m.release, ConditionType(PHASE_LCM))
    ensures Measure(g, m) <= 6 + |g.charts|
  {
  }

  /** A pass that touches no plan leaves as many missing. */
  lemma PlansUntouched(g: Goal, r: Release, r': Release, c: Cluster, c': Cluster, c'': Cluster)
    requires r'.name == r.name && r'.spec == r.spec && r'.status.version == r.status.version
    requires c'.plans == c.plans && c'.nodes == c.nodes && Completed(g, c', c'') && PlansSettle(g, r, c)
    ensures PlansSettle(g, r', c'')
  {
    NoPlanLost(g, r, c, c', c'');
    assert Cleaned(r', c'') == Cleaned(r, c'');
  }

  /** The first pass of a generation only resets the conditions. */
  lemma ResetShrinks(g: Goal, w: World, hash: Hash, m: Moment, m': Moment)
    requires Enumerates(w.order) && Step(g, w, hash, m, m') && LcmSettles(g, m)
             && PlansSettle(g, m.release, m.cluster)
             && m.release.status.observedGeneration != m.release.generation
    ensures Measure(g, m') < Measure(g, m) && LcmSettles(g, m') && PlansSettle(g, m'.release, m'.cluster)
  {
    ResetPending(m.release, Pipeline.Phases(RealHandlers(hash, w.order)));
    PlansUntouched(g, m.release, m'.release, m.cluster, m.cluster, m'.cluster);
    forall t | t in g.lcmCharts && NeedsWrite(m'.cluster, t) ensures SurvivesJson(t) {
      assert t in g.lcmCharts + g.charts;
    }
    if IsTrue(m'.release, ConditionType(PHASE_LCM)) {
      UpgradingBound(g, m');
    }
  }

  /** The charts of the Helm phase survive JSON, because their manifest was read from it. */
  lemma GoalSurvives(w: World, r: Release, c: Cluster, g: Goal)
    requires Resolves(w, r, c, g) && c.faults == {}
    ensures forall t | t in g.charts :: SurvivesJson(t)
  {
    var p := GoalOfPass(w, r, c, g);
    forall t | t in g.charts ensures SurvivesJson(t) {
      var i :| 0 <= i < |g.charts| && g.charts[i] == t;
      CachedValues(p.charts[i]);
      if CustomValues(t).Ok? {
        ReadBackTwice(CustomFields(p.charts[i]));
      }
    }
  }

  lemma MovingShrinks(g: Goal, r: Release, c: Cluster, c': Cluster, c'': Cluster, cached: bool)
    requires g.cfg.GetOwner() == OwnerOf(r) && ChartSort.DistinctNames(g.charts) && PlansSettle(g, r, c)
    requires forall t | t in g.charts :: SurvivesJson(t)
    requires GoalEffect(g, Cleaned(r, c), c', false, cached) && Completed(g, c', c'')
    ensures PlansLeft(g, Cleaned(r, c'')) <= PlansLeft(g, Cleaned(r, c))
    ensures ChartsLeft(c'', g.charts) <= ChartsLeft(c, g.charts)
    ensures cached ==> PlansLeft(g, Cleaned(r, c'')) + ChartsLeft(c'', g.charts)
                       < PlansLeft(g, Cleaned(r, c)) + ChartsLeft(c, g.charts)
  {
    if PlanAdded(g, Cleaned(r, c), c') {
      if PlansLeft(g, Cleaned(r, c)) == 0 {
        NonePlanAdded(g, Cleaned(r, c), c');
      }
      PlanAddedShrinks(g, r, c, c', c'');
    } else {
      var t :| t in g.charts && (NeedsWrite(Cleaned(r, c), t) || !cached) && ChartPut(Cleaned(r, c), c', t);
      ChartPutShrinks(g, r, c, c', c'', t);
    }
  }

  /** What the effect of a pass with LCM upgraded means for the measure. */
  lemma EffectShrinks(g: Goal, hs: seq<Pipeline.Handler>, m: Moment, pass: Pass, ended: bool, m': Moment)
    requires PlansSettle(g, m.release, m.cluster) && forall t | t in g.charts :: SurvivesJson(t)
    requires g.cfg.GetOwner() == OwnerOf(m.release) && ChartSort.DistinctNames(g.charts) && LcmDone(m.release)
    requires PassEffect(g, hs, m.release, m.cluster, pass, ended) && Completed(g, pass.cluster, m'.cluster)
    requires m'.release == UpdateApplied(pass.release, Pipeline.Phases(hs))
    ensures PlansSettle(g, m'.release, m'.cluster) && LcmDone(m'.release)
    ensures if ended then AtRest(g, m') else Measure(g, m') < Measure(g, m) || AtRest(g, m)
  {
    var r, c, c', c'' := m.release, m.cluster, pass.cluster, m'.cluster;
    assert !ended ==> Cleaned(m'.release, c'') == Cleaned(r, c'');
    if ended {
      NothingLeftRests(g, m'.release, Cleaned(r, c), c', c'');
    } else {
      MovingShrinks(g, r, c, c', c'', IsCached(m));
    }
  }

  lemma SortedDistinct(configs: seq<ChartConfig>)
    requires ChartSort.Sorted(configs).Ok?
    ensures ChartSort.DistinctNames(ChartSort.Sorted(configs).value)
  {
    ChartSort.SortedIsOrder(configs);
  }

  /** Where a pass with LCM upgraded starts and where it goes. */
  lemma UpgradingShrinks(g: Goal, w: World, hash: Hash, m: Moment, m': Moment)
    requires Enumerates(w.order) && Ready(g, w, hash, m) && Step(g, w, hash, m, m')
    requires PlansSettle(g, m.release, m.cluster) && LcmDone(m.release)
    ensures PlansSettle(g, m'.release, m'.cluster) && LcmDone(m'.release)
    ensures Measure(g, m') < Measure(g, m) || (AtRest(g, m) && AtRest(g, m'))
  {
    var hs := RealHandlers(hash, w.order);
    RealPhases(hash, w.order);
    ResolvedGoal(w, m.release, m.cluster, g);
    SortedDistinct(g.cfg.helmCharts);
    GoalSurvives(w, m.release, m.cluster, g);
    var ended := UpgradeEffect(g, w, hash, hs, m.release, m.cluster);
    EffectShrinks(g, hs, m, Upgrade(w, hs, m.release, m.cluster), ended, m');
    if AtRest(g, m) {
      RestEffect(g, m, Upgrade(w, hs, m.release, m.cluster).cluster, ended);
    }
  }

  /** Updating the LCM condition while it is not true, and then Applied. */
  lemma LcmMarks(r: Release, s: State)
    requires Gated(r, REAL_PHASES) && !IsTrue(r, ConditionType(PHASE_LCM)) && s in PHASE_REASONS - {Pending}
    ensures var r1 := UpdatePhase(r, PHASE_LCM, s);
            && Gated(r1, REAL_PHASES) && SameSpec(r, r1) && r1.status.version == r.status.version
            && (IsTrue(r1, ConditionType(PHASE_LCM)) <==> Completes(s))
            && (IsTrue(UpdateApplied(r1, REAL_PHASES), ConditionType(PHASE_LCM)) <==> Completes(s))
            && SameSpec(r, UpdateApplied(r1, REAL_PHASES))
  {
    assert PHASE_LCM !in REAL_PHASES by {
      assert PHASE_LCM[0] == 'L' && PHASE_OS[0] == 'O' && PHASE_KUBERNETES[0] == 'K' && PHASE_HELM_CHARTS[0] == 'H';
    }
    MidwayStart(r, REAL_PHASES);
    SetLcm(r, r, REAL_PHASES, s);
    TypesDiffer(REAL_PHASES);
    AppliedOnly(UpdatePhase(r, PHASE_LCM, s), REAL_PHASES);
  }

  /** The LCM phase writes one chart, or finds all of them done and only reads. */
  lemma LcmPhase(g: Goal, w: World, hash: Hash, m: Moment) returns (i: nat)
    requires Enumerates(w.order) && Ready(g, w, hash, m)
    ensures var (c', r) := HelmPhase(m.cluster, g.lcm.GetOwner(), true, g.lcm.helmCharts);
            if i < |g.lcmCharts| then
              NeedsWrite(m.cluster, g.lcmCharts[i]) && ChartPut(m.cluster, c', g.lcmCharts[i]) && r == Ok(InProgress)
            else OnlyRead(m.cluster, c') && (r == Ok(Skipped) || r == Ok(Succeeded))
                 && forall t | t in g.lcmCharts :: !NeedsWrite(m.cluster, t)
  {
    var c := m.cluster;
    SameChartsLeft(Cleaned(m.release, c), c);
    forall t | t in g.lcmCharts ensures ChartReady(c, t) && Writable(t) {
      assert t in g.lcmCharts + g.charts;
    }
    i := HelmProgress(c, g.lcm.GetOwner(), true, g.lcm.helmCharts, g.lcmCharts);
    if i < |g.lcmCharts| {
      ChartPutAfter(c, c, HelmPhase(c, g.lcm.GetOwner(), true, g.lcm.helmCharts).0, g.lcmCharts[i]);
    }
  }

  lemma LcmPass(g: Goal, w: World, hs: seq<Pipeline.Handler>, r: Release, c: Cluster)
    requires Enumerates(w.order) && Resolves(w, r, c, g)
    requires r.status.observedGeneration == r.generation && !IsTrue(r, ConditionType(PHASE_LCM))
    ensures var (c1, state) := HelmPhase(c, g.lcm.GetOwner(), true, g.lcm.helmCharts);
            var pass := AfterLcm(w, hs, r, c1, state);
            ReleasePass(w, hs, r, c) == pass.(release := UpdateApplied(pass.release, Pipeline.Phases(hs)))
  {
  }

  lemma SameCleaned(r: Release, r1: Release, c: Cluster, c1: Cluster)
    requires r1.name == r.name && r1.spec == r.spec && r1.status.version == r.status.version && OnlyRead(c, c1)
    ensures Cleaned(r1, c1) == Cleaned(r, c).(trace := c1.trace)
  {
  }

  lemma SameSettle(g: Goal, r: Release, r1: Release, c: Cluster, c1: Cluster)
    requires r1.name == r.name && r1.spec == r.spec && r1.status.version == r.status.version && OnlyRead(c, c1)
    ensures PlansSettle(g, r1, c1) <==> PlansSettle(g, r, c)
  {
    SameCleaned(r, r1, c, c1);
  }

  /** The Release with LCM marked upgraded, and nothing but reads since: still a place to go on from. */
  lemma LcmMarkedQuiescent(g: Goal, hash: Hash, r: Release, c: Cluster, c1: Cluster)
    requires Quiescent(g, hash, Cleaned(r, c)) && OnlyRead(c, c1)
    ensures Quiescent(g, hash, Cleaned(UpdatePhase(r, PHASE_LCM, Succeeded), c1))
  {
    var r1 := UpdatePhase(r, PHASE_LCM, Succeeded);
    SameCleaned(r, r1, c, c1);
    QuiescentFrom(g, hash, Cleaned(r, c), Cleaned(r1, c1));
  }

  /** Updating the LCM condition changes neither the applied version nor the spec. */
  lemma LcmKeepsRest(r: Release, s: State)
    requires Gated(r, REAL_PHASES) && !IsTrue(r, ConditionType(PHASE_LCM)) && s in PHASE_REASONS - {Pending}
    ensures var final := UpdateApplied(UpdatePhase(r, PHASE_LCM, s), REAL_PHASES);
            final.status.version == r.status.version && SameSpec(r, final)
  {
    LcmMarks(r, s);
    AppliedOnly(UpdatePhase(r, PHASE_LCM, s), REAL_PHASES);
  }

  /** After an LCM phase that succeeds by reading, the pass goes on with LCM upgraded. */
  lemma LcmThenUpgrade(g: Goal, w: World, hash: Hash, hs: seq<Pipeline.Handler>, r: Release, c: Cluster, c1: Cluster)
    returns (ended: bool)
    requires Enumerates(w.order) && CollisionFree(hash) && Resolves(w, r, c, g) && hs == RealHandlers(hash, w.order)
    requires Gated(r, REAL_PHASES) && !IsTrue(r, ConditionType(PHASE_LCM))
             && r.status.observedGeneration == r.generation
    requires Quiescent(g, hash, Cleaned(r, c)) && OnlyRead(c, c1)
    ensures var r1 := UpdatePhase(r, PHASE_LCM, Succeeded);
            LcmDone(r1) && Resolves(w, r1, c1, g) && PassEffect(g, hs, r1, c1, Upgrade(w, hs, r1, c1), ended)
  {
    RealPhases(hash, w.order);
    LcmMarks(r, Succeeded);
    LcmMarkedQuiescent(g, hash, r, c, c1);
    SameResolved(w, r, UpdatePhase(r, PHASE_LCM, Succeeded), c, c1, g);
    ended := UpgradeEffect(g, w, hash, hs, UpdatePhase(r, PHASE_LCM, Succeeded), c1);
  }

  /** Of the LCM charts, those still to be written were so before. */
  lemma LcmChartsKept(g: Goal, c: Cluster, c': Cluster, c'': Cluster, t: ChartConfig)
    requires ChartSort.Sorted(g.lcm.helmCharts) == Ok(g.lcmCharts)
    requires t in g.lcmCharts && SurvivesJson(t) && NeedsWrite(c, t) && ChartPut(c, c', t) && Completed(g, c', c'')
    ensures ChartsLeft(c'', g.lcmCharts) < ChartsLeft(c, g.lcmCharts)
    ensures forall x | x in g.lcmCharts && NeedsWrite(c'', x) :: NeedsWrite(c, x)
  {
    SortedDistinct(g.lcm.helmCharts);
    forall x | x in g.lcmCharts && NeedsWrite(c'', x) ensures NeedsWrite(c', x) {
      assert x in g.lcmCharts + g.charts;
    }
    ChartPutSettles(c, c', g.lcmCharts, t);
    ChartsShrink(c, c', c'', g.lcmCharts, t);
  }

  /** A pass that stops in the LCM phase: after writing a chart, or because there are none. */
  lemma LcmStops(g: Goal, m: Moment, c1: Cluster, s: State, i: nat, m': Moment)
    requires Gated(m.release, REAL_PHASES) && !IsTrue(m.release, ConditionType(PHASE_LCM)) && s in {InProgress, Skipped}
    requires m.release.status.observedGeneration == m.release.generation
    requires m'.release == UpdateApplied(UpdatePhase(m.release, PHASE_LCM, s), REAL_PHASES)
    requires ChartSort.Sorted(g.lcm.helmCharts) == Ok(g.lcmCharts) && Completed(g, c1, m'.cluster)
    requires LcmSettles(g, m) && PlansSettle(g, m.release, m.cluster)
    requires if s == InProgress then
               i < |g.lcmCharts| && NeedsWrite(m.cluster, g.lcmCharts[i]) && ChartPut(m.cluster, c1, g.lcmCharts[i])
             else OnlyRead(m.cluster, c1)
    ensures Measure(g, m') < Measure(g, m) && LcmSettles(g, m') && PlansSettle(g, m'.release, m'.cluster)
  {
    LcmMarks(m.release, s);
    LcmKeepsRest(m.release, s);
    PlansUntouched(g, m.release, m'.release, m.cluster, c1, m'.cluster);
    if s == InProgress {
      LcmChartsKept(g, m.cluster, c1, m'.cluster, g.lcmCharts[i]);
    } else {
      UpgradingBound(g, m');
    }
  }

  lemma LcmGoesOn(g: Goal, w: World, hash: Hash, m: Moment, c1: Cluster, m': Moment)
    requires Enumerates(w.order) && Ready(g, w, hash, m) && OnlyRead(m.cluster, c1)
    requires m.release.status.observedGeneration == m.release.generation && !IsTrue(m.release, ConditionType(PHASE_LCM))
    requires PlansSettle(g, m.release, m.cluster)
    requires var hs := RealHandlers(hash, w.order);
             var pass := Upgrade(w, hs, UpdatePhase(m.release, PHASE_LCM, Succeeded), c1);
             m'.release == UpdateApplied(pass.release, Pipeline.Phases(hs)) && Completed(g, pass.cluster, m'.cluster)
    ensures LcmDone(m'.release) && PlansSettle(g, m'.release, m'.cluster)
  {
    var hs, r1 := RealHandlers(hash, w.order), UpdatePhase(m.release, PHASE_LCM, Succeeded);
    RealPhases(hash, w.order);
    var ended := LcmThenUpgrade(g, w, hash, hs, m.release, m.cluster, c1);
    SameSettle(g, m.release, r1, m.cluster, c1);
    ResolvedGoal(w, r1, c1, g);
    SortedDistinct(g.cfg.helmCharts);
    GoalSurvives(w, r1, c1, g);
    EffectShrinks(g, hs, Moment(r1, c1), Upgrade(w, hs, r1, c1), ended, m');
  }

  /** What a pass with LCM not yet upgraded does: it writes LCM chart `i` (`s` is InProgress), or finds none to write
      and stops for lack of any (Skipped) or goes on (Succeeded). `c1` is the cluster after the LCM phase. */
  lemma LcmCases(g: Goal, w: World, hash: Hash, m: Moment) returns (i: nat, c1: Cluster, s: State)
    requires Enumerates(w.order) && Ready(g, w, hash, m)
    requires m.release.status.observedGeneration == m.release.generation && !IsTrue(m.release, ConditionType(PHASE_LCM))
    ensures s in {InProgress, Skipped, Succeeded} && c1.plans == m.cluster.plans
    ensures if s == InProgress then
              i < |g.lcmCharts| && NeedsWrite(m.cluster, g.lcmCharts[i]) && ChartPut(m.cluster, c1, g.lcmCharts[i])
            else OnlyRead(m.cluster, c1) && forall t | t in g.lcmCharts :: !NeedsWrite(m.cluster, t)
    ensures var hs, r1 := RealHandlers(hash, w.order), UpdatePhase(m.release, PHASE_LCM, s);
            var pass := if s == Succeeded then Upgrade(w, hs, r1, c1) else Pass(r1, c1, Requeue);
            PassOf(w, hash, m).release == UpdateApplied(pass.release, REAL_PHASES)
            && PassOf(w, hash, m).cluster == pass.cluster
  {
    var hs := RealHandlers(hash, w.order);
    RealPhases(hash, w.order);
    LcmPass(g, w, hs, m.release, m.cluster);
    i := LcmPhase(g, w, hash, m);
    c1 := HelmPhase(m.cluster, g.lcm.GetOwner(), true, g.lcm.helmCharts).0;
    s := HelmPhase(m.cluster, g.lcm.GetOwner(), true, g.lcm.helmCharts).1.value;
  }

  lemma LcmShrinks(g: Goal, w: World, hash: Hash, m: Moment, m': Moment)
    requires Enumerates(w.order) && Ready(g, w, hash, m) && Step(g, w, hash, m, m')
    requires m.release.status.observedGeneration == m.release.generation && !IsTrue(m.release, ConditionType(PHASE_LCM))
    requires LcmSettles(g, m) && PlansSettle(g, m.release, m.cluster)
    ensures Measure(g, m') < Measure(g, m) && LcmSettles(g, m') && PlansSettle(g, m'.release, m'.cluster)
  {
    RealPhases(hash, w.order);
    var i, c1, s := LcmCases(g, w, hash, m);
    if s == Succeeded {
      LcmGoesOn(g, w, hash, m, c1, m');
      UpgradingBound(g, m');
    } else {
      LcmStops(g, m, c1, s, i, m');
    }
  }

  // ---------------------------------------------------------------- at rest

  lemma {:induction false} SetSame(conds: seq<Condition>, c: Condition)
    requires Find(conds, c.ctype) == Some(c)
    ensures SetCond(conds, c) == conds
    decreases |conds|
  {
    if conds[0].ctype != c.ctype {
      SetSame(conds[1..], c);
    }
  }

  /** Setting a true condition that is well kept to true again changes nothing. */
  lemma SetTrueSame(r: Release, ctype: string, reasons: set<State>)
    requires WellKept(r, ctype, reasons) && Skipped !in reasons && IsTrue(r, ctype)
    ensures SetCondition(r, ctype, true, Succeeded) == r
  {
    SetSame(r.status.conditions, Condition(ctype, true, Succeeded, r.generation));
  }

  lemma {:induction false} ReportsSame(r: Release, reports: seq<Pipeline.Report>)
    requires forall x | x in reports :: Completes(x.state) && IsTrue(r, ConditionType(x.phase))
    ensures UpdateReported(r, reports) == r
    decreases |reports|
  {
    if reports != [] {
      assert reports[0] in reports;
      ReportsSame(r, reports[1..]);
    }
  }

  lemma EndedReports(hs: seq<Pipeline.Handler>, cfg: Config, c: Cluster, r: Release)
    requires Ended(Pipeline.RunPipeline(hs, cfg, c), |hs|) && AllPhasesTrue(r, Pipeline.Phases(hs))
    ensures UpdateReported(r, Pipeline.RunPipeline(hs, cfg, c).reports) == r
  {
    var run, phases := Pipeline.RunPipeline(hs, cfg, c), Pipeline.Phases(hs);
    Pipeline.RunShape(hs, cfg, c);
    forall x | x in run.reports ensures IsTrue(r, ConditionType(x.phase)) {
      var i :| 0 <= i < |run.reports| && run.reports[i] == x;
      assert phases[i] in phases;
    }
    ReportsSame(r, run.reports);
  }

  /** When the release is applied and the pipeline ends again, the Release stays as it is. */
  lemma AppliedIsFixed(hs: seq<Pipeline.Handler>, r: Release, c: Cluster, cfg: Config)
    requires ProperHandlers(hs) && Gated(r, Pipeline.Phases(hs)) && AppliedSound(r, Pipeline.Phases(hs))
    requires IsTrue(r, CONDITION_APPLIED) && cfg.releaseVersion == r.spec.version
    requires var run := Pipeline.RunPipeline(hs, cfg, c); run.failed.None? && Ended(run, |hs|)
    ensures ManifestSet(r) == r
    ensures UpdateApplied(ApplyConfig(hs, r, c, cfg).release, Pipeline.Phases(hs)) == r
  {
    SetTrueSame(r, CONDITION_MANIFEST_RESOLVED, MANIFEST_REASONS);
    EndedReports(hs, cfg, c, r);
    Pipeline.CompleteIffAllRan(hs, cfg, c);
    NotFailedLcm(r, Pipeline.Phases(hs));
    SetTrueSame(r, CONDITION_APPLIED, APPLIED_REASONS);
  }

  lemma DoneMeansEnded(hs: seq<Pipeline.Handler>, r: Release, c: Cluster, cfg: Config)
    requires Pipeline.DistinctPhases(hs) && ApplyConfig(hs, r, c, cfg).outcome == Done
    ensures var run := Pipeline.RunPipeline(hs, cfg, c); run.failed.None? && Ended(run, |hs|)
  {
    Pipeline.CompleteIffAllRan(hs, cfg, c);
  }

  /** With nothing left, a pipeline run has no other effect than to end. */
  lemma RestEffect(g: Goal, m: Moment, c': Cluster, ended: bool)
    requires AtRest(g, m) && GoalEffect(g, Cleaned(m.release, m.cluster), c', ended, true)
    ensures ended
  {
    var c := m.cluster;
    CountNone(Required(g.cfg, c.nodes), (p: Plan) => p.name !in c.plans);
    CountNone(g.charts, (t: ChartConfig) => NeedsWrite(c, t));
  }

  lemma RestRelease(g: Goal, w: World, hs: seq<Pipeline.Handler>, r: Release, c: Cluster)
    requires Enumerates(w.order) && Resolves(w, r, c, g) && ProperHandlers(hs) && c.faults == {}
    requires Gated(r, Pipeline.Phases(hs)) && AppliedSound(r, Pipeline.Phases(hs)) && IsTrue(r, CONDITION_APPLIED)
    requires Upgrade(w, hs, r, c).outcome == Done
    ensures UpdateApplied(Upgrade(w, hs, r, c).release, Pipeline.Phases(hs)) == r
  {
    var p := GoalOfPass(w, r, c, g);
    var c1 := ResolvedPass(w, hs, r, c, p.cfg);
    DoneMeansEnded(hs, ManifestSet(r), c1, p.cfg);
    ResolvedGoal(w, r, c, g);
    AppliedIsFixed(hs, r, c1, p.cfg);
  }

  lemma RestUpgrade(g: Goal, w: World, hash: Hash, hs: seq<Pipeline.Handler>, r: Release, c: Cluster)
    requires Enumerates(w.order) && CollisionFree(hash) && Resolves(w, r, c, g) && hs == RealHandlers(hash, w.order)
    requires Gated(r, Pipeline.Phases(hs)) && AtRest(g, Moment(r, c)) && Quiescent(g, hash, Cleaned(r, c))
    ensures Upgrade(w, hs, r, c).outcome == Done && OnlyRead(c, Upgrade(w, hs, r, c).cluster)
  {
    var ended := UpgradeEffect(g, w, hash, hs, r, c);
    RestEffect(g, Moment(r, c), Upgrade(w, hs, r, c).cluster, ended);
  }

  /** At rest a pass changes nothing: it only reads, and the Release it ends with is the one it started with. */
  lemma RestIsFixed(g: Goal, w: World, hash: Hash, m: Moment)
    requires Enumerates(w.order) && Ready(g, w, hash, m) && AtRest(g, m)
    ensures PassOf(w, hash, m) == Pass(m.release, PassOf(w, hash, m).cluster, Done)
    ensures OnlyRead(m.cluster, PassOf(w, hash, m).cluster)
  {
    var hs := RealHandlers(hash, w.order);
    RealHandlersProper(hash, w.order);
    RealPhases(hash, w.order);
    RestUpgrade(g, w, hash, hs, m.release, m.cluster);
    RestRelease(g, w, hs, m.release, m.cluster);
  }

  /** An environment that does nothing completes a pass at rest, so the release can stay at rest for ever. */
  lemma RestCanStay(g: Goal, w: World, hash: Hash, m: Moment)
    requires Enumerates(w.order) && Ready(g, w, hash, m) && AtRest(g, m)
    ensures Step(g, w, hash, m, Moment(m.release, PassOf(w, hash, m).cluster))
  {
    RestIsFixed(g, w, hash, m);
    var c' := PassOf(w, hash, m).cluster;
    SameCleaned(m.release, m.release, m.cluster, c');
    QuiescentFrom(g, hash, Cleaned(m.release, m.cluster), Cleaned(m.release, c'));
  }

  /** Nothing stands in the way of the release: LCM charts and plans settle. */
  ghost predicate OnCourse(g: Goal, w: World, hash: Hash, m: Moment)
    requires Enumerates(w.order)
  {
    Ready(g, w, hash, m) && LcmSettles(g, m) && PlansSettle(g, m.release, m.cluster)
  }

  /** Every pass with its completion makes the measure smaller, until it is at rest and stays so. */
  lemma EveryPassProgresses(g: Goal, w: World, hash: Hash, m: Moment, m': Moment)
    requires Enumerates(w.order) && OnCourse(g, w, hash, m) && Step(g, w, hash, m, m')
    ensures OnCourse(g, w, hash, m')
    ensures Measure(g, m') < Measure(g, m) || (AtRest(g, m) && AtRest(g, m'))
  {
    StepKeepsReady(g, w, hash, m, m');
    if m.release.status.observedGeneration != m.release.generation {
      ResetShrinks(g, w, hash, m, m');
    } else if IsTrue(m.release, ConditionType(PHASE_LCM)) {
      UpgradingShrinks(g, w, hash, m, m');
    } else {
      LcmShrinks(g, w, hash, m, m');
    }
  }

  // ---------------------------------------------------------------- convergence

  ghost predicate StepAt(g: Goal, w: World, hash: Hash, run: nat -> Moment, i: nat)
    requires Enumerates(w.order)
  {
    Step(g, w, hash, run(i), run(i + 1))
  }

  lemma {:induction false} ComesToRest(g: Goal, w: World, hash: Hash, run: nat -> Moment, i: nat) returns (n: nat)
    requires Enumerates(w.order) && OnCourse(g, w, hash, run(i))
    requires forall k: nat :: StepAt(g, w, hash, run, k)
    ensures i <= n <= i + Measure(g, run(i)) && AtRest(g, run(n)) && OnCourse(g, w, hash, run(n))
    decreases Measure(g, run(i))
  {
    if AtRest(g, run(i)) {
      n := i;
    } else {
      assert StepAt(g, w, hash, run, i);
      EveryPassProgresses(g, w, hash, run(i), run(i + 1));
      n := ComesToRest(g, w, hash, run, i + 1);
    }
  }

  /** The release is applied, is `r`, and the next pass only reads. */
  ghost predicate Resting(w: World, hash: Hash, r: Release, m: Moment)
    requires Enumerates(w.order)
  {
    Applied(m.release) && m.release == r && OnlyRead(m.cluster, PassOf(w, hash, m).cluster)
  }

  lemma {:induction false} StaysAtRest(g: Goal, w: World, hash: Hash, run: nat -> Moment, n: nat, m: nat)
    requires Enumerates(w.order) && n <= m && forall k: nat :: StepAt(g, w, hash, run, k)
    requires AtRest(g, run(n)) && OnCourse(g, w, hash, run(n))
    ensures Resting(w, hash, run(n).release, run(m))
    decreases m - n
  {
    RestIsFixed(g, w, hash, run(n));
    if n < m {
      assert StepAt(g, w, hash, run, n);
      EveryPassProgresses(g, w, hash, run(n), run(n + 1));
      StaysAtRest(g, w, hash, run, n + 1, m);
    }
  }

  lemma MeasureBound(g: Goal, m: Moment)
    ensures Measure(g, m) <= |g.lcmCharts| + |g.charts| + 8
  {
  }

  ghost predicate RestsFrom(w: World, hash: Hash, run: nat -> Moment, n: nat)
    requires Enumerates(w.order)
  {
    forall m: nat | n <= m :: Resting(w, hash, run(n).release, run(m))
  }

  lemma StaysAtRestForever(g: Goal, w: World, hash: Hash, run: nat -> Moment, n: nat)
    requires Enumerates(w.order) && forall k: nat :: StepAt(g, w, hash, run, k)
    requires AtRest(g, run(n)) && OnCourse(g, w, hash, run(n))
    ensures RestsFrom(w, hash, run, n)
  {
    forall m: nat | n <= m ensures Resting(w, hash, run(n).release, run(m)) {
      StaysAtRest(g, w, hash, run, n, m);
    }
  }

  /** Convergence: within as many passes as there are charts, and eight more, the release is applied; from then on the
      Release never changes again and every pass only reads. */
  lemma Converges(g: Goal, w: World, hash: Hash, run: nat -> Moment) returns (n: nat)
    requires Enumerates(w.order) && OnCourse(g, w, hash, run(0)) && forall k: nat :: StepAt(g, w, hash, run, k)
    ensures n <= |g.lcmCharts| + |g.charts| + 8 && RestsFrom(w, hash, run, n)
  {
    n := ComesToRest(g, w, hash, run, 0);
    MeasureBound(g, run(0));
    StaysAtRestForever(g, w, hash, run, n);
  }
}
