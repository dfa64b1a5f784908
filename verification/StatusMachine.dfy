/** What every reconcile pass keeps true of the Release status. */
module StatusMachine {
  import opened Wrappers
  import opened Api
  import opened Conditions
  import opened Clusters
  import opened HelmReconciler
  import opened ReleaseConfig
  import opened PackagedComponents
  import opened Controller
  import Pipeline
  import ChartSort

  // ---------------------------------------------------------------- the invariant

  const PHASE_REASONS := {Pending, InProgress, Skipped, Succeeded, Failed}
  const MANIFEST_REASONS := {Pending, Succeeded, Failed}
  const APPLIED_REASONS := {Pending, InProgress, Succeeded, Failed}

  /** The condition exists, belongs to the current generation, and is true exactly for a completing reason. */
  predicate WellKept(r: Release, ctype: string, reasons: set<State>) {
    && ConditionOf(r, ctype).Some?
    && var c := ConditionOf(r, ctype).value;
       c.observedGeneration == r.generation && c.reason in reasons && (c.status <==> Completes(c.reason))
  }

  predicate IsPending(r: Release, ctype: string) {
    HasReason(r, ctype, Pending)
  }

  /** All conditions are well kept, and the gates were passed in order: no phase left Pending before the manifest was
      resolved, nor the manifest before LCM was upgraded. */
  ghost predicate Gated(r: Release, phases: seq<Phase>) {
    && UniqueTypes(r.status.conditions)
    && WellKept(r, ConditionType(PHASE_LCM), PHASE_REASONS)
    && WellKept(r, CONDITION_MANIFEST_RESOLVED, MANIFEST_REASONS)
    && WellKept(r, CONDITION_APPLIED, APPLIED_REASONS)
    && (forall p | p in phases :: WellKept(r, ConditionType(p), PHASE_REASONS))
    && (!IsPending(r, CONDITION_MANIFEST_RESOLVED) ==> IsTrue(r, ConditionType(PHASE_LCM)))
    && (forall p | p in phases :: !IsPending(r, ConditionType(p)) ==> !IsPending(r, CONDITION_MANIFEST_RESOLVED))
  }

  /** All phases are done only when the version was recorded. */
  predicate VersionSound(r: Release, phases: seq<Phase>) {
    AllPhasesTrue(r, phases) ==> r.status.version == r.spec.version
  }

  /** The Applied condition tells the truth. */
  predicate AppliedSound(r: Release, phases: seq<Phase>) {
    IsTrue(r, CONDITION_APPLIED) ==>
      && IsTrue(r, ConditionType(PHASE_LCM)) && IsTrue(r, CONDITION_MANIFEST_RESOLVED)
      && AllPhasesTrue(r, phases)
      && r.status.version == r.spec.version
  }

  ghost predicate StatusInv(r: Release, phases: seq<Phase>) {
    r.status.observedGeneration == r.generation ==>
      Gated(r, phases) && VersionSound(r, phases) && AppliedSound(r, phases)
  }

  /** A pipeline as the invariant needs it: at least one phase, all different and none of them LCM. */
  predicate ProperPhases(phases: seq<Phase>) {
    && phases != []
    && PHASE_LCM !in phases
    && forall i, j | 0 <= i < j < |phases| :: phases[i] != phases[j]
  }

  /** Handlers report one of the four states a phase can end a pass in. */
  ghost predicate ProperHandlers(hs: seq<Pipeline.Handler>) {
    && ProperPhases(Pipeline.Phases(hs))
    && forall h, c, cfg | h in hs && h.reconcile(c, cfg).1.Ok? ::
         var s := h.reconcile(c, cfg).1.value; s.Succeeded? || s.Skipped? || s.InProgress? || s.Failed?
  }

  // ---------------------------------------------------------------- one condition at a time

  /** `r'` is `r` with at most the condition `ctype` and the version changed. */
  ghost predicate OnlyCondition(r: Release, r': Release, ctype: string) {
    && SameSpec(r, r')
    && Types(r'.status.conditions) == Types(r.status.conditions)
    && (UniqueTypes(r.status.conditions) ==> UniqueTypes(r'.status.conditions))
    && forall t | t != ctype :: ConditionOf(r', t) == ConditionOf(r, t)
  }

  predicate SameSpec(r: Release, r': Release) {
    r'.name == r.name && r'.spec == r.spec && r'.generation == r.generation
    && r'.status.observedGeneration == r.status.observedGeneration
  }

  lemma SetOne(r: Release, ctype: string, status: bool, reason: State)
    requires ConditionOf(r, ctype).Some?
    ensures var r' := SetCondition(r, ctype, status, reason);
            && OnlyCondition(r, r', ctype) && r'.status.version == r.status.version
            && ConditionOf(r', ctype) == Some(Condition(ctype, status, reason, r.generation))
  {
    var c := Condition(ctype, status, reason, r.generation);
    TypesSet(r.status.conditions, c);
    forall t
      ensures ConditionOf(SetCondition(r, ctype, status, reason), t)
              == if t == ctype then Some(c) else ConditionOf(r, t)
    {
      FindSet(r.status.conditions, c, t);
    }
  }

  /** The condition types involved are all different. */
  lemma TypesDiffer(phases: seq<Phase>)
    ensures CONDITION_APPLIED != CONDITION_MANIFEST_RESOLVED
    ensures forall p :: ConditionType(p) != CONDITION_APPLIED && ConditionType(p) != CONDITION_MANIFEST_RESOLVED
    ensures forall p, q :: ConditionType(p) == ConditionType(q) ==> p == q
  {
    forall p ensures ConditionType(p) != CONDITION_APPLIED && ConditionType(p) != CONDITION_MANIFEST_RESOLVED {
      ConditionTypeInjective(p, p);
    }
    forall p, q | ConditionType(p) == ConditionType(q) ensures p == q {
      ConditionTypeInjective(p, q);
    }
    assert CONDITION_APPLIED[0] != CONDITION_MANIFEST_RESOLVED[0];
  }

  // ---------------------------------------------------------------- what a pass keeps before Applied is updated

  /** The state of a pass on the way: gates kept, and relative to its start no condition went back to Pending, a true
      LCM condition is untouched, and phases moved only if the manifest is resolved now. */
  ghost predicate Midway(r: Release, r': Release, phases: seq<Phase>) {
    && SameSpec(r, r')
    && Gated(r', phases)
    && (forall t :: IsPending(r', t) ==> IsPending(r, t))
    && (IsTrue(r, ConditionType(PHASE_LCM)) ==>
          ConditionOf(r', ConditionType(PHASE_LCM)) == ConditionOf(r, ConditionType(PHASE_LCM)))
    && (IsTrue(r', CONDITION_APPLIED) ==> IsTrue(r, CONDITION_APPLIED))
  }

  /** No phase condition and no version changed. */
  ghost predicate PhasesUntouched(r: Release, r': Release, phases: seq<Phase>) {
    && r'.status.version == r.status.version
    && forall p | p in phases :: ConditionOf(r', ConditionType(p)) == ConditionOf(r, ConditionType(p))
  }

  lemma MidwayStart(r: Release, phases: seq<Phase>)
    requires Gated(r, phases)
    ensures Midway(r, r, phases) && PhasesUntouched(r, r, phases)
  {
  }

  /** Setting Applied to false. */
  lemma SetAppliedFailed(r0: Release, r: Release, phases: seq<Phase>)
    requires Midway(r0, r, phases)
    ensures var r' := SetCondition(r, CONDITION_APPLIED, false, Failed);
            Midway(r0, r', phases) && PhasesUntouched(r, r', phases)
            && ConditionOf(r', CONDITION_MANIFEST_RESOLVED) == ConditionOf(r, CONDITION_MANIFEST_RESOLVED)
  {
    TypesDiffer(phases);
    SetOne(r, CONDITION_APPLIED, false, Failed);
  }

  /** Resolving the manifest, or failing to, once LCM is upgraded. */
  lemma SetManifest(r0: Release, r: Release, phases: seq<Phase>, ok: bool)
    requires Midway(r0, r, phases) && IsTrue(r, ConditionType(PHASE_LCM))
    ensures var r' := SetCondition(r, CONDITION_MANIFEST_RESOLVED, ok, if ok then Succeeded else Failed);
            && Midway(r0, r', phases) && PhasesUntouched(r, r', phases)
            && (ok <==> IsTrue(r', CONDITION_MANIFEST_RESOLVED)) && IsTrue(r', ConditionType(PHASE_LCM))
  {
    TypesDiffer(phases);
    SetOne(r, CONDITION_MANIFEST_RESOLVED, ok, if ok then Succeeded else Failed);
  }

  /** The LCM condition while it is not true yet. */
  lemma SetLcm(r0: Release, r: Release, phases: seq<Phase>, state: State)
    requires Midway(r0, r, phases) && !IsTrue(r0, ConditionType(PHASE_LCM)) && !IsTrue(r, ConditionType(PHASE_LCM))
    requires PHASE_LCM !in phases && state in PHASE_REASONS - {Pending}
    ensures var r' := SetCondition(r, ConditionType(PHASE_LCM), Completes(state), state);
            && Midway(r0, r', phases) && PhasesUntouched(r, r', phases)
            && (IsTrue(r', ConditionType(PHASE_LCM)) <==> Completes(state))
            && ConditionOf(r', CONDITION_MANIFEST_RESOLVED) == ConditionOf(r, CONDITION_MANIFEST_RESOLVED)
  {
    TypesDiffer(phases);
    SetOne(r, ConditionType(PHASE_LCM), Completes(state), state);
  }

  /** A phase condition once the manifest is resolved. */
  lemma SetPhase(r0: Release, r: Release, phases: seq<Phase>, p: Phase, state: State)
    requires Midway(r0, r, phases) && IsTrue(r, CONDITION_MANIFEST_RESOLVED)
    requires PHASE_LCM !in phases && p in phases && state in PHASE_REASONS - {Pending}
    ensures var r' := SetCondition(r, ConditionType(p), Completes(state), state);
            && Midway(r0, r', phases) && r'.status.version == r.status.version
            && IsTrue(r', CONDITION_MANIFEST_RESOLVED)
            && (IsTrue(r', ConditionType(p)) <==> Completes(state))
            && HasReason(r', ConditionType(p), state)
            && forall q | q != p :: ConditionOf(r', ConditionType(q)) == ConditionOf(r, ConditionType(q))
  {
    TypesDiffer(phases);
    SetOne(r, ConditionType(p), Completes(state), state);
  }

  /** The condition of the reported phase is true exactly if the phase completed, and otherwise says why. */
  predicate Reflects(r: Release, x: Pipeline.Report) {
    && (IsTrue(r, ConditionType(x.phase)) <==> Completes(x.state))
    && (!Completes(x.state) ==> HasReason(r, ConditionType(x.phase), x.state))
  }

  lemma UpdateOne(r0: Release, r: Release, phases: seq<Phase>, x: Pipeline.Report)
    requires Midway(r0, r, phases) && IsTrue(r, CONDITION_MANIFEST_RESOLVED)
    requires PHASE_LCM !in phases && x.phase in phases && x.state in PHASE_REASONS - {Pending}
    ensures var r' := UpdatePhase(r, x.phase, x.state);
            && Midway(r0, r', phases) && r'.status.version == r.status.version
            && IsTrue(r', CONDITION_MANIFEST_RESOLVED)
  {
    SetPhase(r0, r, phases, x.phase, x.state);
  }

  predicate ProperReportsOf(reports: seq<Pipeline.Report>, phases: seq<Phase>) {
    && (forall x | x in reports :: x.phase in phases && x.state in PHASE_REASONS - {Pending})
    && forall i, j | 0 <= i < j < |reports| :: reports[i].phase != reports[j].phase
  }

  /** The updates of a pipeline result keep the gates. */
  lemma {:induction false} UpdateReports(r0: Release, r: Release, phases: seq<Phase>, reports: seq<Pipeline.Report>)
    requires Midway(r0, r, phases) && IsTrue(r, CONDITION_MANIFEST_RESOLVED) && PHASE_LCM !in phases
    requires ProperReportsOf(reports, phases)
    ensures var r' := UpdateReported(r, reports);
            && Midway(r0, r', phases) && r'.status.version == r.status.version
            && IsTrue(r', CONDITION_MANIFEST_RESOLVED)
    decreases |reports|
  {
    if reports != [] {
      assert reports[0] in reports;
      UpdateOne(r0, r, phases, reports[0]);
      assert forall y | y in reports[1..] :: y in reports;
      UpdateReports(r0, UpdatePhase(r, reports[0].phase, reports[0].state), phases, reports[1..]);
    }
  }

  /** After the updates of a pipeline result, every report is reflected. */
  lemma ReportsReflected(r: Release, phases: seq<Phase>, reports: seq<Pipeline.Report>, x: Pipeline.Report)
    requires ProperReportsOf(reports, phases) && x in reports
    ensures Reflects(UpdateReported(r, reports), x)
  {
    Pipeline.RecordedExact(reports);
    var states, order := Pipeline.Recorded(reports), Pipeline.Order(reports);
    ReportedOrder(r, reports, states);
    FindUpdatePhases(r, order, states);
    var i :| 0 <= i < |reports| && reports[i] == x;
    assert order[i] in order;
    assert ConditionOf(UpdateReported(r, reports), ConditionType(x.phase)) == Updated(r, states, x.phase);
  }

  // ---------------------------------------------------------------- the stages of a pass

  /** What each stage of a pass that started at `r0` leaves behind. */
  ghost predicate StageKept(r0: Release, r: Release, phases: seq<Phase>) {
    && Midway(r0, r, phases)
    && VersionSound(r, phases)
    && (PhasesUntouched(r0, r, phases) || IsTrue(r, CONDITION_MANIFEST_RESOLVED))
  }

  lemma UntouchedVersionSound(r0: Release, r: Release, phases: seq<Phase>)
    requires PhasesUntouched(r0, r, phases) && VersionSound(r0, phases) && r.spec == r0.spec
    ensures VersionSound(r, phases)
  {
    if AllPhasesTrue(r, phases) {
      assert forall p | p in phases :: IsTrue(r0, ConditionType(p));
    }
  }

  lemma ProperReports(hs: seq<Pipeline.Handler>, cfg: Config, c: Cluster)
    requires ProperHandlers(hs)
    ensures ProperReportsOf(Pipeline.RunPipeline(hs, cfg, c).reports, Pipeline.Phases(hs))
  {
    Pipeline.RunShape(hs, cfg, c);
    var rs, phases := Pipeline.RunPipeline(hs, cfg, c).reports, Pipeline.Phases(hs);
    ReportedStates(hs, cfg, c);
    forall x | x in rs ensures x.phase in phases {
      var i :| 0 <= i < |rs| && rs[i] == x;
      assert phases[i] in phases;
    }
  }

  lemma {:induction false} ReportedStates(hs: seq<Pipeline.Handler>, cfg: Config, c: Cluster)
    requires forall h, c, cfg | h in hs && h.reconcile(c, cfg).1.Ok? ::
               var s := h.reconcile(c, cfg).1.value; s.Succeeded? || s.Skipped? || s.InProgress? || s.Failed?
    ensures forall x | x in Pipeline.RunPipeline(hs, cfg, c).reports :: x.state in PHASE_REASONS - {Pending}
    decreases |hs|
  {
    if hs != [] {
      var (c1, r) := hs[0].reconcile(c, cfg);
      if r.Ok? && Completes(r.value) {
        assert forall h | h in hs[1..] :: h in hs;
        ReportedStates(hs[1..], cfg, c1);
      }
    }
  }

  lemma ApplyKeeps(r0: Release, r: Release, hs: seq<Pipeline.Handler>, c: Cluster, cfg: Config)
    requires ProperHandlers(hs) && StageKept(r0, r, Pipeline.Phases(hs))
    requires IsTrue(r, CONDITION_MANIFEST_RESOLVED) && cfg.releaseVersion == r.spec.version
    ensures StageKept(r0, ApplyConfig(hs, r, c, cfg).release, Pipeline.Phases(hs))
  {
    var phases, run := Pipeline.Phases(hs), Pipeline.RunPipeline(hs, cfg, c);
    Pipeline.RunShape(hs, cfg, c);
    if run.failed.Some? {
      var p := run.failed.value;
      assert phases[|run.reports|] == p;
      SetPhase(r0, r, phases, p, Failed);
      assert !IsTrue(SetCondition(r, ConditionType(p), false, Failed), ConditionType(p));
    } else {
      ProperReports(hs, cfg, c);
      UpdateReports(r0, r, phases, run.reports);
      Pipeline.CompleteIffAllRan(hs, cfg, c);
      var r1 := UpdateReported(r, run.reports);
      if Pipeline.AllComplete(Pipeline.Recorded(run.reports)) {
        MidwayVersion(r0, r1, phases, cfg.releaseVersion);
      } else {
        IncompleteReport(hs, cfg, c);
        var x :| x in run.reports && !Completes(x.state);
        ReportsReflected(r, phases, run.reports, x);
        assert !IsTrue(r1, ConditionType(x.phase));
      }
    }
  }

  lemma IncompleteReport(hs: seq<Pipeline.Handler>, cfg: Config, c: Cluster)
    requires Pipeline.DistinctPhases(hs)
    requires var run := Pipeline.RunPipeline(hs, cfg, c);
             run.failed.None? && !Pipeline.AllComplete(Pipeline.Recorded(run.reports))
    ensures exists x :: x in Pipeline.RunPipeline(hs, cfg, c).reports && !Completes(x.state)
  {
    Pipeline.RunShape(hs, cfg, c);
    Pipeline.CompleteIffAllRan(hs, cfg, c);
    var reports := Pipeline.RunPipeline(hs, cfg, c).reports;
    if |reports| < |hs| {
      assert reports[|reports| - 1] in reports;
    }
  }

  lemma MidwayVersion(r0: Release, r: Release, phases: seq<Phase>, version: string)
    requires Midway(r0, r, phases)
    ensures Midway(r0, r.(status := r.status.(version := version)), phases)
    ensures forall t :: ConditionOf(r.(status := r.status.(version := version)), t) == ConditionOf(r, t)
  {
    var r' := r.(status := r.status.(version := version));
    assert forall t :: ConditionOf(r', t) == ConditionOf(r, t);
  }

  lemma ConfigFailureKeeps(r0: Release, r: Release, c: Cluster, e: Error, phases: seq<Phase>)
    requires StageKept(r0, r, phases) && PhasesUntouched(r0, r, phases) && VersionSound(r0, phases)
    ensures StageKept(r0, ConfigFailure(r, c, e).release, phases)
  {
    SetAppliedFailed(r0, r, phases);
    UntouchedVersionSound(r0, ConfigFailure(r, c, e).release, phases);
  }

  lemma CleanAndApplyKeeps(w: World, hs: seq<Pipeline.Handler>, r0: Release, r: Release, c: Cluster, cfg: Config)
    requires Enumerates(w.order) && ProperHandlers(hs) && StageKept(r0, r, Pipeline.Phases(hs))
    requires IsTrue(r, CONDITION_MANIFEST_RESOLVED) && cfg.releaseVersion == r.spec.version
    ensures StageKept(r0, CleanAndApply(w, hs, r, c, cfg).release, Pipeline.Phases(hs))
  {
    ApplyKeeps(r0, r, hs, c, cfg);
    ApplyKeeps(r0, r, hs, Cleanup(c, Owner(r.name, r.status.version), w.order).0, cfg);
  }

  lemma UpgradeKeeps(w: World, hs: seq<Pipeline.Handler>, r0: Release, r: Release, c: Cluster)
    requires Enumerates(w.order) && ProperHandlers(hs)
    requires StageKept(r0, r, Pipeline.Phases(hs)) && PhasesUntouched(r0, r, Pipeline.Phases(hs))
    requires IsTrue(r, ConditionType(PHASE_LCM)) && VersionSound(r0, Pipeline.Phases(hs))
    ensures StageKept(r0, Upgrade(w, hs, r, c).release, Pipeline.Phases(hs))
  {
    var phases := Pipeline.Phases(hs);
    var (k, m) := RetrieveManifest(w, r, c);
    var resolved := m.Some?;
    SetManifest(r0, r, phases, resolved);
    var r1 := SetCondition(r, CONDITION_MANIFEST_RESOLVED, resolved, if resolved then Succeeded else Failed);
    UntouchedVersionSound(r0, r1, phases);
    if resolved {
      var (c1, cfg) := ParseConfig(k, m.value, r1);
      if cfg.Err? {
        ConfigFailureKeeps(r0, r1, c1, cfg.error, phases);
      } else {
        CleanAndApplyKeeps(w, hs, r0, r1, c1, cfg.value);
      }
    }
  }

  lemma LcmState(w: World, r: Release, c: Cluster, cfg: Config)
    ensures var s := HelmPhase(c, cfg.GetOwner(), true, cfg.helmCharts).1;
            s.Ok? ==> s.value in PHASE_REASONS - {Pending}
  {
    if cfg.helmCharts != [] && ChartSort.Sorted(cfg.helmCharts).Ok? {
      HelmPhaseExact(c, cfg.GetOwner(), true, cfg.helmCharts, ChartSort.Sorted(cfg.helmCharts).value);
    }
  }

  lemma LcmStateKeeps(r: Release, phases: seq<Phase>, s: State)
    requires Gated(r, phases) && VersionSound(r, phases) && !IsTrue(r, ConditionType(PHASE_LCM))
    requires PHASE_LCM !in phases && s in PHASE_REASONS - {Pending}
    ensures var r1 := SetCondition(r, ConditionType(PHASE_LCM), Completes(s), s);
            && StageKept(r, r1, phases) && PhasesUntouched(r, r1, phases)
            && (Completes(s) ==> IsTrue(r1, ConditionType(PHASE_LCM)))
  {
    MidwayStart(r, phases);
    SetLcm(r, r, phases, s);
    UntouchedVersionSound(r, SetCondition(r, ConditionType(PHASE_LCM), Completes(s), s), phases);
  }

  lemma AfterLcmKeeps(w: World, hs: seq<Pipeline.Handler>, r: Release, c: Cluster, state: Result<State, Error>)
    requires Enumerates(w.order) && ProperHandlers(hs)
    requires Gated(r, Pipeline.Phases(hs)) && VersionSound(r, Pipeline.Phases(hs))
             && !IsTrue(r, ConditionType(PHASE_LCM))
    requires state.Ok? ==> state.value in PHASE_REASONS - {Pending}
    ensures StageKept(r, AfterLcm(w, hs, r, c, state).release, Pipeline.Phases(hs))
  {
    var s := if state.Ok? then state.value else Failed;
    LcmStateKeeps(r, Pipeline.Phases(hs), s);
    if state == Ok(Succeeded) {
      UpgradeKeeps(w, hs, r, UpdatePhase(r, PHASE_LCM, s), c);
    }
  }

  lemma LcmKeeps(w: World, hs: seq<Pipeline.Handler>, r: Release, c: Cluster)
    requires Enumerates(w.order) && ProperHandlers(hs)
    requires Gated(r, Pipeline.Phases(hs)) && VersionSound(r, Pipeline.Phases(hs))
             && !IsTrue(r, ConditionType(PHASE_LCM))
    ensures StageKept(r, UpgradeLcm(w, hs, r, c).release, Pipeline.Phases(hs))
  {
    MidwayStart(r, Pipeline.Phases(hs));
    if r.spec.version in w.lcm {
      match LcmConfig(w.lcm[r.spec.version], r)
      case Err(e) => ConfigFailureKeeps(r, r, c, e, Pipeline.Phases(hs));
      case Ok(cfg) =>
        LcmState(w, r, c, cfg);
        var (c1, state) := HelmPhase(c, cfg.GetOwner(), true, cfg.helmCharts);
        AfterLcmKeeps(w, hs, r, c1, state);
    }
  }

  lemma ObservedKeeps(w: World, hs: seq<Pipeline.Handler>, r: Release, c: Cluster)
    requires Enumerates(w.order) && ProperHandlers(hs)
    requires Gated(r, Pipeline.Phases(hs)) && VersionSound(r, Pipeline.Phases(hs))
    ensures StageKept(r, Observed(w, hs, r, c).release, Pipeline.Phases(hs))
  {
    MidwayStart(r, Pipeline.Phases(hs));
    if IsTrue(r, ConditionType(PHASE_LCM)) {
      UpgradeKeeps(w, hs, r, r, c);
    } else {
      LcmKeeps(w, hs, r, c);
    }
  }

  // ---------------------------------------------------------------- bringing Applied up to date

  /** `r` with its Applied condition set, or left as it is. */
  lemma AppliedOnly(r: Release, phases: seq<Phase>)
    requires Gated(r, phases)
    ensures var r' := UpdateApplied(r, phases);
            && SameSpec(r, r') && r'.status.version == r.status.version && Gated(r', phases)
            && (forall t | t != CONDITION_APPLIED :: ConditionOf(r', t) == ConditionOf(r, t))
            && (AppliedVerdict(r, phases).Some? ==>
                  (IsTrue(r', CONDITION_APPLIED) <==> AppliedVerdict(r, phases).value.0))
            && (AppliedVerdict(r, phases).None? ==> r' == r)
  {
    TypesDiffer(phases);
    match AppliedVerdict(r, phases)
    case None =>
    case Some((status, reason)) => SetOne(r, CONDITION_APPLIED, status, reason);
  }

  /** A verdict is only missing when some condition is still pending. */
  lemma NoVerdictMeansPending(r: Release, phases: seq<Phase>)
    requires Gated(r, phases) && AppliedVerdict(r, phases).None?
    ensures IsPending(r, CONDITION_MANIFEST_RESOLVED) || exists p :: p in phases && IsPending(r, ConditionType(p))
  {
    if IsTrue(r, CONDITION_MANIFEST_RESOLVED) {
      var p :| p in phases && !IsTrue(r, ConditionType(p));
      assert !PhaseIs(r, p, Failed) && !PhaseIs(r, p, InProgress);
      assert WellKept(r, ConditionType(p), PHASE_REASONS);
    }
  }

  lemma NoVerdictNotApplied(r0: Release, r: Release, phases: seq<Phase>)
    requires Gated(r0, phases) && AppliedSound(r0, phases) && StageKept(r0, r, phases)
             && AppliedVerdict(r, phases).None?
    ensures !IsTrue(r, CONDITION_APPLIED)
  {
    NoVerdictMeansPending(r, phases);
    if IsPending(r, CONDITION_MANIFEST_RESOLVED) {
      assert IsPending(r0, CONDITION_MANIFEST_RESOLVED) && !IsTrue(r0, CONDITION_MANIFEST_RESOLVED);
    } else {
      var p :| p in phases && IsPending(r, ConditionType(p));
      assert WellKept(r0, ConditionType(p), PHASE_REASONS);
      assert !IsTrue(r0, ConditionType(p));
    }
  }

  lemma UpdateAppliedKeeps(r0: Release, r: Release, phases: seq<Phase>)
    requires Gated(r0, phases) && AppliedSound(r0, phases) && StageKept(r0, r, phases)
    ensures var r' := UpdateApplied(r, phases);
            Gated(r', phases) && VersionSound(r', phases) && AppliedSound(r', phases)
  {
    TypesDiffer(phases);
    AppliedOnly(r, phases);
    assert AllPhasesTrue(UpdateApplied(r, phases), phases) <==> AllPhasesTrue(r, phases);
    if AppliedVerdict(r, phases).None? {
      NoVerdictNotApplied(r0, r, phases);
    }
  }

  // ---------------------------------------------------------------- a new generation

  lemma {:induction false} AddPendingEffect(r: Release, types: seq<string>)
    ensures var r' := AddAllPending(r, types);
            && SameSpec(r, r') && r'.status.version == r.status.version
            && (UniqueTypes(r.status.conditions) ==> UniqueTypes(r'.status.conditions))
            && forall t :: ConditionOf(r', t) ==
                           if ConditionOf(r, t).None? && t in types
                           then Some(Condition(t, false, Pending, r.generation))
                           else ConditionOf(r, t)
    decreases |types|
  {
    if types != [] {
      var r1, c := AddPending(r, types[0]), Condition(types[0], false, Pending, r.generation);
      TypesSet(r.status.conditions, c);
      forall t ensures Find(SetCond(r.status.conditions, c), t) == if t == c.ctype then Some(c) else ConditionOf(r, t) {
        FindSet(r.status.conditions, c, t);
      }
      AddPendingEffect(r1, types[1..]);
      assert forall t :: t in types <==> t == types[0] || t in types[1..];
    }
  }

  /** After a reset all conditions are present, once each, and pending. */
  lemma ResetPending(r: Release, phases: seq<Phase>)
    ensures var r' := Reset(r, phases);
            && r'.status.observedGeneration == r'.generation == r.generation && r'.spec == r.spec && r'.name == r.name
            && r'.status.version == r.status.version && UniqueTypes(r'.status.conditions)
            && (forall t | t in AllTypes(phases) ::
                  ConditionOf(r', t) == Some(Condition(t, false, Pending, r.generation)))
            && (forall p | p in phases :: ConditionType(p) in AllTypes(phases))
  {
    var r0 := r.(status := r.status.(observedGeneration := r.generation, conditions := []));
    AddPendingEffect(r0, AllTypes(phases));
    forall p | p in phases ensures ConditionType(p) in AllTypes(phases) {
      var i :| 0 <= i < |phases| && phases[i] == p;
      assert AllTypes(phases)[2 + i] == PhaseTypes(phases)[i];
    }
  }

  lemma ResetKeeps(r: Release, phases: seq<Phase>)
    requires phases != []
    ensures StatusInv(Reset(r, phases), phases)
  {
    ResetPending(r, phases);
    var r', types := Reset(r, phases), AllTypes(phases);
    assert types[0] == ConditionType(PHASE_LCM) && types[1] == CONDITION_MANIFEST_RESOLVED;
    assert types[|types| - 1] == CONDITION_APPLIED && CONDITION_APPLIED in types;
    assert phases[0] in phases;
    forall p | p in phases ensures WellKept(r', ConditionType(p), PHASE_REASONS) && IsPending(r', ConditionType(p)) {
      assert ConditionType(p) in types;
    }
    assert !IsTrue(r', ConditionType(phases[0]));
  }

  // ---------------------------------------------------------------- every pass

  /** Every pass keeps the status invariant, from any cluster and with any registry answers. */
  lemma PassKeepsStatus(w: World, hs: seq<Pipeline.Handler>, r: Release, c: Cluster)
    requires Enumerates(w.order) && ProperHandlers(hs) && StatusInv(r, Pipeline.Phases(hs))
    ensures StatusInv(ReleasePass(w, hs, r, c).release, Pipeline.Phases(hs))
  {
    var phases := Pipeline.Phases(hs);
    if r.status.observedGeneration != r.generation {
      ResetKeeps(r, phases);
    } else {
      ObservedKeeps(w, hs, r, c);
      UpdateAppliedKeeps(r, Observed(w, hs, r, c).release, phases);
    }
  }

  /** Within a generation a pass keeps a true LCM condition, never returns a condition to Pending, and changes a phase
      condition or the version only if it leaves the manifest resolved. */
  lemma PassKeepsGates(w: World, hs: seq<Pipeline.Handler>, r: Release, c: Cluster)
    requires Enumerates(w.order) && ProperHandlers(hs) && StatusInv(r, Pipeline.Phases(hs))
    requires r.status.observedGeneration == r.generation
    ensures var r', phases := ReleasePass(w, hs, r, c).release, Pipeline.Phases(hs);
            && (IsTrue(r, ConditionType(PHASE_LCM)) ==>
                  ConditionOf(r', ConditionType(PHASE_LCM)) == ConditionOf(r, ConditionType(PHASE_LCM)))
            && (forall t | t != CONDITION_APPLIED && IsPending(r', t) :: IsPending(r, t))
            && (PhasesUntouched(r, r', phases) || IsTrue(r', CONDITION_MANIFEST_RESOLVED))
  {
    var phases := Pipeline.Phases(hs);
    TypesDiffer(phases);
    ObservedKeeps(w, hs, r, c);
    AppliedOnly(Observed(w, hs, r, c).release, phases);
  }

  // ---------------------------------------------------------------- agreement at the end of a pass

  predicate RanAll(run: Pipeline.Run, hs: seq<Pipeline.Handler>) {
    |run.reports| == |hs| && forall x | x in run.reports :: Completes(x.state)
  }

  lemma AllRanIsApplied(hs: seq<Pipeline.Handler>, r: Release, reports: seq<Pipeline.Report>)
    requires var phases := Pipeline.Phases(hs); Gated(r, phases) && IsTrue(r, CONDITION_MANIFEST_RESOLVED)
    requires |reports| == |hs| && forall i | 0 <= i < |hs| ::
               reports[i].phase == hs[i].phase && Completes(reports[i].state)
    requires forall x | x in reports :: Reflects(r, x)
    ensures AppliedVerdict(r, Pipeline.Phases(hs)) == Some((true, Succeeded))
  {
    var phases := Pipeline.Phases(hs);
    NotFailedLcm(r, phases);
    forall p | p in phases ensures IsTrue(r, ConditionType(p)) {
      var i :| 0 <= i < |phases| && phases[i] == p;
      assert reports[i] in reports;
    }
  }

  lemma IncompleteIsNotApplied(r: Release, phases: seq<Phase>, x: Pipeline.Report)
    requires Gated(r, phases) && IsTrue(r, CONDITION_MANIFEST_RESOLVED) && x.phase in phases
    requires !Completes(x.state) && Reflects(r, x) && (x.state.InProgress? || x.state.Failed?)
    ensures AppliedVerdict(r, phases).Some? && !AppliedVerdict(r, phases).value.0
  {
    NotFailedLcm(r, phases);
    assert PhaseIs(r, x.phase, x.state);
    assert AnyPhaseIs(r, phases, x.state);
  }

  lemma CompletePass(hs: seq<Pipeline.Handler>, r0: Release, r: Release, c: Cluster, cfg: Config)
    requires ProperHandlers(hs) && Midway(r0, r, Pipeline.Phases(hs)) && IsTrue(r, CONDITION_MANIFEST_RESOLVED)
    requires var run := Pipeline.RunPipeline(hs, cfg, c); run.failed.None? && RanAll(run, hs)
    ensures var pass := ApplyConfig(hs, r, c, cfg);
            && pass.outcome == Done && pass.release.status.version == cfg.releaseVersion
            && Midway(r0, pass.release, Pipeline.Phases(hs)) && IsTrue(pass.release, CONDITION_MANIFEST_RESOLVED)
            && AppliedVerdict(pass.release, Pipeline.Phases(hs)) == Some((true, Succeeded))
  {
    var run := Pipeline.RunPipeline(hs, cfg, c);
    Pipeline.CompleteIffAllRan(hs, cfg, c);
    Pipeline.RunShape(hs, cfg, c);
    ProperReports(hs, cfg, c);
    UpdateReports(r0, r, Pipeline.Phases(hs), run.reports);
    MidwayVersion(r0, UpdateReported(r, run.reports), Pipeline.Phases(hs), cfg.releaseVersion);
    assert forall i | 0 <= i < |hs| :: run.reports[i] in run.reports;
    forall x | x in run.reports ensures Reflects(ApplyConfig(hs, r, c, cfg).release, x) {
      ReportsReflected(r, Pipeline.Phases(hs), run.reports, x);
    }
    AllRanIsApplied(hs, ApplyConfig(hs, r, c, cfg).release, run.reports);
  }

  lemma IncompleteVerdict(r0: Release, r: Release, phases: seq<Phase>, reports: seq<Pipeline.Report>,
                          x: Pipeline.Report)
    requires Midway(r0, r, phases) && IsTrue(r, CONDITION_MANIFEST_RESOLVED) && PHASE_LCM !in phases
    requires ProperReportsOf(reports, phases) && x in reports && !Completes(x.state)
    ensures var r' := UpdateReported(r, reports);
            && Midway(r0, r', phases) && r'.status.version == r.status.version
            && AppliedVerdict(r', phases).Some? && !AppliedVerdict(r', phases).value.0
  {
    UpdateReports(r0, r, phases, reports);
    ReportsReflected(r, phases, reports, x);
    IncompleteIsNotApplied(UpdateReported(r, reports), phases, x);
  }

  lemma IncompletePass(hs: seq<Pipeline.Handler>, r0: Release, r: Release, c: Cluster, cfg: Config)
    requires ProperHandlers(hs) && Midway(r0, r, Pipeline.Phases(hs)) && IsTrue(r, CONDITION_MANIFEST_RESOLVED)
    requires var run := Pipeline.RunPipeline(hs, cfg, c); run.failed.None? && !RanAll(run, hs)
    ensures var pass := ApplyConfig(hs, r, c, cfg);
            && pass.outcome == Requeue && pass.release.status.version == r.status.version
            && Midway(r0, pass.release, Pipeline.Phases(hs))
            && AppliedVerdict(pass.release, Pipeline.Phases(hs)).Some?
            && !AppliedVerdict(pass.release, Pipeline.Phases(hs)).value.0
  {
    var reports := Pipeline.RunPipeline(hs, cfg, c).reports;
    Pipeline.CompleteIffAllRan(hs, cfg, c);
    ProperReports(hs, cfg, c);
    IncompleteReport(hs, cfg, c);
    var x :| x in reports && !Completes(x.state);
    IncompleteVerdict(r0, r, Pipeline.Phases(hs), reports, x);
    assert ApplyConfig(hs, r, c, cfg).release == UpdateReported(r, reports);
  }

  /** For a pass whose pipeline returns without an error, these agree: every handler ran and completed; the result map
      is all complete; the pass ends Done with the version written; Applied is true at the end. */
  lemma ApplyAgreement(hs: seq<Pipeline.Handler>, r0: Release, r: Release, c: Cluster, cfg: Config)
    requires ProperHandlers(hs) && Midway(r0, r, Pipeline.Phases(hs)) && IsTrue(r, CONDITION_MANIFEST_RESOLVED)
    requires Pipeline.RunPipeline(hs, cfg, c).failed.None?
    ensures var run, pass := Pipeline.RunPipeline(hs, cfg, c), ApplyConfig(hs, r, c, cfg);
            var final := UpdateApplied(pass.release, Pipeline.Phases(hs));
            && (RanAll(run, hs) <==> Pipeline.AllComplete(Pipeline.Recorded(run.reports)))
            && (RanAll(run, hs) <==> pass.outcome == Done)
            && final.status.version == (if RanAll(run, hs) then cfg.releaseVersion else r.status.version)
            && (RanAll(run, hs) <==> IsTrue(final, CONDITION_APPLIED))
  {
    Pipeline.CompleteIffAllRan(hs, cfg, c);
    if RanAll(Pipeline.RunPipeline(hs, cfg, c), hs) {
      CompletePass(hs, r0, r, c, cfg);
    } else {
      IncompletePass(hs, r0, r, c, cfg);
    }
    AppliedOnly(ApplyConfig(hs, r, c, cfg).release, Pipeline.Phases(hs));
  }

  /** Once the manifest is resolved, neither of the first two failure verdicts applies. */
  lemma NotFailedLcm(r: Release, phases: seq<Phase>)
    requires Gated(r, phases) && IsTrue(r, CONDITION_MANIFEST_RESOLVED)
    ensures !PhaseIs(r, PHASE_LCM, Failed) && !HasReason(r, CONDITION_MANIFEST_RESOLVED, Failed)
  {
  }

  // ---------------------------------------------------------------- agreement over the whole pass

  /** What a pipeline starts with: the Release with the manifest resolved, the cluster and the configuration. */
  datatype Input = Input(release: Release, cluster: Cluster, cfg: Config)

  function UpgradeInput(w: World, r: Release, c: Cluster): Option<Input>
    requires Enumerates(w.order)
  {
    var (k, m) := RetrieveManifest(w, r, c);
    if m.None? then None
    else
      var r1 := SetCondition(r, CONDITION_MANIFEST_RESOLVED, true, Succeeded);
      var (c1, cfg) := ParseConfig(k, m.value, r1);
      if cfg.Err? then None
      else if r.status.version == "" || r.status.version == r.spec.version then Some(Input(r1, c1, cfg.value))
      else
        var (c2, ok) := Cleanup(c1, Owner(r.name, r.status.version), w.order);
        if ok then Some(Input(r1, c2, cfg.value)) else None
  }

  /** What the pass over `r` gives its pipeline, or nothing when it ends before. */
  function PipelineInput(w: World, r: Release, c: Cluster): Option<Input>
    requires Enumerates(w.order)
  {
    if r.status.observedGeneration != r.generation then None
    else if IsTrue(r, ConditionType(PHASE_LCM)) then UpgradeInput(w, r, c)
    else if r.spec.version !in w.lcm || LcmConfig(w.lcm[r.spec.version], r).Err? then None
    else
      var cfg := LcmConfig(w.lcm[r.spec.version], r).value;
      var (c1, state) := HelmPhase(c, cfg.GetOwner(), true, cfg.helmCharts);
      if state == Ok(Succeeded) then UpgradeInput(w, UpdatePhase(r, PHASE_LCM, Succeeded), c1) else None
  }

  /** What a pass makes of its pipeline run: these agree when the
      run has no error, and nothing is applied when it has. */
  predicate Agrees(hs: seq<Pipeline.Handler>, r: Release, pass: Pass, run: Pipeline.Run) {
    if run.failed.Some? then
      pass.outcome == Errored && pass.release.status.version == r.status.version
          && !IsTrue(pass.release, CONDITION_APPLIED)
    else
      && (RanAll(run, hs) <==> Pipeline.AllComplete(Pipeline.Recorded(run.reports)))
      && (RanAll(run, hs) <==> pass.outcome == Done)
      && (RanAll(run, hs) <==> IsTrue(pass.release, CONDITION_APPLIED))
      && pass.release.status.version == if RanAll(run, hs) then r.spec.version else r.status.version
  }

  function Finally(pass: Pass, phases: seq<Phase>): Pass {
    pass.(release := UpdateApplied(pass.release, phases))
  }

  lemma FailedIsNotApplied(hs: seq<Pipeline.Handler>, r0: Release, r: Release, p: Phase)
    requires ProperHandlers(hs) && Midway(r0, r, Pipeline.Phases(hs)) && IsTrue(r, CONDITION_MANIFEST_RESOLVED)
    requires p in Pipeline.Phases(hs)
    ensures var final := UpdateApplied(SetCondition(r, ConditionType(p), false, Failed), Pipeline.Phases(hs));
            !IsTrue(final, CONDITION_APPLIED) && final.status.version == r.status.version
  {
    var phases, r' := Pipeline.Phases(hs), SetCondition(r, ConditionType(p), false, Failed);
    SetPhase(r0, r, phases, p, Failed);
    IncompleteIsNotApplied(r', phases, Pipeline.Report(p, Failed));
    AppliedOnly(r', phases);
  }

  lemma ApplyAgrees(hs: seq<Pipeline.Handler>, r0: Release, i: Input)
    requires ProperHandlers(hs) && Midway(r0, i.release, Pipeline.Phases(hs))
    requires IsTrue(i.release, CONDITION_MANIFEST_RESOLVED) && i.release.status.version == r0.status.version
    requires i.cfg.releaseVersion == r0.spec.version
    ensures Agrees(hs, r0, Finally(ApplyConfig(hs, i.release, i.cluster, i.cfg), Pipeline.Phases(hs)),
                   Pipeline.RunPipeline(hs, i.cfg, i.cluster))
  {
    var run := Pipeline.RunPipeline(hs, i.cfg, i.cluster);
    Pipeline.RunShape(hs, i.cfg, i.cluster);
    if run.failed.Some? {
      assert Pipeline.Phases(hs)[|run.reports|] == run.failed.value;
      FailedIsNotApplied(hs, r0, i.release, run.failed.value);
    } else {
      ApplyAgreement(hs, r0, i.release, i.cluster, i.cfg);
    }
  }

  /** A pass that ends before the pipeline keeps the applied version. */
  ghost predicate UpgradeAgrees(w: World, hs: seq<Pipeline.Handler>, r0: Release, r: Release, c: Cluster)
    requires Enumerates(w.order)
  {
    var pass := Finally(Upgrade(w, hs, r, c), Pipeline.Phases(hs));
    match UpgradeInput(w, r, c)
    case None => pass.release.status.version == r0.status.version
    case Some(i) => Agrees(hs, r0, pass, Pipeline.RunPipeline(hs, i.cfg, i.cluster))
  }

  lemma KeepsVersion(r: Release, phases: seq<Phase>)
    ensures UpdateApplied(r, phases).status.version == r.status.version
  {
  }

  lemma UpgradeReaches(w: World, hs: seq<Pipeline.Handler>, r: Release, c: Cluster)
    requires Enumerates(w.order)
    ensures match UpgradeInput(w, r, c)
            case None => Upgrade(w, hs, r, c).release.status.version == r.status.version
            case Some(i) =>
              && Upgrade(w, hs, r, c) == ApplyConfig(hs, i.release, i.cluster, i.cfg)
              && i.cfg.releaseVersion == r.spec.version
              && i.release == SetCondition(r, CONDITION_MANIFEST_RESOLVED, true, Succeeded)
  {
  }

  lemma UpgradeAgreement(w: World, hs: seq<Pipeline.Handler>, r0: Release, r: Release, c: Cluster)
    requires Enumerates(w.order) && ProperHandlers(hs) && Midway(r0, r, Pipeline.Phases(hs))
    requires IsTrue(r, ConditionType(PHASE_LCM)) && r.status.version == r0.status.version
    ensures UpgradeAgrees(w, hs, r0, r, c)
  {
    UpgradeReaches(w, hs, r, c);
    match UpgradeInput(w, r, c)
    case None => KeepsVersion(Upgrade(w, hs, r, c).release, Pipeline.Phases(hs));
    case Some(i) =>
      SetManifest(r0, r, Pipeline.Phases(hs), true);
      ApplyAgrees(hs, r0, i);
  }

  lemma LcmAgreement(w: World, hs: seq<Pipeline.Handler>, r: Release, c: Cluster, cfg: Config)
    requires Enumerates(w.order) && ProperHandlers(hs) && Gated(r, Pipeline.Phases(hs))
             && !IsTrue(r, ConditionType(PHASE_LCM))
    ensures var (c1, state) := HelmPhase(c, cfg.GetOwner(), true, cfg.helmCharts);
            if state == Ok(Succeeded) then UpgradeAgrees(w, hs, r, UpdatePhase(r, PHASE_LCM, Succeeded), c1)
            else
              var after := UpdateApplied(AfterLcm(w, hs, r, c1, state).release, Pipeline.Phases(hs));
              after.status.version == r.status.version
  {
    var (c1, state) := HelmPhase(c, cfg.GetOwner(), true, cfg.helmCharts);
    if state == Ok(Succeeded) {
      MidwayStart(r, Pipeline.Phases(hs));
      SetLcm(r, r, Pipeline.Phases(hs), Succeeded);
      UpgradeAgreement(w, hs, r, UpdatePhase(r, PHASE_LCM, Succeeded), c1);
    } else {
      KeepsVersion(AfterLcm(w, hs, r, c1, state).release, Pipeline.Phases(hs));
    }
  }

  /** Over a whole pass: when its pipeline runs without an error, these agree: every handler ran and completed; the
      result map is all complete; the pass ends Done; the version is written; Applied is true at the end. With an error
      nothing is applied, and a pass that does not reach its pipeline keeps the applied version. */
  lemma PassAgreement(w: World, hs: seq<Pipeline.Handler>, r: Release, c: Cluster)
    requires Enumerates(w.order) && ProperHandlers(hs) && StatusInv(r, Pipeline.Phases(hs))
    ensures var pass := ReleasePass(w, hs, r, c);
            match PipelineInput(w, r, c)
            case None => pass.release.status.version == r.status.version
            case Some(i) => Agrees(hs, r, pass, Pipeline.RunPipeline(hs, i.cfg, i.cluster))
  {
    if r.status.observedGeneration != r.generation {
      ResetPending(r, Pipeline.Phases(hs));
    } else if IsTrue(r, ConditionType(PHASE_LCM)) {
      MidwayStart(r, Pipeline.Phases(hs));
      UpgradeAgreement(w, hs, r, r, c);
    } else if r.spec.version in w.lcm && LcmConfig(w.lcm[r.spec.version], r).Ok? {
      LcmAgreement(w, hs, r, c, LcmConfig(w.lcm[r.spec.version], r).value);
    } else {
      KeepsVersion(UpgradeLcm(w, hs, r, c).release, Pipeline.Phases(hs));
    }
  }
}
