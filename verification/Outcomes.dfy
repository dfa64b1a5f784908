/** What the Release shows at the end of a pass, and when the controller stops: the Applied condition, the conditions of
    what failed, and what a user may do next. */
module Outcomes {
  import opened Wrappers
  import opened Api
  import opened Conditions
  import opened Clusters
  import opened HelmReconciler
  import opened ReleaseConfig
  import opened Plans
  import opened PackagedComponents
  import opened Kubernetes
  import opened Controller
  import opened StatusMachine
  import opened Handlers
  import opened Webhook
  import opened Frames
  import Charts
  import Pipeline

  // ---------------------------------------------------------------- the Applied condition

  /** The condition is there, and false for this reason. */
  predicate FalseFor(r: Release, ctype: string, reason: State) {
    ConditionOf(r, ctype).Some? && !ConditionOf(r, ctype).value.status && ConditionOf(r, ctype).value.reason == reason
  }

  /** LCM failed, the manifest could not be had, or with the manifest resolved some phase failed. */
  ghost predicate Failing(r: Release, phases: seq<Phase>) {
    || FalseFor(r, "LCMUpgraded", Failed)
    || HasReason(r, "ManifestResolved", Failed)
    || (IsTrue(r, "ManifestResolved") && exists p :: p in phases && FalseFor(r, ConditionType(p), Failed))
  }

  /** With the manifest resolved, some phase is in progress. */
  ghost predicate Running(r: Release, phases: seq<Phase>) {
    IsTrue(r, "ManifestResolved") && exists p :: p in phases && FalseFor(r, ConditionType(p), InProgress)
  }

  ghost predicate AllDone(r: Release, phases: seq<Phase>) {
    IsTrue(r, "ManifestResolved") && forall p | p in phases :: IsTrue(r, ConditionType(p))
  }

  /** The Applied condition: false and Failed while something failed; true once all is done; false and InProgress while
      a phase is in progress; as it was before otherwise. */
  ghost predicate AppliedShows(r: Release, final: Release, phases: seq<Phase>) {
    ConditionOf(final, "Applied") ==
    if Failing(final, phases) then Some(Condition("Applied", false, Failed, r.generation))
    else if AllDone(final, phases) then Some(Condition("Applied", true, Succeeded, r.generation))
    else if Running(final, phases) then Some(Condition("Applied", false, InProgress, r.generation))
    else ConditionOf(r, "Applied")
  }

  lemma FixedTypes()
    ensures ConditionType(PHASE_LCM) == "LCMUpgraded"
  {
  }

  /** Updating Applied touches no other condition. */
  lemma AppliedElsewhere(r: Release, phases: seq<Phase>, t: string)
    requires t != "Applied"
    ensures ConditionOf(UpdateApplied(r, phases), t) == ConditionOf(r, t)
  {
    if AppliedVerdict(r, phases).Some? {
      var (status, reason) := AppliedVerdict(r, phases).value;
      FindSet(r.status.conditions, Condition(CONDITION_APPLIED, status, reason, r.generation), t);
    }
  }

  lemma SameFailing(r: Release, final: Release, phases: seq<Phase>)
    requires forall t | t != "Applied" :: ConditionOf(final, t) == ConditionOf(r, t)
    ensures Failing(final, phases) <==> Failing(r, phases)
    ensures Running(final, phases) <==> Running(r, phases)
    ensures AllDone(final, phases) <==> AllDone(r, phases)
  {
    TypesDiffer(phases);
    assert CONDITION_MANIFEST_RESOLVED == "ManifestResolved" && CONDITION_APPLIED == "Applied";
    FixedTypes();
  }

  lemma VerdictExact(r: Release, phases: seq<Phase>)
    ensures AppliedVerdict(r, phases) ==
            if Failing(r, phases) then Some((false, Failed))
            else if AllDone(r, phases) then Some((true, Succeeded))
            else if Running(r, phases) then Some((false, InProgress))
            else None
  {
    FixedTypes();
    forall p, s ensures PhaseIs(r, p, s) <==> FalseFor(r, ConditionType(p), s) {
    }
    assert PhaseIs(r, PHASE_LCM, Failed) <==> FalseFor(r, "LCMUpgraded", Failed);
    assert AnyPhaseIs(r, phases, Failed) <==> exists p :: p in phases && FalseFor(r, ConditionType(p), Failed);
    assert AnyPhaseIs(r, phases, InProgress) <==> exists p :: p in phases && FalseFor(r, ConditionType(p), InProgress);
  }

  lemma AppliedExact(r: Release, phases: seq<Phase>)
    ensures AppliedShows(r, UpdateApplied(r, phases), phases)
  {
    var final := UpdateApplied(r, phases);
    forall t | t != "Applied" ensures ConditionOf(final, t) == ConditionOf(r, t) {
      AppliedElsewhere(r, phases, t);
    }
    SameFailing(r, final, phases);
    VerdictExact(r, phases);
    if AppliedVerdict(r, phases).Some? {
      var (status, reason) := AppliedVerdict(r, phases).value;
      FindSet(r.status.conditions, Condition(CONDITION_APPLIED, status, reason, r.generation), "Applied");
    }
  }

  /** At the end of every pass over an observed generation the Applied condition shows what the other conditions say. */
  lemma PassApplied(w: World, hs: seq<Pipeline.Handler>, r: Release, c: Cluster)
    requires Enumerates(w.order) && r.status.observedGeneration == r.generation
    ensures AppliedShows(Observed(w, hs, r, c).release, ReleasePass(w, hs, r, c).release, Pipeline.Phases(hs))
  {
    AppliedExact(Observed(w, hs, r, c).release, Pipeline.Phases(hs));
  }

  /** After a pass that leaves something failed, a newer version that is valid otherwise is admitted. */
  lemma FailureAdmitsEdit(w: World, hs: seq<Pipeline.Handler>, r: Release, c: Cluster, vs: Versions, secrets: Secrets,
                          spec: Spec)
    requires Enumerates(w.order) && Signs(vs) && r.status.observedGeneration == r.generation
    requires var final := ReleasePass(w, hs, r, c).release;
             Failing(final, Pipeline.Phases(hs)) && (final.status.version == ""
                                                     || Newer(vs, spec.version, final.status.version))
    requires spec.version != "" && vs.parses(spec.version) && spec.registry != ""
    requires forall x | x in spec.components && x.runtime.secretRef.Some? ::
             SecretPresent(secrets, x.runtime.secretRef.value)
    ensures ValidateUpdate(vs, secrets, ReleasePass(w, hs, r, c).release, spec).None?
  {
    PassApplied(w, hs, r, c);
    AdmittedUpdate(vs, secrets, ReleasePass(w, hs, r, c).release, spec);
  }

  /** While a phase is in progress and nothing failed, no edit is admitted. */
  lemma RunningDeniesEdit(w: World, hs: seq<Pipeline.Handler>, r: Release, c: Cluster, vs: Versions, secrets: Secrets,
                          spec: Spec)
    requires Enumerates(w.order) && Signs(vs) && r.status.observedGeneration == r.generation
    requires var final, phases := ReleasePass(w, hs, r, c).release, Pipeline.Phases(hs);
             Running(final, phases) && !Failing(final, phases)
    ensures ValidateUpdate(vs, secrets, ReleasePass(w, hs, r, c).release, spec).Some?
  {
    PassApplied(w, hs, r, c);
    AdmittedUpdate(vs, secrets, ReleasePass(w, hs, r, c).release, spec);
  }

  // ---------------------------------------------------------------- what the pipeline leaves on the Release

  /** What the reports of a pipeline make of the Release: a phase that reports a completing state is true, and keeps its
      condition if it was already; any other state is shown as false with that reason. Nothing else changes. */
  ghost predicate ReportsShown(r: Release, reports: seq<Pipeline.Report>, final: Release) {
    && (forall i | 0 <= i < |reports| ::
          ConditionOf(final, ConditionType(reports[i].phase)) ==
          if reports[i].state in {Succeeded, Skipped} && IsTrue(r, ConditionType(reports[i].phase))
          then ConditionOf(r, ConditionType(reports[i].phase))
          else Some(Condition(ConditionType(reports[i].phase), reports[i].state in {Succeeded, Skipped},
                              reports[i].state,
                              r.generation)))
    && forall t | t != "Applied" && (forall i | 0 <= i < |reports| :: t != ConditionType(reports[i].phase)) ::
         ConditionOf(final, t) == ConditionOf(r, t)
  }

  lemma {:induction false} ReportedElsewhere(r: Release, reports: seq<Pipeline.Report>, t: string)
    requires forall i | 0 <= i < |reports| :: t != ConditionType(reports[i].phase)
    ensures ConditionOf(UpdateReported(r, reports), t) == ConditionOf(r, t)
    decreases |reports|
  {
    if reports != [] {
      FindUpdatePhase(r, reports[0].phase, reports[0].state, t);
      ReportedElsewhere(UpdatePhase(r, reports[0].phase, reports[0].state), reports[1..], t);
    }
  }

  lemma {:induction false} ReportShown(r: Release, reports: seq<Pipeline.Report>, i: nat)
    requires i < |reports| && forall i, j | 0 <= i < j < |reports| :: reports[i].phase != reports[j].phase
    ensures ConditionOf(UpdateReported(r, reports), ConditionType(reports[i].phase)) ==
            if reports[i].state in {Succeeded, Skipped} && IsTrue(r, ConditionType(reports[i].phase))
            then ConditionOf(r, ConditionType(reports[i].phase))
            else Some(Condition(ConditionType(reports[i].phase), reports[i].state in {Succeeded, Skipped},
                                reports[i].state,
                                r.generation))
    decreases |reports|
  {
    var r1, t := UpdatePhase(r, reports[0].phase, reports[0].state), ConditionType(reports[i].phase);
    FindUpdatePhase(r, reports[0].phase, reports[0].state, t);
    if i == 0 {
      forall j | 0 <= j < |reports[1..]| ensures t != ConditionType(reports[1..][j].phase) {
        ConditionTypeInjective(reports[0].phase, reports[1..][j].phase);
      }
      ReportedElsewhere(r1, reports[1..], t);
    } else {
      ConditionTypeInjective(reports[0].phase, reports[i].phase);
      ReportShown(r1, reports[1..], i - 1);
    }
  }

  lemma ReportedShown(r: Release, reports: seq<Pipeline.Report>)
    requires forall i, j | 0 <= i < j < |reports| :: reports[i].phase != reports[j].phase
    ensures ReportsShown(r, reports, UpdateReported(r, reports))
  {
    forall i | 0 <= i < |reports| {
      ReportShown(r, reports, i);
    }
    forall t | forall i | 0 <= i < |reports| :: t != ConditionType(reports[i].phase)
      ensures ConditionOf(UpdateReported(r, reports), t) == ConditionOf(r, t)
    {
      ReportedElsewhere(r, reports, t);
    }
  }

  /** Of the conditions other than Applied, only `ctype` differs, and it is now false for `reason`. */
  ghost predicate OnlyFails(r: Release, final: Release, ctype: string, reason: State) {
    && ConditionOf(final, ctype) == Some(Condition(ctype, false, reason, r.generation))
    && forall t | t != ctype && t != "Applied" :: ConditionOf(final, t) == ConditionOf(r, t)
  }

  lemma SetShown(r: Release, phases: seq<Phase>, ctype: string, reason: State)
    requires ctype != "Applied"
    ensures OnlyFails(r, UpdateApplied(SetCondition(r, ctype, false, reason), phases), ctype, reason)
  {
    var r1 := SetCondition(r, ctype, false, reason);
    forall t | t != "Applied" ensures ConditionOf(UpdateApplied(r1, phases), t) == ConditionOf(r1, t) {
      AppliedElsewhere(r1, phases, t);
    }
    forall t ensures ConditionOf(r1, t) == if t == ctype then Some(Condition(ctype, false, reason, r.generation))
                                           else ConditionOf(r, t) {
      FindSet(r.status.conditions, Condition(ctype, false, reason, r.generation), t);
    }
  }

  /** Updating Applied leaves what was shown. */
  lemma ShownFinally(r: Release, reports: seq<Pipeline.Report>, r1: Release, phases: seq<Phase>)
    requires ReportsShown(r, reports, r1)
    ensures ReportsShown(r, reports, UpdateApplied(r1, phases))
  {
    TypesDiffer(phases);
    forall t | t != "Applied" ensures ConditionOf(UpdateApplied(r1, phases), t) == ConditionOf(r1, t) {
      AppliedElsewhere(r1, phases, t);
    }
  }

  /** What a pass makes of its pipeline run `run`, begun with release `r`: with an error only the failing phase is
      shown, as failed, and the pass is retried as an error; otherwise every report is shown, and the pass is repeated
      until all phases of the pipeline completed. */
  ghost predicate RunShown(hs: seq<Pipeline.Handler>, r: Release, run: Pipeline.Run, pass: Pass) {
    && pass.cluster == run.cluster
    && if run.failed.Some? then pass.outcome == Errored && OnlyFails(r, pass.release, ConditionType(run.failed.value),
                                                                     Failed)
       else ReportsShown(r, run.reports, pass.release) && pass.outcome == if RanAll(run, hs) then Done else Requeue
  }

  lemma ApplyShown(hs: seq<Pipeline.Handler>, r: Release, c: Cluster, cfg: Config)
    requires ProperHandlers(hs)
    ensures RunShown(hs, r, Pipeline.RunPipeline(hs, cfg, c), Finally(ApplyConfig(hs, r, c, cfg), Pipeline.Phases(hs)))
  {
    var run, phases, pass := Pipeline.RunPipeline(hs, cfg, c), Pipeline.Phases(hs), ApplyConfig(hs, r, c, cfg);
    Pipeline.RunShape(hs, cfg, c);
    if run.failed.Some? {
      ConditionTypeInjective(run.failed.value, run.failed.value);
      SetShown(r, phases, ConditionType(run.failed.value), Failed);
    } else {
      Pipeline.CompleteIffAllRan(hs, cfg, c);
      ReportedShown(r, run.reports);
      assert forall t :: ConditionOf(pass.release, t) == ConditionOf(UpdateReported(r, run.reports), t);
      ShownFinally(r, run.reports, pass.release, phases);
    }
  }

  /** What the pipeline starts with shows LCM and the manifest as done, and the phases as the pass found them. */
  lemma InputShown(w: World, r: Release, c: Cluster)
    requires Enumerates(w.order) && PipelineInput(w, r, c).Some?
    ensures var start := PipelineInput(w, r, c).value.release;
            && IsTrue(start, "LCMUpgraded")
            && ConditionOf(start, "ManifestResolved") == Some(Condition("ManifestResolved", true, Succeeded,
                                                                        r.generation))
            && (forall t | t != "ManifestResolved" && t != "LCMUpgraded" :: ConditionOf(start, t) == ConditionOf(r, t))
  {
    FixedTypes();
    var r1 := if IsTrue(r, ConditionType(PHASE_LCM)) then r else UpdatePhase(r, PHASE_LCM, Succeeded);
    forall t ensures ConditionOf(r1, t) ==
                     if t == "LCMUpgraded" && !IsTrue(r, t) then Some(Condition(t, true, Succeeded, r.generation))
                     else ConditionOf(r, t) {
      FindUpdatePhase(r, PHASE_LCM, Succeeded, t);
    }
    var m := Condition("ManifestResolved", true, Succeeded, r.generation);
    forall t ensures ConditionOf(SetCondition(r1, "ManifestResolved", true, Succeeded), t) ==
                     if t == "ManifestResolved" then Some(m) else ConditionOf(r1, t) {
      FindSet(r1.status.conditions, m, t);
    }
  }

  /** A pass that reaches its pipeline shows the run of it. */
  lemma PassShown(w: World, hs: seq<Pipeline.Handler>, r: Release, c: Cluster)
    requires Enumerates(w.order) && ProperHandlers(hs) && PipelineInput(w, r, c).Some?
    ensures var i := PipelineInput(w, r, c).value;
            RunShown(hs, i.release, Pipeline.RunPipeline(hs, i.cfg, i.cluster), ReleasePass(w, hs, r, c))
  {
    var i := PipelineInput(w, r, c).value;
    ApplyShown(hs, i.release, i.cluster, i.cfg);
    if IsTrue(r, ConditionType(PHASE_LCM)) {
      UpgradeReaches(w, hs, r, c);
    } else {
      var cfg := LcmConfig(w.lcm[r.spec.version], r).value;
      UpgradeReaches(w, hs, UpdatePhase(r, PHASE_LCM, Succeeded), HelmPhase(c, cfg.GetOwner(), true, cfg.helmCharts).0);
    }
  }

  // ---------------------------------------------------------------- passes that end before the pipeline

  /** The pass leaves the conditions other than Applied as they were. */
  ghost predicate NothingShown(r: Release, final: Release) {
    forall t | t != "Applied" :: ConditionOf(final, t) == ConditionOf(r, t)
  }

  /** A pass whose LCM phase does not succeed ends with it: an error is shown as failed and ends the upgrade; anything
      else is shown as it is and the pass is repeated. */
  lemma LcmShown(w: World, hs: seq<Pipeline.Handler>, r: Release, c: Cluster, cfg: Config)
    requires Enumerates(w.order) && r.status.observedGeneration == r.generation && !IsTrue(r, "LCMUpgraded")
    requires r.spec.version in w.lcm && LcmConfig(w.lcm[r.spec.version], r) == Ok(cfg)
    requires HelmPhase(c, cfg.GetOwner(), true, cfg.helmCharts).1 != Ok(Succeeded)
    ensures var (c1, state) := HelmPhase(c, cfg.GetOwner(), true, cfg.helmCharts);
            var pass := ReleasePass(w, hs, r, c);
            && pass.cluster == c1
            && (state.Err? ==> pass.outcome == Done && OnlyFails(r, pass.release, "LCMUpgraded", Failed))
            && (state.Ok? ==> pass.outcome == Requeue
                              && ReportsShown(r, [Pipeline.Report(PHASE_LCM, state.value)], pass.release))
  {
    FixedTypes();
    var (c1, state) := HelmPhase(c, cfg.GetOwner(), true, cfg.helmCharts);
    var phases := Pipeline.Phases(hs);
    if state.Err? {
      SetShown(r, phases, "LCMUpgraded", Failed);
    } else {
      var reports := [Pipeline.Report(PHASE_LCM, state.value)];
      ReportedShown(r, reports);
      assert reports[1..] == [] && UpdateReported(r, reports) == UpdatePhase(r, PHASE_LCM, state.value);
      ShownFinally(r, reports, UpdateReported(r, reports), phases);
    }
  }

  /** A pass that cannot have its manifest shows that, and is retried as an error. */
  lemma ManifestShown(w: World, hs: seq<Pipeline.Handler>, r: Release, c: Cluster)
    requires Enumerates(w.order) && r.status.observedGeneration == r.generation && IsTrue(r, "LCMUpgraded")
    requires RetrieveManifest(w, r, c).1.None?
    ensures var pass := ReleasePass(w, hs, r, c);
            pass.outcome == Errored && OnlyFails(r, pass.release, "ManifestResolved", Failed)
  {
    FixedTypes();
    SetShown(r, Pipeline.Phases(hs), "ManifestResolved", Failed);
  }

  // ---------------------------------------------------------------- when the controller stops

  /** The Release configures a chart that the manifest does not have. */
  predicate Rejected(w: World, r: Release, c: Cluster) {
    var m := RetrieveManifest(w, r, c).1;
    m.Some? && UpgradeConfig(m.value, r).Err? && UpgradeConfig(m.value, r).error.RuntimeConfigError?
  }

  /** A configuration error of the user in the LCM phase fails the release, and ends the upgrade. */
  lemma LcmRejected(w: World, hs: seq<Pipeline.Handler>, r: Release, c: Cluster)
    requires Enumerates(w.order) && r.status.observedGeneration == r.generation && Gated(r, Pipeline.Phases(hs))
    requires !IsTrue(r, "LCMUpgraded") && r.spec.version in w.lcm && LcmConfig(w.lcm[r.spec.version], r).Err?
    ensures var pass := ReleasePass(w, hs, r, c);
            && pass.cluster == c && NothingShown(r, pass.release) && pass.outcome == Done
            && FalseFor(pass.release, "Applied", Failed)
  {
    FixedTypes();
    LcmConfigFails(w.lcm[r.spec.version], r);
    var r1 := SetCondition(r, "Applied", false, Failed);
    forall t ensures ConditionOf(r1, t) == if t == "Applied" then Some(Condition(t, false, Failed, r.generation))
                                           else ConditionOf(r, t) {
      FindSet(r.status.conditions, Condition("Applied", false, Failed, r.generation), t);
    }
    forall t | t != "Applied" ensures ConditionOf(UpdateApplied(r1, Pipeline.Phases(hs)), t) == ConditionOf(r1, t) {
      AppliedElsewhere(r1, Pipeline.Phases(hs), t);
    }
    PassApplied(w, hs, r, c);
    assert !IsTrue(r, "ManifestResolved");
  }

  lemma LcmConfigFails(core: Charts.HelmManifest, r: Release)
    requires LcmConfig(core, r).Err?
    ensures LcmConfig(core, r).error.RuntimeConfigError?
  {
  }

  /** So does one after the manifest is resolved, unless a phase
      is in progress, or all are done, from an earlier pass. */
  lemma UpgradeRejected(w: World, hs: seq<Pipeline.Handler>, r: Release, c: Cluster)
    requires Enumerates(w.order) && Rejected(w, r, c)
    requires Upgrade(w, hs, r, c).outcome == Done
    ensures FalseFor(Upgrade(w, hs, r, c).release, "Applied", Failed)
  {
    var (k, m) := RetrieveManifest(w, r, c);
    var r1 := SetCondition(r, CONDITION_MANIFEST_RESOLVED, true, Succeeded);
    FindSet(r1.status.conditions, Condition("Applied", false, Failed, r.generation), "Applied");
  }

  lemma SameRejected(w: World, r: Release, r1: Release, c: Cluster, c1: Cluster)
    requires r1.name == r.name && r1.spec == r.spec && c1.cache == c.cache && c1.faults == c.faults
    ensures Rejected(w, r1, c1) <==> Rejected(w, r, c)
  {
  }

  /** Outside the pipeline, a pass from the manifest on is done only by a rejected configuration. */
  lemma UpgradeDone(w: World, hs: seq<Pipeline.Handler>, r: Release, c: Cluster)
    requires Enumerates(w.order) && UpgradeInput(w, r, c).None? && Upgrade(w, hs, r, c).outcome == Done
    ensures Rejected(w, r, c)
  {
  }

  /** The upgrade has come to an end that the user can see: the release is applied, or failed. */
  predicate Settled(r: Release) {
    IsTrue(r, "Applied") || FalseFor(r, "Applied", Failed)
  }

  /** When the controller stops repeating a pass, the release is applied or failed, exactly unless the configuration was
      rejected while a phase of an earlier pass is still shown as in progress, and none as failed. */
  lemma StopsOnlySettled(w: World, hs: seq<Pipeline.Handler>, r: Release, c: Cluster)
    requires Enumerates(w.order) && ProperHandlers(hs) && StatusInv(r, Pipeline.Phases(hs))
    requires ReleasePass(w, hs, r, c).outcome == Done
    ensures var final, phases := ReleasePass(w, hs, r, c).release, Pipeline.Phases(hs);
            Settled(final) <==>
            !(Rejected(w, r, c) && PipelineInput(w, r, c).None? && Running(final, phases) && !Failing(final, phases))
  {
    var phases := Pipeline.Phases(hs);
    PassAgreement(w, hs, r, c);
    PassApplied(w, hs, r, c);
    if PipelineInput(w, r, c).None? {
      if IsTrue(r, ConditionType(PHASE_LCM)) {
        UpgradeDone(w, hs, r, c);
        UpgradeRejected(w, hs, r, c);
      } else {
        LcmStopsSettled(w, hs, r, c);
      }
    }
  }

  lemma LcmGoneStops(w: World, hs: seq<Pipeline.Handler>, r: Release, c: Cluster, c1: Cluster)
    requires Enumerates(w.order) && c1.cache == c.cache && c1.faults == c.faults
    requires var r1 := UpdatePhase(r, PHASE_LCM, Succeeded);
             UpgradeInput(w, r1, c1).None? && Upgrade(w, hs, r1, c1).outcome == Done
    ensures Rejected(w, r, c)
            && FalseFor(Upgrade(w, hs, UpdatePhase(r, PHASE_LCM, Succeeded), c1).release, "Applied", Failed)
  {
    var r1 := UpdatePhase(r, PHASE_LCM, Succeeded);
    SameRejected(w, r, r1, c, c1);
    UpgradeDone(w, hs, r1, c1);
    UpgradeRejected(w, hs, r1, c1);
  }

  lemma LcmStopsSettled(w: World, hs: seq<Pipeline.Handler>, r: Release, c: Cluster)
    requires Enumerates(w.order) && r.status.observedGeneration == r.generation && Gated(r, Pipeline.Phases(hs))
    requires !IsTrue(r, ConditionType(PHASE_LCM)) && PipelineInput(w, r, c).None?
    requires ReleasePass(w, hs, r, c).outcome == Done
    ensures FalseFor(ReleasePass(w, hs, r, c).release, "Applied", Failed)
            || (Rejected(w, r, c) && FalseFor(Observed(w, hs, r, c).release, "Applied", Failed))
  {
    PassApplied(w, hs, r, c);
    if LcmConfig(w.lcm[r.spec.version], r).Err? {
      LcmRejected(w, hs, r, c);
    } else {
      var cfg := LcmConfig(w.lcm[r.spec.version], r).value;
      var (c1, state) := HelmPhase(c, cfg.GetOwner(), true, cfg.helmCharts);
      if state == Ok(Succeeded) {
        HelmTouchesCharts(c, cfg.GetOwner(), true, cfg.helmCharts);
        LcmGoneStops(w, hs, r, c, c1);
      } else {
        LcmShown(w, hs, r, c, cfg);
      }
    }
  }

  // ---------------------------------------------------------------- failures reach the user

  /** The plan is stored and failed, and every plan before it is done. */
  ghost predicate FailedFirst(c: Cluster, plans: seq<Plan>, p: nat) {
    && p < |plans| && (forall j | 0 <= j < p :: PlanDone(c, plans[j], None))
    && plans[p].name in c.plans && PlanFailed(c.plans[plans[p].name])
  }

  lemma FailedPlanFailsPhase(c: Cluster, cfg: Config, p: nat)
    requires cfg.os.Some? && OsPhase(c, cfg).1.Ok? && FailedFirst(c, OsPlans(cfg, c.nodes), p)
    ensures OsPhase(c, cfg).1 == Ok(Failed)
  {
    var plans, s := OsPlans(cfg, c.nodes), OsPhase(c, cfg).1.value;
    OsPhaseVerdict(c, cfg);
    PlanStateExact(c.plans[plans[p].name]);
    assert !PlanDone(c, plans[p], None) && plans[p] in plans;
    var q: nat :| StoppedAt(c, plans, None, s, q);
    assert q == p;
  }

  lemma FirstHandler(hash: Hash, order: MapOrder, c: Cluster, cfg: Config)
    requires Enumerates(order)
    ensures var h := RealHandlers(hash, order)[0]; h.reconcile(c, cfg) == OsPhase(c, cfg)
    ensures ConditionType(RealHandlers(hash, order)[0].phase) == "OSUpgraded"
  {
  }

  /** A plan of the operating system that failed, with every plan before it done, fails the release: the phase and
      Applied are shown as failed. */
  lemma FailedPlanFailsRelease(w: World, hash: Hash, hs: seq<Pipeline.Handler>, r: Release, c: Cluster, i: Input,
                               p: nat)
    requires Enumerates(w.order) && PipelineInput(w, r, c) == Some(i) && hs == RealHandlers(hash, w.order)
    requires i.cfg.os.Some? && OsPhase(i.cluster, i.cfg).1.Ok?
    requires FailedFirst(i.cluster, OsPlans(i.cfg, i.cluster.nodes), p)
    ensures var final := ReleasePass(w, hs, r, c).release;
            FalseFor(final, "OSUpgraded", Failed) && FalseFor(final, "Applied", Failed)
  {
    FailedPlanFailsPhase(i.cluster, i.cfg, p);
    RealHandlersProper(hash, w.order);
    FirstHandler(hash, w.order, i.cluster, i.cfg);
    FirstPhaseFails(w, hs, r, c, i);
  }

  lemma FailedReportFails(r: Release, report: Pipeline.Report, mid: Release, final: Release, phases: seq<Phase>)
    requires report.phase in phases && report.state == Failed && ReportsShown(r, [report], final)
    requires IsTrue(r, "ManifestResolved") && AppliedShows(mid, final, phases)
    ensures FalseFor(final, ConditionType(report.phase), Failed) && FalseFor(final, "Applied", Failed)
  {
    var reports := [report];
    ConditionTypeInjective(report.phase, report.phase);
    assert ConditionOf(final, ConditionType(reports[0].phase)).value.reason == Failed;
    forall i | 0 <= i < |reports| ensures "ManifestResolved" != ConditionType(reports[i].phase) {
    }
  }

  lemma FirstPhaseFails(w: World, hs: seq<Pipeline.Handler>, r: Release, c: Cluster, i: Input)
    requires Enumerates(w.order) && ProperHandlers(hs) && PipelineInput(w, r, c) == Some(i)
    requires hs[0].reconcile(i.cluster, i.cfg).1 == Ok(Failed)
    ensures var final := ReleasePass(w, hs, r, c).release;
            FalseFor(final, ConditionType(hs[0].phase), Failed) && FalseFor(final, "Applied", Failed)
  {
    var run, report := Pipeline.RunPipeline(hs, i.cfg, i.cluster), Pipeline.Report(hs[0].phase, Failed);
    assert run.reports == [report] && run.failed.None?;
    PassShown(w, hs, r, c);
    InputShown(w, r, c);
    PassApplied(w, hs, r, c);
    assert Pipeline.Phases(hs)[0] in Pipeline.Phases(hs);
    FailedReportFails(i.release, report, Observed(w, hs, r, c).release, ReleasePass(w, hs, r, c).release,
                      Pipeline.Phases(hs));
  }

  // ---------------------------------------------------------------- a new generation

  lemma {:induction false} PendingInOrder(r: Release, types: seq<string>)
    requires forall i, j | 0 <= i < j < |types| :: types[i] != types[j]
    requires forall t | t in types :: ConditionOf(r, t).None?
    ensures AddAllPending(r, types).status.conditions
            == r.status.conditions + seq(|types|, i requires 0 <= i < |types| =>
                                           Condition(types[i], false, Pending, r.generation))
    decreases |types|
  {
    if types != [] {
      var c := Condition(types[0], false, Pending, r.generation);
      var r1 := AddPending(r, types[0]);
      assert types[0] in types;
      NotFound(r.status.conditions, types[0]);
      SetAt(r.status.conditions, c, |r.status.conditions|);
      forall t | t in types[1..] ensures ConditionOf(r1, t).None? {
        var j :| 0 <= j < |types[1..]| && types[1..][j] == t;
        assert types[0] != types[j + 1] && t in types;
        FindSet(r.status.conditions, c, t);
      }
      PendingInOrder(r1, types[1..]);
      assert types == [types[0]] + types[1..];
    }
  }

  lemma {:induction false} NotFound(conds: seq<Condition>, t: string)
    requires Find(conds, t).None?
    ensures forall i | 0 <= i < |conds| :: conds[i].ctype != t
  {
    if conds != [] {
      NotFound(conds[1..], t);
    }
  }

  /** The first pass over a generation lists every condition as pending, LCM first, then the manifest, the phases in the
      order of the pipeline and Applied; it touches nothing else, keeps the applied version, and is repeated soon. */
  lemma ResetShown(w: World, hs: seq<Pipeline.Handler>, r: Release, c: Cluster)
    requires Enumerates(w.order) && ProperHandlers(hs) && r.status.observedGeneration != r.generation
    ensures var pass, phases := ReleasePass(w, hs, r, c), Pipeline.Phases(hs);
            var types := ["LCMUpgraded", "ManifestResolved"] + seq(|phases|, i requires 0 <= i < |phases| =>
                                                                     phases[i] + "Upgraded") + ["Applied"];
            && pass.cluster == c && pass.outcome == RequeueSoon
            && pass.release == r.(status := Status(r.status.version, pass.release.status.conditions, r.generation))
            && pass.release.status.conditions == seq(|types|, i requires 0 <= i < |types| =>
                                                       Condition(types[i], false, Pending, r.generation))
  {
    var phases := Pipeline.Phases(hs);
    var blank := r.(status := r.status.(observedGeneration := r.generation, conditions := []));
    TypesDiffer([PHASE_LCM] + phases);
    var types := AllTypes(phases);
    forall i, j | 0 <= i < j < |types| ensures types[i] != types[j] {
      assert types[0] == ConditionType(PHASE_LCM) && types[|types| - 1] == CONDITION_APPLIED;
      assert forall k | 2 <= k < |types| - 1 :: types[k] == ConditionType(phases[k - 2]);
    }
    PendingInOrder(blank, types);
    PendingKeeps(blank, types);
    TypesInOrder(phases);
    assert Reset(r, phases) == AddAllPending(blank, types);
  }

  lemma TypesInOrder(phases: seq<Phase>)
    ensures AllTypes(phases)
            == ["LCMUpgraded", "ManifestResolved"]
               + seq(|phases|, i requires 0 <= i < |phases| => phases[i] + "Upgraded") + ["Applied"]
  {
    FixedTypes();
    assert PhaseTypes(phases) == seq(|phases|, i requires 0 <= i < |phases| => phases[i] + "Upgraded");
    assert [ConditionType(PHASE_LCM), CONDITION_MANIFEST_RESOLVED] == ["LCMUpgraded", "ManifestResolved"];
  }

  lemma {:induction false} PendingKeeps(r: Release, types: seq<string>)
    ensures var r' := AddAllPending(r, types); r' == r.(status := r.status.(conditions := r'.status.conditions))
    decreases |types|
  {
    if types != [] {
      PendingKeeps(AddPending(r, types[0]), types[1..]);
    }
  }
}
