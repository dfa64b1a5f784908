/** The whole system over time: reconcile passes, admitted edits and everything the cluster does on its own. */
module System {
  import opened Wrappers
  import opened Api
  import opened Conditions
  import opened Clusters
  import opened HelmReconciler
  import opened ReleaseConfig
  import opened PackagedComponents
  import opened Controller
  import opened StatusMachine
  import opened Webhook
  import Pipeline

  datatype Sys = Sys(releases: map<string, Release>, cluster: Cluster, world: World, secrets: Secrets)

  // ---------------------------------------------------------------- steps

  predicate Start(s: Sys) {
    s.releases == map[]
  }

  /** A reconcile pass over one Release, including the status update. */
  ghost predicate PassStep(hs: seq<Pipeline.Handler>, s: Sys, s': Sys) {
    && Enumerates(s.world.order)
    && exists n :: n in s.releases
         && s' == s.(releases := s.releases[n := ReleasePass(s.world, hs, s.releases[n], s.cluster).release],
                     cluster := ReleasePass(s.world, hs, s.releases[n], s.cluster).cluster)
  }

  /** An admitted creation. */
  ghost predicate CreateStep(vs: Versions, s: Sys, s': Sys) {
    exists n, spec ::
      && ValidateCreate(vs, s.secrets, s.releases.Keys, spec).None?
      && s' == s.(releases := s.releases[n := Release(n, 1, spec, Status("", [], 0))])
  }

  /** An edit of the spec starts a new generation. */
  function Edited(r: Release, spec: Spec): Release {
    if spec == r.spec then r else r.(spec := spec, generation := r.generation + 1)
  }

  /** An admitted edit. */
  ghost predicate EditStep(vs: Versions, s: Sys, s': Sys) {
    exists n, spec :: n in s.releases
      && ValidateUpdate(vs, s.secrets, s.releases[n], spec).None?
      && s' == s.(releases := s.releases[n := Edited(s.releases[n], spec)])
  }

  /** An admitted deletion. */
  ghost predicate DeleteStep(s: Sys, s': Sys) {
    exists n :: n in s.releases && ValidateDelete(s.releases[n]).None? && s' == s.(releases := s.releases - {n})
  }

  /** Anything may happen to the cluster, the registry and the secrets, but nothing else writes a Release. */
  predicate EnvironmentStep(s: Sys, s': Sys) {
    s'.releases == s.releases
  }

  ghost predicate Next(hs: seq<Pipeline.Handler>, vs: Versions, s: Sys, s': Sys) {
    PassStep(hs, s, s') || CreateStep(vs, s, s') || EditStep(vs, s, s') || DeleteStep(s, s') || EnvironmentStep(s, s')
  }

  ghost predicate IsRun(hs: seq<Pipeline.Handler>, vs: Versions, run: seq<Sys>) {
    run != [] && Start(run[0]) && forall i | 0 <= i < |run| - 1 :: Next(hs, vs, run[i], run[i + 1])
  }

  // ---------------------------------------------------------------- invariant

  /** The wanted version is the applied one or newer. */
  predicate VersionInv(vs: Versions, r: Release) {
    r.status.version == "" || r.spec.version == r.status.version || Newer(vs, r.spec.version, r.status.version)
  }

  predicate ObservedBound(r: Release) {
    r.status.observedGeneration <= r.generation
  }

  ghost predicate Inv(hs: seq<Pipeline.Handler>, vs: Versions, s: Sys) {
    && |s.releases| <= 1
    && forall n | n in s.releases ::
         && s.releases[n].generation >= 1 && ObservedBound(s.releases[n])
         && StatusInv(s.releases[n], Pipeline.Phases(hs)) && VersionInv(vs, s.releases[n])
  }

  // ---------------------------------------------------------------- what a pass does to the version

  /** `r'` has the identity and spec of `r`, and its version is kept or becomes the wanted one. */
  predicate VersionMove(r: Release, r': Release) {
    SameSpec(r, r') && (r'.status.version == r.status.version || r'.status.version == r.spec.version)
  }

  lemma {:induction false} ReportsKeepVersion(r: Release, reports: seq<Pipeline.Report>)
    ensures SameSpec(r, UpdateReported(r, reports)) && UpdateReported(r, reports).status.version == r.status.version
    decreases |reports|
  {
    if reports != [] {
      ReportsKeepVersion(UpdatePhase(r, reports[0].phase, reports[0].state), reports[1..]);
    }
  }

  lemma ApplyMoves(hs: seq<Pipeline.Handler>, r: Release, c: Cluster, cfg: Config)
    requires cfg.releaseVersion == r.spec.version
    ensures VersionMove(r, ApplyConfig(hs, r, c, cfg).release)
  {
    ReportsKeepVersion(r, Pipeline.RunPipeline(hs, cfg, c).reports);
  }

  lemma UpgradeMoves(w: World, hs: seq<Pipeline.Handler>, r: Release, c: Cluster)
    requires Enumerates(w.order)
    ensures VersionMove(r, Upgrade(w, hs, r, c).release)
  {
    var (k, m) := RetrieveManifest(w, r, c);
    if m.Some? {
      var r1 := SetCondition(r, CONDITION_MANIFEST_RESOLVED, true, Succeeded);
      var (c1, cfg) := ParseConfig(k, m.value, r1);
      if cfg.Ok? {
        ApplyMoves(hs, r1, c1, cfg.value);
        ApplyMoves(hs, r1, Cleanup(c1, Owner(r1.name, r1.status.version), w.order).0, cfg.value);
      }
    }
  }

  lemma AfterLcmMoves(w: World, hs: seq<Pipeline.Handler>, r: Release, c: Cluster, state: Result<State, Error>)
    requires Enumerates(w.order)
    ensures VersionMove(r, AfterLcm(w, hs, r, c, state).release)
  {
    if state.Ok? {
      UpgradeMoves(w, hs, UpdatePhase(r, PHASE_LCM, state.value), c);
    }
  }

  lemma ObservedMoves(w: World, hs: seq<Pipeline.Handler>, r: Release, c: Cluster)
    requires Enumerates(w.order)
    ensures VersionMove(r, Observed(w, hs, r, c).release)
  {
    UpgradeMoves(w, hs, r, c);
    if !IsTrue(r, ConditionType(PHASE_LCM)) && r.spec.version in w.lcm && LcmConfig(w.lcm[r.spec.version], r).Ok? {
      var cfg := LcmConfig(w.lcm[r.spec.version], r).value;
      var (c1, state) := HelmPhase(c, cfg.GetOwner(), true, cfg.helmCharts);
      AfterLcmMoves(w, hs, r, c1, state);
    }
  }

  lemma PassMoves(w: World, hs: seq<Pipeline.Handler>, r: Release, c: Cluster)
    requires Enumerates(w.order)
    ensures var r' := ReleasePass(w, hs, r, c).release;
            && r'.name == r.name && r'.spec == r.spec && r'.generation == r.generation
            && (ObservedBound(r) ==> ObservedBound(r'))
            && (r'.status.version == r.status.version || r'.status.version == r.spec.version)
  {
    ResetPending(r, Pipeline.Phases(hs));
    ObservedMoves(w, hs, r, c);
  }

  // ---------------------------------------------------------------- every run is safe

  lemma PassKeepsInv(hs: seq<Pipeline.Handler>, vs: Versions, s: Sys, s': Sys)
    requires ProperHandlers(hs) && Inv(hs, vs, s) && PassStep(hs, s, s')
    ensures Inv(hs, vs, s')
  {
    var n :| n in s.releases
      && s' == s.(releases := s.releases[n := ReleasePass(s.world, hs, s.releases[n], s.cluster).release],
                  cluster := ReleasePass(s.world, hs, s.releases[n], s.cluster).cluster);
    assert s'.releases.Keys == s.releases.Keys;
    PassKeepsStatus(s.world, hs, s.releases[n], s.cluster);
    PassMoves(s.world, hs, s.releases[n], s.cluster);
  }

  lemma EditKeepsInv(hs: seq<Pipeline.Handler>, vs: Versions, s: Sys, s': Sys)
    requires Signs(vs) && Inv(hs, vs, s) && EditStep(vs, s, s')
    ensures Inv(hs, vs, s')
  {
    var n, spec :| n in s.releases && ValidateUpdate(vs, s.secrets, s.releases[n], spec).None?
                   && s' == s.(releases := s.releases[n := Edited(s.releases[n], spec)]);
    assert s'.releases.Keys == s.releases.Keys;
    AdmittedUpdate(vs, s.secrets, s.releases[n], spec);
    EditKeeps(hs, vs, s.releases[n], spec);
  }

  lemma NextKeepsInv(hs: seq<Pipeline.Handler>, vs: Versions, s: Sys, s': Sys)
    requires ProperHandlers(hs) && Signs(vs) && Inv(hs, vs, s) && Next(hs, vs, s, s')
    ensures Inv(hs, vs, s')
  {
    if PassStep(hs, s, s') {
      PassKeepsInv(hs, vs, s, s');
    } else if EditStep(vs, s, s') {
      EditKeepsInv(hs, vs, s, s');
    } else if CreateStep(vs, s, s') {
      assert s.releases.Keys == {};
    }
  }

  /** An edit leaves the observed generation behind, so nothing is claimed until the next pass resets the conditions. */
  lemma EditKeeps(hs: seq<Pipeline.Handler>, vs: Versions, r: Release, spec: Spec)
    requires StatusInv(r, Pipeline.Phases(hs)) && ObservedBound(r)
    requires r.status.version == "" || Newer(vs, spec.version, r.status.version)
    ensures StatusInv(Edited(r, spec), Pipeline.Phases(hs)) && VersionInv(vs, Edited(r, spec))
  {
  }

  /** In every state of every run there is at most one Release; its wanted version is the applied one or newer; and in
      an observed generation the gates were passed in order and a true Applied condition means that LCM, the manifest
      and every phase are true and the wanted version is recorded. */
  lemma {:induction false} RunIsSafe(hs: seq<Pipeline.Handler>, vs: Versions, run: seq<Sys>, i: nat)
    requires ProperHandlers(hs) && Signs(vs) && IsRun(hs, vs, run) && i < |run|
    ensures Inv(hs, vs, run[i])
    decreases i
  {
    if i > 0 {
      RunIsSafe(hs, vs, run, i - 1);
      assert Next(hs, vs, run[i - 1], run[i - 1 + 1]);
      NextKeepsInv(hs, vs, run[i - 1], run[i]);
    }
  }

  // ---------------------------------------------------------------- the applied version only grows

  predicate Grown(vs: Versions, before: string, after: string) {
    before == "" || after == before || Newer(vs, after, before)
  }

  lemma CreateNeedsNone(vs: Versions, s: Sys, s': Sys)
    ensures CreateStep(vs, s, s') ==> s.releases.Keys == {}
  {
  }

  lemma StepGrows(hs: seq<Pipeline.Handler>, vs: Versions, s: Sys, s': Sys, n: string)
    requires Signs(vs) && Inv(hs, vs, s) && VersionsGiven(s) && Next(hs, vs, s, s') && n in s.releases
    ensures n in s'.releases && Grown(vs, s.releases[n].status.version, s'.releases[n].status.version)
    ensures s.releases[n].status.version != "" ==> s'.releases[n].status.version != ""
    ensures s'.releases[n].generation >= s.releases[n].generation
  {
    CreateNeedsNone(vs, s, s');
    if PassStep(hs, s, s') {
      var m :| m in s.releases
        && s' == s.(releases := s.releases[m := ReleasePass(s.world, hs, s.releases[m], s.cluster).release],
                    cluster := ReleasePass(s.world, hs, s.releases[m], s.cluster).cluster);
      PassMoves(s.world, hs, s.releases[m], s.cluster);
    }
  }

  /** The wanted version is never empty. */
  ghost predicate VersionsGiven(s: Sys) {
    forall n | n in s.releases :: s.releases[n].spec.version != ""
  }

  lemma {:induction false} RunGivesVersions(hs: seq<Pipeline.Handler>, vs: Versions, run: seq<Sys>, i: nat)
    requires IsRun(hs, vs, run) && i < |run|
    ensures VersionsGiven(run[i])
    decreases i
  {
    if i > 0 {
      RunGivesVersions(hs, vs, run, i - 1);
      var s, s' := run[i - 1], run[i - 1 + 1];
      assert Next(hs, vs, s, s');
      if PassStep(hs, s, s') {
        var m :| m in s.releases
          && s' == s.(releases := s.releases[m := ReleasePass(s.world, hs, s.releases[m], s.cluster).release],
                      cluster := ReleasePass(s.world, hs, s.releases[m], s.cluster).cluster);
        PassMoves(s.world, hs, s.releases[m], s.cluster);
      }
    }
  }

  /** What a step does to the Release `n`: it stays, its applied version does not shrink, and within an observed
      generation LCMUpgraded stays true and the phases move only if the manifest is resolved then. */
  ghost predicate StepFacts(hs: seq<Pipeline.Handler>, vs: Versions, s: Sys, s': Sys, n: string)
    requires n in s.releases
  {
    && n in s'.releases
    && var r, r' := s.releases[n], s'.releases[n];
       && Grown(vs, r.status.version, r'.status.version)
       && (r.status.version != "" ==> r'.status.version != "")
       && (r.status.observedGeneration == r.generation == r'.generation ==>
             && (IsTrue(r, ConditionType(PHASE_LCM)) ==> IsTrue(r', ConditionType(PHASE_LCM)))
             && (PhasesUntouched(r, r', Pipeline.Phases(hs)) || IsTrue(r', CONDITION_MANIFEST_RESOLVED)))
  }

  lemma StepWithinGeneration(hs: seq<Pipeline.Handler>, vs: Versions, s: Sys, s': Sys, n: string)
    requires ProperHandlers(hs) && Signs(vs) && Inv(hs, vs, s) && Next(hs, vs, s, s')
    requires n in s.releases && n in s'.releases && s'.releases[n].generation == s.releases[n].generation
    requires s.releases[n].status.observedGeneration == s.releases[n].generation
    ensures var r, r' := s.releases[n], s'.releases[n];
            && (IsTrue(r, ConditionType(PHASE_LCM)) ==> IsTrue(r', ConditionType(PHASE_LCM)))
            && (PhasesUntouched(r, r', Pipeline.Phases(hs)) || IsTrue(r', CONDITION_MANIFEST_RESOLVED))
  {
    CreateNeedsNone(vs, s, s');
    if PassStep(hs, s, s') {
      var m :| m in s.releases
        && s' == s.(releases := s.releases[m := ReleasePass(s.world, hs, s.releases[m], s.cluster).release],
                    cluster := ReleasePass(s.world, hs, s.releases[m], s.cluster).cluster);
      if m == n {
        PassKeepsGates(s.world, hs, s.releases[n], s.cluster);
      }
    } else if EditStep(vs, s, s') {
      var m, spec :| m in s.releases && s' == s.(releases := s.releases[m := Edited(s.releases[m], spec)]);
    }
  }

  ghost predicate FactRun(hs: seq<Pipeline.Handler>, vs: Versions, run: seq<Sys>) {
    forall k, n | 0 <= k < |run| - 1 && n in run[k].releases :: StepFacts(hs, vs, run[k], run[k + 1], n)
  }

  lemma RunFacts(hs: seq<Pipeline.Handler>, vs: Versions, run: seq<Sys>)
    requires ProperHandlers(hs) && Signs(vs) && IsRun(hs, vs, run)
    ensures FactRun(hs, vs, run)
  {
    forall k, n | 0 <= k < |run| - 1 && n in run[k].releases ensures StepFacts(hs, vs, run[k], run[k + 1], n) {
      RunIsSafe(hs, vs, run, k);
      RunGivesVersions(hs, vs, run, k);
      FactsOfStep(hs, vs, run[k], run[k + 1], n);
    }
  }

  lemma FactsOfStep(hs: seq<Pipeline.Handler>, vs: Versions, s: Sys, s': Sys, n: string)
    requires ProperHandlers(hs) && Signs(vs) && Inv(hs, vs, s) && VersionsGiven(s) && Next(hs, vs, s, s')
             && n in s.releases
    ensures StepFacts(hs, vs, s, s', n)
  {
    StepGrows(hs, vs, s, s', n);
    if s.releases[n].status.observedGeneration == s.releases[n].generation == s'.releases[n].generation {
      StepWithinGeneration(hs, vs, s, s', n);
    }
  }

  lemma {:induction false} FactsGrow(hs: seq<Pipeline.Handler>, vs: Versions, run: seq<Sys>, i: nat, j: nat, n: string)
    requires Ordered(vs) && FactRun(hs, vs, run) && i <= j < |run| && n in run[i].releases
    ensures n in run[j].releases && Grown(vs, run[i].releases[n].status.version, run[j].releases[n].status.version)
    ensures run[i].releases[n].status.version != "" ==> run[j].releases[n].status.version != ""
    decreases j - i
  {
    if i < j {
      FactsGrow(hs, vs, run, i, j - 1, n);
      assert StepFacts(hs, vs, run[j - 1], run[j - 1 + 1], n);
    }
  }

  /** A Release once created stays, and its applied version never shrinks: later it is the same or a newer one. */
  lemma VersionNeverShrinks(hs: seq<Pipeline.Handler>, vs: Versions, run: seq<Sys>, i: nat, j: nat, n: string)
    requires ProperHandlers(hs) && Signs(vs) && Ordered(vs) && IsRun(hs, vs, run) && i <= j < |run|
             && n in run[i].releases
    ensures n in run[j].releases && Grown(vs, run[i].releases[n].status.version, run[j].releases[n].status.version)
  {
    RunFacts(hs, vs, run);
    FactsGrow(hs, vs, run, i, j, n);
  }

  // ---------------------------------------------------------------- gates over a generation

  /** The Release `n` is in the same observed generation at all of these states. */
  ghost predicate SameGeneration(run: seq<Sys>, i: nat, j: nat, n: string) {
    i <= j < |run| && n in run[i].releases && forall k | i <= k <= j ::
      && n in run[k].releases
      && run[k].releases[n].generation == run[i].releases[n].generation
      && run[k].releases[n].status.observedGeneration == run[k].releases[n].generation
  }

  lemma {:induction false} FactsKeepLcm(hs: seq<Pipeline.Handler>, vs: Versions, run: seq<Sys>, i: nat, j: nat,
                                        n: string)
    requires FactRun(hs, vs, run) && SameGeneration(run, i, j, n)
             && IsTrue(run[i].releases[n], ConditionType(PHASE_LCM))
    ensures IsTrue(run[j].releases[n], ConditionType(PHASE_LCM))
    decreases j - i
  {
    if i < j {
      FactsKeepLcm(hs, vs, run, i, j - 1, n);
      assert StepFacts(hs, vs, run[j - 1], run[j - 1 + 1], n);
    }
  }

  /** LCMUpgraded, once true, stays true for the rest of the generation. */
  lemma LcmStaysTrue(hs: seq<Pipeline.Handler>, vs: Versions, run: seq<Sys>, i: nat, j: nat, n: string)
    requires ProperHandlers(hs) && Signs(vs) && IsRun(hs, vs, run) && SameGeneration(run, i, j, n)
    requires IsTrue(run[i].releases[n], ConditionType(PHASE_LCM))
    ensures IsTrue(run[j].releases[n], ConditionType(PHASE_LCM))
  {
    RunFacts(hs, vs, run);
    FactsKeepLcm(hs, vs, run, i, j, n);
  }

  lemma {:induction false} FactsGatePhase(hs: seq<Pipeline.Handler>, vs: Versions, run: seq<Sys>, i: nat, j: nat,
                                          n: string, p: Phase) returns (k: nat)
    requires FactRun(hs, vs, run) && SameGeneration(run, i, j, n) && p in Pipeline.Phases(hs)
    requires IsPending(run[i].releases[n], ConditionType(p)) && !IsPending(run[j].releases[n], ConditionType(p))
    ensures i < k <= j && IsTrue(run[k].releases[n], CONDITION_MANIFEST_RESOLVED)
    decreases j - i
  {
    if i < j && !IsPending(run[j - 1].releases[n], ConditionType(p)) {
      k := FactsGatePhase(hs, vs, run, i, j - 1, n, p);
    } else {
      k := j;
      assert StepFacts(hs, vs, run[j - 1], run[j - 1 + 1], n);
    }
  }

  /** When a phase condition left Pending, the manifest had been resolved by then. */
  lemma PhaseNeedsManifest(hs: seq<Pipeline.Handler>, vs: Versions, run: seq<Sys>, i: nat, j: nat, n: string, p: Phase)
    returns (k: nat)
    requires ProperHandlers(hs) && Signs(vs) && IsRun(hs, vs, run) && SameGeneration(run, i, j, n)
    requires p in Pipeline.Phases(hs)
    requires IsPending(run[i].releases[n], ConditionType(p)) && !IsPending(run[j].releases[n], ConditionType(p))
    ensures i < k <= j && IsTrue(run[k].releases[n], CONDITION_MANIFEST_RESOLVED)
  {
    RunFacts(hs, vs, run);
    k := FactsGatePhase(hs, vs, run, i, j, n, p);
  }
}
