/** Versions whose sanitized forms are equal: the plans of one cannot be told from those of the other, and an upgrade
    from one to the other never ends. */
module Collisions {
  import opened Wrappers
  import opened Charts
  import opened Api
  import opened Conditions
  import opened Clusters
  import opened HelmReconciler
  import opened ManifestCache
  import opened ReleaseConfig
  import opened Plans
  import opened PackagedComponents
  import opened Kubernetes
  import opened Controller
  import opened StatusMachine
  import opened Handlers
  import opened PlanCleanup
  import opened Progress
  import opened Effects
  import opened Convergence
  import Pipeline

  // ---------------------------------------------------------------- versions that cannot be told apart

  /** A plan is missing, and once created it would be taken for a plan of the version applied before. */
  predicate Trapped(g: Goal, r: Release, c: Cluster) {
    !PlansSettle(g, r, c)
  }

  /** Every plan that the pass over `r` and `c` leaves was there after the cleanup, or is labelled for the release. */
  predicate OwnOrKept(r: Release, c: Cluster, c': Cluster) {
    forall n | n in c'.plans :: n in Cleaned(r, c).plans || HasLabels(c'.plans[n].labels, OwnerLabels(OwnerOf(r)))
  }

  /** The next cleanup removes every plan that was created. */
  lemma NothingGained(g: Goal, r: Release, c: Cluster, c': Cluster, c'': Cluster)
    requires !VersionsApart(r) && OwnOrKept(r, c, c') && Completed(g, c', c'')
    ensures forall n | n in Cleaned(r, c'').plans :: n in Cleaned(r, c).plans
  {
    assert OwnerLabels(Owner(r.name, r.status.version)) == OwnerLabels(OwnerOf(r));
  }

  /** So the plans stay missing. */
  lemma StaysMissing(g: Goal, r: Release, r': Release, c: Cluster, c': Cluster, c'': Cluster)
    requires Trapped(g, r, c) && OwnOrKept(r, c, c') && c'.nodes == c.nodes && Completed(g, c', c'')
    requires r'.name == r.name && r'.spec == r.spec && r'.status.version == r.status.version
    ensures Trapped(g, r', c'')
  {
    NothingGained(g, r, c, c', c'');
    assert Cleaned(r', c'') == Cleaned(r, c'');
    RequiredSame(g.cfg, c.nodes, c''.nodes);
    MissingLess(Required(g.cfg, c.nodes), Cleaned(r, c'').plans, Cleaned(r, c).plans);
  }

  /** A pass that leaves the plans alone. */
  lemma PlansUntouchedOwn(r: Release, c: Cluster, c': Cluster)
    requires !VersionsApart(r) && c'.plans == c.plans
    ensures OwnOrKept(r, c, c')
  {
    assert OwnerLabels(Owner(r.name, r.status.version)) == OwnerLabels(OwnerOf(r));
  }

  /** No pass ends the pipeline while a plan is missing. */
  lemma TrappedEffect(g: Goal, r: Release, c: Cluster, c': Cluster, ended: bool, cached: bool)
    requires Trapped(g, r, c) && g.cfg.GetOwner() == OwnerOf(r) && GoalEffect(g, Cleaned(r, c), c', ended, cached)
    ensures !ended && OwnOrKept(r, c, c') && c'.nodes == c.nodes
  {
    RequiredLabels(g.cfg, c.nodes);
    CountNone(Required(g.cfg, c.nodes), (p: Plan) => p.name !in Cleaned(r, c).plans);
  }

  lemma TrappedUpgrade(g: Goal, w: World, hs: seq<Pipeline.Handler>, r: Release, c: Cluster, pass: Pass, ended: bool,
                       m': Moment)
    requires Resolves(w, r, c, g) && PassEffect(g, hs, r, c, pass, ended) && Trapped(g, r, c)
    requires m'.release == UpdateApplied(pass.release, Pipeline.Phases(hs)) && Completed(g, pass.cluster, m'.cluster)
    ensures Trapped(g, m'.release, m'.cluster)
  {
    ResolvedGoal(w, r, c, g);
    TrappedEffect(g, r, c, pass.cluster, ended, InCache(c, r.spec.version).Some?);
    StaysMissing(g, r, m'.release, c, pass.cluster, m'.cluster);
  }

  lemma TrappedAfterLcm(g: Goal, w: World, hash: Hash, m: Moment, c1: Cluster, m': Moment)
    requires Enumerates(w.order) && Ready(g, w, hash, m) && OnlyRead(m.cluster, c1)
    requires m.release.status.observedGeneration == m.release.generation && !IsTrue(m.release, ConditionType(PHASE_LCM))
    requires Trapped(g, m.release, m.cluster)
    requires var hs := RealHandlers(hash, w.order);
             var pass := Upgrade(w, hs, UpdatePhase(m.release, PHASE_LCM, Succeeded), c1);
             m'.release == UpdateApplied(pass.release, Pipeline.Phases(hs)) && Completed(g, pass.cluster, m'.cluster)
    ensures Trapped(g, m'.release, m'.cluster)
  {
    var hs, r1 := RealHandlers(hash, w.order), UpdatePhase(m.release, PHASE_LCM, Succeeded);
    RealPhases(hash, w.order);
    var ended := LcmThenUpgrade(g, w, hash, hs, m.release, m.cluster, c1);
    SameSettle(g, m.release, r1, m.cluster, c1);
    TrappedUpgrade(g, w, hs, r1, c1, Upgrade(w, hs, r1, c1), ended, m');
  }

  lemma TrappedInLcm(g: Goal, m: Moment, c1: Cluster, s: State, m': Moment)
    requires Gated(m.release, REAL_PHASES) && !IsTrue(m.release, ConditionType(PHASE_LCM)) && s in {InProgress, Skipped}
    requires m'.release == UpdateApplied(UpdatePhase(m.release, PHASE_LCM, s), REAL_PHASES)
    requires c1.plans == m.cluster.plans && c1.nodes == m.cluster.nodes && Completed(g, c1, m'.cluster)
    requires Trapped(g, m.release, m.cluster)
    ensures Trapped(g, m'.release, m'.cluster)
  {
    LcmKeepsRest(m.release, s);
    PlansUntouchedOwn(m.release, m.cluster, c1);
    StaysMissing(g, m.release, m'.release, m.cluster, c1, m'.cluster);
  }

  lemma TrappedLcm(g: Goal, w: World, hash: Hash, m: Moment, m': Moment)
    requires Enumerates(w.order) && Ready(g, w, hash, m) && Step(g, w, hash, m, m')
    requires m.release.status.observedGeneration == m.release.generation && !IsTrue(m.release, ConditionType(PHASE_LCM))
    requires Trapped(g, m.release, m.cluster)
    ensures Trapped(g, m'.release, m'.cluster)
  {
    RealPhases(hash, w.order);
    var i, c1, s := LcmCases(g, w, hash, m);
    if s == Succeeded {
      TrappedAfterLcm(g, w, hash, m, c1, m');
    } else {
      TrappedInLcm(g, m, c1, s, m');
    }
  }

  ghost predicate InTrap(g: Goal, w: World, hash: Hash, m: Moment)
    requires Enumerates(w.order)
  {
    Ready(g, w, hash, m) && Trapped(g, m.release, m.cluster)
  }

  lemma TrappedStep(g: Goal, w: World, hash: Hash, m: Moment, m': Moment)
    requires Enumerates(w.order) && InTrap(g, w, hash, m) && Step(g, w, hash, m, m')
    ensures InTrap(g, w, hash, m')
  {
    var hs := RealHandlers(hash, w.order);
    RealPhases(hash, w.order);
    StepKeepsReady(g, w, hash, m, m');
    if m.release.status.observedGeneration != m.release.generation {
      ResetPending(m.release, Pipeline.Phases(hs));
      PlansUntouchedOwn(m.release, m.cluster, m.cluster);
      StaysMissing(g, m.release, m'.release, m.cluster, m.cluster, m'.cluster);
    } else if IsTrue(m.release, ConditionType(PHASE_LCM)) {
      var ended := UpgradeEffect(g, w, hash, hs, m.release, m.cluster);
      TrappedUpgrade(g, w, hs, m.release, m.cluster, Upgrade(w, hs, m.release, m.cluster), ended, m');
    } else {
      TrappedLcm(g, w, hash, m, m');
    }
  }

  /** A release with such a plan is never applied: each pass deletes, as a plan of the version applied before, the plan
      that the pass before created. */
  lemma {:induction false} StaysTrapped(g: Goal, w: World, hash: Hash, run: nat -> Moment, i: nat, n: nat)
    requires Enumerates(w.order) && i <= n && InTrap(g, w, hash, run(i)) && forall k: nat :: StepAt(g, w, hash, run, k)
    ensures InTrap(g, w, hash, run(n)) && !Applied(run(n).release)
    decreases n - i
  {
    if i < n {
      assert StepAt(g, w, hash, run, i);
      TrappedStep(g, w, hash, run(i), run(i + 1));
      StaysTrapped(g, w, hash, run, i + 1, n);
    }
  }
}
