/** One reconcile pass over a Release (internal/controller/release_controller.go). */
module Controller {
  import opened Wrappers
  import opened Charts
  import opened Api
  import opened Conditions
  import opened Clusters
  import opened HelmReconciler
  import opened Manifests
  import opened ManifestCache
  import opened ReleaseConfig
  import opened PackagedComponents
  import Pipeline

  /** What the registry answers in this pass: the core Helm manifest for the LCM phase and the resolved manifest, by
      version; a version without an entry cannot be retrieved. `order` is the order in which lists are returned. */
  datatype World = World(lcm: map<string, HelmManifest>, manifests: map<string, Manifest>, order: MapOrder)

  /** RequeueSoon follows a generation reset; Errored returns an error, which requeues with backoff. */
  datatype Outcome = RequeueSoon | Requeue | Done | Errored

  datatype Pass = Pass(release: Release, cluster: Cluster, outcome: Outcome)

  // ---------------------------------------------------------------- specification

  function OwnerOf(r: Release): Owner {
    Owner(r.name, r.spec.version)
  }

  function DeleteAll(c: Cluster, names: seq<string>): (Cluster, bool)
    decreases |names|
  {
    if names == [] then (c, true)
    else
      var (c1, r) := c.DeletePlan(names[0]);
      var (c2, rest) := DeleteAll(c1, names[1..]);
      (c2, r.Ok? && rest)
  }

  /** Deletes the plans labelled for another version of the release; all are tried even when some deletion fails. */
  function Cleanup(c: Cluster, o: Owner, order: MapOrder): (Cluster, bool)
    requires Enumerates(order)
  {
    var (c1, plans) := c.ListPlans(OwnerLabels(o));
    if plans.Err? then (c1, false) else DeleteAll(c1, Listed(order, |c1.trace|, plans.value))
  }

  /** Draining needs the node list unless it is disabled. */
  function ParseConfig(c: Cluster, m: Manifest, r: Release): (Cluster, Result<Config, Error>) {
    var (c1, nodes) := if r.spec.disableDrain then (c, Ok([])) else c.ListNodes([]);
    (c1, if nodes.Err? then Err(nodes.error) else UpgradeConfig(m, r))
  }

  /** A configuration error of the user fails the release without retrying. */
  function ConfigFailure(r: Release, c: Cluster, e: Error): Pass {
    if e.RuntimeConfigError? then Pass(SetCondition(r, CONDITION_APPLIED, false, Failed), c, Done)
    else Pass(r, c, Errored)
  }

  /** From the pipeline on. */
  function ApplyConfig(hs: seq<Pipeline.Handler>, r: Release, c: Cluster, cfg: Config): Pass {
    var run := Pipeline.RunPipeline(hs, cfg, c);
    if run.failed.Some? then
      Pass(SetCondition(r, ConditionType(run.failed.value), false, Failed), run.cluster, Errored)
    else
      var states := Pipeline.Recorded(run.reports);
      var r1 := UpdateReported(r, run.reports);
      if Pipeline.AllComplete(states) then
        Pass(r1.(status := r1.status.(version := cfg.releaseVersion)), run.cluster, Done)
      else Pass(r1, run.cluster, Requeue)
  }

  /** The condition updates of a pipeline result. */
  function UpdateReported(r: Release, reports: seq<Pipeline.Report>): Release
    decreases |reports|
  {
    if reports == [] then r
    else UpdateReported(UpdatePhase(r, reports[0].phase, reports[0].state), reports[1..])
  }

  function CleanAndApply(w: World, hs: seq<Pipeline.Handler>, r: Release, c: Cluster, cfg: Config): Pass
    requires Enumerates(w.order)
  {
    if r.status.version != "" && r.status.version != cfg.releaseVersion then
      var (c1, ok) := Cleanup(c, Owner(r.name, r.status.version), w.order);
      if ok then ApplyConfig(hs, r, c1, cfg) else Pass(r, c1, Errored)
    else ApplyConfig(hs, r, c, cfg)
  }

  /** The manifest from the cache or, when it cannot be had from there, from the registry, which fills the cache. */
  function RetrieveManifest(w: World, r: Release, c: Cluster): (Cluster, Option<Manifest>) {
    var (c1, cached) := CacheGet(c, r.spec.version);
    if cached.Ok? && cached.value.Some? then (c1, cached.value)
    else if r.spec.version !in w.manifests then (c1, None)
    else (CacheSet(c1, r.spec.version, w.manifests[r.spec.version]).0, Some(w.manifests[r.spec.version]))
  }

  /** From the retrieval of the manifest on. */
  function Upgrade(w: World, hs: seq<Pipeline.Handler>, r: Release, c: Cluster): Pass
    requires Enumerates(w.order)
  {
    var (c1, m) := RetrieveManifest(w, r, c);
    if m.None? then Pass(SetCondition(r, CONDITION_MANIFEST_RESOLVED, false, Failed), c1, Errored)
    else UpgradeTo(w, hs, m.value, r, c1)
  }

  function UpgradeTo(w: World, hs: seq<Pipeline.Handler>, m: Manifest, r: Release, c: Cluster): Pass
    requires Enumerates(w.order)
  {
    var r1 := SetCondition(r, CONDITION_MANIFEST_RESOLVED, true, Succeeded);
    var (c1, cfg) := ParseConfig(c, m, r1);
    if cfg.Err? then ConfigFailure(r1, c1, cfg.error) else CleanAndApply(w, hs, r1, c1, cfg.value)
  }

  /** The configuration with which a pass on this cluster runs the pipeline, when manifest and Release give one. */
  function Configured(w: World, r: Release, c: Cluster): Option<Config> {
    var m := RetrieveManifest(w, r, c).1;
    if m.Some? && UpgradeConfig(m.value, r).Ok? then Some(UpgradeConfig(m.value, r).value) else None
  }

  /** The LCM charts first, unless they are done for this generation. */
  function UpgradeLcm(w: World, hs: seq<Pipeline.Handler>, r: Release, c: Cluster): Pass
    requires Enumerates(w.order)
  {
    if r.spec.version !in w.lcm then Pass(r, c, Errored)
    else
      match LcmConfig(w.lcm[r.spec.version], r)
      case Err(e) => ConfigFailure(r, c, e)
      case Ok(cfg) =>
        var (c1, state) := HelmPhase(c, cfg.GetOwner(), true, cfg.helmCharts);
        AfterLcm(w, hs, r, c1, state)
  }

  function AfterLcm(w: World, hs: seq<Pipeline.Handler>, r: Release, c: Cluster, state: Result<State, Error>): Pass
    requires Enumerates(w.order)
  {
    if state.Err? then Pass(SetCondition(r, ConditionType(PHASE_LCM), false, Failed), c, Done)
    else
      var r1 := UpdatePhase(r, PHASE_LCM, state.value);
      if state.value != Succeeded then Pass(r1, c, Requeue) else Upgrade(w, hs, r1, c)
  }

  /** A pass over an observed generation, before the Applied condition is brought up to date. */
  function Observed(w: World, hs: seq<Pipeline.Handler>, r: Release, c: Cluster): Pass
    requires Enumerates(w.order)
  {
    if IsTrue(r, ConditionType(PHASE_LCM)) then Upgrade(w, hs, r, c) else UpgradeLcm(w, hs, r, c)
  }

  function Reset(r: Release, phases: seq<Phase>): Release {
    AddAllPending(r.(status := r.status.(observedGeneration := r.generation, conditions := [])), AllTypes(phases))
  }

  function ReleasePass(w: World, hs: seq<Pipeline.Handler>, r: Release, c: Cluster): Pass
    requires Enumerates(w.order)
  {
    if r.status.observedGeneration != r.generation then Pass(Reset(r, Pipeline.Phases(hs)), c, RequeueSoon)
    else
      var pass := Observed(w, hs, r, c);
      pass.(release := UpdateApplied(pass.release, Pipeline.Phases(hs)))
  }

  // ---------------------------------------------------------------- retrieving the manifest

  /** The manifest that every pass reads once one has filled the cache. */
  function LastingManifest(w: World, c: Cluster, version: string): Option<Manifest> {
    if InCache(c, version).Some? then InCache(c, version)
    else if version in w.manifests then Some(w.manifests[version].Cached())
    else None
  }

  /** Retrieving the manifest touches nothing but the cache, and there only the text of its version. */
  lemma RetrieveTouchesCache(w: World, r: Release, c: Cluster)
    ensures var c' := RetrieveManifest(w, r, c).0;
            Quiet(c, c') && c' == c.(trace := c'.trace, cache := c'.cache) && OtherTextsKept(c, c', r.spec.version)
  {
    var c1 := CacheGet(c, r.spec.version).0;
    CacheGetExact(c, r.spec.version);
    if r.spec.version in w.manifests {
      CacheRoundTrip(c1, r.spec.version, w.manifests[r.spec.version]);
      CacheSetQuiet(c1, r.spec.version, w.manifests[r.spec.version]);
      QuietThen(c, c1, CacheSet(c1, r.spec.version, w.manifests[r.spec.version]).0);
    }
  }

  /** When no call fails: a cached manifest is used and the cache only read;
      otherwise the registry's is used and cached. Either way the next pass finds the
      lasting manifest in the cache, which is this pass's, read back from JSON. */
  lemma RetrieveExact(w: World, r: Release, c: Cluster)
    requires c.faults == {}
    ensures var (c', m) := RetrieveManifest(w, r, c);
            var cached := InCache(c, r.spec.version);
            && m == (if cached.Some? then cached
                     else if r.spec.version in w.manifests then Some(w.manifests[r.spec.version]) else None)
            && (cached.Some? ==> OnlyRead(c, c') && m.value.Cached() == m.value)
            && InCache(c', r.spec.version) == LastingManifest(w, c, r.spec.version)
            && (m.Some? ==> InCache(c', r.spec.version) == Some(m.value.Cached()))
  {
    var v := r.spec.version;
    var c1 := CacheGet(c, v).0;
    CacheGetExact(c, v);
    if InCache(c, v).Some? {
      CachedTwice(c.cache.value[v].m);
    } else if v in w.manifests {
      CacheRoundTrip(c1, v, w.manifests[v]);
    }
  }

  /** Parsing reads the nodes once, exactly unless draining is disabled, and fails when that read does. */
  lemma DrainingReadsNodes(c: Cluster, m: Manifest, r: Release)
    ensures var (c', cfg) := ParseConfig(c, m, r);
            && c' == c.(trace := c.trace + if r.spec.disableDrain then [] else [Read(NodesT)])
            && (if !r.spec.disableDrain && Read(NodesT) in c.faults then cfg == Err(ApiError)
                else cfg == UpgradeConfig(m, r))
  {
  }

  /** The configuration depends only on the manifest, the Release's name and spec, the cache and the failing calls. */
  lemma SameConfigured(w: World, r: Release, r1: Release, c: Cluster, c1: Cluster)
    requires r1.name == r.name && r1.spec == r.spec && c1.cache == c.cache && c1.faults == c.faults
    ensures Configured(w, r1, c1) == Configured(w, r, c)
  {
  }

  // ---------------------------------------------------------------- the reconciler

  /** The condition types of the pipeline's phases are all present, once each. */
  ghost predicate HasTypes(r: Release, phases: seq<Phase>) {
    UniqueTypes(r.status.conditions) && forall p | p in phases :: ConditionOf(r, ConditionType(p)).Some?
  }

  class ReleaseReconciler {
    const client: Client
    const pipeline: Pipeline.Pipeline
    const world: World

    constructor (client: Client, pipeline: Pipeline.Pipeline, world: World)
      requires pipeline.client == client
      ensures this.client == client && this.pipeline == pipeline && this.world == world
    {
      this.client, this.pipeline, this.world := client, pipeline, world;
    }

    ghost predicate Valid() {
      pipeline.client == client && Enumerates(world.order) && Pipeline.DistinctPhases(pipeline.handlers)
    }

    /** The phase conditions are updated in map order; the result is determined when their types are all present. */
    method ReconcileNormal(release: ReleaseObject) returns (outcome: Outcome)
      requires Valid()
      modifies client, release
      ensures old(ComesWithTypes(release.Value(), Pipeline.Phases(pipeline.handlers))) ==>
                Pass(release.Value(), client.cluster, outcome)
                == ReleasePass(world, pipeline.handlers, old(release.Value()), old(client.cluster))
    {
      var phases := pipeline.GetPhases();
      if release.observedGeneration != release.generation {
        release.observedGeneration := release.generation;
        release.conditions := [];
        release.InitializePendingConditions(phases);
        return RequeueSoon;
      }
      outcome := ReconcileObserved(release);
      release.UpdateAppliedCondition(phases);
    }

    method ReconcileObserved(release: ReleaseObject) returns (outcome: Outcome)
      requires Valid()
      modifies client, release`conditions, release`version
      ensures old(HasTypes(release.Value(), Pipeline.Phases(pipeline.handlers))) ==>
                Pass(release.Value(), client.cluster, outcome)
                == Observed(world, pipeline.handlers, old(release.Value()), old(client.cluster))
    {
      var lcm := Find(release.conditions, ConditionType(PHASE_LCM));
      if !(lcm.Some? && lcm.value.status) {
        if release.spec.version !in world.lcm {
          return Errored;
        }
        var config := LcmUpgradeConfig(world.lcm[release.spec.version], release.Value());
        if config.Err? {
          if config.error.RuntimeConfigError? {
            release.Set(CONDITION_APPLIED, false, Failed);
            return Done;
          }
          return Errored;
        }
        var reconciler := new HelmReconciler(client, true);
        var state := reconciler.Reconcile(config.value.GetOwner(), config.value.helmCharts);
        if state.Err? {
          release.Set(ConditionType(PHASE_LCM), false, Failed);
          return Done;
        }
        UpdateKeepsTypes(release.Value(), PHASE_LCM, state.value, Pipeline.Phases(pipeline.handlers));
        release.UpdatePhaseCondition(PHASE_LCM, state.value);
        if state.value != Succeeded {
          return Requeue;
        }
      }
      outcome := ReconcileUpgrade(release);
    }

    method ReconcileUpgrade(release: ReleaseObject) returns (outcome: Outcome)
      requires Valid()
      modifies client, release`conditions, release`version
      ensures old(HasTypes(release.Value(), Pipeline.Phases(pipeline.handlers))) ==>
                Pass(release.Value(), client.cluster, outcome)
                == Upgrade(world, pipeline.handlers, old(release.Value()), old(client.cluster))
    {
      var manifest := GetOrRetrieveManifest(release.Value());
      if manifest.None? {
        release.Set(CONDITION_MANIFEST_RESOLVED, false, Failed);
        return Errored;
      }
      SetKeepsTypes(release.Value(), CONDITION_MANIFEST_RESOLVED, true, Succeeded, Pipeline.Phases(pipeline.handlers));
      release.Set(CONDITION_MANIFEST_RESOLVED, true, Succeeded);
      var config := ParseUpgradeConfig(manifest.value, release.Value());
      if config.Err? {
        if config.error.RuntimeConfigError? {
          release.Set(CONDITION_APPLIED, false, Failed);
          return Done;
        }
        return Errored;
      }
      if release.version != "" && release.version != config.value.releaseVersion {
        var ok := CleanupOldVersionPlans(Owner(release.name, release.version));
        if !ok {
          return Errored;
        }
      }
      outcome := ReconcilePipeline(release, config.value);
    }

    method ReconcilePipeline(release: ReleaseObject, cfg: Config) returns (outcome: Outcome)
      requires Valid()
      modifies client, release`conditions, release`version
      ensures old(HasTypes(release.Value(), Pipeline.Phases(pipeline.handlers))) ==>
                Pass(release.Value(), client.cluster, outcome)
                == ApplyConfig(pipeline.handlers, old(release.Value()), old(client.cluster), cfg)
    {
      ghost var run := Pipeline.RunPipeline(pipeline.handlers, cfg, client.cluster);
      Pipeline.RunShape(pipeline.handlers, cfg, client.cluster);
      var states, failed := pipeline.Reconcile(cfg);
      if failed.Some? {
        release.Set(ConditionType(failed.value), false, Failed);
        return Errored;
      }
      Pipeline.RecordedExact(run.reports);
      ghost var before := release.Value();
      ghost var order := release.UpdatePhaseConditions(states);
      if HasTypes(before, Pipeline.Phases(pipeline.handlers)) {
        ReportedInAnyOrder(before, run.reports, order, Pipeline.Phases(pipeline.handlers));
      }
      if Pipeline.AllComplete(states) {
        release.version := cfg.releaseVersion;
        return Done;
      }
      return Requeue;
    }

    /** A failure to read or fill the cache is only logged. */
    method GetOrRetrieveManifest(r: Release) returns (manifest: Option<Manifest>)
      modifies client
      ensures (client.cluster, manifest) == RetrieveManifest(world, r, old(client.cluster))
    {
      var cache := new ManifestCache(client);
      var cached := cache.Get(r.spec.version);
      if cached.Ok? && cached.value.Some? {
        return cached.value;
      }
      if r.spec.version !in world.manifests {
        return None;
      }
      manifest := Some(world.manifests[r.spec.version]);
      var stored := cache.Set(r.spec.version, manifest.value);
    }

    method ParseUpgradeConfig(m: Manifest, r: Release) returns (config: Result<Config, Error>)
      modifies client
      ensures (client.cluster, config) == ParseConfig(old(client.cluster), m, r)
    {
      if !r.spec.disableDrain {
        var nodes := client.ListNodes([]);
        if nodes.Err? {
          return Err(nodes.error);
        }
      }
      config := NewUpgradeConfig(m, r);
    }

    method CleanupOldVersionPlans(o: Owner) returns (ok: bool)
      requires Enumerates(world.order)
      modifies client
      ensures (client.cluster, ok) == Cleanup(old(client.cluster), o, world.order)
    {
      var plans := client.ListPlans(OwnerLabels(o));
      if plans.Err? {
        return false;
      }
      var names := Listed(world.order, |client.cluster.trace|, plans.value);
      ghost var all := DeleteAll(client.cluster, names);
      ok := true;
      for i := 0 to |names|
        invariant var (c', rest) := DeleteAll(client.cluster, names[i..]); all == (c', ok && rest)
      {
        ghost var rest := names[i..];
        assert rest[0] == names[i] && rest[1..] == names[i + 1..];
        var deleted := client.DeletePlan(names[i]);
        ok := ok && deleted.Ok?;
      }
    }
  }

  /** What the pass needs of a Release whose generation was seen before. */
  ghost predicate ComesWithTypes(r: Release, phases: seq<Phase>) {
    r.status.observedGeneration == r.generation ==> HasTypes(r, phases)
  }

  lemma SetKeepsTypes(r: Release, ctype: string, status: bool, reason: State, phases: seq<Phase>)
    ensures HasTypes(r, phases) ==> HasTypes(SetCondition(r, ctype, status, reason), phases)
  {
    var c := Condition(ctype, status, reason, r.generation);
    TypesSet(r.status.conditions, c);
    forall p | p in phases ensures ConditionOf(r, ConditionType(p)).Some? ==>
                                     ConditionOf(SetCondition(r, ctype, status, reason), ConditionType(p)).Some? {
      FindSet(r.status.conditions, c, ConditionType(p));
    }
  }

  lemma UpdateKeepsTypes(r: Release, phase: Phase, state: State, phases: seq<Phase>)
    ensures HasTypes(r, phases) ==> HasTypes(UpdatePhase(r, phase, state), phases)
  {
    SetKeepsTypes(r, ConditionType(phase), Completes(state), state, phases);
  }

  lemma {:induction false} ReportedOrder(r: Release, reports: seq<Pipeline.Report>, states: map<Phase, State>)
    requires forall i | 0 <= i < |reports| :: reports[i].phase in states && states[reports[i].phase] == reports[i].state
    ensures UpdateReported(r, reports) == UpdatePhases(r, Pipeline.Order(reports), states)
    decreases |reports|
  {
    if reports != [] {
      assert Pipeline.Order(reports)[1..] == Pipeline.Order(reports[1..]);
      ReportedOrder(UpdatePhase(r, reports[0].phase, reports[0].state), reports[1..], states);
    }
  }

  /** Whatever the order in which the recorded states are visited,
      the Release becomes what it would in pipeline order. */
  lemma ReportedInAnyOrder(r: Release, reports: seq<Pipeline.Report>, order: seq<Phase>, phases: seq<Phase>)
    requires HasTypes(r, phases) && |reports| <= |phases|
    requires forall i | 0 <= i < |reports| :: reports[i].phase == phases[i]
    requires forall i, j | 0 <= i < j < |phases| :: phases[i] != phases[j]
    requires Conditions.IsOrderOf(order, Pipeline.Recorded(reports).Keys)
    ensures UpdatePhases(r, order, Pipeline.Recorded(reports)) == UpdateReported(r, reports)
  {
    var states := Pipeline.Recorded(reports);
    Pipeline.RecordedExact(reports);
    ReportedOrder(r, reports, states);
    forall p | p in states ensures ConditionOf(r, ConditionType(p)).Some? {
      assert p in Pipeline.Order(reports);
      var i :| 0 <= i < |reports| && Pipeline.Order(reports)[i] == p;
      assert phases[i] in phases;
    }
    PhaseUpdatesCommute(r, states, order, Pipeline.Order(reports));
  }
}
