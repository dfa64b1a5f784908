/** What one phase does when every action started before has completed and no call fails: it starts the first action
    still missing, or completes. */
module Progress {
  import opened Wrappers
  import opened Values
  import opened Charts
  import opened Api
  import opened Clusters
  import opened HelmReconciler
  import opened ReleaseConfig
  import opened Plans
  import opened PackagedComponents
  import opened Kubernetes
  import opened Controller
  import ChartSort

  // ---------------------------------------------------------------- charts

  /** The chart is installed and its HelmChart is missing or out of date. */
  predicate NeedsWrite(c: Cluster, t: ChartConfig) {
    t.Name() in c.releases &&
    if t.Name() in c.charts then ShouldUpdate(c.charts[t.Name()], t) == Ok(true)
    else c.releases[t.Name()].chartVersion != t.chart.version
  }

  /** The stored HelmChart is readable, and if it is up to date its upgrade has succeeded. */
  predicate ChartReady(c: Cluster, t: ChartConfig) {
    t.Name() in c.releases && t.Name() in c.charts ==>
      && ShouldUpdate(c.charts[t.Name()], t).Ok?
      && (ShouldUpdate(c.charts[t.Name()], t) == Ok(false) ==> JobState(c, c.charts[t.Name()]).1 == Ok(ChartSucceeded))
  }

  /** The configuration can be written. */
  predicate Writable(t: ChartConfig) {
    !RepositoryUrl(t).Malformed? && CustomValues(t).Ok?
  }

  /** The HelmChart is up to date once the manifest comes from the cache. */
  predicate Settled(h: HelmChart, t: ChartConfig) {
    ShouldUpdate(h, t.Cached()) == Ok(false)
  }

  /** The HelmChart of `t` was written, and nothing else. */
  ghost predicate ChartWritten(c: Cluster, c': Cluster, t: ChartConfig) {
    exists h: HelmChart :: h.name == t.Name() && Settled(h, t)
                           && c' == c.(trace := c'.trace, charts := c.charts[t.Name() := h])
  }

  lemma SettledStep(c: Cluster, o: Owner, t: ChartConfig)
    requires c.faults == {} && ChartReady(c, t) && !NeedsWrite(c, t)
    ensures var (c', r) := ChartStep(c, o, t); r.Ok? && Finished(r.value) && OnlyRead(c, c')
  {
    var (c1, release) := c.RetrieveRelease(t.Name());
    ReadOnce(c, c1, ReleaseT(t.Name()));
    if release.value.Some? {
      var (c2, existing) := c1.GetChart(t.Name());
      ReadOnce(c1, c2, ChartT(t.Name()));
      OnlyReadThen(c, c1, c2);
      if existing.value.Some? {
        var h := existing.value.value;
        assert ShouldUpdate(h, t) == Ok(false);
        assert JobState(c2, h).1 == JobState(c, h).1;
        var c3 := JobState(c2, h).0;
        if c3 != c2 {
          ReadOnce(c2, c3, JobT(h.status.jobName));
          OnlyReadThen(c, c2, c3);
        }
      }
    }
  }

  lemma WritingStep(c: Cluster, o: Owner, t: ChartConfig)
    requires c.faults == {} && ChartsKeyed(c.charts) && Writable(t) && NeedsWrite(c, t)
    ensures var (c', r) := ChartStep(c, o, t); r == Ok(ChartInProgress) && ChartWritten(c, c', t)
  {
    var release := c.releases[t.Name()];
    var (c', r) := ChartStep(c, o, t);
    if t.Name() in c.charts {
      var existing := c.charts[t.Name()];
      CachedSettles(existing, o, t, release);
      var h := Retargeted(existing, o, t).value;
      assert c' == c.(trace := c'.trace, charts := c.charts[t.Name() := h]);
    } else {
      ReleaseValuesMerge(release);
      CachedSettles(EmptyChart(t.Name(), ""), o, t, release);
      var h := BuiltFrom(o, t, release).value;
      assert c' == c.(trace := c'.trace, charts := c.charts[t.Name() := h]);
    }
  }

  lemma ReleaseValuesMerge(release: HelmRelease)
    ensures MergeSources([FieldMap(release.config), NoSource]).Ok?
  {
    var sources := [FieldMap(release.config), NoSource];
    assert forall i | 0 <= i < |sources| :: ToValuesMap(sources[i]).Ok?;
  }

  /** What a run does when all started charts are done: `i` is the first chart to write, or the number of charts. */
  ghost predicate Scanned(c: Cluster, ts: seq<ChartConfig>, run: Run, i: nat) {
    && run.error.None? && ChartFailed !in run.states
    && if i >= |ts| then
         && OnlyRead(c, run.cluster) && |run.states| == |ts| && (forall s | s in run.states :: Finished(s))
         && forall t | t in ts :: !NeedsWrite(c, t)
       else
         && NeedsWrite(c, ts[i]) && ChartWritten(c, run.cluster, ts[i])
         && run.states != [] && run.states[|run.states| - 1] == ChartInProgress
  }

  lemma WrittenAfterRead(c: Cluster, c1: Cluster, c': Cluster, t: ChartConfig)
    requires OnlyRead(c, c1) && ChartWritten(c1, c', t)
    ensures ChartWritten(c, c', t)
  {
    var h: HelmChart :| h.name == t.Name() && Settled(h, t)
                        && c' == c1.(trace := c'.trace, charts := c1.charts[t.Name() := h]);
    assert c' == c.(trace := c'.trace, charts := c.charts[t.Name() := h]);
  }

  lemma ScanFurther(c: Cluster, c1: Cluster, ts: seq<ChartConfig>, s: ChartState, rest: Run, k: nat)
    requires ts != [] && OnlyRead(c, c1) && Finished(s) && !NeedsWrite(c, ts[0]) && Scanned(c1, ts[1..], rest, k)
    ensures Scanned(c, ts, Run(rest.cluster, [s] + rest.states, rest.error), k + 1)
  {
    ReadyAfterRead(c, c1, ts);
    assert ts == [ts[0]] + ts[1..];
    if k >= |ts[1..]| {
      OnlyReadThen(c, c1, rest.cluster);
    } else {
      WrittenAfterRead(c, c1, rest.cluster, ts[1..][k]);
      assert ts[1..][k] in ts;
    }
  }

  /** All started charts are done, and the others can be written. */
  predicate Scannable(c: Cluster, ts: seq<ChartConfig>) {
    c.faults == {} && ChartsKeyed(c.charts) && forall t | t in ts :: ChartReady(c, t) && Writable(t)
  }

  lemma ScannableRest(c: Cluster, c1: Cluster, ts: seq<ChartConfig>)
    requires ts != [] && OnlyRead(c, c1) && Scannable(c, ts)
    ensures Scannable(c1, ts[1..])
  {
    ReadyAfterRead(c, c1, ts);
  }

  lemma ScanWrites(c: Cluster, o: Owner, strict: bool, ts: seq<ChartConfig>)
    requires ts != [] && Scannable(c, ts) && NeedsWrite(c, ts[0])
    ensures Scanned(c, ts, RunCharts(c, o, strict, ts), 0)
  {
    assert ts[0] in ts;
    WritingStep(c, o, ts[0]);
  }

  /** With all started charts done, a run either finds nothing
      to write and finishes every chart, or writes one chart. */
  lemma {:induction false} ScanCharts(c: Cluster, o: Owner, strict: bool, ts: seq<ChartConfig>) returns (i: nat)
    requires Scannable(c, ts)
    ensures Scanned(c, ts, RunCharts(c, o, strict, ts), i)
    decreases |ts|
  {
    if ts == [] {
      assert Since(c, c) == [];
      i := 0;
    } else if NeedsWrite(c, ts[0]) {
      ScanWrites(c, o, strict, ts);
      i := 0;
    } else {
      assert ts[0] in ts;
      SettledStep(c, o, ts[0]);
      var (c1, r) := ChartStep(c, o, ts[0]);
      ScannableRest(c, c1, ts);
      var k := ScanCharts(c1, o, strict, ts[1..]);
      ScanFurther(c, c1, ts, r.value, RunCharts(c1, o, strict, ts[1..]), k);
      RunContinues(c, o, strict, ts);
      i := k + 1;
    }
  }

  lemma ReadyAfterRead(c: Cluster, c': Cluster, ts: seq<ChartConfig>)
    requires OnlyRead(c, c')
    ensures forall t | t in ts :: (ChartReady(c', t) <==> ChartReady(c, t)) && (NeedsWrite(c', t) <==> NeedsWrite(c, t))
  {
    forall t | t in ts && t.Name() in c.charts
      ensures JobState(c', c.charts[t.Name()]).1 == JobState(c, c.charts[t.Name()]).1
    {
    }
  }

  /** The whole phase: it completes when nothing needs a write, and otherwise writes one chart and is in progress. */
  lemma HelmProgress(c: Cluster, o: Owner, strict: bool, configs: seq<ChartConfig>, ts: seq<ChartConfig>)
    returns (i: nat)
    requires ChartSort.Sorted(configs) == Ok(ts) && Scannable(c, ts)
    ensures var (c', r) := HelmPhase(c, o, strict, configs);
            && (i >= |ts| ==> OnlyRead(c, c') && (forall t | t in ts :: !NeedsWrite(c, t))
                              && r == Ok(if configs == [] then Skipped else Succeeded))
            && (i < |ts| ==> NeedsWrite(c, ts[i]) && ChartWritten(c, c', ts[i]) && r == Ok(InProgress))
  {
    i := ScanCharts(c, o, strict, ts);
    if configs == [] {
      assert ChartSort.GraphOf(configs) == map[] && ChartSort.Names(configs) == [];
      assert Since(c, c) == [];
    } else {
      HelmPhaseExact(c, o, strict, configs, ts);
      StoppedStates(c, o, strict, ts);
    }
  }

  // ---------------------------------------------------------------- plans

  /** The plan was created, and nothing else changed. */
  predicate PlanCreated(c: Cluster, c': Cluster, p: Plan) {
    c' == c.(trace := c'.trace, plans := c.plans[p.name := p])
  }

  /** With all created plans done, a list of plans ends well when
      all exist, and otherwise creates the first missing one. */
  lemma {:induction false} ScanPlans(c: Cluster, plans: seq<Plan>, verify: Option<string>) returns (i: nat)
    requires c.faults == {}
    requires forall p | p in plans :: PlanState(p) == InProgress && (p.name in c.plans ==> PlanDone(c, p, verify))
    ensures var (c', r) := RunPlans(c, plans, verify);
            && (i >= |plans| ==> r == Ok(None) && OnlyRead(c, c') && forall p | p in plans :: p.name in c.plans)
            && (i < |plans| ==> r == Ok(Some(InProgress)) && plans[i].name !in c.plans && PlanCreated(c, c', plans[i]))
    decreases |plans|
  {
    if plans == [] {
      assert Since(c, c) == [];
      i := 0;
    } else {
      var p := plans[0];
      assert p in plans;
      if p.name !in c.plans {
        i := 0;
      } else {
        var c1 := SucReconcile(c, p).0;
        DonePlanReads(c, p, verify);
        SamePlansDone(c, c1, plans, verify);
        assert plans == [p] + plans[1..];
        var k := ScanPlans(c1, plans[1..], verify);
        if k >= |plans[1..]| {
          OnlyReadThen(c, c1, RunPlans(c1, plans[1..], verify).0);
        }
        i := k + 1;
      }
    }
  }

  lemma OsProgress(c: Cluster, cfg: Config, plans: seq<Plan>) returns (i: nat)
    requires c.faults == {} && cfg.os.Some? && cfg.os.value.imageParses
    requires plans == PlansFor(OS_CONTROL_PLANE, OS_WORKER, cfg.GetOwner(), cfg.os.value.version, c.nodes)
    requires forall p | p in plans :: p.name in c.plans ==> PlanDone(c, p, None)
    ensures var (c', r) := OsPhase(c, cfg);
            && (i >= |plans| ==> r == Ok(Succeeded) && OnlyRead(c, c') && forall p | p in plans :: p.name in c.plans)
            && (i < |plans| ==> r == Ok(InProgress) && plans[i].name !in c.plans && PlanCreated(c, c', plans[i]))
  {
    var (c1, nodes) := c.ListNodes([]);
    ReadOnce(c, c1, NodesT);
    SelectAll(c.nodes);
    SamePlansDone(c, c1, plans, None);
    i := ScanPlans(c1, plans, None);
    if i >= |plans| {
      OnlyReadThen(c, c1, RunPlans(c1, plans, None).0);
    }
  }

  // ---------------------------------------------------------------- the snapshot and the components

  /** A snapshot can be taken: there is a node, and every packaged component has a Helm release. */
  predicate Snapshotable(c: Cluster) {
    c.nodes != [] && forall n | n in Components(c.charts) :: n in c.releases
  }

  lemma {:induction false} PopulateSucceeds(c: Cluster, hash: Hash, components: map<string, HelmChart>,
                                            names: seq<string>,
                                            data: map<string, ComponentRecord>)
    requires c.faults == {} && ChartsKeyed(components)
    requires forall n | n in names :: n in components && n in c.releases
    ensures Populate(c, hash, components, names, data).1.Ok?
    decreases |names|
  {
    if names != [] {
      assert names[0] in names;
      var (c1, release) := c.RetrieveRelease(names[0]);
      var more := data[names[0] := RecordOf(components[names[0]], hash, release.value.value)];
      PopulateSucceeds(c1, hash, components, names[1..], more);
    }
  }

  lemma StoreSucceeds(c: Cluster, s: SnapshotMap)
    requires c.faults == {}
    ensures var (c1, created) := c.CreateSnapshot(s);
            created.Ok? && c1.GetSnapshot().1 == Ok(c1.snapshot) && c1.snapshot.Some?
  {
  }

  lemma TakeSnapshotSucceeds(c: Cluster, hash: Hash, order: MapOrder, o: Owner)
    requires Enumerates(order) && c.faults == {} && ChartsKeyed(c.charts) && Snapshotable(c)
    ensures TakeSnapshot(c, hash, order, o).1.Ok?
  {
    SelectAll(c.nodes);
    var c1 := c.ListNodes([]).0;
    var (c2, components) := FindComponents(c1);
    var names := Listed(order, |c2.trace|, components.value.Keys);
    PopulateSucceeds(c2, hash, components.value, names, map[]);
    PopulateExact(c2, hash, components.value, names, map[]);
    var (c3, data) := Populate(c2, hash, components.value, names, map[]);
    StoreSucceeds(c3, BlankSnapshot(o).(sourceVersion := c.nodes[0].kubeletVersion, data := data.value));
  }

  lemma SnapshotSucceeds(c: Cluster, hash: Hash, order: MapOrder, o: Owner)
    requires Enumerates(order) && c.faults == {} && ChartsKeyed(c.charts) && Snapshotable(c)
    ensures SnapshotFor(c, hash, order, o).1.Ok?
  {
    var (c1, existing) := c.GetSnapshot();
    TakeSnapshotSucceeds(c1, hash, order, o);
    TakeSnapshotSucceeds(c1.DeleteSnapshot().0, hash, order, o);
  }

  /** The packaged components have settled at the version: relative to the release's snapshot when there is one, and
      otherwise so that a snapshot taken now shows no change. */
  ghost predicate ComponentsSettled(c: Cluster, hash: Hash, o: Owner, version: string) {
    if c.snapshot.Some? && Owns(c.snapshot.value, o) then
      ComponentsAvailable(c, hash, version, c.snapshot.value)
    else
      && c.nodes != [] && c.nodes[0].kubeletVersion == version
      && forall n | n in Components(c.charts) :: Components(c.charts)[n].spec.chartContent != ""
  }

  lemma SettledIsAvailable(c: Cluster, c': Cluster, hash: Hash, order: MapOrder, o: Owner, version: string,
                           s: SnapshotMap)
    requires Enumerates(order) && CollisionFree(hash) && c.faults == {} && ChartsKeyed(c.charts)
    requires ComponentsSettled(c, hash, o, version) && SnapshotFor(c, hash, order, o).1 == Ok(s)
    requires c' == c.(trace := c'.trace, snapshot := c'.snapshot)
    ensures Availability(c', hash, order, version, s).1 == Ok(PackagedComponentsAvailable)
  {
    SnapshotFrozen(c, hash, order, o);
    AvailableIff(c', hash, order, version, s);
    var components := Components(c.charts);
    if c.snapshot.Some? && Owns(c.snapshot.value, o) {
      SameVerdictsBut(c, c', s.creationTime);
    } else {
      UnchangedYieldsNoneIff(components, hash, Listed(order, 0, components.Keys), s.data, c.releases);
      FreshSourceVersion(c, hash, order, o);
    }
  }

  lemma SameVerdictsBut(c: Cluster, c': Cluster, since: nat)
    requires c' == c.(trace := c'.trace, snapshot := c'.snapshot, plans := c'.plans, cache := c'.cache)
    ensures forall p :: ReadyVerdict(c', p, since) == ReadyVerdict(c, p, since)
  {
  }

  lemma FreshSourceVersion(c: Cluster, hash: Hash, order: MapOrder, o: Owner)
    requires Enumerates(order) && ChartsKeyed(c.charts) && (c.snapshot.None? || !Owns(c.snapshot.value, o))
    ensures var r := SnapshotFor(c, hash, order, o).1;
            r.Ok? ==> c.nodes != [] && r.value.sourceVersion == c.nodes[0].kubeletVersion
  {
    var c1 := c.GetSnapshot().0;
    SnapshotExact(c1, hash, order, o);
    SnapshotExact(c1.DeleteSnapshot().0, hash, order, o);
  }

  /** Only the trace and the snapshot differ. */
  predicate OnlySnapshot(c: Cluster, c': Cluster) {
    c' == c.(trace := c'.trace, snapshot := c'.snapshot)
  }

  lemma KubernetesProgress(c: Cluster, cfg: Config, hash: Hash, order: MapOrder, plans: seq<Plan>) returns (i: nat)
    requires Enumerates(order) && CollisionFree(hash) && c.faults == {} && ChartsKeyed(c.charts) && Snapshotable(c)
    requires cfg.kubernetes.Some? && plans == KubernetesPlans(cfg, c.nodes)
    requires forall p | p in plans :: p.name in c.plans ==> PlanDone(c, p, Some(cfg.kubernetes.value.version))
    requires (forall p | p in plans :: p.name in c.plans) ==>
               ComponentsSettled(c, hash, cfg.GetOwner(), cfg.kubernetes.value.version)
    ensures var (c', r) := KubernetesPhase(c, cfg, hash, order);
            && (i >= |plans| ==>
                  r == Ok(Succeeded) && OnlySnapshot(c, c') && forall p | p in plans :: p.name in c.plans)
            && (i < |plans| ==> r == Ok(InProgress) && plans[i].name !in c.plans
                                && c' == c.(trace := c'.trace, snapshot := c'.snapshot,
                                            plans := c.plans[plans[i].name := plans[i]]))
            && c'.snapshot.Some? && Owns(c'.snapshot.value, cfg.GetOwner())
            && (c.snapshot.Some? && Owns(c.snapshot.value, cfg.GetOwner()) ==> c'.snapshot == c.snapshot)
  {
    var version := cfg.kubernetes.value.version;
    SnapshotSucceeds(c, hash, order, cfg.GetOwner());
    SnapshotFrozen(c, hash, order, cfg.GetOwner());
    var (c1, snapshot) := SnapshotFor(c, hash, order, cfg.GetOwner());
    var (c2, nodes) := c1.ListNodes([]);
    SelectAll(c.nodes);
    forall p | p in plans && p.name in c2.plans ensures PlanDone(c2, p, Some(version)) {
      assert PlanDone(c, p, Some(version));
    }
    i := ScanPlans(c2, plans, Some(version));
    if i >= |plans| {
      var c3 := RunPlans(c2, plans, Some(version)).0;
      SettledIsAvailable(c, c3, hash, order, cfg.GetOwner(), version, snapshot.value);
      AvailableIff(c3, hash, order, version, snapshot.value);
    }
  }

  /** When the release has its snapshot, the phase succeeds only by reading. */
  lemma KubernetesReads(c: Cluster, cfg: Config, hash: Hash, order: MapOrder)
    requires Enumerates(order) && cfg.kubernetes.Some? && c.snapshot.Some? && Owns(c.snapshot.value, cfg.GetOwner())
    requires KubernetesPhase(c, cfg, hash, order).1 == Ok(Succeeded)
    ensures OnlyRead(c, KubernetesPhase(c, cfg, hash, order).0)
  {
    var (c1, snapshot) := SnapshotFor(c, hash, order, cfg.GetOwner());
    ReadOnce(c, c1, SnapshotT);
    var (c2, nodes) := c1.ListNodes([]);
    ReadOnce(c1, c2, NodesT);
    OnlyReadThen(c, c1, c2);
    UpgradeReads(c2, cfg, hash, order, nodes.value, snapshot.value);
    OnlyReadThen(c, c2, KubernetesPhase(c, cfg, hash, order).0);
  }

  lemma UpgradeReads(c: Cluster, cfg: Config, hash: Hash, order: MapOrder, nodes: seq<Node>, snapshot: SnapshotMap)
    requires Enumerates(order) && cfg.kubernetes.Some?
    requires UpgradeNodes(c, cfg, hash, order, nodes, snapshot).1 == Ok(Succeeded)
    ensures OnlyRead(c, UpgradeNodes(c, cfg, hash, order, nodes, snapshot).0)
  {
    var plans, version := KubernetesPlans(cfg, nodes), cfg.kubernetes.value.version;
    var (c1, r) := RunPlans(c, plans, Some(version));
    RunPlansVerdict(c, plans, Some(version));
    RunPlansDone(c, plans, Some(version));
    AvailableIff(c1, hash, order, version, snapshot);
    OnlyReadThen(c, c1, Availability(c1, hash, order, version, snapshot).0);
  }
}
