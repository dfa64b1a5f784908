/** The Kubernetes phase: plans, node verification and packaged
    components (internal/upgrade/reconcilers/kubernetes.go). */
module Kubernetes {
  import opened Wrappers
  import opened Api
  import opened Clusters
  import opened HelmReconciler
  import opened ReleaseConfig
  import opened Plans
  import opened PackagedComponents

  function KubernetesPlans(cfg: Config, nodes: seq<Node>): seq<Plan>
    requires cfg.kubernetes.Some?
  {
    PlansFor(KUBERNETES_CONTROL_PLANE, KUBERNETES_WORKER, cfg.GetOwner(), cfg.kubernetes.value.version, nodes)
  }

  /** The plans of the Kubernetes phase and the version their nodes are checked for. */
  function NodePlans(cfg: Config, nodes: seq<Node>): seq<Plan> {
    if cfg.kubernetes.None? then [] else KubernetesPlans(cfg, nodes)
  }

  function TargetVersion(cfg: Config): string {
    if cfg.kubernetes.None? then "" else cfg.kubernetes.value.version
  }

  /** All plans a configuration asks for. */
  function Required(cfg: Config, nodes: seq<Node>): (plans: seq<Plan>)
    ensures |plans| <= 4
  {
    OsPlans(cfg, nodes) + NodePlans(cfg, nodes)
  }

  /** The wait for the packaged components ends the phase. */
  function AvailabilityVerdict(r: Result<State, Error>): Result<State, Error> {
    if r == Ok(PackagedComponentsAvailable) then Ok(Succeeded) else r
  }

  function KubernetesPhase(c: Cluster, cfg: Config, hash: Hash, order: MapOrder): (Cluster, Result<State, Error>)
    requires Enumerates(order)
  {
    if cfg.kubernetes.None? then (c, Ok(Skipped))
    else
      var (c1, snapshot) := SnapshotFor(c, hash, order, cfg.GetOwner());
      if snapshot.Err? then (c1, Err(snapshot.error))
      else
        var (c2, nodes) := c1.ListNodes([]);
        if nodes.Err? then (c2, Err(nodes.error))
        else UpgradeNodes(c2, cfg, hash, order, nodes.value, snapshot.value)
  }

  /** The phase once the snapshot is there and the nodes are listed. */
  function UpgradeNodes(c: Cluster, cfg: Config, hash: Hash, order: MapOrder, nodes: seq<Node>, snapshot: SnapshotMap)
    : (Cluster, Result<State, Error>)
    requires Enumerates(order) && cfg.kubernetes.Some?
  {
    var (c1, r) := RunPlans(c, KubernetesPlans(cfg, nodes), Some(cfg.kubernetes.value.version));
    if r != Ok(None) then (c1, PlansVerdict(r))
    else
      var (c2, available) := Availability(c1, hash, order, cfg.kubernetes.value.version, snapshot);
      (c2, AvailabilityVerdict(available))
  }

  class KubernetesReconciler {
    const client: Client
    const suc: SUCPlanReconciler
    const packaged: RKE2PackagedComponentsHandler

    constructor (client: Client, suc: SUCPlanReconciler, packaged: RKE2PackagedComponentsHandler)
      requires suc.client == client == packaged.client
      ensures this.client == client && this.suc == suc && this.packaged == packaged
    {
      this.client, this.suc, this.packaged := client, suc, packaged;
    }

    /** For a stored snapshot with each record under its own name, as this handler writes them. */
    method Reconcile(cfg: Config) returns (r: Result<State, Error>)
      requires suc.client == client == packaged.client && Enumerates(packaged.order)
      modifies client
      ensures old(SnapshotKeyed(client.cluster) && ChartsKeyed(client.cluster.charts)) ==>
                (client.cluster, r) == KubernetesPhase(old(client.cluster), cfg, packaged.hash, packaged.order)
    {
      if cfg.kubernetes.None? {
        return Ok(Skipped);
      }
      var version := cfg.kubernetes.value.version;
      ghost var snapshotFor := SnapshotFor(client.cluster, packaged.hash, packaged.order, cfg.GetOwner());
      if SnapshotKeyed(client.cluster) && ChartsKeyed(client.cluster.charts) {
        SnapshotStaysKeyed(client.cluster, packaged.hash, packaged.order, cfg.GetOwner());
      }
      var snapshot := packaged.GenerateSnapshot(cfg.GetOwner());
      if snapshot.Err? {
        return Err(snapshot.error);
      }
      var plans := PreparePlans(cfg);
      if plans.Err? {
        return Err(plans.error);
      }
      ghost var run := RunPlans(client.cluster, plans.value, Some(version));
      for i := 0 to |plans.value|
        invariant run == RunPlans(client.cluster, plans.value[i..], Some(version))
      {
        ghost var rest := plans.value[i..];
        assert rest[0] == plans.value[i] && rest[1..] == plans.value[i + 1..];
        var result := suc.Reconcile(plans.value[i]);
        if result.Err? {
          return Err(result.error);
        }
        if result.value.state != PlanComplete {
          return Ok(result.value.state);
        }
        var verified := AllNodesAtKubernetesVersion(result.value.nodes, version);
        if !verified {
          return Ok(InProgress);
        }
      }
      var available := packaged.ReconcileAvailability(version, snapshot.value, snapshotFor.1.value);
      if available.Err? {
        return Err(available.error);
      } else if available.value != PackagedComponentsAvailable {
        return Ok(available.value);
      }
      return Ok(Succeeded);
    }

    method PreparePlans(cfg: Config) returns (r: Result<seq<Plan>, Error>)
      requires cfg.kubernetes.Some?
      modifies client
      ensures var (c1, nodes) := old(client.cluster).ListNodes([]);
              && client.cluster == c1
              && r == if nodes.Err? then Err(nodes.error) else Ok(KubernetesPlans(cfg, nodes.value))
    {
      var version := cfg.kubernetes.value.version;
      var list := [NewPlan(KUBERNETES_CONTROL_PLANE, cfg.GetOwner(), version, CONTROL_PLANE_SELECTOR)];
      var nodes := client.ListNodes([]);
      if nodes.Err? {
        return Err(nodes.error);
      }
      var only := IsControlPlaneOnlyCluster(nodes.value);
      if !only {
        list := list + [NewPlan(KUBERNETES_WORKER, cfg.GetOwner(), version, WORKER_SELECTOR)];
      }
      assert list == KubernetesPlans(cfg, nodes.value);
      return Ok(list);
    }
  }

  method AllNodesAtKubernetesVersion(nodes: seq<Node>, version: string) returns (all: bool)
    ensures all <==> AllNodesAt(nodes, version)
    ensures all <==> nodes != [] && forall n | n in nodes :: NodeUpgraded(n, version)
  {
    forall n ensures NodeAt(n, version) <==> NodeUpgraded(n, version) {
      NodeAtIff(n, version);
    }
    if |nodes| == 0 {
      return false;
    }
    for i := 0 to |nodes|
      invariant forall j | 0 <= j < i :: NodeAt(nodes[j], version)
    {
      assert nodes[i] in nodes;
      if !NodeReady(nodes[i].conditions) {
        return false;
      }
      if nodes[i].unschedulable {
        return false;
      }
      if !KubeletVersionMatches(nodes[i].kubeletVersion, version) {
        return false;
      }
    }
    return true;
  }

  // ---------------------------------------------------------------- the stored snapshot stays well-formed

  predicate SnapshotKeyed(c: Cluster) {
    c.snapshot.Some? ==> KeyedByName(c.snapshot.value.data)
  }

  lemma SnapshotStaysKeyed(c: Cluster, hash: Hash, order: MapOrder, o: Owner)
    requires Enumerates(order) && SnapshotKeyed(c) && ChartsKeyed(c.charts)
    ensures var (c', r) := SnapshotFor(c, hash, order, o); r.Ok? ==> KeyedByName(r.value.data) && SnapshotKeyed(c')
  {
    SnapshotFrozen(c, hash, order, o);
  }

  // ---------------------------------------------------------------- what success means

  /** Each node is handled by exactly one of the two selectors. */
  lemma SelectorsPartition(n: Node)
    ensures Matches(CONTROL_PLANE_SELECTOR, n) <==> IsControlPlane(n)
    ensures Matches(WORKER_SELECTOR, n) <==> !IsControlPlane(n)
  {
    assert Exists(CONTROL_PLANE_LABEL) in CONTROL_PLANE_SELECTOR;
    assert DoesNotExist(CONTROL_PLANE_LABEL) in WORKER_SELECTOR;
  }

  /** The selectors of the prepared plans partition the nodes they were prepared for. */
  lemma PreparedPlansPartition(controlPlane: string, worker: string, o: Owner, version: string, nodes: seq<Node>,
                               n: Node)
    requires n in nodes
    ensures var plans := PlansFor(controlPlane, worker, o, version, nodes);
            && (exists i :: 0 <= i < |plans| && Matches(plans[i].selector, n))
            && forall i, j | 0 <= i < |plans| && 0 <= j < |plans| && Matches(plans[i].selector, n)
                             && Matches(plans[j].selector, n) :: i == j
  {
    SelectorsPartition(n);
    var plans := PlansFor(controlPlane, worker, o, version, nodes);
    assert plans[0].selector == CONTROL_PLANE_SELECTOR;
    if !IsControlPlane(n) {
      assert plans[1].selector == WORKER_SELECTOR;
      assert Matches(plans[1].selector, n);
    }
  }

  /** The plan is stored and complete, and when a version is given, its nodes are all at it. */
  predicate PlanDone(c: Cluster, p: Plan, verify: Option<string>) {
    && p.name in c.plans
    && PlanState(c.plans[p.name]) == PlanComplete
    && (verify.Some? ==> AllNodesAt(Select(c.nodes, c.plans[p.name].selector), verify.value))
  }

  lemma DonePlanReads(c: Cluster, p: Plan, verify: Option<string>)
    requires PlanState(p) != PlanComplete
    ensures var (c1, r) := SucReconcile(c, p);
            && (r.Ok? && r.value.state == PlanComplete ==>
                  && OnlyRead(c, c1) && p.name in c.plans && PlanState(c.plans[p.name]) == PlanComplete
                  && r.value.nodes == Select(c.nodes, c.plans[p.name].selector))
            && (c.faults == {} && PlanDone(c, p, verify) ==> r.Ok? && r.value.state == PlanComplete)
  {
    var (c0, existing) := c.GetPlan(p.name);
    ReadOnce(c, c0, PlanT(p.name));
    var (c1, r) := SucReconcile(c, p);
    if r.Ok? && r.value.state == PlanComplete {
      ReadOnce(c0, c1, NodesT);
      OnlyReadThen(c, c0, c1);
    }
  }

  lemma SamePlansDone(c: Cluster, c': Cluster, plans: seq<Plan>, verify: Option<string>)
    requires OnlyRead(c, c')
    ensures forall p :: PlanDone(c', p, verify) <==> PlanDone(c, p, verify)
  {
  }

  /** A list of plans ends well only when each plan was done already; it then only reads. */
  lemma {:induction false} RunPlansDone(c: Cluster, plans: seq<Plan>, verify: Option<string>)
    requires forall p | p in plans :: PlanState(p) != PlanComplete
    requires RunPlans(c, plans, verify).1 == Ok(None)
    ensures OnlyRead(c, RunPlans(c, plans, verify).0) && forall p | p in plans :: PlanDone(c, p, verify)
    decreases |plans|
  {
    if plans == [] {
      assert Since(c, c) == [];
    } else {
      var c1 := SucReconcile(c, plans[0]).0;
      DonePlanReads(c, plans[0], verify);
      RunPlansDone(c1, plans[1..], verify);
      SamePlansDone(c, c1, plans, verify);
      OnlyReadThen(c, c1, RunPlans(c1, plans[1..], verify).0);
      assert plans == [plans[0]] + plans[1..];
    }
  }

  /** Conversely, when no call fails, plans that are done let the list end well. */
  lemma {:induction false} DonePlansRun(c: Cluster, plans: seq<Plan>, verify: Option<string>)
    requires forall p | p in plans :: PlanState(p) != PlanComplete && PlanDone(c, p, verify)
    requires c.faults == {}
    ensures RunPlans(c, plans, verify).1 == Ok(None)
    decreases |plans|
  {
    if plans != [] {
      var c1 := SucReconcile(c, plans[0]).0;
      assert plans[0] in plans;
      DonePlanReads(c, plans[0], verify);
      SamePlansDone(c, c1, plans, verify);
      forall p | p in plans[1..] ensures PlanState(p) != PlanComplete && PlanDone(c1, p, verify) {
        assert p in plans;
      }
      DonePlansRun(c1, plans[1..], verify);
    }
  }

  lemma SucReconcileOne(c: Cluster, p: Plan)
    requires PlanState(p) != PlanComplete
    ensures var c' := SucReconcile(c, p).0;
            Quiet(c, c') || (LastStarts(c, c', PlanT(p.name)) && p.name !in c.plans)
  {
    var (c1, existing) := c.GetPlan(p.name);
    LogOne(c, c1, Read(PlanT(p.name)));
    var c' := SucReconcile(c, p).0;
    if existing.Ok? && existing.value.Some? {
      ReportQuiet(c1, existing.value.value);
      QuietThen(c, c1, c');
    } else if existing.Ok? {
      LogOne(c1, c', Create(PlanT(p.name)));
      QuietThenStarts(c, c1, c', PlanT(p.name));
    }
  }

  /** From `c` to `c'` a list of plans created at most one plan, a missing one,
      after it found every plan before it done: complete and, when a version is
      given, with all its nodes at it. `i` is that plan, or the number of plans. */
  predicate PlansStarted(c: Cluster, c': Cluster, plans: seq<Plan>, verify: Option<string>, i: nat) {
    && i <= |plans| && (i == |plans| ==> Quiet(c, c'))
    && (i < |plans| ==> LastStarts(c, c', PlanT(plans[i].name)) && plans[i].name !in c.plans
                        && forall j | 0 <= j < i :: PlanDone(c, plans[j], verify))
  }

  lemma PlansStartedFurther(c: Cluster, c1: Cluster, c': Cluster, plans: seq<Plan>, verify: Option<string>, i: nat)
    requires plans != [] && OnlyRead(c, c1) && PlanDone(c, plans[0], verify)
    requires PlansStarted(c1, c', plans[1..], verify, i)
    ensures PlansStarted(c, c', plans, verify, i + 1)
  {
    OnlyReadQuiet(c, c1);
    QuietThen(c, c1, c');
    if i < |plans[1..]| {
      QuietThenStarts(c, c1, c', PlanT(plans[1..][i].name));
      SamePlansDone(c, c1, plans, verify);
      forall j | 0 <= j < i + 1 ensures PlanDone(c, plans[j], verify) {
        assert j > 0 ==> PlanDone(c1, plans[1..][j - 1], verify);
      }
    }
  }

  lemma {:induction false} RunPlansOrdered(c: Cluster, plans: seq<Plan>, verify: Option<string>) returns (i: nat)
    requires forall p | p in plans :: PlanState(p) != PlanComplete
    ensures PlansStarted(c, RunPlans(c, plans, verify).0, plans, verify, i)
    decreases |plans|
  {
    if plans == [] {
      assert Since(c, c) == [];
      i := 0;
    } else {
      var (c1, r) := SucReconcile(c, plans[0]);
      SucReconcileOne(c, plans[0]);
      if r.Err? || r.value.state != PlanComplete || (verify.Some? && !AllNodesAt(r.value.nodes, verify.value)) {
        i := if Quiet(c, c1) then |plans| else 0;
      } else {
        DonePlanReads(c, plans[0], verify);
        var k := RunPlansOrdered(c1, plans[1..], verify);
        PlansStartedFurther(c, c1, RunPlans(c1, plans[1..], verify).0, plans, verify, k);
        i := k + 1;
      }
    }
  }

  /** Stored plans of this phase still have the selectors they were created with. */
  predicate SelectorsKept(c: Cluster, plans: seq<Plan>) {
    forall p | p in plans && p.name in c.plans :: c.plans[p.name].selector == p.selector
  }

  /** Success of the phase means that the whole cluster, with at least one control plane node, is at the version. */
  lemma KubernetesSound(c: Cluster, cfg: Config, hash: Hash, order: MapOrder)
    requires Enumerates(order) && ChartsKeyed(c.charts)
    requires cfg.kubernetes.Some? && SelectorsKept(c, KubernetesPlans(cfg, c.nodes))
    requires KubernetesPhase(c, cfg, hash, order).1 == Ok(Succeeded)
    ensures forall n | n in c.nodes :: NodeUpgraded(n, cfg.kubernetes.value.version)
    ensures exists n :: n in c.nodes && "node-role.kubernetes.io/control-plane" in n.labels
  {
    var version := cfg.kubernetes.value.version;
    var (c1, snapshot) := SnapshotFor(c, hash, order, cfg.GetOwner());
    SnapshotFrozen(c, hash, order, cfg.GetOwner());
    var (c2, nodes) := c1.ListNodes([]);
    SelectAll(c.nodes);
    var plans := KubernetesPlans(cfg, c.nodes);
    assert RunPlans(c2, plans, Some(version)).1 == Ok(None) by {
      RunPlansVerdict(c2, plans, Some(version));
    }
    RunPlansDone(c2, plans, Some(version));
    assert PlanDone(c2, plans[0], Some(version));
    var controlPlane := Select(c.nodes, CONTROL_PLANE_SELECTOR);
    assert AllNodesAt(controlPlane, version);
    SelectorsPartition(controlPlane[0]);
    assert controlPlane[0] in c.nodes;
    forall n | n in c.nodes ensures NodeUpgraded(n, version) {
      NodeAtIff(n, version);
      SelectorsPartition(n);
      if IsControlPlane(n) {
        assert n in controlPlane;
      } else {
        assert PlanDone(c2, plans[1], Some(version));
        assert n in Select(c.nodes, WORKER_SELECTOR);
      }
    }
  }

  // ---------------------------------------------------------------- the state in which a phase stops

  /** The list stopped at its first plan that is not done: as
      failed when that plan failed, and otherwise in progress. */
  ghost predicate StoppedAt(c: Cluster, plans: seq<Plan>, verify: Option<string>, s: State, i: nat) {
    && i < |plans| && (forall j | 0 <= j < i :: PlanDone(c, plans[j], verify)) && !PlanDone(c, plans[i], verify)
    && s == if plans[i].name in c.plans && PlanFailed(c.plans[plans[i].name]) then Failed else InProgress
  }

  lemma NewIsInProgress(p: Plan)
    requires p.conditions == []
    ensures PlanState(p) == InProgress
  {
  }

  lemma SucReconcileState(c: Cluster, p: Plan)
    requires p.conditions == [] && SucReconcile(c, p).1.Ok?
    ensures var s := SucReconcile(c, p).1.value.state;
            && (s == PlanComplete <==> p.name in c.plans && PlanState(c.plans[p.name]) == PlanComplete)
            && (s != PlanComplete ==>
                  s == if p.name in c.plans && PlanFailed(c.plans[p.name]) then Failed else InProgress)
  {
    PlanStateExact(p);
    NewIsInProgress(p);
    if p.name in c.plans {
      PlanStateExact(c.plans[p.name]);
    }
  }

  lemma {:induction false} RunPlansStops(c: Cluster, plans: seq<Plan>, verify: Option<string>) returns (i: nat)
    requires (forall p | p in plans :: p.conditions == []) && RunPlans(c, plans, verify).1.Ok?
    requires RunPlans(c, plans, verify).1.value.Some?
    ensures StoppedAt(c, plans, verify, RunPlans(c, plans, verify).1.value.value, i)
    decreases |plans|
  {
    var p := plans[0];
    var (c1, r) := SucReconcile(c, p);
    assert p in plans;
    NewIsInProgress(p);
    SucReconcileState(c, p);
    DonePlanReads(c, p, verify);
    if r.value.state == PlanComplete && !(verify.Some? && !AllNodesAt(r.value.nodes, verify.value)) {
      var k := RunPlansStops(c1, plans[1..], verify);
      SamePlansDone(c, c1, plans, verify);
      i := k + 1;
      assert plans[i] == plans[1..][k];
      forall j | 0 <= j < i ensures PlanDone(c, plans[j], verify) {
        assert j > 0 ==> plans[j] == plans[1..][j - 1];
      }
    } else {
      if p.name in c.plans {
        PlanStateExact(c.plans[p.name]);
      }
      i := 0;
    }
  }

  /** The plan a phase starts with: named by its kind and version, for the release, on the control plane nodes. */
  lemma FirstPlans(cfg: Config, nodes: seq<Node>)
    ensures cfg.os.Some? ==>
              var p := OsPlans(cfg, nodes)[0];
              p.name == "elemental-os-control-plane" + "-" + SanitizeVersion(cfg.os.value.version)
              && p.version == cfg.os.value.version && Labelled(p.labels, Owner(cfg.releaseName, cfg.releaseVersion))
    ensures cfg.kubernetes.Some? ==>
              var p := NodePlans(cfg, nodes)[0];
              p.name == "elemental-kubernetes-control-plane" + "-" + SanitizeVersion(cfg.kubernetes.value.version)
              && p.version == cfg.kubernetes.value.version
              && Labelled(p.labels, Owner(cfg.releaseName, cfg.releaseVersion))
    ensures |OsPlans(cfg, nodes)| == 2 ==>
              OsPlans(cfg, nodes)[1].name == "elemental-os-worker" + "-" + SanitizeVersion(cfg.os.value.version)
    ensures |NodePlans(cfg, nodes)| == 2 ==>
              NodePlans(cfg, nodes)[1].name
              == "elemental-kubernetes-worker" + "-" + SanitizeVersion(cfg.kubernetes.value.version)
  {
  }

  /** What the operating system phase answers when it has no error: skipped without a configuration, success when every
      plan is complete, and otherwise the state of the first plan that is not. */
  lemma OsPhaseVerdict(c: Cluster, cfg: Config)
    requires OsPhase(c, cfg).1.Ok?
    ensures var s, plans := OsPhase(c, cfg).1.value, OsPlans(cfg, c.nodes);
            if cfg.os.None? then s == Skipped
            else if s == Succeeded then forall p | p in plans :: PlanDone(c, p, None)
            else exists i: nat :: StoppedAt(c, plans, None, s, i)
  {
    if cfg.os.Some? {
      var c1 := c.ListNodes([]).0;
      var plans := OsPlans(cfg, c.nodes);
      SelectAll(c.nodes);
      ReadOnce(c, c1, NodesT);
      SamePlansDone(c, c1, plans, None);
      forall p | p in plans ensures p.conditions == [] && PlanState(p) == InProgress {
        NewIsInProgress(p);
      }
      if RunPlans(c1, plans, None).1 == Ok(None) {
        RunPlansDone(c1, plans, None);
      } else {
        var i := RunPlansStops(c1, plans, None);
        assert StoppedAt(c, plans, None, OsPhase(c, cfg).1.value, i);
      }
    }
  }

  /** What the Kubernetes phase answers when it has no error: skipped without a configuration; the state of the first
      plan that is not done; with all plans done, success or the wait for the packaged components. */
  lemma KubernetesPhaseVerdict(c: Cluster, cfg: Config, hash: Hash, order: MapOrder)
    requires Enumerates(order) && ChartsKeyed(c.charts) && KubernetesPhase(c, cfg, hash, order).1.Ok?
    ensures var s, plans := KubernetesPhase(c, cfg, hash, order).1.value, NodePlans(cfg, c.nodes);
            if cfg.kubernetes.None? then s == Skipped
            else if forall p | p in plans :: PlanDone(c, p, Some(TargetVersion(cfg))) then s in {Succeeded, InProgress}
            else exists i: nat :: StoppedAt(c, plans, Some(TargetVersion(cfg)), s, i)
  {
    if cfg.kubernetes.Some? {
      var verify := Some(TargetVersion(cfg));
      SnapshotFrozen(c, hash, order, cfg.GetOwner());
      var (c1, snapshot) := SnapshotFor(c, hash, order, cfg.GetOwner());
      var c2 := c1.ListNodes([]).0;
      SelectAll(c.nodes);
      var plans := KubernetesPlans(cfg, c.nodes);
      forall p | p in plans ensures p.conditions == [] && (PlanDone(c2, p, verify) <==> PlanDone(c, p, verify)) {
      }
      var (c3, r) := RunPlans(c2, plans, verify);
      if r.Ok? && r.value.Some? {
        var i := RunPlansStops(c2, plans, verify);
        assert StoppedAt(c, plans, verify, r.value.value, i);
        assert plans[i] in plans;
      } else {
        KubernetesPlansDone(c2, cfg, plans);
        AvailableIff(c3, hash, order, TargetVersion(cfg), snapshot.value);
      }
    }
  }

  lemma KubernetesPlansDone(c: Cluster, cfg: Config, plans: seq<Plan>)
    requires RunPlans(c, plans, Some(TargetVersion(cfg))).1 == Ok(None) && forall p | p in plans :: p.conditions == []
    ensures forall p | p in plans :: PlanDone(c, p, Some(TargetVersion(cfg)))
  {
    forall p | p in plans ensures PlanState(p) != PlanComplete {
      NewIsInProgress(p);
    }
    RunPlansDone(c, plans, Some(TargetVersion(cfg)));
  }

  // ---------------------------------------------------------------- one action at a time

  lemma UpgradeNodesStarts(c: Cluster, cfg: Config, hash: Hash, order: MapOrder, nodes: seq<Node>,
                           snapshot: SnapshotMap)
    requires Enumerates(order) && cfg.kubernetes.Some?
    ensures var (c', r) := UpgradeNodes(c, cfg, hash, order, nodes, snapshot);
            && StartsLast(c, c')
            && (r == Ok(Succeeded) ==> Quiet(c, c'))
            && (r.Ok? ==> r.value.Succeeded? || r.value.InProgress? || r.value.Failed?)
            && c'.charts == c.charts && c'.snapshot == c.snapshot
  {
    var plans, version := KubernetesPlans(cfg, nodes), cfg.kubernetes.value.version;
    RunPlansStarts(c, plans, Some(version));
    RunPlansVerdict(c, plans, Some(version));
    var (c1, r) := RunPlans(c, plans, Some(version));
    if r == Ok(None) {
      AvailableIff(c1, hash, order, version, snapshot);
      QuietThen(c, c1, Availability(c1, hash, order, version, snapshot).0);
      QuietStartsLast(c, Availability(c1, hash, order, version, snapshot).0);
    }
  }

  /** The phase starts at most one action, as its last call, and none when it completes; it changes nothing but plans
      and the snapshot. */
  lemma KubernetesPhaseStarts(c: Cluster, cfg: Config, hash: Hash, order: MapOrder)
    requires Enumerates(order) && ChartsKeyed(c.charts)
    ensures var (c', r) := KubernetesPhase(c, cfg, hash, order);
            && StartsLast(c, c')
            && (r.Ok? && Completes(r.value) ==> Quiet(c, c'))
            && (r.Ok? ==> r.value.Succeeded? || r.value.Skipped? || r.value.InProgress? || r.value.Failed?)
            && c'.charts == c.charts
            && (cfg.kubernetes.Some? ==> c'.snapshot == SnapshotFor(c, hash, order, cfg.GetOwner()).0.snapshot)
  {
    if cfg.kubernetes.Some? {
      var (c1, snapshot) := SnapshotFor(c, hash, order, cfg.GetOwner());
      SnapshotFrozen(c, hash, order, cfg.GetOwner());
      QuietStartsLast(c, c1);
      if snapshot.Ok? {
        var (c2, nodes) := c1.ListNodes([]);
        LogOne(c1, c2, Read(NodesT));
        QuietThen(c, c1, c2);
        QuietStartsLast(c, c2);
        if nodes.Ok? {
          UpgradeNodesStarts(c2, cfg, hash, order, nodes.value, snapshot.value);
          QuietThen(c, c2, KubernetesPhase(c, cfg, hash, order).0);
        }
      }
    }
  }

  // ---------------------------------------------------------------- the snapshot precedes the plans

  /** When the phase creates a plan, the cluster already has a snapshot labelled for this release: one from before the
      pass, unchanged, or one taken earlier in the same pass from the components as they were at its start. */
  lemma SnapshotPrecedesPlans(c: Cluster, cfg: Config, hash: Hash, order: MapOrder, name: string)
    requires Enumerates(order) && ChartsKeyed(c.charts) && cfg.kubernetes.Some?
    requires var c' := KubernetesPhase(c, cfg, hash, order).0; name in c'.plans && name !in c.plans
    ensures var c' := KubernetesPhase(c, cfg, hash, order).0;
            && c'.snapshot.Some? && Owns(c'.snapshot.value, cfg.GetOwner())
            && (c'.snapshot == c.snapshot || Records(c'.snapshot.value.data, Components(c.charts), hash, c.releases))
            && name !in SnapshotFor(c, hash, order, cfg.GetOwner()).0.plans
  {
    SnapshotFrozen(c, hash, order, cfg.GetOwner());
    KubernetesPhaseStarts(c, cfg, hash, order);
  }

  /** One step of a run during one upgrade: a pass of this phase, or anything that leaves the snapshot alone. */
  ghost predicate UpgradeStep(c: Cluster, c': Cluster, cfg: Config, hash: Hash, order: MapOrder)
    requires Enumerates(order)
  {
    c'.snapshot == c.snapshot || c' == KubernetesPhase(c, cfg, hash, order).0
  }

  /** A snapshot labelled for the release stays as it is. */
  predicate KeepsOwned(c: Cluster, c': Cluster, o: Owner) {
    c.snapshot.Some? && Owns(c.snapshot.value, o) ==> c'.snapshot == c.snapshot
  }

  lemma StepKeepsSnapshot(c: Cluster, c': Cluster, cfg: Config, hash: Hash, order: MapOrder)
    requires Enumerates(order) && cfg.kubernetes.Some? && ChartsKeyed(c.charts) && UpgradeStep(c, c', cfg, hash, order)
    ensures KeepsOwned(c, c', cfg.GetOwner())
  {
    SnapshotFrozen(c, hash, order, cfg.GetOwner());
    KubernetesPhaseStarts(c, cfg, hash, order);
  }

  ghost predicate UpgradeRun(run: seq<Cluster>, cfg: Config, hash: Hash, order: MapOrder)
    requires Enumerates(order)
  {
    && (forall k | 0 <= k < |run| :: ChartsKeyed(run[k].charts))
    && forall k | 0 <= k < |run| - 1 :: UpgradeStep(run[k], run[k + 1], cfg, hash, order)
  }

  lemma {:induction false} KeptOverRun(run: seq<Cluster>, o: Owner, i: nat, j: nat)
    requires i <= j < |run| && forall k | 0 <= k < |run| - 1 :: KeepsOwned(run[k], run[k + 1], o)
    requires run[i].snapshot.Some? && Owns(run[i].snapshot.value, o)
    ensures run[j].snapshot == run[i].snapshot
    decreases j - i
  {
    if i < j {
      KeptOverRun(run, o, i, j - 1);
      assert KeepsOwned(run[j - 1], run[j - 1 + 1], o);
    }
  }

  lemma RunKeepsOwned(run: seq<Cluster>, cfg: Config, hash: Hash, order: MapOrder)
    requires Enumerates(order) && cfg.kubernetes.Some? && UpgradeRun(run, cfg, hash, order)
    ensures forall k | 0 <= k < |run| - 1 :: KeepsOwned(run[k], run[k + 1], cfg.GetOwner())
  {
    forall k | 0 <= k < |run| - 1 ensures KeepsOwned(run[k], run[k + 1], cfg.GetOwner()) {
      StepKeepsSnapshot(run[k], run[k + 1], cfg, hash, order);
    }
  }

  /** Over any such run, once a snapshot is labelled for the release, every later pass sees that same snapshot. */
  lemma SnapshotFrozenOverRun(run: seq<Cluster>, cfg: Config, hash: Hash, order: MapOrder, i: nat, j: nat)
    requires Enumerates(order) && cfg.kubernetes.Some? && i <= j < |run| && UpgradeRun(run, cfg, hash, order)
    requires run[i].snapshot.Some? && Owns(run[i].snapshot.value, cfg.GetOwner())
    ensures run[j].snapshot == run[i].snapshot
    ensures var r := SnapshotFor(run[j], hash, order, cfg.GetOwner()).1; r.Ok? ==> r.value == run[i].snapshot.value
  {
    RunKeepsOwned(run, cfg, hash, order);
    KeptOverRun(run, cfg.GetOwner(), i, j);
    SnapshotFrozen(run[j], hash, order, cfg.GetOwner());
  }

  /** In which only passes of this phase create plans called so. */
  ghost predicate OnlyPhaseCreates(run: seq<Cluster>, cfg: Config, hash: Hash, order: MapOrder, names: set<string>)
    requires Enumerates(order)
  {
    forall k | 0 <= k < |run| - 1 ::
      CreatesNone(run[k], run[k + 1], names) || run[k + 1] == KubernetesPhase(run[k], cfg, hash, order).0
  }

  predicate CreatesNone(c: Cluster, c': Cluster, names: set<string>) {
    forall n | n in names && n in c'.plans :: n in c.plans
  }

  predicate HasNone(c: Cluster, names: set<string>) {
    forall n | n in names :: n !in c.plans
  }

  lemma {:induction false} FirstCreation(run: seq<Cluster>, names: set<string>, i: nat, j: nat) returns (k: nat)
    requires i <= j < |run| && HasNone(run[i], names) && !HasNone(run[j], names)
    ensures i <= k < j && HasNone(run[k], names) && !CreatesNone(run[k], run[k + 1], names)
    decreases j - i
  {
    if HasNone(run[i + 1], names) {
      k := FirstCreation(run, names, i + 1, j);
    } else {
      k := i;
    }
  }

  /** After a step the release has a snapshot from before it: the one it had, or one of the components at its start. */
  ghost predicate TakenBefore(c: Cluster, c': Cluster, o: Owner, hash: Hash) {
    && c'.snapshot.Some? && Owns(c'.snapshot.value, o)
    && (c'.snapshot == c.snapshot || Records(c'.snapshot.value.data, Components(c.charts), hash, c.releases))
  }

  lemma PhaseCreates(c: Cluster, c': Cluster, cfg: Config, hash: Hash, order: MapOrder, names: set<string>)
    requires Enumerates(order) && cfg.kubernetes.Some? && ChartsKeyed(c.charts)
    requires !CreatesNone(c, c', names) && c' == KubernetesPhase(c, cfg, hash, order).0
    ensures TakenBefore(c, c', cfg.GetOwner(), hash)
  {
    var n :| n in names && n in c'.plans && n !in c.plans;
    SnapshotPrecedesPlans(c, cfg, hash, order, n);
  }

  ghost predicate CreatesAfterSnapshot(c: Cluster, c': Cluster, o: Owner, hash: Hash, names: set<string>) {
    CreatesNone(c, c', names) || TakenBefore(c, c', o, hash)
  }

  lemma RunCreates(run: seq<Cluster>, cfg: Config, hash: Hash, order: MapOrder, names: set<string>)
    requires Enumerates(order) && cfg.kubernetes.Some? && forall k | 0 <= k < |run| :: ChartsKeyed(run[k].charts)
    requires OnlyPhaseCreates(run, cfg, hash, order, names)
    ensures forall k | 0 <= k < |run| - 1 :: CreatesAfterSnapshot(run[k], run[k + 1], cfg.GetOwner(), hash, names)
  {
    forall k | 0 <= k < |run| - 1 ensures CreatesAfterSnapshot(run[k], run[k + 1], cfg.GetOwner(), hash, names) {
      if !CreatesNone(run[k], run[k + 1], names) {
        PhaseCreates(run[k], run[k + 1], cfg, hash, order, names);
      }
    }
  }

  lemma TakenAndKept(run: seq<Cluster>, o: Owner, hash: Hash, names: set<string>, i: nat, j: nat) returns (k: nat)
    requires forall k | 0 <= k < |run| - 1 :: CreatesAfterSnapshot(run[k], run[k + 1], o, hash, names)
    requires forall k | 0 <= k < |run| - 1 :: KeepsOwned(run[k], run[k + 1], o)
    requires i <= j < |run| && HasNone(run[i], names) && !HasNone(run[j], names)
    ensures i <= k < j && HasNone(run[k], names) && TakenBefore(run[k], run[k + 1], o, hash)
    ensures forall m | k < m < |run| :: run[m].snapshot == run[k + 1].snapshot
  {
    k := FirstCreation(run, names, i, j);
    forall m | k < m < |run| ensures run[m].snapshot == run[k + 1].snapshot {
      KeptOverRun(run, o, k + 1, m);
    }
  }

  /** Over any such run in which the release's plans come into being, the snapshot that every later pass sees was there,
      or was taken from the components, at a point `k` at which none of these plans existed. */
  lemma SnapshotPrecedesAllPlans(run: seq<Cluster>, cfg: Config, hash: Hash, order: MapOrder, names: set<string>,
                                 i: nat, j: nat)
    returns (k: nat)
    requires Enumerates(order) && cfg.kubernetes.Some? && UpgradeRun(run, cfg, hash, order)
    requires OnlyPhaseCreates(run, cfg, hash, order, names)
    requires i <= j < |run| && HasNone(run[i], names) && !HasNone(run[j], names)
    ensures i <= k < j && HasNone(run[k], names) && TakenBefore(run[k], run[k + 1], cfg.GetOwner(), hash)
    ensures forall m | k < m < |run| :: run[m].snapshot == run[k + 1].snapshot
  {
    RunCreates(run, cfg, hash, order, names);
    RunKeepsOwned(run, cfg, hash, order);
    k := TakenAndKept(run, cfg.GetOwner(), hash, names, i, j);
  }
}
