/** System Upgrade Controller plans and the operating system phase (internal/plan, plan.go and os.go). */
module Plans {
  import opened Wrappers
  import opened Api
  import opened Clusters
  import opened HelmReconciler
  import opened ReleaseConfig

  // ---------------------------------------------------------------- building plans

  const OS_CONTROL_PLANE := "elemental-os-control-plane"
  const OS_WORKER := "elemental-os-worker"
  const KUBERNETES_CONTROL_PLANE := "elemental-kubernetes-control-plane"
  const KUBERNETES_WORKER := "elemental-kubernetes-worker"

  const CONTROL_PLANE_SELECTOR := [Exists(CONTROL_PLANE_LABEL)]
  const WORKER_SELECTOR := [DoesNotExist(CONTROL_PLANE_LABEL)]

  function PlanName(base: string, version: string): string {
    base + "-" + SanitizeVersion(version)
  }

  function NewPlan(base: string, o: Owner, version: string, selector: seq<Requirement>): Plan {
    Plan(PlanName(base, version), OwnerLabels(o), version, selector, [], [])
  }

  predicate IsControlPlane(n: Node) {
    CONTROL_PLANE_LABEL in n.labels
  }

  predicate ControlPlaneOnly(nodes: seq<Node>) {
    forall n | n in nodes :: IsControlPlane(n)
  }

  method IsControlPlaneOnlyCluster(nodes: seq<Node>) returns (only: bool)
    ensures only <==> ControlPlaneOnly(nodes)
  {
    for i := 0 to |nodes|
      invariant ControlPlaneOnly(nodes[..i])
    {
      if !IsControlPlane(nodes[i]) {
        assert nodes[i] in nodes;
        return false;
      }
    }
    assert nodes[..|nodes|] == nodes;
    return true;
  }

  /** Control plane before workers; no worker plan without worker nodes. */
  function PlansFor(controlPlane: string, worker: string, o: Owner, version: string, nodes: seq<Node>): seq<Plan> {
    [NewPlan(controlPlane, o, version, CONTROL_PLANE_SELECTOR)]
    + if ControlPlaneOnly(nodes) then [] else [NewPlan(worker, o, version, WORKER_SELECTOR)]
  }

  /** The plans of the operating system phase. */
  function OsPlans(cfg: Config, nodes: seq<Node>): seq<Plan> {
    if cfg.os.None? then [] else PlansFor(OS_CONTROL_PLANE, OS_WORKER, cfg.GetOwner(), cfg.os.value.version, nodes)
  }

  // ---------------------------------------------------------------- reconciling one plan

  const COMPLETE := "Complete"

  /** The first Complete condition that is true, or false with a reason, decides. */
  function CompletionOf(conds: seq<PlanCondition>): State {
    if conds == [] then InProgress
    else if conds[0].ctype == COMPLETE && conds[0].status.Yes? then PlanComplete
    else if conds[0].ctype == COMPLETE && conds[0].status.No? && conds[0].reason != "" then Failed
    else CompletionOf(conds[1..])
  }

  function PlanState(p: Plan): State {
    if p.applying != [] then InProgress else CompletionOf(p.conditions)
  }

  /** A Complete condition that is true, or false with a reason. */
  predicate Deciding(c: PlanCondition) {
    c.ctype == "Complete" && (c.status.Yes? || (c.status.No? && c.reason != ""))
  }

  ghost predicate FirstDeciding(conds: seq<PlanCondition>, i: nat) {
    i < |conds| && Deciding(conds[i]) && forall j | 0 <= j < i :: !Deciding(conds[j])
  }

  /** The plan is being applied on no node, and its first deciding condition is true. */
  ghost predicate PlanCompleted(p: Plan) {
    p.applying == [] && exists i: nat :: FirstDeciding(p.conditions, i) && p.conditions[i].status.Yes?
  }

  /** The plan is being applied on no node, and its first deciding condition is false. */
  ghost predicate PlanFailed(p: Plan) {
    p.applying == [] && exists i: nat :: FirstDeciding(p.conditions, i) && p.conditions[i].status.No?
  }

  lemma {:induction false} CompletionAt(conds: seq<PlanCondition>, i: nat)
    requires i <= |conds| && (forall j | 0 <= j < i :: !Deciding(conds[j])) && (i < |conds| ==> Deciding(conds[i]))
    ensures CompletionOf(conds) ==
            if i == |conds| then InProgress else if conds[i].status.Yes? then PlanComplete else Failed
  {
    if i > 0 {
      assert !Deciding(conds[0]);
      CompletionAt(conds[1..], i - 1);
    }
  }

  /** A plan is complete, failed or in progress by its first deciding condition, and in progress while it is applied. */
  lemma PlanStateExact(p: Plan)
    ensures PlanState(p) == PlanComplete <==> PlanCompleted(p)
    ensures PlanState(p) == Failed <==> PlanFailed(p)
    ensures PlanState(p) in {PlanComplete, Failed, InProgress}
  {
    var i := 0;
    while i < |p.conditions| && !Deciding(p.conditions[i])
      invariant i <= |p.conditions| && forall j | 0 <= j < i :: !Deciding(p.conditions[j])
    {
      i := i + 1;
    }
    CompletionAt(p.conditions, i);
    if i < |p.conditions| {
      assert FirstDeciding(p.conditions, i);
    }
  }

  datatype PlanResult = PlanResult(state: State, nodes: seq<Node>)

  /** The state of a plan, with its nodes once it is complete. */
  function Report(c: Cluster, p: Plan): (Cluster, Result<PlanResult, Error>) {
    if PlanState(p) != PlanComplete then (c, Ok(PlanResult(PlanState(p), [])))
    else
      var (c1, nodes) := c.ListNodes(p.selector);
      (c1, if nodes.Err? then Err(nodes.error) else Ok(PlanResult(PlanComplete, nodes.value)))
  }

  function SucReconcile(c: Cluster, desired: Plan): (Cluster, Result<PlanResult, Error>) {
    var (c1, existing) := c.GetPlan(desired.name);
    if existing.Err? then (c1, Err(existing.error))
    else if existing.value.Some? then Report(c1, existing.value.value)
    else
      var (c2, created) := c1.CreatePlan(desired);
      if created.Err? then (c2, Err(created.error)) else Report(c2, desired)
  }

  // ---------------------------------------------------------------- reconciling a list of plans

  predicate NodeReady(conds: seq<NodeCondition>) {
    conds != [] && if conds[0].ctype == "Ready" then conds[0].status.Yes? else NodeReady(conds[1..])
  }

  function TrimV(s: string): string {
    if s != "" && s[0] == 'v' then s[1..] else s
  }

  predicate KubeletVersionMatches(kubelet: string, target: string) {
    TrimV(kubelet) == TrimV(target)
  }

  /** Ready, schedulable and at the version, up to a leading "v". */
  predicate NodeAt(n: Node, version: string) {
    NodeReady(n.conditions) && !n.unschedulable && KubeletVersionMatches(n.kubeletVersion, version)
  }

  predicate AllNodesAt(nodes: seq<Node>, version: string) {
    nodes != [] && forall n | n in nodes :: NodeAt(n, version)
  }

  ghost predicate FirstReady(conds: seq<NodeCondition>, i: nat) {
    i < |conds| && conds[i].ctype == "Ready" && forall j | 0 <= j < i :: conds[j].ctype != "Ready"
  }

  /** Equal once a leading "v" is taken from each version that has one. */
  predicate SameUpToV(a: string, b: string) {
    a == b || (a == "v" + b && !("v" <= b)) || (b == "v" + a && !("v" <= a))
  }

  /** The first Ready condition of the node is true, it is schedulable, and its kubelet has the version. */
  ghost predicate NodeUpgraded(n: Node, version: string) {
    && (exists i: nat :: FirstReady(n.conditions, i) && n.conditions[i].status.Yes?)
    && !n.unschedulable && SameUpToV(n.kubeletVersion, version)
  }

  lemma {:induction false} ReadyAt(conds: seq<NodeCondition>, i: nat)
    requires i <= |conds| && forall j | 0 <= j < i :: conds[j].ctype != "Ready"
    requires i < |conds| ==> conds[i].ctype == "Ready"
    ensures NodeReady(conds) <==> i < |conds| && conds[i].status.Yes?
  {
    if i > 0 {
      ReadyAt(conds[1..], i - 1);
    }
  }

  lemma VersionMatchesIff(a: string, b: string)
    ensures KubeletVersionMatches(a, b) <==> SameUpToV(a, b)
  {
    if "v" <= a { assert a == "v" + a[1..]; }
    if "v" <= b { assert b == "v" + b[1..]; }
  }

  lemma NodeAtIff(n: Node, version: string)
    ensures NodeAt(n, version) <==> NodeUpgraded(n, version)
  {
    var i := 0;
    while i < |n.conditions| && n.conditions[i].ctype != "Ready"
      invariant i <= |n.conditions| && forall j | 0 <= j < i :: n.conditions[j].ctype != "Ready"
    {
      i := i + 1;
    }
    ReadyAt(n.conditions, i);
    VersionMatchesIff(n.kubeletVersion, version);
    if i < |n.conditions| {
      assert FirstReady(n.conditions, i);
    }
  }

  /** Reconciles plans in order. Ok(None): all are complete and, when `verify` names a Kubernetes version, their nodes
      are at it. Ok(Some(state)): the first plan for which that is not so stopped the list. */
  function RunPlans(c: Cluster, plans: seq<Plan>, verify: Option<string>): (Cluster, Result<Option<State>, Error>)
    decreases |plans|
  {
    if plans == [] then (c, Ok(None))
    else
      var (c1, r) := SucReconcile(c, plans[0]);
      if r.Err? then (c1, Err(r.error))
      else if r.value.state != PlanComplete then (c1, Ok(Some(r.value.state)))
      else if verify.Some? && !AllNodesAt(r.value.nodes, verify.value) then (c1, Ok(Some(InProgress)))
      else RunPlans(c1, plans[1..], verify)
  }

  /** The state with which a plan list ends a phase. */
  function PlansVerdict(r: Result<Option<State>, Error>): Result<State, Error> {
    match r
    case Err(e) => Err(e)
    case Ok(None) => Ok(Succeeded)
    case Ok(Some(s)) => Ok(s)
  }

  function OsPhase(c: Cluster, cfg: Config): (Cluster, Result<State, Error>) {
    if cfg.os.None? then (c, Ok(Skipped))
    else if !cfg.os.value.imageParses then (c, Err(InvalidInput))
    else
      var (c1, nodes) := c.ListNodes([]);
      if nodes.Err? then (c1, Err(nodes.error))
      else
        var plans := PlansFor(OS_CONTROL_PLANE, OS_WORKER, cfg.GetOwner(), cfg.os.value.version, nodes.value);
        var (c2, r) := RunPlans(c1, plans, None);
        (c2, PlansVerdict(r))
  }

  // ---------------------------------------------------------------- the reconcilers

  class SUCPlanReconciler {
    const client: Client

    constructor (client: Client)
      ensures this.client == client
    {
      this.client := client;
    }

    method Reconcile(desired: Plan) returns (r: Result<PlanResult, Error>)
      modifies client
      ensures (client.cluster, r) == SucReconcile(old(client.cluster), desired)
    {
      var plan := GetOrCreatePlan(desired);
      if plan.Err? {
        return Err(plan.error);
      }
      var state := ParsePhaseStatusFromPlan(plan.value);
      if state != PlanComplete {
        return Ok(PlanResult(state, []));
      }
      var nodes := client.ListNodes(plan.value.selector);
      return if nodes.Err? then Err(nodes.error) else Ok(PlanResult(state, nodes.value));
    }

    method GetOrCreatePlan(desired: Plan) returns (r: Result<Plan, Error>)
      modifies client
      ensures var (c1, got) := old(client.cluster).GetPlan(desired.name);
              if got.Err? then client.cluster == c1 && r == Err(got.error)
              else if got.value.Some? then client.cluster == c1 && r == Ok(got.value.value)
              else client.cluster == c1.CreatePlan(desired).0
                   && r == if c1.CreatePlan(desired).1.Ok? then Ok(desired) else Err(c1.CreatePlan(desired).1.error)
    {
      var existing := client.GetPlan(desired.name);
      if existing.Err? {
        return Err(existing.error);
      }
      if existing.value.Some? {
        return Ok(existing.value.value);
      }
      var created := client.CreatePlan(desired);
      return if created.Err? then Err(created.error) else Ok(desired);
    }
  }

  method ParsePhaseStatusFromPlan(p: Plan) returns (state: State)
    ensures state == PlanState(p)
    ensures p.applying != [] ==> state == InProgress
    ensures state == PlanComplete <==> PlanCompleted(p)
    ensures state == Failed <==> PlanFailed(p)
    ensures state in {PlanComplete, Failed, InProgress}
  {
    PlanStateExact(p);
    if |p.applying| > 0 {
      return InProgress;
    }
    for i := 0 to |p.conditions|
      invariant CompletionOf(p.conditions) == CompletionOf(p.conditions[i..])
    {
      assert p.conditions[i..][1..] == p.conditions[i + 1..];
      if p.conditions[i].ctype == COMPLETE {
        if p.conditions[i].status == Yes {
          return PlanComplete;
        }
        if p.conditions[i].status == No && p.conditions[i].reason != "" {
          return Failed;
        }
      }
    }
    return InProgress;
  }

  class OSReconciler {
    const client: Client
    const suc: SUCPlanReconciler

    constructor (client: Client, suc: SUCPlanReconciler)
      requires suc.client == client
      ensures this.client == client && this.suc == suc
    {
      this.client, this.suc := client, suc;
    }

    method Reconcile(cfg: Config) returns (r: Result<State, Error>)
      requires suc.client == client
      modifies client
      ensures (client.cluster, r) == OsPhase(old(client.cluster), cfg)
    {
      if cfg.os.None? {
        return Ok(Skipped);
      }
      var plans := PreparePlans(cfg);
      if plans.Err? {
        return Err(plans.error);
      }
      ghost var run := RunPlans(client.cluster, plans.value, None);
      for i := 0 to |plans.value|
        invariant run == RunPlans(client.cluster, plans.value[i..], None)
      {
        ghost var rest := plans.value[i..];
        assert rest[0] == plans.value[i] && rest[1..] == plans.value[i + 1..];
        var result := suc.Reconcile(plans.value[i]);
        if result.Err? {
          return Err(result.error);
        }
        if result.value.state != PlanComplete {
          return Ok(result.value.state);
        }
      }
      return Ok(Succeeded);
    }

    method PreparePlans(cfg: Config) returns (r: Result<seq<Plan>, Error>)
      requires cfg.os.Some?
      modifies client
      ensures if !cfg.os.value.imageParses then client.cluster == old(client.cluster) && r == Err(InvalidInput)
              else
                var (c1, nodes) := old(client.cluster).ListNodes([]);
                client.cluster == c1
                && r == if nodes.Err? then Err(nodes.error)
                        else Ok(PlansFor(OS_CONTROL_PLANE, OS_WORKER, cfg.GetOwner(), cfg.os.value.version,
                                         nodes.value))
    {
      if !cfg.os.value.imageParses {
        return Err(InvalidInput);
      }
      var list := [NewPlan(OS_CONTROL_PLANE, cfg.GetOwner(), cfg.os.value.version, CONTROL_PLANE_SELECTOR)];
      var nodes := client.ListNodes([]);
      if nodes.Err? {
        return Err(nodes.error);
      }
      var only := IsControlPlaneOnlyCluster(nodes.value);
      if !only {
        list := list + [NewPlan(OS_WORKER, cfg.GetOwner(), cfg.os.value.version, WORKER_SELECTOR)];
      }
      assert list == PlansFor(OS_CONTROL_PLANE, OS_WORKER, cfg.GetOwner(), cfg.os.value.version, nodes.value);
      return Ok(list);
    }
  }

  // ---------------------------------------------------------------- one plan at a time

  lemma ReportQuiet(c: Cluster, p: Plan)
    ensures Quiet(c, Report(c, p).0)
  {
    var c' := Report(c, p).0;
    if c' != c {
      LogOne(c, c', Read(NodesT));
    }
  }

  /** A new plan is never complete, so creating one ends the list of plans. */
  lemma SucReconcileStarts(c: Cluster, desired: Plan)
    requires PlanState(desired) != PlanComplete
    ensures var (c', r) := SucReconcile(c, desired);
            && StartsLast(c, c')
            && (r.Ok? && r.value.state == PlanComplete ==> Quiet(c, c'))
  {
    var (c1, existing) := c.GetPlan(desired.name);
    LogOne(c, c1, Read(PlanT(desired.name)));
    var c' := SucReconcile(c, desired).0;
    if existing.Ok? && existing.value.Some? {
      ReportQuiet(c1, existing.value.value);
      QuietThen(c, c1, c');
      QuietStartsLast(c, c');
    } else if existing.Ok? {
      LogOne(c1, c', Create(PlanT(desired.name)));
      QuietThen(c, c1, c');
    }
  }

  lemma SucReconcileKeeps(c: Cluster, desired: Plan)
    ensures var c' := SucReconcile(c, desired).0; c'.snapshot == c.snapshot && c'.charts == c.charts
  {
  }

  lemma {:induction false} RunPlansStarts(c: Cluster, plans: seq<Plan>, verify: Option<string>)
    requires forall p | p in plans :: PlanState(p) != PlanComplete
    ensures var (c', r) := RunPlans(c, plans, verify);
            && StartsLast(c, c')
            && (r == Ok(None) ==> Quiet(c, c'))
            && c'.snapshot == c.snapshot && c'.charts == c.charts
    decreases |plans|
  {
    if plans != [] {
      var (c1, r) := SucReconcile(c, plans[0]);
      SucReconcileStarts(c, plans[0]);
      SucReconcileKeeps(c, plans[0]);
      if r.Ok? && r.value.state == PlanComplete && !(verify.Some? && !AllNodesAt(r.value.nodes, verify.value)) {
        RunPlansStarts(c1, plans[1..], verify);
        QuietThen(c, c1, RunPlans(c1, plans[1..], verify).0);
      }
    }
  }

  lemma OsPhaseStarts(c: Cluster, cfg: Config)
    ensures var (c', r) := OsPhase(c, cfg);
            && StartsLast(c, c') && c'.charts == c.charts
            && (r.Ok? && Completes(r.value) ==> Quiet(c, c'))
  {
    if cfg.os.Some? && cfg.os.value.imageParses {
      var (c1, nodes) := c.ListNodes([]);
      LogOne(c, c1, Read(NodesT));
      if nodes.Ok? {
        var plans := PlansFor(OS_CONTROL_PLANE, OS_WORKER, cfg.GetOwner(), cfg.os.value.version, nodes.value);
        RunPlansStarts(c1, plans, None);
        RunPlansVerdict(c1, plans, None);
        QuietThen(c, c1, RunPlans(c1, plans, None).0);
      }
    }
  }

  /** A list of plans that stops never ends with a state that completes a phase. */
  lemma {:induction false} RunPlansVerdict(c: Cluster, plans: seq<Plan>, verify: Option<string>)
    ensures var r := RunPlans(c, plans, verify).1;
            r.Ok? && r.value.Some? ==> r.value.value.InProgress? || r.value.value.Failed?
    decreases |plans|
  {
    if plans != [] {
      var (c1, r) := SucReconcile(c, plans[0]);
      PlanStateExact(plans[0]);
      if plans[0].name in c.plans {
        PlanStateExact(c.plans[plans[0].name]);
      }
      RunPlansVerdict(c1, plans[1..], verify);
    }
  }

  // ---------------------------------------------------------------- what the plans are

  /** The control plane plan and, exactly when some node lacks the control plane label,
      the worker plan. Each is named by its base and the sanitized version, labelled
      for the release, not yet applied, and selects its nodes by that label. */
  lemma PlansForExact(controlPlane: string, worker: string, o: Owner, version: string, nodes: seq<Node>)
    ensures var plans := PlansFor(controlPlane, worker, o, version, nodes);
            var key := "node-role.kubernetes.io/control-plane";
            var labels := map["lifecycle.suse.com/release" := o.releaseName,
                              "lifecycle.suse.com/version" := SanitizeVersion(o.releaseVersion)];
            && |plans| == (if exists n | n in nodes :: key !in n.labels then 2 else 1)
            && plans[0] == Plan(controlPlane + "-" + SanitizeVersion(version), labels, version, [Exists(key)], [], [])
            && (|plans| == 2 ==> plans[1] == Plan(worker + "-" + SanitizeVersion(version), labels, version,
                                                  [DoesNotExist(key)], [], []))
  {
  }
}
