/** The environment that convergence relies on exists: from every
    plausible state it can complete what a pass started. */
module Environments {
  import opened Wrappers
  import opened Values
  import opened Charts
  import opened Api
  import opened Clusters
  import opened HelmReconciler
  import opened ManifestCache
  import opened ReleaseConfig
  import opened Plans
  import opened PackagedComponents
  import opened Kubernetes
  import opened Controller
  import opened StatusMachine
  import opened Handlers
  import opened PlanCleanup
  import opened Progress
  import opened Effects
  import opened Convergence
  import opened Frames

  /** There is a control plane node and a packaged component, and stored Kubernetes plans have their selectors. */
  ghost predicate Plausible(g: Goal, c: Cluster) {
    && (exists n :: n in c.nodes && IsControlPlane(n))
    && (exists n :: n in Components(c.charts))
    && SelectorsKept(c, NodePlans(g.cfg, c.nodes))
  }

  // ---------------------------------------------------------------- what the environment does

  const JOB := "upgrade"

  function UpgradedNode(n: Node, version: string): Node {
    n.(conditions := [NodeCondition("Ready", Yes)], unschedulable := false, kubeletVersion := version)
  }

  function UpgradedNodes(nodes: seq<Node>, version: string): seq<Node> {
    seq(|nodes|, i requires 0 <= i < |nodes| => UpgradedNode(nodes[i], version))
  }

  function FinishedPlan(p: Plan): Plan {
    p.(applying := [], conditions := [PlanCondition(COMPLETE, Yes, "")])
  }

  /** Content that is not the one recorded for the component. */
  function NewContent(hash: Hash, snapshot: Option<SnapshotMap>, name: string): string {
    if snapshot.Some? && name in snapshot.value.data && hash("a") == snapshot.value.data[name].contentSHA then "b"
    else "a"
  }

  /** The upgrade job of the HelmChart has run; the helm-controller has replaced the content of a packaged component. */
  function Deployed(c: Cluster, hash: Hash, name: string): HelmChart
    requires name in c.charts
  {
    var h := c.charts[name].(status := HelmStatus(JOB, []));
    if IsComponent(h) then h.(spec := h.spec.(chartContent := NewContent(hash, c.snapshot, name))) else h
  }

  function CompletedJob(c: Cluster): Job {
    Job([JobCondition(JobComplete, Yes)], Some(1 + if c.snapshot.Some? then c.snapshot.value.creationTime else 0))
  }

  /** Every node is upgraded, every plan complete and every chart deployed. */
  function Respond(g: Goal, hash: Hash, c: Cluster): Cluster {
    c.(nodes := UpgradedNodes(c.nodes, TargetVersion(g.cfg)),
       plans := map n | n in c.plans :: FinishedPlan(c.plans[n]),
       charts := map n | n in c.charts :: Deployed(c, hash, n),
       jobs := c.jobs[JOB := CompletedJob(c)])
  }

  // ---------------------------------------------------------------- it undoes nothing

  lemma NodesRespond(nodes: seq<Node>, version: string)
    ensures forall n | n in UpgradedNodes(nodes, version) :: NodeAt(n, version)
    ensures ControlPlaneOnly(UpgradedNodes(nodes, version)) <==> ControlPlaneOnly(nodes)
    ensures (exists n :: n in UpgradedNodes(nodes, version) && IsControlPlane(n))
            <==> exists n :: n in nodes && IsControlPlane(n)
  {
    var nodes' := UpgradedNodes(nodes, version);
    forall i | 0 <= i < |nodes|
      ensures nodes'[i] in nodes' && nodes[i] in nodes && (IsControlPlane(nodes'[i]) <==> IsControlPlane(nodes[i]))
    {
    }
    forall n | n in nodes' ensures NodeAt(n, version) {
      var i :| 0 <= i < |nodes'| && nodes'[i] == n;
      assert n.conditions[0].ctype == "Ready";
    }
  }

  lemma ChartsRespond(g: Goal, hash: Hash, c: Cluster, t: ChartConfig)
    ensures NeedsWrite(Respond(g, hash, c), t) <==> NeedsWrite(c, t)
    ensures t.Name() in c.charts ==>
              ShouldUpdate(Respond(g, hash, c).charts[t.Name()], t) == ShouldUpdate(c.charts[t.Name()], t)
              && JobState(Respond(g, hash, c), Respond(g, hash, c).charts[t.Name()]).1
                 == if Read(JobT(JOB)) in c.faults then Err(ApiError) else Ok(ChartSucceeded)
  {
    if t.Name() in c.charts {
      assert JobVerdict(CompletedJob(c).conditions) == ChartSucceeded;
    }
  }

  lemma RespondCompletes(g: Goal, hash: Hash, c: Cluster)
    ensures Completed(g, c, Respond(g, hash, c))
  {
    NodesRespond(c.nodes, TargetVersion(g.cfg));
    forall t | t in g.lcmCharts + g.charts && NeedsWrite(Respond(g, hash, c), t) ensures NeedsWrite(c, t) {
      ChartsRespond(g, hash, c, t);
    }
  }

  // ---------------------------------------------------------------- and completes everything

  lemma FinishedIsComplete(p: Plan)
    ensures PlanState(FinishedPlan(p)) == PlanComplete
  {
  }

  /** Each Kubernetes plan has a node. */
  lemma PlanHasNode(cfg: Config, nodes: seq<Node>, p: Plan)
    requires p in NodePlans(cfg, nodes) && exists n :: n in nodes && IsControlPlane(n)
    ensures Select(nodes, p.selector) != []
  {
    var plans := NodePlans(cfg, nodes);
    if p == plans[0] {
      var n :| n in nodes && IsControlPlane(n);
      SelectorsPartition(n);
      assert n in Select(nodes, p.selector);
    } else {
      var n :| n in nodes && !IsControlPlane(n);
      SelectorsPartition(n);
      assert n in Select(nodes, p.selector);
    }
  }

  lemma PlansRespond(g: Goal, hash: Hash, r: Release, c: Cluster)
    requires Plausible(g, c)
    ensures var k := Cleaned(r, Respond(g, hash, c));
            && (forall p | p in OsPlans(g.cfg, k.nodes) && p.name in k.plans :: PlanDone(k, p, None))
            && (forall p | p in NodePlans(g.cfg, k.nodes) && p.name in k.plans ::
                PlanDone(k, p, Some(TargetVersion(g.cfg))))
  {
    var k := Cleaned(r, Respond(g, hash, c));
    NodesRespond(c.nodes, TargetVersion(g.cfg));
    forall n | n in k.plans ensures PlanState(k.plans[n]) == PlanComplete && k.plans[n] == FinishedPlan(c.plans[n]) {
      FinishedIsComplete(c.plans[n]);
    }
    forall p | p in NodePlans(g.cfg, k.nodes) && p.name in k.plans ensures PlanDone(k, p, Some(TargetVersion(g.cfg))) {
      assert NodePlans(g.cfg, k.nodes) == NodePlans(g.cfg, c.nodes);
      assert k.plans[p.name].selector == p.selector;
      PlanHasNode(g.cfg, k.nodes, p);
    }
  }

  /** The components of the answer are those that were there, with new content. */
  lemma ComponentsRespond(g: Goal, hash: Hash, c: Cluster)
    requires ChartsKeyed(c.charts)
    ensures ChartsKeyed(Respond(g, hash, c).charts)
    ensures Components(Respond(g, hash, c).charts).Keys == Components(c.charts).Keys
    ensures forall n | n in Components(Respond(g, hash, c).charts) ::
              var h := Components(Respond(g, hash, c).charts)[n];
              h.spec.chartContent == NewContent(hash, c.snapshot, n) && h.status.jobName == JOB
  {
  }

  lemma NewContentChanges(hash: Hash, s: SnapshotMap, name: string)
    requires CollisionFree(hash) && name in s.data
    ensures hash(NewContent(hash, Some(s), name)) != s.data[name].contentSHA
  {
    assert "a" != "b" by {
      assert "a"[0] != "b"[0];
    }
  }

  /** With a snapshot, some component is found changed and all found ones are ready. */
  lemma ChangedRespond(g: Goal, hash: Hash, c: Cluster, k: Cluster)
    requires CollisionFree(hash) && Plausible(g, c) && ChartsKeyed(c.charts) && c.faults == {}
    requires k == Respond(g, hash, c).(plans := k.plans) && c.snapshot.Some?
    ensures FoundSome(k, hash, c.snapshot.value) && FoundReady(k, hash, c.snapshot.value)
  {
    ComponentsRespond(g, hash, c);
    var s, components := c.snapshot.value, Components(k.charts);
    var n :| n in Components(c.charts);
    if n in s.data {
      NewContentChanges(hash, s, n);
    }
    assert n in components && Found(components, hash, s.data, n);
    forall n | n in components ensures ReadyVerdict(k, PairOf(components, s.data, n), s.creationTime) == Ok(true) {
      JobOfAnswer(g, hash, c, k, PairOf(components, s.data, n), s.creationTime);
    }
  }

  /** The first node is upgraded and every component has content. */
  lemma FirstNodeResponds(g: Goal, hash: Hash, c: Cluster)
    requires Plausible(g, c) && ChartsKeyed(c.charts)
    ensures var e := Respond(g, hash, c);
            && e.nodes != [] && e.nodes[0].kubeletVersion == TargetVersion(g.cfg)
            && forall n | n in Components(e.charts) :: Components(e.charts)[n].spec.chartContent != ""
  {
    ComponentsRespond(g, hash, c);
  }

  lemma ComponentsRespondSettled(g: Goal, hash: Hash, c: Cluster, k: Cluster, o: Owner)
    requires CollisionFree(hash) && Plausible(g, c) && ChartsKeyed(c.charts) && c.faults == {}
    requires k == Respond(g, hash, c).(plans := k.plans)
    ensures ComponentsSettled(k, hash, o, TargetVersion(g.cfg))
  {
    if c.snapshot.Some? && Owns(c.snapshot.value, o) {
      ChangedRespond(g, hash, c, k);
    } else {
      FirstNodeResponds(g, hash, c);
    }
  }

  lemma JobOfAnswer(g: Goal, hash: Hash, c: Cluster, k: Cluster, q: Pair, since: nat)
    requires k == Respond(g, hash, c).(plans := k.plans) && q.chart.status.jobName == JOB && c.faults == {}
    requires c.snapshot.Some? && c.snapshot.value.creationTime == since
    ensures ReadyVerdict(k, q, since) == Ok(true)
  {
    var job := k.jobs[JOB];
    assert job == CompletedJob(c);
    assert job.conditions[0] in job.conditions;
    assert CompletedAfter(job, since);
  }

  /** The stored values of every chart of the goal can be read. */
  predicate GoalReadable(g: Goal, c: Cluster) {
    forall t | t in g.lcmCharts + g.charts && t.Name() in c.releases && t.Name() in c.charts ::
      ShouldUpdate(c.charts[t.Name()], t).Ok?
  }

  /** After the answer the cluster is quiescent, whatever the plans cleaned away. */
  lemma RespondQuiescent(g: Goal, hash: Hash, r: Release, c: Cluster)
    requires CollisionFree(hash) && Plausible(g, c) && GoalReadable(g, c)
    requires c.faults == {} && ChartsKeyed(c.charts) && forall n | n in Components(c.charts) :: n in c.releases
    ensures Quiescent(g, hash, Cleaned(r, Respond(g, hash, c)))
  {
    var e := Respond(g, hash, c);
    var k := Cleaned(r, e);
    ComponentsRespond(g, hash, c);
    PlansRespond(g, hash, r, c);
    ComponentsRespondSettled(g, hash, c, k, g.cfg.GetOwner());
    SameChartsLeft(e, k);
    forall t | t in g.lcmCharts + g.charts ensures ChartReady(k, t) {
      ChartsRespond(g, hash, c, t);
    }
  }

  lemma SelectorsRespond(g: Goal, hash: Hash, c: Cluster)
    requires SelectorsKept(c, NodePlans(g.cfg, c.nodes))
    ensures SelectorsKept(Respond(g, hash, c), NodePlans(g.cfg, Respond(g, hash, c).nodes))
  {
    NodesRespond(c.nodes, TargetVersion(g.cfg));
    assert NodePlans(g.cfg, Respond(g, hash, c).nodes) == NodePlans(g.cfg, c.nodes);
  }

  lemma RespondPlausible(g: Goal, hash: Hash, c: Cluster)
    requires Plausible(g, c) && ChartsKeyed(c.charts)
    ensures Plausible(g, Respond(g, hash, c))
  {
    SelectorsRespond(g, hash, c);
    NodesRespond(c.nodes, TargetVersion(g.cfg));
    ComponentsRespond(g, hash, c);
    var n :| n in Components(c.charts);
    assert n in Components(Respond(g, hash, c).charts);
  }

  // ---------------------------------------------------------------- a pass keeps the state plausible

  lemma OsPlanName(cfg: Config, nodes: seq<Node>, p: Plan)
    requires p in OsPlans(cfg, nodes)
    ensures |p.name| > 10 && p.name[10] == 'o'
  {
    assert OS_CONTROL_PLANE[10] == 'o' && OS_WORKER[10] == 'o';
  }

  lemma NodePlanName(cfg: Config, nodes: seq<Node>, p: Plan)
    requires p in NodePlans(cfg, nodes)
    ensures |p.name| > 21 && p.name[10] == 'k'
    ensures p.name[21] == if p == NodePlans(cfg, nodes)[0] then 'c' else 'w'
  {
    assert KUBERNETES_CONTROL_PLANE[10] == 'k' && KUBERNETES_WORKER[10] == 'k';
    assert KUBERNETES_CONTROL_PLANE[21] == 'c' && KUBERNETES_WORKER[21] == 'w';
  }

  /** The plans of a configuration are told apart by their names. */
  lemma PlanByName(cfg: Config, nodes: seq<Node>, p: Plan, q: Plan)
    requires p in Required(cfg, nodes) && q in NodePlans(cfg, nodes) && p.name == q.name
    ensures p == q
  {
    NodePlanName(cfg, nodes, q);
    if p in NodePlans(cfg, nodes) {
      NodePlanName(cfg, nodes, p);
    } else {
      OsPlanName(cfg, nodes, p);
    }
  }

  lemma FramedSelectors(g: Goal, c: Cluster, c': Cluster)
    requires Framed(c, c', Required(g.cfg, c.nodes)) && SelectorsKept(c, NodePlans(g.cfg, c.nodes))
    ensures SelectorsKept(c', NodePlans(g.cfg, c'.nodes))
  {
    forall q | q in NodePlans(g.cfg, c.nodes) && q.name in c'.plans ensures c'.plans[q.name].selector == q.selector {
      if !(q.name in c.plans && c'.plans[q.name] == c.plans[q.name]) {
        PlanByName(g.cfg, c.nodes, c'.plans[q.name], q);
      }
    }
  }

  lemma FramedComponents(c: Cluster, c': Cluster, wanted: seq<Plan>)
    requires Framed(c, c', wanted) && ChartsKeyed(c.charts)
    ensures forall n :: n in Components(c'.charts) <==> n in Components(c.charts)
  {
  }

  lemma FramedReadable(g: Goal, c: Cluster, c': Cluster, wanted: seq<Plan>)
    requires Framed(c, c', wanted) && GoalReadable(g, c) && forall t | t in g.lcmCharts + g.charts :: Writable(t)
    ensures GoalReadable(g, c')
  {
    forall t | t in g.lcmCharts + g.charts && t.Name() in c'.releases && t.Name() in c'.charts
      ensures ShouldUpdate(c'.charts[t.Name()], t).Ok?
    {
      assert Writable(t);
      if t.Name() in c.charts && c'.charts[t.Name()] == c.charts[t.Name()] {
        assert ShouldUpdate(c.charts[t.Name()], t).Ok?;
      } else {
        assert Readable(c'.charts[t.Name()]);
      }
    }
  }

  lemma ReadyReadable(g: Goal, w: World, hash: Hash, m: Moment)
    requires Enumerates(w.order) && Ready(g, w, hash, m)
    ensures GoalReadable(g, m.cluster) && m.cluster.faults == {} && ChartsKeyed(m.cluster.charts)
    ensures forall n | n in Components(m.cluster.charts) :: n in m.cluster.releases
    ensures forall t | t in g.lcmCharts + g.charts :: Writable(t)
  {
    SameChartsLeft(m.cluster, Cleaned(m.release, m.cluster));
    forall t | t in g.lcmCharts + g.charts && t.Name() in m.cluster.releases && t.Name() in m.cluster.charts
      ensures ShouldUpdate(m.cluster.charts[t.Name()], t).Ok?
    {
      assert ChartReady(Cleaned(m.release, m.cluster), t);
    }
  }

  function Answered(g: Goal, w: World, hash: Hash, m: Moment): Moment
    requires Enumerates(w.order)
  {
    Moment(PassOf(w, hash, m).release, Respond(g, hash, PassOf(w, hash, m).cluster))
  }

  lemma WantedIsRequired(g: Goal, w: World, r: Release, c: Cluster)
    requires Resolves(w, r, c, g) && c.faults == {}
    ensures Wanted(w, r, c) == Required(g.cfg, c.nodes)
  {
    var p := GoalOfPass(w, r, c, g);
  }

  /** What a pass leaves can be answered. */
  lemma FramedAnswer(g: Goal, hash: Hash, r: Release, c: Cluster, c': Cluster)
    requires CollisionFree(hash) && Plausible(g, c) && Framed(c, c', Required(g.cfg, c.nodes))
    requires GoalReadable(g, c) && c.faults == {} && ChartsKeyed(c.charts)
    requires (forall n | n in Components(c.charts) :: n in c.releases)
             && forall t | t in g.lcmCharts + g.charts :: Writable(t)
    ensures Quiescent(g, hash, Cleaned(r, Respond(g, hash, c'))) && Plausible(g, Respond(g, hash, c'))
  {
    FramedSelectors(g, c, c');
    FramedComponents(c, c', Required(g.cfg, c.nodes));
    FramedReadable(g, c, c', Required(g.cfg, c.nodes));
    RespondQuiescent(g, hash, r, c');
    RespondPlausible(g, hash, c');
  }

  /** What a pass from here touches, with the cache as the pass leaves it. */
  lemma ReadyFramed(g: Goal, w: World, hash: Hash, m: Moment)
    requires Enumerates(w.order) && Ready(g, w, hash, m)
    ensures var c' := PassOf(w, hash, m).cluster;
            Framed(m.cluster.(cache := c'.cache), c', Required(g.cfg, m.cluster.nodes))
  {
    ReadyReadable(g, w, hash, m);
    PassTouchesOnly(w, hash, m.release, m.cluster);
    WantedIsRequired(g, w, m.release, m.cluster);
  }

  lemma SameButCache(g: Goal, c: Cluster, c': Cluster)
    requires c' == c.(cache := c'.cache) && Plausible(g, c) && GoalReadable(g, c)
    ensures Plausible(g, c') && GoalReadable(g, c')
  {
  }

  lemma PassAnswered(g: Goal, w: World, hash: Hash, m: Moment)
    requires Enumerates(w.order) && Ready(g, w, hash, m) && Plausible(g, m.cluster)
    ensures var m' := Answered(g, w, hash, m);
            Quiescent(g, hash, Cleaned(m'.release, m'.cluster)) && Plausible(g, m'.cluster)
  {
    var pass := PassOf(w, hash, m);
    ReadyReadable(g, w, hash, m);
    ReadyFramed(g, w, hash, m);
    SameButCache(g, m.cluster, m.cluster.(cache := pass.cluster.cache));
    FramedAnswer(g, hash, pass.release, m.cluster.(cache := pass.cluster.cache), pass.cluster);
  }

  /** Whatever a pass starts from a plausible state, the environment can complete it, and the state stays plausible. */
  lemma EveryPassCanComplete(g: Goal, w: World, hash: Hash, m: Moment)
    requires Enumerates(w.order) && Ready(g, w, hash, m) && Plausible(g, m.cluster)
    ensures Step(g, w, hash, m, Answered(g, w, hash, m)) && Plausible(g, Answered(g, w, hash, m).cluster)
  {
    PassAnswered(g, w, hash, m);
    RespondCompletes(g, hash, PassOf(w, hash, m).cluster);
  }

  // ---------------------------------------------------------------- a whole run

  function Iterate(next: Moment -> Moment, m: Moment, n: nat): Moment {
    if n == 0 then m else next(Iterate(next, m, n - 1))
  }

  lemma {:induction false} IterateKeeps(next: Moment -> Moment, inv: Moment -> bool, m: Moment, n: nat)
    requires inv(m) && forall x | inv(x) :: inv(next(x))
    ensures inv(Iterate(next, m, n))
  {
    if n > 0 {
      IterateKeeps(next, inv, m, n - 1);
    }
  }

  lemma IterateSteps(next: Moment -> Moment, inv: Moment -> bool, step: (Moment, Moment) -> bool, m: Moment)
    returns (run: nat -> Moment)
    requires inv(m) && forall x | inv(x) :: inv(next(x)) && step(x, next(x))
    ensures run(0) == m && forall k: nat :: step(run(k), run(k + 1))
  {
    run := (k: nat) => Iterate(next, m, k);
    forall k: nat ensures step(run(k), run(k + 1)) {
      IterateKeeps(next, inv, m, k);
    }
  }

  /** The environment uninstalls nothing, removes no HelmChart and leaves releases without one at their version. */
  predicate KeepsInstalled(c: Cluster, c': Cluster) {
    && c.releases.Keys <= c'.releases.Keys && c.charts.Keys <= c'.charts.Keys
    && forall n | n in c.releases && n !in c'.charts :: c'.releases[n].chartVersion == c.releases[n].chartVersion
  }

  ghost predicate InstalledKeptAt(w: World, hash: Hash, run: nat -> Moment, i: nat)
    requires Enumerates(w.order)
  {
    KeepsInstalled(PassOf(w, hash, run(i)).cluster, run(i + 1).cluster)
  }

  ghost predicate InReach(g: Goal, w: World, hash: Hash, m: Moment)
    requires Enumerates(w.order)
  {
    Ready(g, w, hash, m) && Plausible(g, m.cluster)
  }

  lemma AnsweredInReach(g: Goal, w: World, hash: Hash, m: Moment)
    requires Enumerates(w.order) && InReach(g, w, hash, m)
    ensures InReach(g, w, hash, Answered(g, w, hash, m)) && Step(g, w, hash, m, Answered(g, w, hash, m))
    ensures KeepsInstalled(PassOf(w, hash, m).cluster, Answered(g, w, hash, m).cluster)
  {
    EveryPassCanComplete(g, w, hash, m);
    StepKeepsReady(g, w, hash, m, Answered(g, w, hash, m));
  }

  ghost function Reach(g: Goal, w: World, hash: Hash): Moment -> bool
    requires Enumerates(w.order)
  {
    x => InReach(g, w, hash, x)
  }

  ghost function Steps(g: Goal, w: World, hash: Hash): (Moment, Moment) -> bool
    requires Enumerates(w.order)
  {
    (x, y) => Step(g, w, hash, x, y) && KeepsInstalled(PassOf(w, hash, x).cluster, y.cluster)
  }

  function Answers(g: Goal, w: World, hash: Hash): Moment -> Moment
    requires Enumerates(w.order)
  {
    x => Answered(g, w, hash, x)
  }

  lemma AnswersReach(g: Goal, w: World, hash: Hash)
    requires Enumerates(w.order)
    ensures var next := Answers(g, w, hash);
            forall x | Reach(g, w, hash)(x) :: Reach(g, w, hash)(next(x)) && Steps(g, w, hash)(x, next(x))
  {
    forall x | Reach(g, w, hash)(x)
      ensures Reach(g, w, hash)(Answers(g, w, hash)(x)) && Steps(g, w, hash)(x, Answers(g, w, hash)(x))
    {
      AnsweredInReach(g, w, hash, x);
    }
  }

  lemma StepsAreRun(g: Goal, w: World, hash: Hash, run: nat -> Moment)
    requires Enumerates(w.order) && forall k: nat :: Steps(g, w, hash)(run(k), run(k + 1))
    ensures forall k: nat :: StepAt(g, w, hash, run, k) && InstalledKeptAt(w, hash, run, k)
  {
    forall k: nat ensures StepAt(g, w, hash, run, k) && InstalledKeptAt(w, hash, run, k) {
      assert Steps(g, w, hash)(run(k), run(k + 1));
    }
  }

  /** From every plausible state there is a run. */
  lemma RunExists(g: Goal, w: World, hash: Hash, m: Moment) returns (run: nat -> Moment)
    requires Enumerates(w.order) && InReach(g, w, hash, m)
    ensures run(0) == m && forall k: nat :: StepAt(g, w, hash, run, k) && InstalledKeptAt(w, hash, run, k)
  {
    AnswersReach(g, w, hash);
    run := IterateSteps(Answers(g, w, hash), Reach(g, w, hash), Steps(g, w, hash), m);
    StepsAreRun(g, w, hash, run);
  }

  /** And when nothing stands in the way of the release, it is applied in it. */
  lemma CanBeApplied(g: Goal, w: World, hash: Hash, m: Moment) returns (run: nat -> Moment, n: nat)
    requires Enumerates(w.order) && OnCourse(g, w, hash, m) && Plausible(g, m.cluster)
    ensures run(0) == m && forall k: nat :: StepAt(g, w, hash, run, k)
    ensures Applied(run(n).release)
  {
    run := RunExists(g, w, hash, m);
    n := Converges(g, w, hash, run);
    assert Resting(w, hash, run(n).release, run(n));
  }

  /** A run can start from any plausible cluster, once what runs on it is completed. */
  lemma StartExists(g: Goal, w: World, hash: Hash, r: Release, c: Cluster)
    requires Enumerates(w.order) && CollisionFree(hash) && Resolves(w, r, c, g) && StatusInv(r, REAL_PHASES)
    requires Plausible(g, c) && GoalReadable(g, c)
    requires c.faults == {} && ChartsKeyed(c.charts) && forall n | n in Components(c.charts) :: n in c.releases
    ensures InReach(g, w, hash, Moment(r, Respond(g, hash, c)))
  {
    RespondQuiescent(g, hash, r, c);
    RespondPlausible(g, hash, c);
    SameResolved(w, r, r, c, Respond(g, hash, c), g);
  }
}
