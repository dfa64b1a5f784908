/** The cluster as the controller sees it through its API client: every call reads or writes this value. */
module Clusters {
  import opened Wrappers
  import opened Values
  import opened Charts
  import opened Manifests

  // ---------------------------------------------------------------- objects

  const CONTROL_PLANE_LABEL := "node-role.kubernetes.io/control-plane"
  const RELEASE_NAME_LABEL := "lifecycle.suse.com/release"
  const RELEASE_VERSION_LABEL := "lifecycle.suse.com/version"

  datatype Truth = Yes | No | Unknown

  datatype NodeCondition = NodeCondition(ctype: string, status: Truth)

  datatype Node = Node(name: string, labels: set<string>, conditions: seq<NodeCondition>, unschedulable: bool,
                       kubeletVersion: string)

  /** A label requirement with operator Exists or DoesNotExist. */
  datatype Requirement = Exists(key: string) | DoesNotExist(key: string)

  predicate Matches(selector: seq<Requirement>, n: Node) {
    forall r | r in selector :: match r case Exists(k) => k in n.labels case DoesNotExist(k) => k !in n.labels
  }

  function Select(nodes: seq<Node>, selector: seq<Requirement>): (r: seq<Node>)
    ensures forall n :: n in r <==> n in nodes && Matches(selector, n)
  {
    if nodes == [] then []
    else (if Matches(selector, nodes[0]) then [nodes[0]] else []) + Select(nodes[1..], selector)
  }

  datatype PlanCondition = PlanCondition(ctype: string, status: Truth, reason: string)

  /** A System Upgrade Controller plan; `applying` lists the nodes it is being applied on. */
  datatype Plan = Plan(name: string, labels: map<string, string>, version: string, selector: seq<Requirement>,
                       applying: seq<string>, conditions: seq<PlanCondition>)

  datatype HelmSpec = HelmSpec(version: string, chart: string, repo: string, targetNamespace: string,
                               values: Option<Json>, valuesSecrets: seq<SecretRef>, valuesContent: Option<Fields>,
                               chartContent: string)

  datatype HelmCondition = HelmCondition(ctype: string, status: Truth)

  datatype HelmStatus = HelmStatus(jobName: string, conditions: seq<HelmCondition>)

  /** A HelmChart resource of the "kube-system" namespace. */
  datatype HelmChart = HelmChart(name: string, labels: map<string, string>, annotations: map<string, string>,
                                 spec: HelmSpec, status: HelmStatus)

  datatype JobConditionType = JobComplete | JobFailed | OtherJobCondition

  datatype JobCondition = JobCondition(ctype: JobConditionType, status: Truth)

  /** Times count from the zero time, which is 0. */
  datatype Job = Job(conditions: seq<JobCondition>, completionTime: Option<nat>)

  datatype HelmRelease = HelmRelease(chartVersion: string, namespace: string, config: Fields, revisions: int)

  /** What a snapshot records about one packaged component. */
  datatype ComponentRecord = ComponentRecord(name: string, chartURL: string, contentSHA: string, chartVersion: string,
                                             revisions: int)

  /** The ConfigMap holding the packaged components snapshot, its records keyed by component name. */
  datatype SnapshotMap = SnapshotMap(labels: map<string, string>, sourceVersion: string,
                                     data: map<string, ComponentRecord>, creationTime: nat)

  // ---------------------------------------------------------------- calls

  datatype Target = PlanT(name: string) | ChartT(name: string) | JobT(name: string) | ReleaseT(name: string)
                  | NodesT | PlansT | ChartsT | SnapshotT | CacheT

  datatype Event = Read(t: Target) | Create(t: Target) | Update(t: Target) | Delete(t: Target)

  /** A call that starts an upgrade action: it creates a plan, or creates or updates a HelmChart. */
  predicate Starts(e: Event) {
    (e.Create? && (e.t.PlanT? || e.t.ChartT?)) || (e.Update? && e.t.ChartT?)
  }

  /** `cache` is the ConfigMap of manifests by version; `faults` are the calls that currently fail; `trace` lists the
      calls issued so far. */
  datatype Cluster = Cluster(nodes: seq<Node>, plans: map<string, Plan>, charts: map<string, HelmChart>,
                             jobs: map<string, Job>, releases: map<string, HelmRelease>, snapshot: Option<SnapshotMap>,
                             cache: Option<map<string, ManifestText>>, clock: nat, faults: set<Event>,
                             trace: seq<Event>)
  {
    function Log(e: Event): Cluster {
      this.(trace := trace + [e])
    }

    function Get<T>(t: Target, answer: T): (Cluster, Result<T, Error>) {
      (Log(Read(t)), if Read(t) in faults then Err(ApiError) else Ok(answer))
    }

    function ListNodes(selector: seq<Requirement>): (Cluster, Result<seq<Node>, Error>) {
      Get(NodesT, Select(nodes, selector))
    }

    function GetPlan(name: string): (Cluster, Result<Option<Plan>, Error>) {
      Get(PlanT(name), if name in plans then Some(plans[name]) else None)
    }

    function CreatePlan(p: Plan): (Cluster, Result<(), Error>) {
      var c := Log(Create(PlanT(p.name)));
      if Create(PlanT(p.name)) in faults then (c, Err(ApiError))
      else (c.(plans := plans[p.name := p]), Ok(()))
    }

    function ListPlans(labels: map<string, string>): (Cluster, Result<set<string>, Error>) {
      Get(PlansT, set n | n in plans && HasLabels(plans[n].labels, labels))
    }

    function DeletePlan(name: string): (Cluster, Result<(), Error>) {
      var c := Log(Delete(PlanT(name)));
      if Delete(PlanT(name)) in faults then (c, Err(ApiError))
      else (c.(plans := plans - {name}), Ok(()))
    }

    function RetrieveRelease(name: string): (Cluster, Result<Option<HelmRelease>, Error>) {
      Get(ReleaseT(name), if name in releases then Some(releases[name]) else None)
    }

    function GetChart(name: string): (Cluster, Result<Option<HelmChart>, Error>) {
      Get(ChartT(name), if name in charts then Some(charts[name]) else None)
    }

    function ListCharts(): (Cluster, Result<map<string, HelmChart>, Error>) {
      Get(ChartsT, charts)
    }

    function CreateChart(h: HelmChart): (Cluster, Result<(), Error>) {
      var c := Log(Create(ChartT(h.name)));
      if Create(ChartT(h.name)) in faults then (c, Err(ApiError))
      else (c.(charts := charts[h.name := h]), Ok(()))
    }

    function UpdateChart(h: HelmChart): (Cluster, Result<(), Error>) {
      var c := Log(Update(ChartT(h.name)));
      if Update(ChartT(h.name)) in faults then (c, Err(ApiError))
      else (c.(charts := charts[h.name := h]), Ok(()))
    }

    function GetJob(name: string): (Cluster, Result<Option<Job>, Error>) {
      Get(JobT(name), if name in jobs then Some(jobs[name]) else None)
    }

    function GetSnapshot(): (Cluster, Result<Option<SnapshotMap>, Error>) {
      Get(SnapshotT, snapshot)
    }

    /** The API server stamps the creation time. */
    function CreateSnapshot(s: SnapshotMap): (Cluster, Result<(), Error>) {
      var c := Log(Create(SnapshotT));
      if Create(SnapshotT) in faults then (c, Err(ApiError))
      else (c.(snapshot := Some(s.(creationTime := clock))), Ok(()))
    }

    /** Deletes and waits until the snapshot is gone. */
    function DeleteSnapshot(): (Cluster, Result<(), Error>) {
      var c := Log(Delete(SnapshotT));
      if Delete(SnapshotT) in faults then (c, Err(ApiError))
      else (c.(snapshot := None), Ok(()))
    }

    function GetCache(): (Cluster, Result<Option<map<string, ManifestText>>, Error>) {
      Get(CacheT, cache)
    }

    function CreateCache(data: map<string, ManifestText>): (Cluster, Result<(), Error>) {
      var c := Log(Create(CacheT));
      if Create(CacheT) in faults then (c, Err(ApiError)) else (c.(cache := Some(data)), Ok(()))
    }

    function UpdateCache(data: map<string, ManifestText>): (Cluster, Result<(), Error>) {
      var c := Log(Update(CacheT));
      if Update(CacheT) in faults then (c, Err(ApiError)) else (c.(cache := Some(data)), Ok(()))
    }
  }

  predicate HasLabels(have: map<string, string>, want: map<string, string>) {
    forall k | k in want :: k in have && have[k] == want[k]
  }

  // ---------------------------------------------------------------- the calls of a step

  /** `c'` comes after `c` in one run of the controller. */
  predicate Continues(c: Cluster, c': Cluster) {
    c.trace <= c'.trace
  }

  function Since(c: Cluster, c': Cluster): seq<Event>
    requires Continues(c, c')
  {
    c'.trace[|c.trace|..]
  }

  /** No upgrade action was started between the two. */
  predicate Quiet(c: Cluster, c': Cluster) {
    Continues(c, c') && forall e | e in Since(c, c') :: !Starts(e)
  }

  /** At most one call between the two starts an upgrade action, and it is the last one. */
  predicate StartsLast(c: Cluster, c': Cluster) {
    Continues(c, c') && forall i | 0 <= i < |Since(c, c')| - 1 :: !Starts(Since(c, c')[i])
  }

  /** Exactly one call between the two starts an upgrade action: the last one, on `t`. */
  predicate LastStarts(c: Cluster, c': Cluster, t: Target) {
    && StartsLast(c, c') && Since(c, c') != []
    && Starts(Since(c, c')[|Since(c, c')| - 1]) && Since(c, c')[|Since(c, c')| - 1].t == t
  }

  lemma SinceConcat(a: Cluster, b: Cluster, c: Cluster)
    requires Continues(a, b) && Continues(b, c)
    ensures Continues(a, c) && Since(a, c) == Since(a, b) + Since(b, c)
  {
  }

  lemma QuietThen(a: Cluster, b: Cluster, c: Cluster)
    requires Quiet(a, b)
    ensures Quiet(b, c) ==> Quiet(a, c)
    ensures StartsLast(b, c) ==> StartsLast(a, c)
  {
    if Continues(b, c) {
      SinceConcat(a, b, c);
      if Quiet(b, c) {
        forall e | e in Since(a, c) ensures !Starts(e) {
          assert e in Since(a, b) || e in Since(b, c);
        }
      }
      if StartsLast(b, c) {
        forall i | 0 <= i < |Since(a, c)| - 1 ensures !Starts(Since(a, c)[i]) {
          if i < |Since(a, b)| {
            assert Since(a, c)[i] == Since(a, b)[i] && Since(a, b)[i] in Since(a, b);
          } else {
            assert Since(a, c)[i] == Since(b, c)[i - |Since(a, b)|];
          }
        }
      }
    }
  }

  lemma QuietThenStarts(a: Cluster, b: Cluster, c: Cluster, t: Target)
    requires Quiet(a, b) && LastStarts(b, c, t)
    ensures LastStarts(a, c, t)
  {
    SinceConcat(a, b, c);
    QuietThen(a, b, c);
  }

  lemma QuietStartsLast(a: Cluster, b: Cluster)
    requires Quiet(a, b)
    ensures StartsLast(a, b)
  {
    forall i | 0 <= i < |Since(a, b)| - 1 ensures !Starts(Since(a, b)[i]) {
      assert Since(a, b)[i] in Since(a, b);
    }
  }

  /** One logged call. */
  lemma LogOne(c: Cluster, c': Cluster, e: Event)
    requires c'.trace == c.trace + [e]
    ensures StartsLast(c, c') && Since(c, c') == [e] && (!Starts(e) ==> Quiet(c, c'))
  {
    assert Since(c, c') == [e];
  }

  // ---------------------------------------------------------------- only reading

  /** Every call between the two is a read, and nothing but the trace differs. */
  predicate OnlyRead(c: Cluster, c': Cluster) {
    Continues(c, c') && (forall e | e in Since(c, c') :: e.Read?) && c' == c.(trace := c'.trace)
  }

  lemma ReadOnce(c: Cluster, c': Cluster, t: Target)
    requires c' == c.Log(Read(t))
    ensures OnlyRead(c, c')
  {
    LogOne(c, c', Read(t));
  }

  lemma OnlyReadThen(a: Cluster, b: Cluster, c: Cluster)
    requires OnlyRead(a, b) && OnlyRead(b, c)
    ensures OnlyRead(a, c)
  {
    SinceConcat(a, b, c);
    forall e | e in Since(a, c) ensures e.Read? {
      assert e in Since(a, b) || e in Since(b, c);
    }
  }

  lemma OnlyReadQuiet(c: Cluster, c': Cluster)
    requires OnlyRead(c, c')
    ensures Quiet(c, c')
  {
  }

  // ---------------------------------------------------------------- the client

  /** The API client the reconcilers share. */
  class Client {
    var cluster: Cluster

    constructor (c: Cluster)
      ensures cluster == c
    {
      cluster := c;
    }

    method ListNodes(selector: seq<Requirement>) returns (r: Result<seq<Node>, Error>)
      modifies this
      ensures (cluster, r) == old(cluster).ListNodes(selector)
    {
      var (c, answer) := cluster.ListNodes(selector);
      cluster, r := c, answer;
    }

    method GetPlan(name: string) returns (r: Result<Option<Plan>, Error>)
      modifies this
      ensures (cluster, r) == old(cluster).GetPlan(name)
    {
      var (c, answer) := cluster.GetPlan(name);
      cluster, r := c, answer;
    }

    method CreatePlan(p: Plan) returns (r: Result<(), Error>)
      modifies this
      ensures (cluster, r) == old(cluster).CreatePlan(p)
    {
      var (c, answer) := cluster.CreatePlan(p);
      cluster, r := c, answer;
    }

    method ListPlans(labels: map<string, string>) returns (r: Result<set<string>, Error>)
      modifies this
      ensures (cluster, r) == old(cluster).ListPlans(labels)
    {
      var (c, answer) := cluster.ListPlans(labels);
      cluster, r := c, answer;
    }

    method DeletePlan(name: string) returns (r: Result<(), Error>)
      modifies this
      ensures (cluster, r) == old(cluster).DeletePlan(name)
    {
      var (c, answer) := cluster.DeletePlan(name);
      cluster, r := c, answer;
    }

    method RetrieveRelease(name: string) returns (r: Result<Option<HelmRelease>, Error>)
      modifies this
      ensures (cluster, r) == old(cluster).RetrieveRelease(name)
    {
      var (c, answer) := cluster.RetrieveRelease(name);
      cluster, r := c, answer;
    }

    method GetChart(name: string) returns (r: Result<Option<HelmChart>, Error>)
      modifies this
      ensures (cluster, r) == old(cluster).GetChart(name)
    {
      var (c, answer) := cluster.GetChart(name);
      cluster, r := c, answer;
    }

    method ListCharts() returns (r: Result<map<string, HelmChart>, Error>)
      modifies this
      ensures (cluster, r) == old(cluster).ListCharts()
    {
      var (c, answer) := cluster.ListCharts();
      cluster, r := c, answer;
    }

    method CreateChart(h: HelmChart) returns (r: Result<(), Error>)
      modifies this
      ensures (cluster, r) == old(cluster).CreateChart(h)
    {
      var (c, answer) := cluster.CreateChart(h);
      cluster, r := c, answer;
    }

    method UpdateChart(h: HelmChart) returns (r: Result<(), Error>)
      modifies this
      ensures (cluster, r) == old(cluster).UpdateChart(h)
    {
      var (c, answer) := cluster.UpdateChart(h);
      cluster, r := c, answer;
    }

    method GetJob(name: string) returns (r: Result<Option<Job>, Error>)
      modifies this
      ensures (cluster, r) == old(cluster).GetJob(name)
    {
      var (c, answer) := cluster.GetJob(name);
      cluster, r := c, answer;
    }

    method GetSnapshot() returns (r: Result<Option<SnapshotMap>, Error>)
      modifies this
      ensures (cluster, r) == old(cluster).GetSnapshot()
    {
      var (c, answer) := cluster.GetSnapshot();
      cluster, r := c, answer;
    }

    method CreateSnapshot(s: SnapshotMap) returns (r: Result<(), Error>)
      modifies this
      ensures (cluster, r) == old(cluster).CreateSnapshot(s)
    {
      var (c, answer) := cluster.CreateSnapshot(s);
      cluster, r := c, answer;
    }

    method DeleteSnapshot() returns (r: Result<(), Error>)
      modifies this
      ensures (cluster, r) == old(cluster).DeleteSnapshot()
    {
      var (c, answer) := cluster.DeleteSnapshot();
      cluster, r := c, answer;
    }

    method GetCache() returns (r: Result<Option<map<string, ManifestText>>, Error>)
      modifies this
      ensures (cluster, r) == old(cluster).GetCache()
    {
      var (c, answer) := cluster.GetCache();
      cluster, r := c, answer;
    }

    method CreateCache(data: map<string, ManifestText>) returns (r: Result<(), Error>)
      modifies this
      ensures (cluster, r) == old(cluster).CreateCache(data)
    {
      var (c, answer) := cluster.CreateCache(data);
      cluster, r := c, answer;
    }

    method UpdateCache(data: map<string, ManifestText>) returns (r: Result<(), Error>)
      modifies this
      ensures (cluster, r) == old(cluster).UpdateCache(data)
    {
      var (c, answer) := cluster.UpdateCache(data);
      cluster, r := c, answer;
    }
  }
}
