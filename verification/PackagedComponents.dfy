/** The packaged components of RKE2: the snapshot taken before an upgrade and the wait for changed components after it
    (internal/upgrade/reconcilers/rke2_core.go). */
module PackagedComponents {
  import opened Wrappers
  import opened Api
  import opened Clusters
  import opened HelmReconciler

  /** The order in which a map with these keys is iterated once `calls` API calls were issued. Every iteration of a pass
      or a run of passes comes after another number of calls, so each can have its own order. */
  type MapOrder = (nat, set<string>) -> seq<string>

  ghost predicate Lists(names: seq<string>, keys: set<string>) {
    && (forall n :: n in names <==> n in keys)
    && forall i, j | 0 <= i < j < |names| :: names[i] != names[j]
  }

  ghost predicate Enumerates(order: MapOrder) {
    forall calls, keys :: Lists(order(calls, keys), keys)
  }

  /** A content hash in hexadecimal: never empty, and without collisions. */
  type Hash = string -> string

  ghost predicate CollisionFree(hash: Hash) {
    && (forall a :: hash(a) != "")
    && forall a, b | hash(a) == hash(b) :: a == b
  }

  // ---------------------------------------------------------------- which charts are components

  const NAME_PREFIX := "rke2-"
  const OWNER_ANNOTATION := "objectset.rio.cattle.io/owner-name"
  const OWNER_GVK_ANNOTATION := "objectset.rio.cattle.io/owner-gvk"
  const ADDON_OWNER := "k3s.cattle.io/v1, Kind=Addon"
  const CHART_URL_ANNOTATION := "helm.cattle.io/chart-url"

  predicate IsComponent(h: HelmChart) {
    && NAME_PREFIX <= h.name
    && OWNER_ANNOTATION in h.annotations
    && OWNER_GVK_ANNOTATION in h.annotations && h.annotations[OWNER_GVK_ANNOTATION] == ADDON_OWNER
    && CHART_URL_ANNOTATION in h.annotations
  }

  function Components(charts: map<string, HelmChart>): map<string, HelmChart> {
    map n | n in charts && IsComponent(charts[n]) :: charts[n]
  }

  function FindComponents(c: Cluster): (Cluster, Result<map<string, HelmChart>, Error>) {
    var (c1, charts) := c.ListCharts();
    (c1, if charts.Err? then Err(charts.error) else Ok(Components(charts.value)))
  }

  // ---------------------------------------------------------------- snapshots

  function ChartUrl(h: HelmChart): string {
    if CHART_URL_ANNOTATION in h.annotations then h.annotations[CHART_URL_ANNOTATION] else ""
  }

  /** Empty content is recorded as an empty hash. */
  function RecordOf(h: HelmChart, hash: Hash, release: HelmRelease): ComponentRecord {
    ComponentRecord(h.name, ChartUrl(h), if h.spec.chartContent != "" then hash(h.spec.chartContent) else "",
                    release.chartVersion, release.revisions)
  }

  function Populate(c: Cluster, hash: Hash, components: map<string, HelmChart>, names: seq<string>,
                    data: map<string, ComponentRecord>)
    : (Cluster, Result<map<string, ComponentRecord>, Error>)
    requires forall n | n in names :: n in components
    decreases |names|
  {
    if names == [] then (c, Ok(data))
    else
      var h := components[names[0]];
      var (c1, release) := c.RetrieveRelease(h.name);
      if release.Err? then (c1, Err(release.error))
      else if release.value.None? then (c1, Err(ApiError))
      else Populate(c1, hash, components, names[1..], data[h.name := RecordOf(h, hash, release.value.value)])
  }

  function BlankSnapshot(o: Owner): SnapshotMap {
    SnapshotMap(OwnerLabels(o), "", map[], 0)
  }

  /** Takes a new snapshot and reads it back. A cluster without nodes makes the source version lookup fail. */
  function TakeSnapshot(c: Cluster, hash: Hash, order: MapOrder, o: Owner): (Cluster, Result<SnapshotMap, Error>)
    requires Enumerates(order)
  {
    var (c1, nodes) := c.ListNodes([]);
    if nodes.Err? then (c1, Err(nodes.error))
    else if nodes.value == [] then (c1, Err(InvalidInput))
    else
      var (c2, components) := FindComponents(c1);
      if components.Err? then (c2, Err(components.error))
      else
        var (c3, data) := Populate(c2, hash, components.value, Listed(order, |c2.trace|, components.value.Keys), map[]);
        if data.Err? then (c3, Err(data.error))
        else Store(c3, BlankSnapshot(o).(sourceVersion := nodes.value[0].kubeletVersion, data := data.value))
  }

  function Store(c: Cluster, s: SnapshotMap): (Cluster, Result<SnapshotMap, Error>) {
    var (c1, created) := c.CreateSnapshot(s);
    if created.Err? then (c1, Err(created.error))
    else
      var (c2, stored) := c1.GetSnapshot();
      (c2, if stored.Err? || stored.value.None? then Err(ApiError) else Ok(stored.value.value))
  }

  function Listed(order: MapOrder, calls: nat, keys: set<string>): (names: seq<string>)
    requires Enumerates(order)
    ensures Lists(names, keys)
  {
    order(calls, keys)
  }

  predicate Owns(s: SnapshotMap, o: Owner) {
    HasLabels(s.labels, OwnerLabels(o))
  }

  /** The snapshot of this release: an existing one is reused when it is labelled for it and retaken otherwise. */
  function SnapshotFor(c: Cluster, hash: Hash, order: MapOrder, o: Owner): (Cluster, Result<SnapshotMap, Error>)
    requires Enumerates(order)
  {
    var (c1, existing) := c.GetSnapshot();
    if existing.Err? then (c1, Err(existing.error))
    else if existing.value.None? then TakeSnapshot(c1, hash, order, o)
    else if Owns(existing.value.value, o) then (c1, Ok(existing.value.value))
    else
      var (c2, deleted) := c1.DeleteSnapshot();
      if deleted.Err? then (c2, Err(deleted.error)) else TakeSnapshot(c2, hash, order, o)
  }

  // ---------------------------------------------------------------- changes since the snapshot

  datatype Pair = Pair(chart: HelmChart, snapshot: Option<ComponentRecord>)

  predicate Changed(h: HelmChart, hash: Hash, r: ComponentRecord) {
    hash(h.spec.chartContent) != r.contentSHA || ChartUrl(h) != r.chartURL
  }

  /** Changed components, in order. */
  function ChangedPairs(components: map<string, HelmChart>, hash: Hash, data: map<string, ComponentRecord>,
                        names: seq<string>): seq<Pair>
    requires forall n | n in names :: n in components
  {
    if names == [] then []
    else
      var n, last := |names| - 1, names[|names| - 1];
      ChangedPairs(components, hash, data, names[..n]) +
      if last in data && Changed(components[last], hash, data[last]) then [Pair(components[last], Some(data[last]))]
      else []
  }

  /** Components missing from the snapshot, in order. */
  function NewPairs(components: map<string, HelmChart>, data: map<string, ComponentRecord>,
                    names: seq<string>): seq<Pair>
    requires forall n | n in names :: n in components
  {
    if names == [] then []
    else
      var n, last := |names| - 1, names[|names| - 1];
      NewPairs(components, data, names[..n]) + if last in data then [] else [Pair(components[last], None)]
  }

  function FindChanged(components: map<string, HelmChart>, hash: Hash, data: map<string, ComponentRecord>,
                       names: seq<string>): seq<Pair>
    requires forall n | n in names :: n in components
  {
    ChangedPairs(components, hash, data, names) + NewPairs(components, data, names)
  }

  // ---------------------------------------------------------------- availability

  predicate JobCompleted(conds: seq<JobCondition>) {
    exists c | c in conds :: c.ctype.JobComplete? && c.status.Yes?
  }

  /** The job is complete and ended strictly after the snapshot was taken. */
  predicate CompletedAfter(j: Job, since: nat) {
    JobCompleted(j.conditions) && j.completionTime.Some? && j.completionTime.value != 0
        && j.completionTime.value > since
  }

  function ReleaseAdvanced(c: Cluster, p: Pair): (Cluster, Result<bool, Error>) {
    var (c1, release) := c.RetrieveRelease(p.chart.name);
    (c1, if release.Err? then Err(release.error)
         else if release.value.None? then Ok(false)
         else if p.snapshot.None? then Ok(true)
         else Ok(release.value.value.chartVersion != p.snapshot.value.chartVersion
                 || release.value.value.revisions > p.snapshot.value.revisions))
  }

  function PairReady(c: Cluster, p: Pair, since: nat): (Cluster, Result<bool, Error>) {
    if p.chart.status.jobName == "" then (c, Ok(false))
    else
      var (c1, job) := c.GetJob(p.chart.status.jobName);
      if job.Err? then (c1, Err(job.error))
      else if job.value.None? then ReleaseAdvanced(c1, p)
      else (c1, Ok(CompletedAfter(job.value.value, since)))
  }

  /** Checks the pairs in order up to the first that is not complete. */
  function PairsReady(c: Cluster, pairs: seq<Pair>, since: nat): (Cluster, Result<bool, Error>)
    decreases |pairs|
  {
    if pairs == [] then (c, Ok(true))
    else
      var (c1, r) := PairReady(c, pairs[0], since);
      if r.Err? || !r.value then (c1, r) else PairsReady(c1, pairs[1..], since)
  }

  function Availability(c: Cluster, hash: Hash, order: MapOrder, target: string,
                        s: SnapshotMap): (Cluster, Result<State, Error>)
    requires Enumerates(order)
  {
    var (c1, components) := FindComponents(c);
    if components.Err? then (c1, Err(components.error))
    else
      var pairs := FindChanged(components.value, hash, s.data, Listed(order, |c1.trace|, components.value.Keys));
      if pairs == [] then (c1, Ok(if target == s.sourceVersion then PackagedComponentsAvailable else InProgress))
      else
        var (c2, done) := PairsReady(c1, pairs, s.creationTime);
        (c2, if done.Err? then Err(done.error) else Ok(if done.value then PackagedComponentsAvailable else InProgress))
  }

  // ---------------------------------------------------------------- the handler

  /** A parsed snapshot; the records come in the iteration order of the stored map. */
  datatype Snapshot = Snapshot(creationTime: nat, sourceVersion: string, charts: seq<ComponentRecord>)

  /** Every record is stored under its own name. */
  predicate KeyedByName(data: map<string, ComponentRecord>) {
    forall k | k in data :: data[k].name == k
  }

  /** `p` holds the records of `s`, in some order. */
  ghost predicate Parses(p: Snapshot, s: SnapshotMap) {
    && p.creationTime == s.creationTime && p.sourceVersion == s.sourceVersion
    && |p.charts| == |s.data|
    && (forall r | r in p.charts :: r in s.data.Values)
    && forall k | k in s.data :: s.data[k] in p.charts
  }

  /** Indexing the parsed records by name gives back the stored map. */
  lemma ParsedIndex(p: Snapshot, s: SnapshotMap, data: map<string, ComponentRecord>)
    requires KeyedByName(s.data) && Parses(p, s)
    requires forall n :: n in data <==> exists r :: r in p.charts && r.name == n
    requires forall n | n in data :: data[n] in p.charts && data[n].name == n
    ensures data == s.data
  {
    forall n | n in data ensures n in s.data && data[n] == s.data[n] {
      assert data[n] in s.data.Values;
    }
    forall n | n in s.data ensures n in data {
      assert s.data[n] in p.charts && s.data[n].name == n;
    }
  }

  class RKE2PackagedComponentsHandler {
    const client: Client
    const hash: Hash
    const order: MapOrder

    constructor (client: Client, hash: Hash, order: MapOrder)
      ensures this.client == client && this.hash == hash && this.order == order
    {
      this.client, this.hash, this.order := client, hash, order;
    }

    method GenerateSnapshot(o: Owner) returns (r: Result<Snapshot, Error>)
      requires Enumerates(order)
      modifies client
      ensures client.cluster == SnapshotFor(old(client.cluster), hash, order, o).0
      ensures match SnapshotFor(old(client.cluster), hash, order, o).1
              case Err(e) => r == Err(e)
              case Ok(s) => r.Ok? && Parses(r.value, s)
    {
      var existing := client.GetSnapshot();
      if existing.Err? {
        return Err(existing.error);
      }
      var snapshot := BlankSnapshot(o);
      var create := true;
      if existing.value.Some? {
        snapshot := existing.value.value;
        var recreate := false;
        if RELEASE_NAME_LABEL !in snapshot.labels || snapshot.labels[RELEASE_NAME_LABEL] != o.releaseName {
          recreate := true;
        }
        if RELEASE_VERSION_LABEL !in snapshot.labels
           || snapshot.labels[RELEASE_VERSION_LABEL] != SanitizeVersion(o.releaseVersion) {
          recreate := true;
        }
        create := recreate;
        if recreate {
          var deleted := client.DeleteSnapshot();
          if deleted.Err? {
            return Err(deleted.error);
          }
        }
      }
      if create {
        var created := CreateSnapshot(o);
        if created.Err? {
          return Err(created.error);
        }
        snapshot := created.value;
      }
      var parsed := ParseSnapshot(snapshot);
      return Ok(parsed);
    }

    method CreateSnapshot(o: Owner) returns (r: Result<SnapshotMap, Error>)
      requires Enumerates(order)
      modifies client
      ensures (client.cluster, r) == TakeSnapshot(old(client.cluster), hash, order, o)
    {
      var nodes := client.ListNodes([]);
      if nodes.Err? {
        return Err(nodes.error);
      }
      if nodes.value == [] {
        return Err(InvalidInput);
      }
      var snapshot := BlankSnapshot(o).(sourceVersion := nodes.value[0].kubeletVersion);
      var data := PopulateSnapshot();
      if data.Err? {
        return Err(data.error);
      }
      var created := client.CreateSnapshot(snapshot.(data := data.value));
      if created.Err? {
        return Err(created.error);
      }
      var stored := client.GetSnapshot();
      return if stored.Err? || stored.value.None? then Err(ApiError) else Ok(stored.value.value);
    }

    method FindRKE2PackagedComponents() returns (r: Result<map<string, HelmChart>, Error>)
      modifies client
      ensures (client.cluster, r) == FindComponents(old(client.cluster))
    {
      var charts := client.ListCharts();
      if charts.Err? {
        return Err(charts.error);
      }
      var all := charts.value;
      var found: map<string, HelmChart> := map[];
      var todo := all.Keys;
      while todo != {}
        invariant todo <= all.Keys
        invariant found == Components(map n | n in all.Keys - todo :: all[n])
        decreases todo
      {
        var n :| n in todo;
        todo := todo - {n};
        if NAME_PREFIX <= all[n].name && OWNER_ANNOTATION in all[n].annotations
           && OWNER_GVK_ANNOTATION in all[n].annotations && all[n].annotations[OWNER_GVK_ANNOTATION] == ADDON_OWNER
           && CHART_URL_ANNOTATION in all[n].annotations {
          found := found[n := all[n]];
        }
      }
      assert all == map n | n in all.Keys - todo :: all[n];
      return Ok(found);
    }

    method PopulateSnapshot() returns (r: Result<map<string, ComponentRecord>, Error>)
      requires Enumerates(order)
      modifies client
      ensures var (c1, components) := FindComponents(old(client.cluster));
              if components.Err? then (client.cluster, r) == (c1, Err(components.error))
              else (client.cluster, r)
                   == Populate(c1, hash, components.value, Listed(order, |c1.trace|, components.value.Keys), map[])
    {
      var components := FindRKE2PackagedComponents();
      if components.Err? {
        return Err(components.error);
      }
      var names := Listed(order, |client.cluster.trace|, components.value.Keys);
      ghost var all := Populate(client.cluster, hash, components.value, names, map[]);
      var data: map<string, ComponentRecord> := map[];
      for i := 0 to |names|
        invariant all == Populate(client.cluster, hash, components.value, names[i..], data)
      {
        ghost var rest := names[i..];
        assert rest[0] == names[i] && rest[1..] == names[i + 1..];
        var h := components.value[names[i]];
        var release := client.RetrieveRelease(h.name);
        if release.Err? {
          return Err(release.error);
        }
        if release.value.None? {
          return Err(ApiError);
        }
        data := data[h.name := RecordOf(h, hash, release.value.value)];
      }
      return Ok(data);
    }

    method ParseSnapshot(s: SnapshotMap) returns (p: Snapshot)
      ensures Parses(p, s)
    {
      p := Snapshot(s.creationTime, s.sourceVersion, []);
      var todo := s.data.Keys;
      while todo != {}
        invariant todo <= s.data.Keys
        invariant p.creationTime == s.creationTime && p.sourceVersion == s.sourceVersion
        invariant |p.charts| + |todo| == |s.data.Keys|
        invariant forall r | r in p.charts :: r in s.data.Values
        invariant forall k | k in s.data && k !in todo :: s.data[k] in p.charts
        decreases todo
      {
        var k :| k in todo;
        todo := todo - {k};
        p := p.(charts := p.charts + [s.data[k]]);
      }
    }

    /** Indexes the parsed records by name again. */
    method IndexRecords(charts: seq<ComponentRecord>) returns (data: map<string, ComponentRecord>)
      ensures forall n :: n in data <==> exists r :: r in charts && r.name == n
      ensures forall n | n in data :: data[n] in charts && data[n].name == n
    {
      data := map[];
      for i := 0 to |charts|
        invariant forall n | n in data :: data[n] in charts && data[n].name == n
        invariant forall j | 0 <= j < i :: charts[j].name in data
      {
        data := data[charts[i].name := charts[i]];
      }
      forall n | exists r :: r in charts && r.name == n ensures n in data {
        var r :| r in charts && r.name == n;
        var j :| 0 <= j < |charts| && charts[j] == r;
      }
    }

    method FindNewOrChanged(parsed: Snapshot, ghost s: SnapshotMap) returns (r: Result<seq<Pair>, Error>)
      requires Enumerates(order)
      modifies client
      ensures KeyedByName(s.data) && Parses(parsed, s) ==>
                var (c1, components) := FindComponents(old(client.cluster));
                && client.cluster == c1
                && r == if components.Err? then Err(components.error)
                        else Ok(FindChanged(components.value, hash, s.data,
                                            Listed(order, |c1.trace|, components.value.Keys)))
    {
      var data := IndexRecords(parsed.charts);
      if KeyedByName(s.data) && Parses(parsed, s) {
        ParsedIndex(parsed, s, data);
      }
      var components := FindRKE2PackagedComponents();
      if components.Err? {
        return Err(components.error);
      }
      var pairs := CompareComponents(components.value, data,
                                     Listed(order, |client.cluster.trace|, components.value.Keys));
      return Ok(pairs);
    }

    /** Visits the components in order; changed ones come before new ones. */
    method CompareComponents(components: map<string, HelmChart>, data: map<string, ComponentRecord>, names: seq<string>)
      returns (pairs: seq<Pair>)
      requires forall n | n in names :: n in components
      ensures pairs == FindChanged(components, hash, data, names)
    {
      var changed, added: seq<Pair> := [], [];
      for i := 0 to |names|
        invariant changed == ChangedPairs(components, hash, data, names[..i])
        invariant added == NewPairs(components, data, names[..i])
      {
        assert names[..i + 1][..i] == names[..i];
        var h := components[names[i]];
        if names[i] !in data {
          added := added + [Pair(h, None)];
          continue;
        }
        if Changed(h, hash, data[names[i]]) {
          changed := changed + [Pair(h, Some(data[names[i]]))];
        }
      }
      assert names[..|names|] == names;
      return changed + added;
    }

    method ReconcileAvailability(target: string, parsed: Snapshot, ghost s: SnapshotMap)
      returns (r: Result<State, Error>)
      requires Enumerates(order)
      modifies client
      ensures KeyedByName(s.data) && Parses(parsed, s) ==>
                (client.cluster, r) == Availability(old(client.cluster), hash, order, target, s)
    {
      var pairs := FindNewOrChanged(parsed, s);
      if pairs.Err? {
        return Err(pairs.error);
      }
      if |pairs.value| == 0 {
        return Ok(if target == parsed.sourceVersion then PackagedComponentsAvailable else InProgress);
      }
      var done := AllJobsComplete(pairs.value, parsed.creationTime);
      return if done.Err? then Err(done.error) else Ok(if done.value then PackagedComponentsAvailable else InProgress);
    }

    /** Checks the pairs in order and stops at the first that is not complete. */
    method AllJobsComplete(pairs: seq<Pair>, since: nat) returns (r: Result<bool, Error>)
      modifies client
      ensures (client.cluster, r) == PairsReady(old(client.cluster), pairs, since)
    {
      for i := 0 to |pairs|
        invariant PairsReady(old(client.cluster), pairs, since) == PairsReady(client.cluster, pairs[i..], since)
      {
        ghost var rest := pairs[i..];
        assert rest[0] == pairs[i] && rest[1..] == pairs[i + 1..];
        var done := IsHelmChartJobComplete(pairs[i], since);
        if done.Err? || !done.value {
          return done;
        }
      }
      return Ok(true);
    }

    method IsHelmChartJobComplete(p: Pair, since: nat) returns (r: Result<bool, Error>)
      modifies client
      ensures (client.cluster, r) == PairReady(old(client.cluster), p, since)
      ensures PairAnswers(old(client.cluster), p, since, r)
    {
      PairReadyExact(client.cluster, p, since);
      if p.chart.status.jobName == "" {
        return Ok(false);
      }
      var job := client.GetJob(p.chart.status.jobName);
      if job.Err? {
        return Err(job.error);
      }
      if job.value.None? {
        var release := client.RetrieveRelease(p.chart.name);
        if release.Err? {
          return Err(release.error);
        }
        if release.value.None? {
          return Ok(false);
        }
        return Ok(p.snapshot.None? || release.value.value.chartVersion != p.snapshot.value.chartVersion
                  || release.value.value.revisions > p.snapshot.value.revisions);
      }
      if !JobCompleted(job.value.value.conditions) {
        return Ok(false);
      }
      if job.value.value.completionTime.None? || job.value.value.completionTime.value == 0 {
        return Ok(false);
      }
      return Ok(job.value.value.completionTime.value > since);
    }
  }

  // ---------------------------------------------------------------- a snapshot is exact

  /** Each component has its record, made from the release of its name. */
  ghost predicate Records(data: map<string, ComponentRecord>, components: map<string, HelmChart>, hash: Hash,
                          releases: map<string, HelmRelease>)
  {
    && data.Keys == components.Keys
    && forall n | n in components ::
         components[n].name in releases && data[n] == RecordOf(components[n], hash, releases[components[n].name])
  }

  /** Every HelmChart is stored under its own name. */
  predicate ChartsKeyed(charts: map<string, HelmChart>) {
    forall n | n in charts :: charts[n].name == n
  }

  /** The record of a component: its name, its chart URL annotation, the hash of its content unless that is empty, and
      the chart version and revisions of its Helm release. */
  lemma RecordOfExact(h: HelmChart, hash: Hash, release: HelmRelease)
    ensures var r := RecordOf(h, hash, release);
            && r.name == h.name && r.chartVersion == release.chartVersion && r.revisions == release.revisions
            && r.contentSHA == (if h.spec.chartContent == "" then "" else hash(h.spec.chartContent))
            && r.chartURL == (if "helm.cattle.io/chart-url" in h.annotations
                              then h.annotations["helm.cattle.io/chart-url"] else "")
  {
  }

  /** The packaged components are the charts with the RKE2 name prefix that an add-on of the cluster owns and that carry
      a chart URL. */
  lemma ComponentsExact(charts: map<string, HelmChart>, n: string)
    ensures n in Components(charts) <==>
            && n in charts && |charts[n].name| >= 5 && charts[n].name[..5] == "rke2-"
            && "objectset.rio.cattle.io/owner-name" in charts[n].annotations
            && "helm.cattle.io/chart-url" in charts[n].annotations
            && "objectset.rio.cattle.io/owner-gvk" in charts[n].annotations
            && charts[n].annotations["objectset.rio.cattle.io/owner-gvk"] == "k3s.cattle.io/v1, Kind=Addon"
    ensures n in Components(charts) ==> Components(charts)[n] == charts[n]
  {
    if n in charts && |charts[n].name| >= 5 {
      assert NAME_PREFIX <= charts[n].name <==> charts[n].name[..5] == "rke2-";
    }
  }

  lemma {:induction false} PopulateExact(c: Cluster, hash: Hash, components: map<string, HelmChart>, names: seq<string>,
                                         data: map<string, ComponentRecord>)
    requires ChartsKeyed(components) && forall n | n in names :: n in components
    ensures var (c', r) := Populate(c, hash, components, names, data);
            && OnlyRead(c, c')
            && (r.Ok? ==>
                  && (forall n :: n in r.value <==> n in data || n in names)
                  && (forall n | n in names ::
                        n in c.releases && r.value[n] == RecordOf(components[n], hash, c.releases[n]))
                  && (forall n | n in data && n !in names :: r.value[n] == data[n]))
    decreases |names|
  {
    if names != [] {
      var n := names[0];
      var (c1, release) := c.RetrieveRelease(n);
      ReadOnce(c, c1, ReleaseT(n));
      if release.Ok? && release.value.Some? {
        var data1 := data[n := RecordOf(components[n], hash, release.value.value)];
        PopulateExact(c1, hash, components, names[1..], data1);
        OnlyReadThen(c, c1, Populate(c1, hash, components, names[1..], data1).0);
        assert forall m :: m in names <==> m == n || m in names[1..];
      }
    }
  }

  lemma PopulateRecords(c: Cluster, hash: Hash, components: map<string, HelmChart>, names: seq<string>)
    requires Lists(names, components.Keys) && ChartsKeyed(components)
    ensures var (c', r) := Populate(c, hash, components, names, map[]);
            OnlyRead(c, c') && (r.Ok? ==> Records(r.value, components, hash, c.releases))
  {
    PopulateExact(c, hash, components, names, map[]);
    var r := Populate(c, hash, components, names, map[]).1;
    if r.Ok? {
      assert r.value.Keys == components.Keys;
    }
  }

  /** A new snapshot is labelled for the release, dated now and holds exactly the current components. */
  lemma SnapshotExact(c: Cluster, hash: Hash, order: MapOrder, o: Owner)
    requires Enumerates(order) && ChartsKeyed(c.charts)
    ensures var (c', r) := TakeSnapshot(c, hash, order, o);
            && Quiet(c, c')
            && c' == c.(trace := c'.trace, snapshot := c'.snapshot)
            && (r.Ok? ==>
                  && c'.snapshot == Some(r.value) && Owns(r.value, o)
                  && c.nodes != [] && r.value.sourceVersion == c.nodes[0].kubeletVersion
                  && r.value.creationTime == c.clock
                  && Records(r.value.data, Components(c.charts), hash, c.releases))
  {
    var (c1, nodes) := c.ListNodes([]);
    ReadOnce(c, c1, NodesT);
    SelectAll(c.nodes);
    if nodes.Ok? && nodes.value != [] {
      var (c2, components) := FindComponents(c1);
      ReadOnce(c1, c2, ChartsT);
      OnlyReadThen(c, c1, c2);
      if components.Ok? {
        PopulateRecords(c2, hash, components.value, Listed(order, |c2.trace|, components.value.Keys));
        var (c3, data) := Populate(c2, hash, components.value, Listed(order, |c2.trace|, components.value.Keys), map[]);
        OnlyReadThen(c, c2, c3);
        OnlyReadQuiet(c, c3);
        if data.Ok? {
          var s := BlankSnapshot(o).(sourceVersion := nodes.value[0].kubeletVersion, data := data.value);
          StoreExact(c3, s);
          QuietThen(c, c3, Store(c3, s).0);
        }
      }
    }
  }

  lemma StoreExact(c: Cluster, s: SnapshotMap)
    ensures var (c', r) := Store(c, s);
            && Quiet(c, c') && c' == c.(trace := c'.trace, snapshot := c'.snapshot)
            && (r.Ok? ==> c'.snapshot == Some(r.value) && r.value == s.(creationTime := c.clock))
  {
    var (c1, created) := c.CreateSnapshot(s);
    LogOne(c, c1, Create(SnapshotT));
    if created.Ok? {
      LogOne(c1, Store(c, s).0, Read(SnapshotT));
      QuietThen(c, c1, Store(c, s).0);
    }
  }

  lemma {:induction false} SelectAll(nodes: seq<Node>)
    ensures Select(nodes, []) == nodes
  {
    if nodes != [] {
      SelectAll(nodes[1..]);
    }
  }

  // ---------------------------------------------------------------- the snapshot is frozen

  /** A snapshot labelled for the release is returned as it is and left alone; any other outcome leaves a new one that
      is. Nothing else changes. */
  lemma SnapshotFrozen(c: Cluster, hash: Hash, order: MapOrder, o: Owner)
    requires Enumerates(order) && ChartsKeyed(c.charts)
    ensures var (c', r) := SnapshotFor(c, hash, order, o);
            && Quiet(c, c') && c' == c.(trace := c'.trace, snapshot := c'.snapshot)
            && (r.Ok? ==> c'.snapshot == Some(r.value) && Owns(r.value, o))
            && (c.snapshot.Some? && Owns(c.snapshot.value, o) ==>
                  c'.snapshot == c.snapshot && (r.Ok? <==> Read(SnapshotT) !in c.faults))
            && (r.Ok? && (c.snapshot.None? || !Owns(c.snapshot.value, o)) ==>
                  && r.value.creationTime == c.clock
                  && Records(r.value.data, Components(c.charts), hash, c.releases))
  {
    var (c1, existing) := c.GetSnapshot();
    ReadOnce(c, c1, SnapshotT);
    var c' := SnapshotFor(c, hash, order, o).0;
    if existing.Ok? && existing.value.None? {
      SnapshotExact(c1, hash, order, o);
      QuietThen(c, c1, c');
    } else if existing.Ok? && !Owns(existing.value.value, o) {
      var (c2, deleted) := c1.DeleteSnapshot();
      LogOne(c1, c2, Delete(SnapshotT));
      QuietThen(c, c1, c2);
      if deleted.Ok? {
        SnapshotExact(c2, hash, order, o);
        QuietThen(c, c2, c');
      }
    }
  }

  // ---------------------------------------------------------------- change detection is exact

  /** The component called `n` is missing from the snapshot, or changed. */
  predicate Found(components: map<string, HelmChart>, hash: Hash, data: map<string, ComponentRecord>, n: string)
    requires n in components
  {
    n in data ==> Changed(components[n], hash, data[n])
  }

  function PairOf(components: map<string, HelmChart>, data: map<string, ComponentRecord>, n: string): Pair
    requires n in components
  {
    Pair(components[n], if n in data then Some(data[n]) else None)
  }

  lemma {:induction false} InChangedPairs(components: map<string, HelmChart>, hash: Hash,
                                          data: map<string, ComponentRecord>, names: seq<string>, p: Pair)
    requires forall n | n in names :: n in components
    ensures p in ChangedPairs(components, hash, data, names) <==>
            exists n :: n in names && n in data && Found(components, hash, data, n) && p == PairOf(components, data, n)
    decreases |names|
  {
    if names != [] {
      var names' := names[..|names| - 1];
      InChangedPairs(components, hash, data, names', p);
      assert names == names' + [names[|names| - 1]];
    }
  }

  lemma {:induction false} InNewPairs(components: map<string, HelmChart>, hash: Hash,
                                      data: map<string, ComponentRecord>, names: seq<string>, p: Pair)
    requires forall n | n in names :: n in components
    ensures p in NewPairs(components, data, names) <==>
            exists n :: n in names && n !in data && p == PairOf(components, data, n)
    decreases |names|
  {
    if names != [] {
      var names' := names[..|names| - 1];
      InNewPairs(components, hash, data, names', p);
      assert names == names' + [names[|names| - 1]];
    }
  }

  lemma FoundPairs(components: map<string, HelmChart>, hash: Hash, data: map<string, ComponentRecord>,
                   names: seq<string>, p: Pair)
    requires forall n | n in names :: n in components
    ensures p in FindChanged(components, hash, data, names) <==>
            exists n :: n in names && Found(components, hash, data, n) && p == PairOf(components, data, n)
  {
    InChangedPairs(components, hash, data, names, p);
    InNewPairs(components, hash, data, names, p);
  }

  /** Nothing is found exactly when every component is recorded and unchanged. */
  lemma FoundNone(components: map<string, HelmChart>, hash: Hash, data: map<string, ComponentRecord>,
                  names: seq<string>)
    requires Lists(names, components.Keys)
    ensures FindChanged(components, hash, data, names) == [] <==>
            forall n | n in components :: !Found(components, hash, data, n)
  {
    var found := FindChanged(components, hash, data, names);
    if found != [] {
      FoundPairs(components, hash, data, names, found[0]);
    }
    forall n | n in components && Found(components, hash, data, n) ensures found != [] {
      FoundPairs(components, hash, data, names, PairOf(components, data, n));
    }
  }

  /** A component differs from its snapshotted state, or has no content to compare. */
  predicate Differs(before: HelmChart, now: HelmChart) {
    before.spec.chartContent == "" || before.spec.chartContent != now.spec.chartContent
        || ChartUrl(before) != ChartUrl(now)
  }

  /** For a snapshot of the components `before`, the pairs found later, in any order, are exactly those of the
      components that were missing then or differ now. */
  lemma ChangeDetectionExact(before: map<string, HelmChart>, now: map<string, HelmChart>, hash: Hash,
                             names: seq<string>,
                             data: map<string, ComponentRecord>, releases: map<string, HelmRelease>, p: Pair)
    requires CollisionFree(hash) && Lists(names, now.Keys) && Records(data, before, hash, releases) && ChartsKeyed(now)
    ensures p in FindChanged(now, hash, data, names) <==>
            exists n :: n in now && p == Pair(now[n], if n in before then Some(data[n]) else None)
                        && (n !in before || Differs(before[n], now[n]))
  {
    FoundPairs(now, hash, data, names, p);
    forall n | n in now ensures Found(now, hash, data, n) <==> n !in before || Differs(before[n], now[n]) {
    }
    if p in FindChanged(now, hash, data, names) {
      var n :| n in names && Found(now, hash, data, n) && p == PairOf(now, data, n);
      assert n in now && p == Pair(now[n], if n in before then Some(data[n]) else None);
    }
    if exists n :: n in now && p == Pair(now[n], if n in before then Some(data[n]) else None)
                   && (n !in before || Differs(before[n], now[n])) {
      var n :| n in now && p == Pair(now[n], if n in before then Some(data[n]) else None)
               && (n !in before || Differs(before[n], now[n]));
      assert n in names && p == PairOf(now, data, n);
    }
  }

  /** An unchanged cluster yields no pair exactly when every component has content. */
  lemma UnchangedYieldsNoneIff(components: map<string, HelmChart>, hash: Hash, names: seq<string>,
                               data: map<string, ComponentRecord>, releases: map<string, HelmRelease>)
    requires CollisionFree(hash) && Lists(names, components.Keys) && Records(data, components, hash, releases)
    ensures FindChanged(components, hash, data, names) == [] <==>
            forall n | n in components :: components[n].spec.chartContent != ""
    ensures forall n | n in components :: Found(components, hash, data, n) <==> components[n].spec.chartContent == ""
  {
    FoundNone(components, hash, data, names);
    forall n | n in components ensures Found(components, hash, data, n) <==> components[n].spec.chartContent == "" {
    }
  }

  // ---------------------------------------------------------------- what availability means

  /** The upgrade of one pair: not started without a job name. A job that is there must have a true Complete condition
      and a completion time, set and strictly after the snapshot. When the job is gone, the Helm release must be there
      and, for a component that was snapshotted, have another chart version or more revisions than recorded. */
  ghost predicate PairAnswers(c: Cluster, p: Pair, since: nat, r: Result<bool, Error>) {
    var job, name := p.chart.status.jobName, p.chart.name;
    if job == "" then r == Ok(false)
    else if Read(JobT(job)) in c.faults then r == Err(ApiError)
    else if job in c.jobs then
      var (conds, time) := (c.jobs[job].conditions, c.jobs[job].completionTime);
      && r.Ok?
      && (r.value <==> (exists i :: 0 <= i < |conds| && conds[i].ctype.JobComplete? && conds[i].status.Yes?)
                       && time.Some? && time.value > 0 && time.value > since)
    else if Read(ReleaseT(name)) in c.faults then r == Err(ApiError)
    else
      && r.Ok?
      && (r.value <==> name in c.releases
                       && (p.snapshot.Some? ==> c.releases[name].chartVersion != p.snapshot.value.chartVersion
                                                || c.releases[name].revisions > p.snapshot.value.revisions))
  }

  lemma PairReadyExact(c: Cluster, p: Pair, since: nat)
    ensures PairAnswers(c, p, since, PairReady(c, p, since).1)
    ensures PairAnswers(c, p, since, ReadyVerdict(c, p, since))
  {
    var job := p.chart.status.jobName;
    if job in c.jobs && JobCompleted(c.jobs[job].conditions) {
      var x :| x in c.jobs[job].conditions && x.ctype.JobComplete? && x.status.Yes?;
      var i :| 0 <= i < |c.jobs[job].conditions| && c.jobs[job].conditions[i] == x;
    }
  }

  /** What the check of one pair answers; it does not depend on earlier reads. */
  function ReadyVerdict(c: Cluster, p: Pair, since: nat): Result<bool, Error> {
    PairReady(c.(trace := []), p, since).1
  }

  lemma PairReadyReads(c: Cluster, p: Pair, since: nat)
    ensures OnlyRead(c, PairReady(c, p, since).0)
    ensures PairReady(c, p, since).1 == ReadyVerdict(c, p, since)
  {
    if p.chart.status.jobName != "" {
      var (c1, job) := c.GetJob(p.chart.status.jobName);
      ReadOnce(c, c1, JobT(p.chart.status.jobName));
      if job.Ok? && job.value.None? {
        ReadOnce(c1, ReleaseAdvanced(c1, p).0, ReleaseT(p.chart.name));
        OnlyReadThen(c, c1, ReleaseAdvanced(c1, p).0);
      }
    }
  }

  ghost predicate AllReady(c: Cluster, pairs: seq<Pair>, since: nat) {
    forall p | p in pairs :: ReadyVerdict(c, p, since) == Ok(true)
  }

  ghost predicate Answered(c: Cluster, pairs: seq<Pair>, since: nat, answer: Result<bool, Error>) {
    exists p :: p in pairs && ReadyVerdict(c, p, since) == answer
  }

  lemma {:induction false} PairsReadyExact(c: Cluster, pairs: seq<Pair>, since: nat)
    ensures OnlyRead(c, PairsReady(c, pairs, since).0)
    ensures PairsReady(c, pairs, since).1 == Ok(true) <==> AllReady(c, pairs, since)
    ensures PairsReady(c, pairs, since).1 != Ok(true) ==> Answered(c, pairs, since, PairsReady(c, pairs, since).1)
    decreases |pairs|
  {
    if pairs != [] {
      var (c1, r) := PairReady(c, pairs[0], since);
      PairReadyReads(c, pairs[0], since);
      assert pairs == [pairs[0]] + pairs[1..];
      if r == Ok(true) {
        PairsReadyExact(c1, pairs[1..], since);
        OnlyReadThen(c, c1, PairsReady(c1, pairs[1..], since).0);
        SameVerdicts(c, c1, pairs[1..], since);
        if PairsReady(c1, pairs[1..], since).1 != Ok(true) {
          var p :| p in pairs[1..] && ReadyVerdict(c1, p, since) == PairsReady(c1, pairs[1..], since).1;
          assert p in pairs && ReadyVerdict(c, p, since) == PairsReady(c, pairs, since).1;
        }
      } else {
        assert pairs[0] in pairs;
      }
    }
  }

  lemma SameVerdicts(c: Cluster, c': Cluster, pairs: seq<Pair>, since: nat)
    requires OnlyRead(c, c')
    ensures forall p :: ReadyVerdict(c', p, since) == ReadyVerdict(c, p, since)
  {
    assert c'.(trace := []) == c.(trace := []);
  }

  /** The check of each found component passes. */
  ghost predicate FoundReady(c: Cluster, hash: Hash, s: SnapshotMap) {
    var components := Components(c.charts);
    forall n | n in components && Found(components, hash, s.data, n) ::
      ReadyVerdict(c, PairOf(components, s.data, n), s.creationTime) == Ok(true)
  }

  predicate FoundSome(c: Cluster, hash: Hash, s: SnapshotMap) {
    var components := Components(c.charts);
    exists n | n in components :: Found(components, hash, s.data, n)
  }

  /** Each component found passed its check, or none is found and the cluster had the target version already. */
  ghost predicate ComponentsAvailable(c: Cluster, hash: Hash, target: string, s: SnapshotMap) {
    (FoundSome(c, hash, s) || target == s.sourceVersion) && FoundReady(c, hash, s)
  }

  lemma FoundReadyPairs(c: Cluster, hash: Hash, s: SnapshotMap, names: seq<string>)
    requires Lists(names, Components(c.charts).Keys)
    ensures var pairs := FindChanged(Components(c.charts), hash, s.data, names);
            && (AllReady(c, pairs, s.creationTime) <==> FoundReady(c, hash, s))
            && (pairs != [] <==> FoundSome(c, hash, s))
  {
    var components := Components(c.charts);
    var pairs := FindChanged(components, hash, s.data, names);
    FoundNone(components, hash, s.data, names);
    forall p ensures p in pairs <==> exists n :: n in names && Found(components, hash, s.data, n)
                                                 && p == PairOf(components, s.data, n) {
      FoundPairs(components, hash, s.data, names, p);
    }
    forall n | n in components && Found(components, hash, s.data, n) ensures PairOf(components, s.data, n) in pairs {
      assert n in names;
    }
  }

  /** The components are available exactly when each component found passed its check, or none is found and the cluster
      already had the target version when the snapshot was taken. */
  lemma AvailableIff(c: Cluster, hash: Hash, order: MapOrder, target: string, s: SnapshotMap)
    requires Enumerates(order)
    ensures var (c', r) := Availability(c, hash, order, target, s);
            && OnlyRead(c, c')
            && (r.Ok? ==> r.value.PackagedComponentsAvailable? || r.value.InProgress?)
            && (r == Ok(PackagedComponentsAvailable) <==>
                  Read(ChartsT) !in c.faults && ComponentsAvailable(c, hash, target, s))
  {
    var (c1, components) := FindComponents(c);
    ReadOnce(c, c1, ChartsT);
    if components.Ok? {
      var names := Listed(order, |c1.trace|, components.value.Keys);
      var pairs := FindChanged(components.value, hash, s.data, names);
      FoundReadyPairs(c, hash, s, names);
      if pairs != [] {
        PairsReadyExact(c1, pairs, s.creationTime);
        OnlyReadThen(c, c1, PairsReady(c1, pairs, s.creationTime).0);
        SameVerdicts(c, c1, pairs, s.creationTime);
      }
    }
  }

  /** Without packaged components, only a cluster that had the target version before the upgrade becomes available. */
  lemma NoComponentsAvailableIff(c: Cluster, hash: Hash, order: MapOrder, target: string, s: SnapshotMap)
    requires Enumerates(order) && Components(c.charts) == map[]
    ensures Availability(c, hash, order, target, s).1 == Ok(PackagedComponentsAvailable) <==>
            Read(ChartsT) !in c.faults && target == s.sourceVersion
  {
    AvailableIff(c, hash, order, target, s);
  }
}
