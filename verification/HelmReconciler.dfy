/** Upgrading Helm charts one at a time, in dependency order (internal/upgrade/reconcilers/helm.go). */
module HelmReconciler {
  import opened Wrappers
  import opened Values
  import opened Charts
  import opened Api
  import opened Clusters
  import ChartSort

  datatype ChartState = NotInstalled | AlreadyInstalled | ChartInProgress | ChartFailed | ChartSucceeded

  /** The chart needs nothing more: it succeeded, was at its version already or is not on the cluster. */
  predicate Finished(s: ChartState) {
    s.ChartSucceeded? || s.AlreadyInstalled? || s.NotInstalled?
  }

  /** The release on whose behalf charts are upgraded. */
  datatype Owner = Owner(releaseName: string, releaseVersion: string)

  // ---------------------------------------------------------------- desired HelmChart

  function OwnerLabels(o: Owner): map<string, string> {
    map[RELEASE_NAME_LABEL := o.releaseName, RELEASE_VERSION_LABEL := SanitizeVersion(o.releaseVersion)]
  }

  function RepositoryUrl(t: ChartConfig): Url {
    if t.repository.Some? then t.repository.value.url else t.chart.repositoryUrl
  }

  function TrimSlash(s: string): string {
    if s != "" && s[|s| - 1] == '/' then s[..|s| - 1] else s
  }

  /** OCI charts are referenced in full by the chart field, others by chart and repository. */
  function WithReference(spec: HelmSpec, url: Url, chart: string): HelmSpec
    requires !url.Malformed?
  {
    match url
    case Oci(text) => spec.(chart := TrimSlash(text) + "/" + chart, repo := "")
    case Plain(text) => spec.(chart := chart, repo := text)
  }

  /** Values of the manifest overridden by those of the Release. */
  function CustomValues(t: ChartConfig): Result<Option<Fields>, Error> {
    MergeSources([FieldMap(t.chart.values),
                  if t.runtime.values.Some? then RawJson(t.runtime.values.value) else NoSource])
  }

  function CustomFields(t: ChartConfig): Fields
    requires CustomValues(t).Ok?
  {
    if CustomValues(t).value.Some? then CustomValues(t).value.value else map[]
  }

  function Secrets(t: ChartConfig): seq<SecretRef> {
    if t.runtime.secretRef.Some? then [t.runtime.secretRef.value] else []
  }

  function WithValues(spec: HelmSpec, t: ChartConfig): HelmSpec
    requires CustomValues(t).Ok?
  {
    spec.(values := if CustomValues(t).value.Some? then Some(EncodeFields(CustomValues(t).value.value)) else None,
          valuesSecrets := Secrets(t))
  }

  /** `h` changed to what configuration `t` wants. */
  function Retargeted(h: HelmChart, o: Owner, t: ChartConfig): Result<HelmChart, Error> {
    if RepositoryUrl(t).Malformed? then Err(InvalidInput)
    else if CustomValues(t).Err? then Err(CustomValues(t).error)
    else Ok(h.(labels := h.labels + OwnerLabels(o), spec := TargetSpec(h.spec, t)))
  }

  function TargetSpec(spec: HelmSpec, t: ChartConfig): HelmSpec
    requires !RepositoryUrl(t).Malformed? && CustomValues(t).Ok?
  {
    WithValues(WithReference(spec.(version := t.chart.version), RepositoryUrl(t), t.chart.chart), t)
  }

  function EmptyChart(name: string, targetNamespace: string): HelmChart {
    HelmChart(name, map[], map[], HelmSpec("", "", "", targetNamespace, None, [], None, ""), HelmStatus("", []))
  }

  function TargetNamespace(t: ChartConfig, release: HelmRelease): string {
    if release.namespace == "" then t.chart.namespace else release.namespace
  }

  /** A HelmChart that takes over an installed Helm release, keeping the release's own values. */
  function BuiltFrom(o: Owner, t: ChartConfig, release: HelmRelease): Result<HelmChart, Error> {
    match Retargeted(EmptyChart(t.Name(), TargetNamespace(t, release)), o, t)
    case Err(e) => Err(e)
    case Ok(h) =>
      match MergeSources([FieldMap(release.config), NoSource])
      case Err(e) => Err(e)
      case Ok(content) => Ok(h.(spec := h.spec.(valuesContent := content)))
  }

  /** Whether the stored HelmChart differs from what `t` wants. */
  function ShouldUpdate(h: HelmChart, t: ChartConfig): Result<bool, Error> {
    if h.spec.version != t.chart.version then Ok(true)
    else if CustomValues(t).Err? then Err(CustomValues(t).error)
    else
      match if h.spec.values.Some? then JsonFields(h.spec.values.value) else Ok(map[])
      case Err(e) => Err(e)
      case Ok(existing) => Ok(existing != CustomFields(t) || h.spec.valuesSecrets != Secrets(t))
  }

  // ---------------------------------------------------------------- one chart

  function FailedCondition(conds: seq<HelmCondition>): bool {
    exists c | c in conds :: c.ctype == "Failed" && c.status.Yes?
  }

  /** The first true Complete or Failed condition of a job decides. */
  function JobVerdict(conds: seq<JobCondition>): ChartState {
    if conds == [] then ChartInProgress
    else if conds[0].status.Yes? && conds[0].ctype.JobComplete? then ChartSucceeded
    else if conds[0].status.Yes? && conds[0].ctype.JobFailed? then ChartFailed
    else JobVerdict(conds[1..])
  }

  function JobState(c: Cluster, h: HelmChart): (Cluster, Result<ChartState, Error>) {
    if h.status.jobName == "" then (c, Ok(ChartInProgress))
    else
      var (c1, job) := c.GetJob(h.status.jobName);
      match job
      case Err(e) => (c1, Err(e))
      case Ok(None) => (c1, Ok(if FailedCondition(h.status.conditions) then ChartFailed else ChartSucceeded))
      case Ok(Some(j)) => (c1, Ok(JobVerdict(j.conditions)))
  }

  /** Creates or updates the HelmChart, which leaves the chart in progress. */
  function Written(call: (Cluster, Result<(), Error>)): (Cluster, Result<ChartState, Error>) {
    (call.0, if call.1.Ok? then Ok(ChartInProgress) else Err(call.1.error))
  }

  function ChartStep(c: Cluster, o: Owner, t: ChartConfig): (Cluster, Result<ChartState, Error>) {
    var (c1, release) := c.RetrieveRelease(t.Name());
    if release.Err? then (c1, Err(release.error))
    else if release.value.None? then (c1, Ok(NotInstalled))
    else
      var (c2, existing) := c1.GetChart(t.Name());
      if existing.Err? then (c2, Err(existing.error))
      else if existing.value.None? then
        if release.value.value.chartVersion == t.chart.version then (c2, Ok(AlreadyInstalled))
        else
          match BuiltFrom(o, t, release.value.value)
          case Err(e) => (c2, Err(e))
          case Ok(h) => Written(c2.CreateChart(h))
      else
        match ShouldUpdate(existing.value.value, t)
        case Err(e) => (c2, Err(e))
        case Ok(true) => (
          match Retargeted(existing.value.value, o, t)
          case Err(e) => (c2, Err(e))
          case Ok(h) => Written(c2.UpdateChart(h)))
        case Ok(false) => JobState(c2, existing.value.value)
  }

  // ---------------------------------------------------------------- all charts

  /** The charts handled, in order, with the state of each, and the error that ended the run early. */
  datatype Run = Run(cluster: Cluster, states: seq<ChartState>, error: Option<Error>)

  predicate Stops(s: ChartState, strict: bool) {
    s.ChartInProgress? || (s.ChartFailed? && strict)
  }

  function RunCharts(c: Cluster, o: Owner, strict: bool, ts: seq<ChartConfig>): Run
    decreases |ts|
  {
    if ts == [] then Run(c, [], None)
    else
      var (c1, r) := ChartStep(c, o, ts[0]);
      match r
      case Err(e) => Run(c1, [], Some(e))
      case Ok(s) =>
        if s.ChartInProgress? then Run(c1, [s], None)
        else if s.ChartFailed? && strict then Run(c1, [s], Some(StrictFailure))
        else
          var rest := RunCharts(c1, o, strict, ts[1..]);
          Run(rest.cluster, [s] + rest.states, rest.error)
  }

  /** The run over the charts from `i` on, by the step of the first of them. */
  lemma RunFrom(c: Cluster, o: Owner, strict: bool, ts: seq<ChartConfig>, i: nat)
    requires i < |ts|
    ensures var (c1, r) := ChartStep(c, o, ts[i]);
            RunCharts(c, o, strict, ts[i..]) ==
            if r.Err? then Run(c1, [], Some(r.error))
            else if r.value.ChartInProgress? then Run(c1, [r.value], None)
            else if r.value.ChartFailed? && strict then Run(c1, [r.value], Some(StrictFailure))
            else
              var rest := RunCharts(c1, o, strict, ts[i + 1..]);
              Run(rest.cluster, [r.value] + rest.states, rest.error)
  {
    assert ts[i..][0] == ts[i] && ts[i..][1..] == ts[i + 1..];
  }

  function Aggregate(states: seq<ChartState>): State {
    if ChartFailed in states then Failed
    else if ChartInProgress in states then InProgress
    else Succeeded
  }

  function Verdict(run: Run): Result<State, Error> {
    if run.error.Some? then Err(run.error.value) else Ok(Aggregate(run.states))
  }

  function HelmPhase(c: Cluster, o: Owner, strict: bool, configs: seq<ChartConfig>): (Cluster, Result<State, Error>) {
    if configs == [] then (c, Ok(Skipped))
    else
      match ChartSort.Sorted(configs)
      case Err(e) => (c, Err(e))
      case Ok(ts) =>
        var run := RunCharts(c, o, strict, ts);
        (run.cluster, Verdict(run))
  }

  // ---------------------------------------------------------------- the reconciler

  /** A HelmChart that is changed in place before it is sent to the API server. */
  class HelmChartObject {
    const name: string
    const annotations: map<string, string>
    const status: HelmStatus
    var labels: map<string, string>
    var spec: HelmSpec

    function Value(): HelmChart
      reads this
    {
      HelmChart(name, labels, annotations, spec, status)
    }

    constructor (h: HelmChart)
      ensures Value() == h
    {
      name, annotations, status, labels, spec := h.name, h.annotations, h.status, h.labels, h.spec;
    }

    /** Replaces all values and value secrets by those of the configuration. */
    method ResolveHelmChartValues(t: ChartConfig) returns (r: Result<(), Error>)
      modifies this`spec
      ensures r.Ok? <==> CustomValues(t).Ok?
      ensures r.Ok? ==> spec == WithValues(old(spec), t)
      ensures r.Err? ==> r.error == CustomValues(t).error && spec == old(spec)
    {
      var incoming := MergeHelmValues([FieldMap(t.chart.values),
                                       if t.runtime.values.Some? then RawJson(t.runtime.values.value) else NoSource]);
      if incoming.Err? {
        return Err(incoming.error);
      }
      spec := spec.(values := None);
      if incoming.value.Some? {
        spec := spec.(values := Some(EncodeFields(incoming.value.value)));
      }
      spec := spec.(valuesSecrets := []);
      if t.runtime.secretRef.Some? {
        spec := spec.(valuesSecrets := [t.runtime.secretRef.value]);
      }
      return Ok(());
    }

    method SetReference(url: Url, chart: string)
      requires !url.Malformed?
      modifies this`spec
      ensures spec == WithReference(old(spec), url, chart)
    {
      if url.Oci? {
        spec := spec.(chart := TrimSlash(url.text) + "/" + chart, repo := "");
      } else {
        spec := spec.(chart := chart, repo := url.text);
      }
    }
  }

  class HelmReconciler {
    const client: Client
    /** Whether a failed chart fails the whole phase at once. */
    const strict: bool
    var releaseName: string
    var releaseVersion: string

    constructor (client: Client, strict: bool)
      ensures this.client == client && this.strict == strict
    {
      this.client, this.strict := client, strict;
      releaseName, releaseVersion := "", "";
    }

    function GetOwner(): Owner
      reads this
    {
      Owner(releaseName, releaseVersion)
    }

    method Reconcile(o: Owner, configs: seq<ChartConfig>) returns (r: Result<State, Error>)
      modifies this, client
      ensures (client.cluster, r) == HelmPhase(old(client.cluster), o, strict, configs)
    {
      if |configs| == 0 {
        return Ok(Skipped);
      }
      r := ReconcileHelmCharts(o, configs);
    }

    method ReconcileHelmCharts(o: Owner, configs: seq<ChartConfig>) returns (r: Result<State, Error>)
      requires configs != []
      modifies this, client
      ensures (client.cluster, r) == HelmPhase(old(client.cluster), o, strict, configs)
    {
      releaseName, releaseVersion := o.releaseName, o.releaseVersion;
      var ordered := ChartSort.SortChartConfigsByDependencies(configs);
      if ordered.Err? {
        return Err(ordered.error);
      }
      var ts := ordered.value;
      ghost var all := RunCharts(client.cluster, o, strict, ts);
      assert HelmPhase(old(client.cluster), o, strict, configs) == (all.cluster, Verdict(all));
      var results: seq<(string, ChartState)> := [];
      for i := 0 to |ts|
        invariant GetOwner() == o
        invariant all == Resumed(results, RunCharts(client.cluster, o, strict, ts[i..]))
      {
        RunFrom(client.cluster, o, strict, ts, i);
        var state := ReconcileChart(ts[i]);
        if state.Err? {
          return Err(state.error);
        }
        ResumedStep(results, ts[i].Name(), state.value, RunCharts(client.cluster, o, strict, ts[i + 1..]));
        results := results + [(ts[i].Name(), state.value)];
        if state.value == ChartInProgress {
          break;
        }
        if state.value == ChartFailed && strict {
          return Err(StrictFailure);
        }
      }
      r := AggregateResults(results);
    }

    method ReconcileChart(t: ChartConfig) returns (r: Result<ChartState, Error>)
      modifies client
      ensures (client.cluster, r) == ChartStep(old(client.cluster), GetOwner(), t)
      ensures Stepped(old(client.cluster), GetOwner(), t, client.cluster, r)
    {
      ChartStepExact(client.cluster, GetOwner(), t);
      var release := client.RetrieveRelease(t.Name());
      if release.Err? {
        return Err(release.error);
      }
      if release.value.None? {
        return Ok(NotInstalled);
      }
      var existing := client.GetChart(t.Name());
      if existing.Err? {
        return Err(existing.error);
      }
      if existing.value.None? {
        if release.value.value.chartVersion == t.chart.version {
          return Ok(AlreadyInstalled);
        }
        var created := CreateHelmChartFromRelease(t, release.value.value);
        return if created.Err? then Err(created.error) else Ok(ChartInProgress);
      }
      var update := ShouldUpdate(existing.value.value, t);
      if update.Err? {
        return Err(update.error);
      }
      if update.value {
        var helmChart := new HelmChartObject(existing.value.value);
        var updated := UpdateHelmChart(t, helmChart);
        return if updated.Err? then Err(updated.error) else Ok(ChartInProgress);
      }
      r := EvaluateHelmChartJobStatus(existing.value.value);
    }

    method CreateHelmChartFromRelease(t: ChartConfig, release: HelmRelease) returns (r: Result<(), Error>)
      modifies client
      ensures match BuiltFrom(GetOwner(), t, release)
              case Err(e) => client.cluster == old(client.cluster) && r == Err(e)
              case Ok(h) => (client.cluster, r) == old(client.cluster).CreateChart(h)
      ensures r.Ok? ==> t.Name() in client.cluster.charts
                        && TakesOver(client.cluster.charts[t.Name()], GetOwner(), t, release)
    {
      var url := RepositoryUrl(t);
      if url.Malformed? {
        return Err(InvalidInput);
      }
      var helmChart := new HelmChartObject(EmptyChart(t.Name(), TargetNamespace(t, release)));
      helmChart.labels := OwnerLabels(GetOwner());
      helmChart.spec := helmChart.spec.(version := t.chart.version);
      helmChart.SetReference(url, t.chart.chart);
      var resolved := helmChart.ResolveHelmChartValues(t);
      if resolved.Err? {
        return Err(resolved.error);
      }
      assert map[] + OwnerLabels(GetOwner()) == OwnerLabels(GetOwner());
      var merged := MergeHelmValues([FieldMap(release.config), NoSource]);
      if merged.Err? {
        return Err(merged.error);
      }
      if merged.value.Some? {
        helmChart.spec := helmChart.spec.(valuesContent := merged.value);
      }
      r := client.CreateChart(helmChart.Value());
      BuiltExact(GetOwner(), t, release);
    }

    method UpdateHelmChart(t: ChartConfig, existing: HelmChartObject) returns (r: Result<(), Error>)
      modifies client, existing
      ensures match Retargeted(old(existing.Value()), GetOwner(), t)
              case Err(e) => client.cluster == old(client.cluster) && r == Err(e)
              case Ok(h) => existing.Value() == h && (client.cluster, r) == old(client.cluster).UpdateChart(h)
      ensures r.Ok? ==> UpdatedTo(old(existing.Value()), existing.Value(), GetOwner(), t)
    {
      RetargetedExact(existing.Value(), GetOwner(), t);
      var url := RepositoryUrl(t);
      if url.Malformed? {
        return Err(InvalidInput);
      }
      existing.labels := existing.labels + OwnerLabels(GetOwner());
      existing.spec := existing.spec.(version := t.chart.version);
      existing.SetReference(url, t.chart.chart);
      var resolved := existing.ResolveHelmChartValues(t);
      if resolved.Err? {
        return Err(resolved.error);
      }
      r := client.UpdateChart(existing.Value());
    }

    method EvaluateHelmChartJobStatus(h: HelmChart) returns (r: Result<ChartState, Error>)
      modifies client
      ensures (client.cluster, r) == JobState(old(client.cluster), h)
      ensures JobAnswers(old(client.cluster), h, r)
    {
      JobStateExact(client.cluster, h);
      if h.status.jobName == "" {
        return Ok(ChartInProgress);
      }
      var job := client.GetJob(h.status.jobName);
      if job.Err? {
        return Err(job.error);
      }
      if job.value.None? {
        for i := 0 to |h.status.conditions|
          invariant !FailedCondition(h.status.conditions[..i])
          invariant client.cluster == old(client.cluster).GetJob(h.status.jobName).0
        {
          if h.status.conditions[i].ctype == "Failed" && h.status.conditions[i].status == Yes {
            assert h.status.conditions[i] in h.status.conditions;
            return Ok(ChartFailed);
          }
        }
        assert h.status.conditions[..|h.status.conditions|] == h.status.conditions;
        return Ok(ChartSucceeded);
      }
      return Ok(JobVerdict(job.value.value.conditions));
    }

    method AggregateResults(results: seq<(string, ChartState)>) returns (r: Result<State, Error>)
      ensures r == Ok(Aggregate(States(results)))
    {
      var failed, inProgress := 0, 0;
      for i := 0 to |results|
        invariant 0 <= failed && 0 <= inProgress
        invariant failed > 0 <==> ChartFailed in States(results[..i])
        invariant inProgress > 0 <==> ChartInProgress in States(results[..i])
      {
        StatesSnoc(results[..i], results[i]);
        assert results[..i + 1] == results[..i] + [results[i]];
        match results[i].1
        case ChartFailed => failed := failed + 1;
        case ChartInProgress => inProgress := inProgress + 1;
        case _ =>
      }
      assert results[..|results|] == results;
      return Ok(if failed > 0 then Failed else if inProgress > 0 then InProgress else Succeeded);
    }
  }

  function States(results: seq<(string, ChartState)>): seq<ChartState> {
    seq(|results|, i requires 0 <= i < |results| => results[i].1)
  }

  lemma StatesSnoc(results: seq<(string, ChartState)>, r: (string, ChartState))
    ensures States(results + [r]) == States(results) + [r.1]
    ensures forall s :: s in States(results + [r]) <==> s in States(results) || s == r.1
  {
    assert States(results + [r]) == States(results) + [r.1];
  }

  /** The run whose first charts gave `results` and whose other charts gave `rest`. */
  function Resumed(results: seq<(string, ChartState)>, rest: Run): Run {
    Run(rest.cluster, States(results) + rest.states, rest.error)
  }

  lemma ResumedStep(results: seq<(string, ChartState)>, name: string, s: ChartState, rest: Run)
    ensures Resumed(results, Run(rest.cluster, [s] + rest.states, rest.error)) == Resumed(results + [(name, s)], rest)
    ensures States(results + [(name, s)]) == States(results) + [s]
  {
    StatesSnoc(results, (name, s));
  }

  // ---------------------------------------------------------------- the update reaches a fixpoint

  /** After a write, the stored HelmChart matches its configuration exactly when the merged values are JSON-normal. */
  lemma UpdateSettlesIff(h: HelmChart, o: Owner, t: ChartConfig)
    requires Retargeted(h, o, t).Ok?
    ensures ShouldUpdate(Retargeted(h, o, t).value, t) == Ok(!JsonNormal(Obj(CustomFields(t))))
  {
    var f := CustomFields(t);
    JsonRoundTripIff(Obj(f));
    if CustomValues(t).value.Some? {
      var j := EncodeFields(f);
      assert JsonFields(j) == Ok(Decode(j).fields);
    }
  }

  lemma CreateSettlesIff(o: Owner, t: ChartConfig, release: HelmRelease)
    requires BuiltFrom(o, t, release).Ok?
    ensures ShouldUpdate(BuiltFrom(o, t, release).value, t) == Ok(!JsonNormal(Obj(CustomFields(t))))
  {
    UpdateSettlesIff(EmptyChart(t.Name(), TargetNamespace(t, release)), o, t);
  }

  // ---------------------------------------------------------------- configurations from a cached manifest

  lemma TwoSources(t: ChartConfig)
    requires CustomValues(t).Ok?
    ensures CustomFields(t)
            == Merge(t.chart.values,
                     if t.runtime.values.Some? then JsonFields(t.runtime.values.value).value else map[])
    ensures t.runtime.values.Some? ==> JsonFields(t.runtime.values.value).Ok?
  {
    var sources := [FieldMap(t.chart.values),
                    if t.runtime.values.Some? then RawJson(t.runtime.values.value) else NoSource];
    assert AllDecode(sources) && ToValuesMap(sources[1]).Ok?;
    var d := Decoded(sources);
    assert d[..1] == [d[0]] && d[..1][..0] == [] && MergeAll([]) == map[];
    MergeLaws(d[0], d[0]);
    assert MergeAll(d) == Merge(MergeAll(d[..1]), d[1]);
    assert MergeAll(d[..1]) == Merge(MergeAll([]), d[0]);
  }

  /** Without runtime values the merged values are the manifest's. */
  lemma ManifestValuesOnly(t: ChartConfig)
    requires t.runtime.values.None?
    ensures CustomValues(t).Ok? && CustomFields(t) == t.chart.values
  {
    assert AllDecode([FieldMap(t.chart.values), NoSource]);
    TwoSources(t);
    MergeLaws(t.chart.values, t.chart.values);
  }

  lemma RuntimeReadBack(t: ChartConfig)
    requires t.runtime.values.Some? && JsonFields(t.runtime.values.value).Ok?
    ensures ReadBack(JsonFields(t.runtime.values.value).value) == JsonFields(t.runtime.values.value).value
  {
    var f := JsonFields(t.runtime.values.value).value;
    DecodedIsNormal(t.runtime.values.value);
    JsonRoundTripIff(Obj(f));
  }

  /** The values of a configuration from a cached manifest are those of the configuration, read back from JSON. */
  lemma CachedValues(t: ChartConfig)
    ensures CustomValues(t.Cached()).Ok? <==> CustomValues(t).Ok?
    ensures CustomValues(t).Ok? ==>
              && CustomFields(t.Cached()) == ReadBack(CustomFields(t))
              && (CustomValues(t.Cached()).value.Some? <==> CustomValues(t).value.Some?)
    ensures CustomValues(t).Err? ==> CustomValues(t.Cached()) == CustomValues(t)
  {
    if CustomValues(t).Ok? {
      TwoSources(t);
      TwoSources(t.Cached());
      if t.runtime.values.Some? {
        RuntimeReadBack(t);
        MergeReadBack(t.chart.values, JsonFields(t.runtime.values.value).value);
      } else {
        MergeLaws(t.chart.values, t.chart.values);
        MergeReadBack(t.chart.values, map[]);
        assert ReadBack(map[]) == map[];
      }
      assert ReadBack(CustomFields(t)).Keys == CustomFields(t).Keys;
    }
  }

  /** The same HelmChart is written for a configuration, whether its manifest comes from the cache or not. */
  lemma CachedWritesSame(h: HelmChart, o: Owner, t: ChartConfig, release: HelmRelease)
    ensures Retargeted(h, o, t.Cached()) == Retargeted(h, o, t)
    ensures BuiltFrom(o, t.Cached(), release) == BuiltFrom(o, t, release)
  {
    CachedValues(t);
    if CustomValues(t).Ok? {
      ReadBackTwice(CustomFields(t));
    }
  }

  /** What is written for a configuration is never updated again on behalf of the cached manifest. */
  lemma CachedSettles(h: HelmChart, o: Owner, t: ChartConfig, release: HelmRelease)
    ensures Retargeted(h, o, t).Ok? ==> ShouldUpdate(Retargeted(h, o, t).value, t.Cached()) == Ok(false)
    ensures BuiltFrom(o, t, release).Ok? ==> ShouldUpdate(BuiltFrom(o, t, release).value, t.Cached()) == Ok(false)
  {
    CachedWritesSame(h, o, t, release);
    CachedValues(t);
    if CustomValues(t).Ok? {
      ReadBackTwice(CustomFields(t));
      if Retargeted(h, o, t).Ok? {
        UpdateSettlesIff(h, o, t.Cached());
      }
      if BuiltFrom(o, t, release).Ok? {
        CreateSettlesIff(o, t.Cached(), release);
      }
    }
  }

  /** A HelmChart that is up to date for the manifest is so for the cached manifest. The converse holds for merged
      values that are JSON-normal; other values call for an update whatever is stored. */
  lemma CachedUpToDate(h: HelmChart, t: ChartConfig)
    ensures ShouldUpdate(h, t).Ok? <==> ShouldUpdate(h, t.Cached()).Ok?
    ensures ShouldUpdate(h, t) == Ok(false) <==>
            ShouldUpdate(h, t.Cached()) == Ok(false) && JsonNormal(Obj(CustomFields(t)))
  {
    CachedValues(t);
    if CustomValues(t).Ok? {
      JsonRoundTripIff(Obj(CustomFields(t)));
      ReadBackTwice(CustomFields(t));
      if h.spec.values.Some? {
        DecodedIsNormal(h.spec.values.value);
      }
    }
  }

  /** The same repository: of the same kind and with the same URL, up to one trailing slash of an OCI URL. */
  predicate SameRepository(a: Url, b: Url) {
    match (a, b)
    case (Oci(s), Oci(t)) => TrimSlash(s) == TrimSlash(t)
    case (Plain(s), Plain(t)) => s == t
    case _ => false
  }

  /** Two repositories give a chart the same stored reference exactly when they are the same: an OCI reference is never
      taken for a chart of a plain repository, and no reference loses its repository. */
  lemma ReferencesAgreeIff(spec: HelmSpec, a: Url, b: Url, chart: string)
    requires !a.Malformed? && !b.Malformed?
    ensures WithReference(spec, a, chart) == WithReference(spec, b, chart) <==> SameRepository(a, b)
  {
    var x, y := WithReference(spec, a, chart), WithReference(spec, b, chart);
    if a.Oci? && b.Oci? && x == y {
      var s, t := TrimSlash(a.text), TrimSlash(b.text);
      assert |s| == |t| && x.chart[..|s|] == s && y.chart[..|t|] == t;
    } else if a.Oci? != b.Oci? {
      assert |x.chart| != |y.chart|;
    }
  }

  lemma SpecOverwritten(spec: HelmSpec, t: ChartConfig, t': ChartConfig)
    requires !RepositoryUrl(t).Malformed? && CustomValues(t).Ok? && !RepositoryUrl(t').Malformed?
             && CustomValues(t').Ok?
    ensures TargetSpec(TargetSpec(spec, t), t') == TargetSpec(spec, t')
  {
  }

  /** An update leaves nothing of the configuration written before: the last one wins. */
  lemma LastUpdateWins(h: HelmChart, o: Owner, t: ChartConfig, o': Owner, t': ChartConfig)
    requires Retargeted(h, o, t).Ok?
    ensures Retargeted(Retargeted(h, o, t).value, o', t') == Retargeted(h, o', t')
  {
    if Retargeted(h, o', t').Ok? {
      SpecOverwritten(h.spec, t, t');
    }
    LabelsOverwritten(h.labels, OwnerLabels(o), OwnerLabels(o'));
  }

  lemma LabelsOverwritten(labels: map<string, string>, a: map<string, string>, b: map<string, string>)
    requires a.Keys == b.Keys
    ensures labels + a + b == labels + b
  {
  }

  /** An update keeps what the configuration does not speak about: the target namespace, the values taken over from the
      Helm release, the chart content, other labels, annotations and the status. */
  lemma UpdateKeepsRest(h: HelmChart, o: Owner, t: ChartConfig, k: string)
    requires Retargeted(h, o, t).Ok?
    ensures var h' := Retargeted(h, o, t).value;
            && h' == h.(labels := h'.labels, spec := h'.spec)
            && h'.spec.targetNamespace == h.spec.targetNamespace && h'.spec.valuesContent == h.spec.valuesContent
            && h'.spec.chartContent == h.spec.chartContent
            && (k != RELEASE_NAME_LABEL && k != RELEASE_VERSION_LABEL ==>
                  (k in h'.labels <==> k in h.labels) && (k in h.labels ==> h'.labels[k] == h.labels[k]))
  {
    assert k !in OwnerLabels(o) || k == RELEASE_NAME_LABEL || k == RELEASE_VERSION_LABEL;
  }

  /** A chart with a whole number among its manifest values is updated again after every update. */
  lemma UpdateMayLoop(h: HelmChart, o: Owner) returns (t: ChartConfig)
    ensures Retargeted(h, o, t).Ok?
    ensures ShouldUpdate(Retargeted(h, o, t).value, t) == Ok(true)
  {
    var fields: Fields := map["replicas" := Int(3)];
    t := ChartConfig(Chart("", "app", "1", "", "", Plain(""), fields, []), None, NO_RUNTIME);
    ManifestValuesOnly(t);
    assert "replicas" in fields;
    assert !JsonNormal(Obj(fields));
    UpdateSettlesIff(h, o, t);
  }

  // ---------------------------------------------------------------- what a chart step does, case by case

  /** A true condition that says Complete or Failed. */
  predicate Decides(c: JobCondition) {
    c.status.Yes? && (c.ctype.JobComplete? || c.ctype.JobFailed?)
  }

  ghost predicate FirstDecides(conds: seq<JobCondition>, i: nat) {
    i < |conds| && Decides(conds[i]) && forall j | 0 <= j < i :: !Decides(conds[j])
  }

  /** The first deciding condition of a job decides: success when it is Complete, failure when it is Failed; without one
      the job is in progress. */
  ghost predicate JobSays(conds: seq<JobCondition>, s: ChartState) {
    && (s == ChartSucceeded <==> exists i: nat :: FirstDecides(conds, i) && conds[i].ctype.JobComplete?)
    && (s == ChartFailed <==> exists i: nat :: FirstDecides(conds, i) && conds[i].ctype.JobFailed?)
    && (s == ChartInProgress <==> forall i | 0 <= i < |conds| :: !Decides(conds[i]))
    && s in {ChartSucceeded, ChartFailed, ChartInProgress}
  }

  /** What the upgrade job of a HelmChart answers: in progress without a job name; when the job is gone, failure exactly
      if the HelmChart itself has a true Failed condition; otherwise what the conditions of the job say. */
  ghost predicate JobAnswers(c: Cluster, h: HelmChart, r: Result<ChartState, Error>) {
    var name := h.status.jobName;
    if name == "" then r == Ok(ChartInProgress)
    else if Read(JobT(name)) in c.faults then r == Err(ApiError)
    else if name in c.jobs then r.Ok? && JobSays(c.jobs[name].conditions, r.value)
    else
      r == Ok(if exists x | x in h.status.conditions :: x.ctype == "Failed" && x.status.Yes? then ChartFailed
              else ChartSucceeded)
  }

  lemma {:induction false} VerdictAt(conds: seq<JobCondition>, i: nat)
    requires i <= |conds| && (forall j | 0 <= j < i :: !Decides(conds[j])) && (i < |conds| ==> Decides(conds[i]))
    ensures JobVerdict(conds) == if i == |conds| then ChartInProgress
                                 else if conds[i].ctype.JobComplete? then ChartSucceeded else ChartFailed
  {
    if i > 0 {
      assert !Decides(conds[0]);
      VerdictAt(conds[1..], i - 1);
    }
  }

  lemma JobVerdictExact(conds: seq<JobCondition>)
    ensures JobSays(conds, JobVerdict(conds))
  {
    var i := 0;
    while i < |conds| && !Decides(conds[i])
      invariant i <= |conds| && forall j | 0 <= j < i :: !Decides(conds[j])
    {
      i := i + 1;
    }
    VerdictAt(conds, i);
    if i < |conds| {
      assert FirstDecides(conds, i);
    }
  }

  lemma JobStateExact(c: Cluster, h: HelmChart)
    ensures JobAnswers(c, h, JobState(c, h).1) && JobState(c, h).0 == c.(trace := JobState(c, h).0.trace)
  {
    if h.status.jobName in c.jobs {
      JobVerdictExact(c.jobs[h.status.jobName].conditions);
    }
  }

  /** `m` is what the values of the manifest and, over them, those of the Release merge to. */
  predicate MergesTo(t: ChartConfig, m: Fields) {
    match t.runtime.values
    case None => m == t.chart.values
    case Some(json) => JsonFields(json).Ok? && m == Merge(t.chart.values, JsonFields(json).value)
  }

  predicate NamesSecrets(t: ChartConfig, refs: seq<SecretRef>) {
    match t.runtime.secretRef
    case None => refs == []
    case Some(ref) => refs == [ref]
  }

  /** The spec names the chart in its repository: in full for OCI, with exactly one slash, and apart otherwise. A
      repository known by name counts before the URL of the chart. */
  ghost predicate Refers(spec: HelmSpec, t: ChartConfig) {
    match if t.repository.Some? then t.repository.value.url else t.chart.repositoryUrl
    case Malformed => false
    case Plain(text) => spec.chart == t.chart.chart && spec.repo == text
    case Oci(text) =>
      && spec.repo == ""
      && exists base :: spec.chart == base + "/" + t.chart.chart
                        && (text == base + "/" || (text == base && (text == "" || text[|text| - 1] != '/')))
  }

  /** The spec is at the version and reference of the configuration, with its merged values and its secrets. */
  ghost predicate Targets(spec: HelmSpec, t: ChartConfig) {
    && spec.version == t.chart.version && Refers(spec, t) && NamesSecrets(t, spec.valuesSecrets)
    && exists m | MergesTo(t, m) :: spec.values == if m == map[] then None else Some(Encode(Obj(m)))
  }

  predicate Labelled(labels: map<string, string>, o: Owner) {
    && "lifecycle.suse.com/release" in labels && labels["lifecycle.suse.com/release"] == o.releaseName
    && "lifecycle.suse.com/version" in labels
    && labels["lifecycle.suse.com/version"] == SanitizeVersion(o.releaseVersion)
  }

  /** The HelmChart that takes over an installed release: it targets the configuration, keeps the namespace and the
      values of the release, and has nothing else. */
  ghost predicate TakesOver(h: HelmChart, o: Owner, t: ChartConfig, release: HelmRelease) {
    && h.name == (if t.chart.name != "" then t.chart.name else t.chart.chart) && Labelled(h.labels, o)
       && |h.labels| == 2 && h.annotations == map[]
    && Targets(h.spec, t)
    && h.spec.targetNamespace == (if release.namespace == "" then t.chart.namespace else release.namespace)
    && h.spec.valuesContent == (if release.config == map[] then None else Some(release.config))
    && h.spec.chartContent == "" && h.status.jobName == "" && h.status.conditions == []
  }

  /** The HelmChart that an update makes of `h`. */
  ghost predicate UpdatedTo(h: HelmChart, h': HelmChart, o: Owner, t: ChartConfig) {
    && Targets(h'.spec, t) && Labelled(h'.labels, o)
    && h' == h.(labels := h'.labels, spec := h'.spec)
    && h'.spec == h.spec.(version := h'.spec.version, chart := h'.spec.chart, repo := h'.spec.repo,
                          values := h'.spec.values, valuesSecrets := h'.spec.valuesSecrets)
    && forall k | k !in {"lifecycle.suse.com/release", "lifecycle.suse.com/version"} ::
         (k in h'.labels <==> k in h.labels) && (k in h.labels ==> h'.labels[k] == h.labels[k])
  }

  /** The stored HelmChart has the version, the merged values and the secrets of the configuration. */
  ghost predicate UpToDate(h: HelmChart, t: ChartConfig) {
    && h.spec.version == t.chart.version && NamesSecrets(t, h.spec.valuesSecrets)
    && exists m | MergesTo(t, m) :: if h.spec.values.None? then m == map[] else JsonFields(h.spec.values.value) == Ok(m)
  }

  /** The configuration can be written: its repository URL parses, and the values of the Release decode. */
  predicate CanBeWritten(t: ChartConfig) {
    && !(if t.repository.Some? then t.repository.value.url else t.chart.repositoryUrl).Malformed?
    && (t.runtime.values.Some? ==> JsonFields(t.runtime.values.value).Ok?)
  }

  lemma ValuesDecodeIff(t: ChartConfig)
    ensures CustomValues(t).Ok? <==> t.runtime.values.Some? ==> JsonFields(t.runtime.values.value).Ok?
  {
    var sources := [FieldMap(t.chart.values),
                    if t.runtime.values.Some? then RawJson(t.runtime.values.value) else NoSource];
    assert ToValuesMap(sources[0]).Ok?;
    if t.runtime.values.None? || JsonFields(t.runtime.values.value).Ok? {
      assert forall i | 0 <= i < |sources| :: ToValuesMap(sources[i]).Ok?;
    } else {
      assert ToValuesMap(sources[1]).Err?;
    }
  }

  lemma MergedValues(t: ChartConfig)
    requires CustomValues(t).Ok?
    ensures MergesTo(t, CustomFields(t)) && forall m | MergesTo(t, m) :: m == CustomFields(t)
    ensures CustomValues(t).value.Some? <==> CustomFields(t) != map[]
  {
    TwoSources(t);
    MergeLaws(t.chart.values, t.chart.values);
  }

  lemma SpecTargets(spec: HelmSpec, t: ChartConfig)
    requires !RepositoryUrl(t).Malformed? && CustomValues(t).Ok?
    ensures Targets(TargetSpec(spec, t), t)
  {
    MergedValues(t);
    var s := TargetSpec(spec, t);
    if RepositoryUrl(t).Oci? {
      var text := RepositoryUrl(t).text;
      assert s.chart == TrimSlash(text) + "/" + t.chart.chart;
      assert text == TrimSlash(text) + "/" || (text == TrimSlash(text) && (text == "" || text[|text| - 1] != '/'));
    }
    assert Refers(s, t);
    assert s.values == if CustomFields(t) == map[] then None else Some(Encode(Obj(CustomFields(t))));
  }

  /** A HelmChart is left alone exactly when it is up to date; whether it is cannot be told when it has the version but
      the values of the Release or the stored ones do not decode. */
  lemma ShouldUpdateExact(h: HelmChart, t: ChartConfig)
    ensures ShouldUpdate(h, t) == Ok(false) <==> UpToDate(h, t)
    ensures ShouldUpdate(h, t).Err? <==>
            h.spec.version == t.chart.version
            && ((t.runtime.values.Some? && JsonFields(t.runtime.values.value).Err?)
                || (h.spec.values.Some? && JsonFields(h.spec.values.value).Err?))
  {
    ValuesDecodeIff(t);
    if CustomValues(t).Ok? {
      MergedValues(t);
    }
  }

  lemma RetargetedExact(h: HelmChart, o: Owner, t: ChartConfig)
    ensures Retargeted(h, o, t).Ok? <==> CanBeWritten(t)
    ensures Retargeted(h, o, t).Ok? ==> UpdatedTo(h, Retargeted(h, o, t).value, o, t)
  {
    ValuesDecodeIff(t);
    if Retargeted(h, o, t).Ok? {
      SpecTargets(h.spec, t);
    }
  }

  lemma ReleaseValues(release: HelmRelease)
    ensures MergeSources([FieldMap(release.config), NoSource])
            == Ok(if release.config == map[] then None else Some(release.config))
  {
    var sources := [FieldMap(release.config), NoSource];
    assert forall i | 0 <= i < |sources| :: ToValuesMap(sources[i]).Ok?;
    var d := Decoded(sources);
    assert d[..1] == [d[0]] && d[..1][..0] == [] && MergeAll([]) == map[];
    MergeLaws(d[0], d[0]);
    assert MergeAll(d) == Merge(MergeAll(d[..1]), d[1]);
    assert MergeAll(d[..1]) == Merge(MergeAll([]), d[0]);
  }

  lemma LabelsExact(o: Owner)
    ensures map[] + OwnerLabels(o) == OwnerLabels(o) && Labelled(OwnerLabels(o), o) && |OwnerLabels(o)| == 2
  {
    assert OwnerLabels(o).Keys == {RELEASE_NAME_LABEL, RELEASE_VERSION_LABEL} && |OwnerLabels(o).Keys| == 2;
  }

  lemma RetargetedEmpty(o: Owner, t: ChartConfig, release: HelmRelease)
    requires CanBeWritten(t)
    ensures var r := Retargeted(EmptyChart(t.Name(), TargetNamespace(t, release)), o, t);
            r.Ok? && r.value.spec.valuesContent.None?
            && TakesOver(r.value.(spec := r.value.spec.(valuesContent :=
                           if release.config == map[] then None else Some(release.config))), o, t, release)
  {
    var empty := EmptyChart(t.Name(), TargetNamespace(t, release));
    ValuesDecodeIff(t);
    SpecTargets(empty.spec, t);
    LabelsExact(o);
  }

  lemma BuiltExact(o: Owner, t: ChartConfig, release: HelmRelease)
    ensures BuiltFrom(o, t, release).Ok? <==> CanBeWritten(t)
    ensures BuiltFrom(o, t, release).Ok? ==> TakesOver(BuiltFrom(o, t, release).value, o, t, release)
  {
    RetargetedExact(EmptyChart(t.Name(), TargetNamespace(t, release)), o, t);
    ReleaseValues(release);
    if CanBeWritten(t) {
      RetargetedEmpty(o, t, release);
    }
  }

  /** The HelmChart `h` was sent by call `e` and nothing else changed, or that call failed and nothing changed. */
  predicate Sent(c: Cluster, c': Cluster, e: Event, h: HelmChart, r: Result<ChartState, Error>) {
    if e in c.faults then r == Err(ApiError) && c' == c.(trace := c'.trace)
    else r == Ok(ChartInProgress) && c' == c.(trace := c'.trace, charts := c.charts[h.name := h])
  }

  /** One chart in all its cases: a failing read is an error; a chart that is not installed, or installed without a
      HelmChart at its version, is left alone; without a HelmChart at another version one is created that takes over the
      release; a HelmChart that is not up to date is updated; for one that is, its job decides. */
  ghost predicate Stepped(c: Cluster, o: Owner, t: ChartConfig, c': Cluster, r: Result<ChartState, Error>) {
    var n := t.Name();
    if Read(ReleaseT(n)) in c.faults then r == Err(ApiError) && c' == c.(trace := c'.trace)
    else if n !in c.releases then r == Ok(NotInstalled) && c' == c.(trace := c'.trace)
    else if Read(ChartT(n)) in c.faults then r == Err(ApiError) && c' == c.(trace := c'.trace)
    else if n !in c.charts then
      if c.releases[n].chartVersion == t.chart.version then r == Ok(AlreadyInstalled) && c' == c.(trace := c'.trace)
      else if !CanBeWritten(t) then r.Err? && c' == c.(trace := c'.trace)
      else exists h | TakesOver(h, o, t, c.releases[n]) :: Sent(c, c', Create(ChartT(n)), h, r)
    else if UpToDate(c.charts[n], t) then JobAnswers(c, c.charts[n], r) && c' == c.(trace := c'.trace)
    else if !CanBeWritten(t) || (c.charts[n].spec.version == t.chart.version && Unreadable(c.charts[n])) then
      r.Err? && c' == c.(trace := c'.trace)
    else exists h | UpdatedTo(c.charts[n], h, o, t) :: Sent(c, c', Update(ChartT(c.charts[n].name)), h, r)
  }

  /** The stored values are no object. */
  predicate Unreadable(h: HelmChart) {
    h.spec.values.Some? && JsonFields(h.spec.values.value).Err?
  }

  lemma UpToDateStep(c: Cluster, o: Owner, t: ChartConfig)
    requires t.Name() in c.releases && t.Name() in c.charts && UpToDate(c.charts[t.Name()], t)
    requires Read(ReleaseT(t.Name())) !in c.faults && Read(ChartT(t.Name())) !in c.faults
    ensures Stepped(c, o, t, ChartStep(c, o, t).0, ChartStep(c, o, t).1)
  {
    var c2 := c.RetrieveRelease(t.Name()).0.GetChart(t.Name()).0;
    ShouldUpdateExact(c.charts[t.Name()], t);
    JobStateExact(c2, c.charts[t.Name()]);
  }

  lemma CreatingStep(c: Cluster, o: Owner, t: ChartConfig)
    requires t.Name() in c.releases && t.Name() !in c.charts && c.releases[t.Name()].chartVersion != t.chart.version
    requires Read(ReleaseT(t.Name())) !in c.faults && Read(ChartT(t.Name())) !in c.faults
    ensures Stepped(c, o, t, ChartStep(c, o, t).0, ChartStep(c, o, t).1)
  {
    var release := c.releases[t.Name()];
    BuiltExact(o, t, release);
    if CanBeWritten(t) {
      var h := BuiltFrom(o, t, release).value;
      assert Sent(c, ChartStep(c, o, t).0, Create(ChartT(t.Name())), h, ChartStep(c, o, t).1);
    }
  }

  lemma UpdatingStep(c: Cluster, o: Owner, t: ChartConfig)
    requires t.Name() in c.releases && t.Name() in c.charts && !UpToDate(c.charts[t.Name()], t)
    requires Read(ReleaseT(t.Name())) !in c.faults && Read(ChartT(t.Name())) !in c.faults
    ensures Stepped(c, o, t, ChartStep(c, o, t).0, ChartStep(c, o, t).1)
  {
    var existing := c.charts[t.Name()];
    ShouldUpdateExact(existing, t);
    RetargetedExact(existing, o, t);
    ValuesDecodeIff(t);
    if CanBeWritten(t) && ShouldUpdate(existing, t).Ok? {
      var h := Retargeted(existing, o, t).value;
      assert Sent(c, ChartStep(c, o, t).0, Update(ChartT(existing.name)), h, ChartStep(c, o, t).1);
    }
  }

  lemma ChartStepExact(c: Cluster, o: Owner, t: ChartConfig)
    ensures Stepped(c, o, t, ChartStep(c, o, t).0, ChartStep(c, o, t).1)
  {
    var n := t.Name();
    if n in c.releases && Read(ReleaseT(n)) !in c.faults && Read(ChartT(n)) !in c.faults {
      if n !in c.charts && c.releases[n].chartVersion != t.chart.version {
        CreatingStep(c, o, t);
      } else if n in c.charts && UpToDate(c.charts[n], t) {
        UpToDateStep(c, o, t);
      } else if n in c.charts {
        UpdatingStep(c, o, t);
      }
    }
  }

  /** Without charts the phase is skipped, and with a dependency
      cycle it is an error; the cluster is not touched then. */
  lemma HelmPhaseEnds(c: Cluster, o: Owner, strict: bool, configs: seq<ChartConfig>)
    ensures configs == [] ==> HelmPhase(c, o, strict, configs) == (c, Ok(Skipped))
    ensures ChartSort.HasCycle(ChartSort.GraphOf(configs)) ==>
              HelmPhase(c, o, strict, configs).0 == c && HelmPhase(c, o, strict, configs).1.Err?
  {
    ChartSort.SortErrorIffCycle(configs);
    if configs == [] {
      assert ChartSort.GraphOf(configs) == map[];
    }
  }

  // ---------------------------------------------------------------- exactness of the phase

  predicate StopsAt(run: Run, strict: bool) {
    run.states != [] && Stops(run.states[|run.states| - 1], strict)
  }

  /** How many charts the run called the API for: those with a state, and the one whose step returned an error. */
  function Handled(run: Run, strict: bool): nat {
    |run.states| + if run.error.Some? && !StopsAt(run, strict) then 1 else 0
  }

  /** Only the last chart handled can stop the run, and a run that stops early was stopped or hit an error. */
  lemma {:induction false} RunShape(c: Cluster, o: Owner, strict: bool, ts: seq<ChartConfig>)
    ensures var run := RunCharts(c, o, strict, ts);
            && Handled(run, strict) <= |ts|
            && (forall i | 0 <= i < |run.states| - 1 :: !Stops(run.states[i], strict))
            && (run.error.None? && StopsAt(run, strict) ==> run.states[|run.states| - 1].ChartInProgress?)
            && (run.error.None? && |run.states| < |ts| ==> StopsAt(run, strict))
            && (StopsAt(run, strict) && run.states[|run.states| - 1].ChartFailed? ==> run.error == Some(StrictFailure))
    decreases |ts|
  {
    if ts != [] {
      var (c1, r) := ChartStep(c, o, ts[0]);
      if r.Ok? && !Stops(r.value, strict) {
        RunShape(c1, o, strict, ts[1..]);
        RunContinues(c, o, strict, ts);
        var run, rest := RunCharts(c, o, strict, ts), RunCharts(c1, o, strict, ts[1..]);
        forall i | 0 <= i < |run.states| - 1 ensures !Stops(run.states[i], strict) {
          if i > 0 { assert run.states[i] == rest.states[i - 1]; }
        }
      }
    }
  }

  /** A chart that does not stop the run only puts its state in front of the states of the others. */
  lemma RunContinues(c: Cluster, o: Owner, strict: bool, ts: seq<ChartConfig>)
    requires ts != [] && ChartStep(c, o, ts[0]).1.Ok? && !Stops(ChartStep(c, o, ts[0]).1.value, strict)
    ensures var (c1, r) := ChartStep(c, o, ts[0]);
            var run, rest := RunCharts(c, o, strict, ts), RunCharts(c1, o, strict, ts[1..]);
            && run == Run(rest.cluster, [r.value] + rest.states, rest.error)
            && (StopsAt(run, strict) <==> StopsAt(rest, strict))
            && (rest.states != [] ==> run.states[|run.states| - 1] == rest.states[|rest.states| - 1])
            && Handled(run, strict) == 1 + Handled(rest, strict)
  {
  }

  /** The charts after the handled ones are neither read nor written: without them the run is the same. */
  lemma {:induction false} RunIgnoresLater(c: Cluster, o: Owner, strict: bool, ts: seq<ChartConfig>)
    ensures Handled(RunCharts(c, o, strict, ts), strict) <= |ts|
    ensures RunCharts(c, o, strict, ts[..Handled(RunCharts(c, o, strict, ts), strict)]) == RunCharts(c, o, strict, ts)
    decreases |ts|
  {
    RunShape(c, o, strict, ts);
    var n := Handled(RunCharts(c, o, strict, ts), strict);
    if n > 0 {
      var (c1, r) := ChartStep(c, o, ts[0]);
      var some := ts[..n];
      assert some[0] == ts[0] && some[1..] == ts[1..][..n - 1];
      if r.Ok? && !Stops(r.value, strict) {
        RunContinues(c, o, strict, ts);
        RunIgnoresLater(c1, o, strict, ts[1..]);
      }
    }
  }

  lemma StoppedStates(c: Cluster, o: Owner, strict: bool, ts: seq<ChartConfig>)
    ensures var run := RunCharts(c, o, strict, ts);
            && (ChartInProgress in run.states <==> run.states != [] && run.states[|run.states| - 1].ChartInProgress?)
            && (run.error.None? && strict ==> ChartFailed !in run.states)
            && (run.error.None? && ChartInProgress !in run.states ==> |run.states| == |ts|)
  {
    RunShape(c, o, strict, ts);
    var run := RunCharts(c, o, strict, ts);
    forall i | 0 <= i < |run.states| && Stops(run.states[i], strict) ensures i == |run.states| - 1 {
    }
    if ChartInProgress in run.states {
      var i :| 0 <= i < |run.states| && run.states[i] == ChartInProgress;
      assert Stops(run.states[i], strict);
    }
    forall i | 0 <= i < |run.states| && run.error.None? && strict ensures !run.states[i].ChartFailed? {
      assert i < |run.states| - 1 ==> !Stops(run.states[i], strict);
    }
  }

  /** The phase succeeds exactly when the run covered every sorted chart and each is finished; it reports progress
      exactly when its last chart is in progress and none failed; strict mode reports a failed chart as an error. */
  lemma HelmPhaseExact(c: Cluster, o: Owner, strict: bool, configs: seq<ChartConfig>, ts: seq<ChartConfig>)
    requires configs != [] && ChartSort.Sorted(configs) == Ok(ts)
    ensures var run, r := RunCharts(c, o, strict, ts), HelmPhase(c, o, strict, configs).1;
            && (r == Ok(Succeeded)
                <==> run.error.None? && |run.states| == |ts| && forall s | s in run.states :: Finished(s))
            && (r == Ok(InProgress) <==>
                  && run.error.None? && ChartFailed !in run.states
                  && run.states != [] && run.states[|run.states| - 1].ChartInProgress?)
            && (r == Ok(Failed) <==> run.error.None? && ChartFailed in run.states)
            && (r.Ok? ==> r.value.Succeeded? || r.value.InProgress? || (r.value.Failed? && !strict))
  {
    StoppedStates(c, o, strict, ts);
    var run := RunCharts(c, o, strict, ts);
    assert (forall s | s in run.states :: Finished(s))
           <==> ChartFailed !in run.states && ChartInProgress !in run.states;
  }

  // ---------------------------------------------------------------- one action at a time

  lemma ChartWriteStarts(c: Cluster, c': Cluster, h: HelmChart)
    requires c' == c.CreateChart(h).0 || c' == c.UpdateChart(h).0
    ensures StartsLast(c, c')
  {
    if c' == c.CreateChart(h).0 {
      LogOne(c, c', Create(ChartT(h.name)));
    } else {
      LogOne(c, c', Update(ChartT(h.name)));
    }
  }

  lemma JobStateQuiet(c: Cluster, h: HelmChart)
    ensures Quiet(c, JobState(c, h).0)
  {
    var c' := JobState(c, h).0;
    if c' != c {
      LogOne(c, c', Read(JobT(h.status.jobName)));
    }
  }

  /** A chart step issues at most one upgrade-starting call, as its last one, and then the chart is not finished. */
  lemma ChartStepStarts(c: Cluster, o: Owner, t: ChartConfig)
    ensures var (c', r) := ChartStep(c, o, t);
            && StartsLast(c, c')
            && (r.Ok? && !r.value.ChartInProgress? ==> Quiet(c, c'))
  {
    var (c1, release) := c.RetrieveRelease(t.Name());
    LogOne(c, c1, Read(ReleaseT(t.Name())));
    QuietStartsLast(c, c1);
    if release.Ok? && release.value.Some? {
      var (c2, existing) := c1.GetChart(t.Name());
      LogOne(c1, c2, Read(ChartT(t.Name())));
      QuietThen(c, c1, c2);
      QuietStartsLast(c, c2);
      var (c', r) := ChartStep(c, o, t);
      if c' != c2 {
        QuietThen(c, c2, c');
        if existing.value.None? {
          ChartWriteStarts(c2, c', BuiltFrom(o, t, release.value.value).value);
        } else if ShouldUpdate(existing.value.value, t) == Ok(true) {
          ChartWriteStarts(c2, c', Retargeted(existing.value.value, o, t).value);
        } else {
          JobStateQuiet(c2, existing.value.value);
          QuietStartsLast(c, c');
        }
      }
    }
  }

  /** The run over all charts issues at most one upgrade-starting call, as its last one; when it has none in progress
      and no error, it issues none. */
  lemma {:induction false} RunStarts(c: Cluster, o: Owner, strict: bool, ts: seq<ChartConfig>)
    ensures var run := RunCharts(c, o, strict, ts);
            && StartsLast(c, run.cluster)
            && (run.error.None? && ChartInProgress !in run.states ==> Quiet(c, run.cluster))
    decreases |ts|
  {
    if ts != [] {
      var (c1, r) := ChartStep(c, o, ts[0]);
      ChartStepStarts(c, o, ts[0]);
      if r.Ok? && !Stops(r.value, strict) {
        var rest := RunCharts(c1, o, strict, ts[1..]);
        RunStarts(c1, o, strict, ts[1..]);
        QuietThen(c, c1, rest.cluster);
      }
    }
  }

  lemma HelmPhaseStarts(c: Cluster, o: Owner, strict: bool, configs: seq<ChartConfig>)
    ensures var (c', r) := HelmPhase(c, o, strict, configs);
            && StartsLast(c, c')
            && (r.Ok? && Completes(r.value) ==> Quiet(c, c'))
  {
    if configs != [] && ChartSort.Sorted(configs).Ok? {
      RunStarts(c, o, strict, ChartSort.Sorted(configs).value);
    }
  }
}
