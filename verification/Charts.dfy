/** Charts of a release manifest and the per-chart upgrade configuration built from them. */
module Charts {
  import opened Wrappers
  import opened Values

  /** A parsed repository URL: `Oci` when its scheme is "oci". */
  datatype Url = Malformed | Oci(text: string) | Plain(text: string)

  /** A declared dependency; `helm` tells whether its type is a Helm chart. */
  datatype Dependency = Dependency(name: string, helm: bool)

  /** `repository` is a repository name or, when no repository has that name, the URL itself. */
  datatype Chart = Chart(name: string, chart: string, version: string, namespace: string, repository: string,
                         repositoryUrl: Url, values: Fields, dependsOn: seq<Dependency>)
  {
    function GetName(): string {
      if name != "" then name else chart
    }

    /** The chart as it is read back from the JSON text of its manifest. */
    function Cached(): Chart {
      this.(values := ReadBack(values))
    }
  }

  datatype Repository = Repository(name: string, url: Url)

  datatype SecretRef = SecretRef(name: string, keys: seq<string>)

  /** Chart configuration given by the user in the Release. */
  datatype RuntimeChart = RuntimeChart(values: Option<Json>, secretRef: Option<SecretRef>)

  const NO_RUNTIME := RuntimeChart(None, None)

  datatype ChartConfig = ChartConfig(chart: Chart, repository: Option<Repository>, runtime: RuntimeChart)
  {
    function Name(): string {
      chart.GetName()
    }

    /** The configuration from the manifest read back; runtime values are JSON from the start. */
    function Cached(): ChartConfig {
      this.(chart := chart.Cached())
    }
  }

  datatype HelmManifest = HelmManifest(charts: seq<Chart>, repositories: seq<Repository>)

  function CachedCharts(charts: seq<Chart>): (r: seq<Chart>)
    ensures |r| == |charts| && forall i | 0 <= i < |r| :: r[i] == charts[i].Cached()
  {
    seq(|charts|, i requires 0 <= i < |charts| => charts[i].Cached())
  }

  function CachedConfigs(ts: seq<ChartConfig>): (r: seq<ChartConfig>)
    ensures |r| == |ts| && forall i | 0 <= i < |r| :: r[i] == ts[i].Cached()
  {
    seq(|ts|, i requires 0 <= i < |ts| => ts[i].Cached())
  }

  // ---------------------------------------------------------------- specification

  /** The last repository called `name`. */
  function RepositoryFor(repos: seq<Repository>, name: string): (r: Option<Repository>)
    ensures r.None? <==> forall i | 0 <= i < |repos| :: repos[i].name != name
    ensures r.Some? ==> exists i | 0 <= i < |repos| ::
                          && r.value == repos[i] && repos[i].name == name
                          && forall j | i < j < |repos| :: repos[j].name != name
  {
    if repos == [] then None
    else if repos[|repos| - 1].name == name then Some(repos[|repos| - 1])
    else
      var r := RepositoryFor(repos[..|repos| - 1], name);
      r
  }

  function ConfigFor(chart: Chart, repos: seq<Repository>, runtime: map<string, RuntimeChart>): ChartConfig {
    ChartConfig(chart, RepositoryFor(repos, chart.repository),
                if chart.chart in runtime then runtime[chart.chart] else NO_RUNTIME)
  }

  function ConfigsOf(m: Option<HelmManifest>, runtime: map<string, RuntimeChart>): seq<ChartConfig> {
    if m.None? then []
    else seq(|m.value.charts|, i requires 0 <= i < |m.value.charts| =>
               ConfigFor(m.value.charts[i], m.value.repositories, runtime))
  }

  ghost predicate Mentioned(charts: seq<Chart>, chart: string) {
    exists c :: c in charts && c.chart == chart
  }

  /** The chart references that runtime configuration may use. */
  function ChartNames(m: Option<HelmManifest>): set<string> {
    if m.None? then {} else set c | c in m.value.charts :: c.chart
  }

  function BuildConfig(core: Option<HelmManifest>, solution: Option<HelmManifest>, runtime: map<string, RuntimeChart>)
    : Result<seq<ChartConfig>, Error>
  {
    var unknown := runtime.Keys - ChartNames(core) - ChartNames(solution);
    if unknown != {} then Err(RuntimeConfigError(unknown))
    else Ok(ConfigsOf(core, runtime) + ConfigsOf(solution, runtime))
  }

  // ---------------------------------------------------------------- the builder

  method IndexRepositories(repositories: seq<Repository>) returns (repos: map<string, Repository>)
    ensures forall n :: RepositoryFor(repositories, n) == if n in repos then Some(repos[n]) else None
  {
    repos := map[];
    for i := 0 to |repositories|
      invariant forall n :: RepositoryFor(repositories[..i], n) == if n in repos then Some(repos[n]) else None
    {
      assert repositories[..i + 1][..i] == repositories[..i];
      repos := repos[repositories[i].name := repositories[i]];
    }
    assert repositories[..|repositories|] == repositories;
  }

  /** One manifest's share of BuildHelmChartConfig: appends its
      configurations and ticks off the runtime keys it uses. */
  method AddCharts(m: HelmManifest, runtime: map<string, RuntimeChart>, configs: seq<ChartConfig>,
                   unprocessed: set<string>)
    returns (configs': seq<ChartConfig>, unprocessed': set<string>)
    requires unprocessed <= runtime.Keys
    ensures configs' == configs + ConfigsOf(Some(m), runtime)
    ensures unprocessed' == unprocessed - ChartNames(Some(m))
  {
    var repos := IndexRepositories(m.repositories);
    configs', unprocessed' := configs, unprocessed;
    ghost var all := ConfigsOf(Some(m), runtime);
    for i := 0 to |m.charts|
      invariant configs' == configs + all[..i]
      invariant forall k :: k in unprocessed' <==> k in unprocessed && !Mentioned(m.charts[..i], k)
    {
      var chart := m.charts[i];
      var config := ChartConfig(chart, None, NO_RUNTIME);
      if chart.repository in repos {
        config := config.(repository := Some(repos[chart.repository]));
      }
      if chart.chart in runtime {
        config := config.(runtime := runtime[chart.chart]);
        unprocessed' := unprocessed' - {chart.chart};
      }
      assert m.charts[..i + 1] == m.charts[..i] + [chart];
      assert all[..i + 1] == all[..i] + [config];
      configs' := configs' + [config];
    }
    assert m.charts[..|m.charts|] == m.charts;
    forall k ensures Mentioned(m.charts, k) <==> k in ChartNames(Some(m)) {
    }
  }

  method BuildHelmChartConfig(core: Option<HelmManifest>, solution: Option<HelmManifest>,
                              runtime: map<string, RuntimeChart>)
    returns (r: Result<seq<ChartConfig>, Error>)
    ensures r == BuildConfig(core, solution, runtime)
  {
    var configs, unprocessed := [], runtime.Keys;
    if core.Some? {
      configs, unprocessed := AddCharts(core.value, runtime, configs, unprocessed);
    }
    if solution.Some? {
      configs, unprocessed := AddCharts(solution.value, runtime, configs, unprocessed);
    }
    assert configs == ConfigsOf(core, runtime) + ConfigsOf(solution, runtime);
    assert unprocessed == runtime.Keys - ChartNames(core) - ChartNames(solution);
    return if unprocessed != {} then Err(RuntimeConfigError(unprocessed)) else Ok(configs);
  }

  // ---------------------------------------------------------------- meaning

  /** `config` is what chart `i` of `m` must be configured with. */
  ghost predicate Configures(m: HelmManifest, runtime: map<string, RuntimeChart>, i: nat, config: ChartConfig)
    requires i < |m.charts|
  {
    && config.chart == m.charts[i]
    && (config.repository.None?
        <==> forall j | 0 <= j < |m.repositories| :: m.repositories[j].name != m.charts[i].repository)
    && (config.repository.Some? ==>
          exists j | 0 <= j < |m.repositories| ::
            && m.repositories[j] == config.repository.value && m.repositories[j].name == m.charts[i].repository
            && forall k | j < k < |m.repositories| :: m.repositories[k].name != m.charts[i].repository)
    && config.runtime == if m.charts[i].chart in runtime then runtime[m.charts[i].chart] else NO_RUNTIME
  }

  /** The charts of a manifest, none when there is no manifest. */
  function ChartsOf(m: Option<HelmManifest>): seq<Chart> {
    if m.None? then [] else m.value.charts
  }

  /** A runtime key that names no chart of either manifest. */
  ghost predicate Unknown(core: Option<HelmManifest>, solution: Option<HelmManifest>,
                          runtime: map<string, RuntimeChart>, k: string)
  {
    k in runtime && !Mentioned(ChartsOf(core), k) && !Mentioned(ChartsOf(solution), k)
  }

  lemma ConfigsComplete(m: Option<HelmManifest>, runtime: map<string, RuntimeChart>)
    ensures var r := ConfigsOf(m, runtime);
            |r| == |ChartsOf(m)| && forall i: nat | i < |r| :: Configures(m.value, runtime, i, r[i])
    ensures forall k :: k in ChartNames(m) <==> Mentioned(ChartsOf(m), k)
  {
  }

  /** The build fails exactly when a runtime key names no chart, and reports all such
      keys; otherwise it configures every core chart and then every solution chart,
      each from its own manifest's repositories. Either manifest may be absent. */
  lemma BuildConfigComplete(core: Option<HelmManifest>, solution: Option<HelmManifest>,
                            runtime: map<string, RuntimeChart>)
    ensures var r, n := BuildConfig(core, solution, runtime), |ChartsOf(core)|;
            && (r.Err? <==> exists k :: Unknown(core, solution, runtime, k))
            && (r.Err? ==> r.error.RuntimeConfigError?
                           && forall k :: k in r.error.unknown <==> Unknown(core, solution, runtime, k))
            && (r.Ok? ==>
                  && |r.value| == n + |ChartsOf(solution)|
                  && (forall i: nat | i < n :: Configures(core.value, runtime, i, r.value[i]))
                  && (forall i: nat | n <= i < |r.value| :: Configures(solution.value, runtime, i - n, r.value[i])))
  {
    ConfigsComplete(core, runtime);
    ConfigsComplete(solution, runtime);
    var unknown := runtime.Keys - ChartNames(core) - ChartNames(solution);
    forall k ensures k in unknown <==> Unknown(core, solution, runtime, k) {
    }
    if unknown != {} {
      var k :| k in unknown;
      assert Unknown(core, solution, runtime, k);
    }
  }
}
