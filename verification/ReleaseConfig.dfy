/** The upgrade configuration of a release: what the LCM phase and the pipeline phases are asked to do. */
module ReleaseConfig {
  import opened Wrappers
  import opened Values
  import opened Charts
  import opened Manifests
  import opened Api
  import opened HelmReconciler

  datatype Config = Config(releaseName: string, releaseVersion: string, os: Option<OSConfig>,
                           kubernetes: Option<KubernetesConfig>, helmCharts: seq<ChartConfig>)
  {
    function GetOwner(): Owner {
      Owner(releaseName, releaseVersion)
    }

    /** The configuration that the manifest, read back from its JSON text, gives. */
    function Cached(): Config {
      this.(helmCharts := CachedConfigs(helmCharts))
    }
  }

  const LCM_CHART := "elemental-lifecycle-manager"
  const LCM_CRDS_CHART := "elemental-lifecycle-manager-crds"

  predicate IsLcm(c: Chart) {
    c.chart == LCM_CHART || c.chart == LCM_CRDS_CHART
  }

  /** Runtime configuration by chart, restricted to `only` unless that is empty; the last entry of a chart wins. */
  function RuntimeCharts(components: seq<ComponentChart>, only: seq<string>): map<string, RuntimeChart> {
    if components == [] then map[]
    else
      var last := components[|components| - 1];
      var before := RuntimeCharts(components[..|components| - 1], only);
      if only != [] && last.chart !in only then before else before[last.chart := last.runtime]
  }

  method RuntimeHelmChartConfigs(components: seq<ComponentChart>, only: seq<string>)
    returns (configs: map<string, RuntimeChart>)
    ensures configs == RuntimeCharts(components, only)
  {
    configs := map[];
    for i := 0 to |components|
      invariant configs == RuntimeCharts(components[..i], only)
    {
      assert components[..i + 1][..i] == components[..i];
      if |only| > 0 && components[i].chart !in only {
        continue;
      }
      configs := configs[components[i].chart := components[i].runtime];
    }
    assert components[..|components|] == components;
  }

  /** The charts the LCM phase upgrades, with the fields it takes over. */
  function LcmCharts(charts: seq<Chart>): seq<Chart> {
    if charts == [] then []
    else
      var c := charts[|charts| - 1];
      LcmCharts(charts[..|charts| - 1]) +
      if IsLcm(c) then [c.(name := "", namespace := "", dependsOn := [])] else []
  }

  function LcmConfig(core: HelmManifest, r: Release): Result<Config, Error> {
    match BuildConfig(Some(HelmManifest(LcmCharts(core.charts), core.repositories)), None,
                      RuntimeCharts(r.spec.components, [LCM_CHART]))
    case Err(e) => Err(e)
    case Ok(charts) => Ok(Config(r.name, r.spec.version, None, None, charts))
  }

  method LcmUpgradeConfig(core: HelmManifest, r: Release) returns (config: Result<Config, Error>)
    ensures config == LcmConfig(core, r)
  {
    var runtime := RuntimeHelmChartConfigs(r.spec.components, [LCM_CHART]);
    var charts: seq<Chart> := [];
    for i := 0 to |core.charts|
      invariant charts == LcmCharts(core.charts[..i])
    {
      assert core.charts[..i + 1][..i] == core.charts[..i];
      var c := core.charts[i];
      if c.chart == LCM_CHART || c.chart == LCM_CRDS_CHART {
        charts := charts + [Chart("", c.chart, c.version, "", c.repository, c.repositoryUrl, c.values, [])];
      }
    }
    assert core.charts[..|core.charts|] == core.charts;
    var built := BuildHelmChartConfig(Some(HelmManifest(charts, core.repositories)), None, runtime);
    return if built.Err? then Err(built.error)
           else Ok(Config(r.name, r.spec.version, None, None, built.value));
  }

  /** The configurations left to the Helm phase. */
  function WithoutLcm(configs: seq<ChartConfig>): (r: seq<ChartConfig>)
    ensures forall c :: c in r <==> c in configs && !IsLcm(c.chart)
  {
    if configs == [] then []
    else (if IsLcm(configs[0].chart) then [] else [configs[0]]) + WithoutLcm(configs[1..])
  }

  function UpgradeConfig(m: Manifest, r: Release): Result<Config, Error> {
    if m.core.None? || !m.core.value.os.imageParses then Err(InvalidInput)
    else
      match BuildConfig(m.core.value.helm, m.solution, RuntimeCharts(r.spec.components, []))
      case Err(e) => Err(e)
      case Ok(charts) =>
        Ok(Config(r.name, r.spec.version, Some(m.core.value.os), Some(m.core.value.kubernetes), WithoutLcm(charts)))
  }

  method NewUpgradeConfig(m: Manifest, r: Release) returns (config: Result<Config, Error>)
    ensures config == UpgradeConfig(m, r)
  {
    var runtime := RuntimeHelmChartConfigs(r.spec.components, []);
    if m.core.None? || !m.core.value.os.imageParses {
      return Err(InvalidInput);
    }
    var built := BuildHelmChartConfig(m.core.value.helm, m.solution, runtime);
    return if built.Err? then Err(built.error)
           else Ok(Config(r.name, r.spec.version, Some(m.core.value.os), Some(m.core.value.kubernetes),
                          WithoutLcm(built.value)));
  }

  // ---------------------------------------------------------------- every core chart is upgraded once

  /** The position of a chart in the LCM configuration, counting LCM charts before it. */
  function LcmIndex(charts: seq<Chart>, i: nat): nat
    requires i <= |charts|
  {
    |LcmCharts(charts[..i])|
  }

  lemma {:induction false} LcmChartsExact(charts: seq<Chart>, i: nat)
    requires i < |charts|
    ensures IsLcm(charts[i]) ==> LcmIndex(charts, i) < |LcmCharts(charts)|
                                 && LcmCharts(charts)[LcmIndex(charts, i)]
                                    == charts[i].(name := "", namespace := "", dependsOn := [])
    ensures LcmIndex(charts, i + 1) == LcmIndex(charts, i) + if IsLcm(charts[i]) then 1 else 0
    ensures forall c | c in LcmCharts(charts) :: IsLcm(c)
    decreases |charts|
  {
    var last := |charts| - 1;
    if i < last {
      assert charts[..last][..i] == charts[..i] && charts[..last][..i + 1] == charts[..i + 1];
      LcmChartsExact(charts[..last], i);
    } else {
      assert charts[..i + 1] == charts;
      LcmChartsOnly(charts[..last]);
    }
  }

  lemma {:induction false} LcmChartsOnly(charts: seq<Chart>)
    ensures forall c | c in LcmCharts(charts) :: IsLcm(c)
    decreases |charts|
  {
    if charts != [] {
      LcmChartsOnly(charts[..|charts| - 1]);
    }
  }

  const LCM_NAMES := {"elemental-lifecycle-manager", "elemental-lifecycle-manager-crds"}

  /** Each core chart is upgraded by exactly one of the two phases: the LCM phase has its version and values when it is
      one of the LCM charts, the Helm phase its whole configuration when it is not, and never both. */
  lemma CoreChartsSplit(core: HelmManifest, m: Manifest, r: Release, i: nat)
    requires m.core.Some? && m.core.value.helm == Some(core) && i < |core.charts|
    requires UpgradeConfig(m, r).Ok? && LcmConfig(core, r).Ok?
    ensures var lcm, helm := LcmConfig(core, r).value.helmCharts, UpgradeConfig(m, r).value.helmCharts;
            && (core.charts[i].chart in LCM_NAMES <==>
                  exists c :: c in lcm && c.chart.chart == core.charts[i].chart
                              && c.chart.version == core.charts[i].version
                              && c.chart.values == core.charts[i].values)
            && (core.charts[i].chart !in LCM_NAMES <==>
                  ConfigFor(core.charts[i], core.repositories, RuntimeCharts(r.spec.components, [])) in helm)
            && (forall c | c in lcm :: c.chart.chart in LCM_NAMES)
            && forall c | c in helm :: c.chart.chart !in LCM_NAMES
  {
    var lcm := LcmConfig(core, r).value.helmCharts;
    LcmChartsExact(core.charts, i);
    forall c | c in lcm ensures IsLcm(c.chart) {
      var j :| 0 <= j < |lcm| && lcm[j] == c;
      assert c.chart == LcmCharts(core.charts)[j];
    }
    if IsLcm(core.charts[i]) {
      assert lcm[LcmIndex(core.charts, i)] in lcm;
    }
    var runtime := RuntimeCharts(r.spec.components, []);
    var all := ConfigsOf(Some(core), runtime) + ConfigsOf(m.solution, runtime);
    assert all[i] == ConfigFor(core.charts[i], core.repositories, runtime) && all[i] in all;
  }

  // ---------------------------------------------------------------- what a configuration holds

  /** An entry of the Release for chart `k` that counts when only some charts are asked for. */
  predicate CountsFor(x: ComponentChart, only: seq<string>, k: string) {
    x.chart == k && (only == [] || k in only)
  }

  /** A chart has runtime configuration exactly when an entry of
      the Release counts for it, and then that of its last one. */
  lemma {:induction false} RuntimeChartsExact(components: seq<ComponentChart>, only: seq<string>, k: string)
    ensures k in RuntimeCharts(components, only) <==>
            exists i :: 0 <= i < |components| && CountsFor(components[i], only, k)
    ensures k in RuntimeCharts(components, only) ==>
              exists i | 0 <= i < |components| ::
                && components[i].chart == k && RuntimeCharts(components, only)[k] == components[i].runtime
                && forall j | i < j < |components| :: components[j].chart != k
    decreases |components|
  {
    if components != [] {
      var n := |components| - 1;
      RuntimeChartsExact(components[..n], only, k);
      if CountsFor(components[n], only, k) {
        assert components[n].chart == k;
      }
    }
  }

  /** Leaving out the LCM charts keeps the order of the others. */
  lemma {:induction false} WithoutLcmConcat(a: seq<ChartConfig>, b: seq<ChartConfig>)
    ensures WithoutLcm(a + b) == WithoutLcm(a) + WithoutLcm(b)
  {
    if a == [] {
      assert a + b == b;
    } else {
      assert (a + b)[1..] == a[1..] + b;
      WithoutLcmConcat(a[1..], b);
    }
  }

  /** The configuration of the pipeline: an error for a manifest without a core platform
      or with a malformed image, or when the Release configures a chart of neither
      manifest; otherwise the versions of the core platform, for this release. */
  lemma UpgradeConfigExact(m: Manifest, r: Release)
    ensures UpgradeConfig(m, r).Ok? <==>
            && m.core.Some? && m.core.value.os.imageParses
            && forall k | k in RuntimeCharts(r.spec.components, []) ::
                 Mentioned(ChartsOf(m.core.value.helm), k) || Mentioned(ChartsOf(m.solution), k)
    ensures UpgradeConfig(m, r).Ok? ==>
              var cfg := UpgradeConfig(m, r).value;
              && cfg.releaseName == r.name && cfg.releaseVersion == r.spec.version
              && cfg.os == Some(m.core.value.os) && cfg.kubernetes == Some(m.core.value.kubernetes)
    ensures UpgradeConfig(m, r).Ok? ==>
              var runtime := RuntimeCharts(r.spec.components, []);
              UpgradeConfig(m, r).value.helmCharts
              == WithoutLcm(ConfigsOf(m.core.value.helm, runtime)) + WithoutLcm(ConfigsOf(m.solution, runtime))
    ensures UpgradeConfig(m, r).Err? && m.core.Some? && m.core.value.os.imageParses ==>
              UpgradeConfig(m, r).error.RuntimeConfigError?
  {
    if m.core.Some? && m.core.value.os.imageParses {
      var runtime := RuntimeCharts(r.spec.components, []);
      BuildConfigComplete(m.core.value.helm, m.solution, runtime);
      WithoutLcmConcat(ConfigsOf(m.core.value.helm, runtime), ConfigsOf(m.solution, runtime));
      forall k ensures Unknown(m.core.value.helm, m.solution, runtime, k) <==>
                       k in runtime && !Mentioned(ChartsOf(m.core.value.helm), k)
                           && !Mentioned(ChartsOf(m.solution), k) {
      }
    }
  }

  /** The configuration of the LCM phase: an error exactly when the Release configures the LCM chart and the manifest
      has none; otherwise charts only, for this release. */
  lemma LcmConfigExact(core: HelmManifest, r: Release)
    ensures LcmConfig(core, r).Err? <==>
            && (exists i :: 0 <= i < |r.spec.components| && r.spec.components[i].chart == LCM_CHART)
            && forall i | 0 <= i < |core.charts| :: core.charts[i].chart != LCM_CHART
    ensures LcmConfig(core, r).Ok? ==>
              var cfg := LcmConfig(core, r).value;
              && cfg == Config(r.name, r.spec.version, None, None, cfg.helmCharts)
              && |cfg.helmCharts| == |LcmCharts(core.charts)|
              && forall i: nat | i < |cfg.helmCharts| ::
                   Configures(HelmManifest(LcmCharts(core.charts), core.repositories),
                              RuntimeCharts(r.spec.components, [LCM_CHART]), i, cfg.helmCharts[i])
  {
    var runtime := RuntimeCharts(r.spec.components, [LCM_CHART]);
    var lcm := Some(HelmManifest(LcmCharts(core.charts), core.repositories));
    BuildConfigComplete(lcm, None, runtime);
    forall k | k in runtime ensures k == LCM_CHART {
      RuntimeChartsExact(r.spec.components, [LCM_CHART], k);
      var i :| 0 <= i < |r.spec.components| && CountsFor(r.spec.components[i], [LCM_CHART], k);
    }
    RuntimeChartsExact(r.spec.components, [LCM_CHART], LCM_CHART);
    LcmChartMentioned(core.charts);
    assert Unknown(lcm, None, runtime, LCM_CHART)
           <==> LCM_CHART in runtime && !Mentioned(LcmCharts(core.charts), LCM_CHART);
    if LCM_CHART in runtime {
      var i :| 0 <= i < |r.spec.components| && CountsFor(r.spec.components[i], [LCM_CHART], LCM_CHART);
      assert r.spec.components[i].chart == LCM_CHART;
    }
    if i :| 0 <= i < |r.spec.components| && r.spec.components[i].chart == LCM_CHART {
      assert CountsFor(r.spec.components[i], [LCM_CHART], LCM_CHART);
    }
  }

  lemma {:induction false} LcmChartMentioned(charts: seq<Chart>)
    ensures Mentioned(LcmCharts(charts), LCM_CHART) <==> exists i :: 0 <= i < |charts| && charts[i].chart == LCM_CHART
    decreases |charts|
  {
    if charts != [] {
      var n := |charts| - 1;
      LcmChartMentioned(charts[..n]);
      var rest := if IsLcm(charts[n]) then [charts[n].(name := "", namespace := "", dependsOn := [])] else [];
      assert LcmCharts(charts) == LcmCharts(charts[..n]) + rest;
      if Mentioned(LcmCharts(charts[..n]), LCM_CHART) {
        var c :| c in LcmCharts(charts[..n]) && c.chart == LCM_CHART;
        assert c in LcmCharts(charts);
      }
      if charts[n].chart == LCM_CHART {
        assert rest[0] in LcmCharts(charts);
      }
    }
  }

  // ---------------------------------------------------------------- a manifest read back from JSON

  lemma NamesCached(m: HelmManifest)
    ensures ChartNames(CachedHelm(Some(m))) == ChartNames(Some(m))
  {
    var cached := CachedCharts(m.charts);
    forall c | c in cached ensures c.chart in ChartNames(Some(m)) {
      var i :| 0 <= i < |cached| && cached[i] == c;
      assert m.charts[i] in m.charts;
    }
    forall d | d in m.charts ensures d.chart in ChartNames(CachedHelm(Some(m))) {
      var i :| 0 <= i < |m.charts| && m.charts[i] == d;
      assert cached[i] in cached;
    }
  }

  lemma ConfigsOfCached(m: Option<HelmManifest>, runtime: map<string, RuntimeChart>)
    ensures ConfigsOf(CachedHelm(m), runtime) == CachedConfigs(ConfigsOf(m, runtime))
    ensures ChartNames(CachedHelm(m)) == ChartNames(m)
  {
    if m.Some? {
      NamesCached(m.value);
    }
  }

  lemma BuildConfigCached(core: Option<HelmManifest>, solution: Option<HelmManifest>,
                          runtime: map<string, RuntimeChart>)
    ensures var r := BuildConfig(core, solution, runtime);
            BuildConfig(CachedHelm(core), CachedHelm(solution), runtime)
            == if r.Err? then r else Ok(CachedConfigs(r.value))
  {
    ConfigsOfCached(core, runtime);
    ConfigsOfCached(solution, runtime);
    var a, b := ConfigsOf(core, runtime), ConfigsOf(solution, runtime);
    assert CachedConfigs(a + b) == CachedConfigs(a) + CachedConfigs(b);
  }

  lemma {:induction false} WithoutLcmCached(configs: seq<ChartConfig>)
    ensures WithoutLcm(CachedConfigs(configs)) == CachedConfigs(WithoutLcm(configs))
    decreases |configs|
  {
    if configs != [] {
      WithoutLcmCached(configs[1..]);
      assert CachedConfigs(configs)[1..] == CachedConfigs(configs[1..]);
    }
  }

  /** From a cached manifest comes the same configuration, or error, but for its values as JSON decodes them. */
  lemma UpgradeConfigCached(m: Manifest, r: Release)
    ensures UpgradeConfig(m.Cached(), r) ==
            if UpgradeConfig(m, r).Err? then UpgradeConfig(m, r) else Ok(UpgradeConfig(m, r).value.Cached())
  {
    if m.core.Some? {
      var runtime := RuntimeCharts(r.spec.components, []);
      BuildConfigCached(m.core.value.helm, m.solution, runtime);
      var built := BuildConfig(m.core.value.helm, m.solution, runtime);
      if built.Ok? {
        WithoutLcmCached(built.value);
      }
    }
  }
}
