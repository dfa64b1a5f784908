/** The release manifest, and what becomes of it in the JSON text in which it is cached. */
module Manifests {
  import opened Wrappers
  import opened Values
  import opened Charts

  /** `imageParses`: the image reference of the operating system is well-formed. */
  datatype OSConfig = OSConfig(version: string, imageParses: bool)

  datatype KubernetesConfig = KubernetesConfig(version: string)

  datatype CorePlatform = CorePlatform(os: OSConfig, kubernetes: KubernetesConfig, helm: Option<HelmManifest>)

  datatype Manifest = Manifest(core: Option<CorePlatform>, solution: Option<HelmManifest>)
  {
    /** The manifest as it is read back from its JSON text: only the kind of its numbers differs. */
    function Cached(): Manifest {
      Manifest(if core.Some? then Some(core.value.(helm := CachedHelm(core.value.helm))) else None,
               CachedHelm(solution))
    }
  }

  /** A value of the manifest cache: the JSON text of a manifest, up to layout, or text that is none. */
  datatype ManifestText = Garbage | JsonOf(m: Manifest)

  function Unmarshal(text: ManifestText): Option<Manifest> {
    if text.Garbage? then None else Some(text.m.Cached())
  }

  function CachedHelm(m: Option<HelmManifest>): Option<HelmManifest> {
    if m.Some? then Some(m.value.(charts := CachedCharts(m.value.charts))) else None
  }

  lemma CachedHelmTwice(m: Option<HelmManifest>)
    ensures CachedHelm(CachedHelm(m)) == CachedHelm(m)
  {
    if m.Some? {
      forall i | 0 <= i < |m.value.charts|
        ensures m.value.charts[i].Cached().Cached() == m.value.charts[i].Cached()
      {
        ReadBackTwice(m.value.charts[i].values);
      }
      var once := CachedCharts(m.value.charts);
      assert CachedCharts(once) == once;
    }
  }

  /** Caching a manifest read from the cache changes nothing more. */
  lemma CachedTwice(m: Manifest)
    ensures m.Cached().Cached() == m.Cached()
  {
    CachedHelmTwice(m.solution);
    if m.core.Some? {
      CachedHelmTwice(m.core.value.helm);
    }
  }
}
