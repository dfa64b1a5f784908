/** The manifest cache: a ConfigMap that keeps the JSON text of each resolved manifest by release version
    (internal/release/manifest_cache.go). */
module ManifestCache {
  import opened Wrappers
  import opened Manifests
  import opened Clusters

  // ---------------------------------------------------------------- specification

  /** Ok(None): there is no text for the version. Text that is no manifest is an error. */
  function CacheGet(c: Cluster, version: string): (Cluster, Result<Option<Manifest>, Error>) {
    var (c1, texts) := c.GetCache();
    (c1, match texts
         case Err(e) => Err(e)
         case Ok(None) => Ok(None)
         case Ok(Some(data)) =>
           if version !in data then Ok(None)
           else if Unmarshal(data[version]).None? then Err(InvalidInput)
           else Ok(Unmarshal(data[version])))
  }

  function CacheSet(c: Cluster, version: string, m: Manifest): (Cluster, Result<(), Error>) {
    var (c1, texts) := c.GetCache();
    match texts
    case Err(e) => (c1, Err(e))
    case Ok(None) => c1.CreateCache(map[version := JsonOf(m)])
    case Ok(Some(data)) => c1.UpdateCache(data[version := JsonOf(m)])
  }

  /** The manifest that the cache holds for a version. */
  function InCache(c: Cluster, version: string): Option<Manifest> {
    if c.cache.Some? && version in c.cache.value then Unmarshal(c.cache.value[version]) else None
  }

  // ---------------------------------------------------------------- the cache

  class ManifestCache {
    const client: Client

    constructor (client: Client)
      ensures this.client == client
    {
      this.client := client;
    }

    method Get(version: string) returns (r: Result<Option<Manifest>, Error>)
      modifies client
      ensures (client.cluster, r) == CacheGet(old(client.cluster), version)
    {
      var texts := client.GetCache();
      if texts.Err? {
        return Err(texts.error);
      }
      if texts.value.None? || version !in texts.value.value {
        return Ok(None);
      }
      var m := Unmarshal(texts.value.value[version]);
      return if m.None? then Err(InvalidInput) else Ok(m);
    }

    method Set(version: string, m: Manifest) returns (r: Result<(), Error>)
      modifies client
      ensures (client.cluster, r) == CacheSet(old(client.cluster), version, m)
    {
      var texts := client.GetCache();
      if texts.Err? {
        return Err(texts.error);
      }
      if texts.value.None? {
        r := client.CreateCache(map[version := JsonOf(m)]);
      } else {
        r := client.UpdateCache(texts.value.value[version := JsonOf(m)]);
      }
    }
  }

  // ---------------------------------------------------------------- what is stored is read back

  /** Everything but the text of one version is as it was. */
  ghost predicate OtherTextsKept(c: Cluster, c': Cluster, version: string) {
    forall v | v != version :: InCache(c', v) == InCache(c, v)
  }

  /** Reading the cache gives what it holds, when the call does not fail, and no manifest otherwise. */
  lemma CacheGetExact(c: Cluster, version: string)
    ensures var (c', r) := CacheGet(c, version);
            && OnlyRead(c, c')
            && (Read(CacheT) !in c.faults ==> (if r.Ok? then r.value else None) == InCache(c, version))
            && (r.Err? <==> Read(CacheT) in c.faults
                            || (c.cache.Some? && version in c.cache.value && c.cache.value[version].Garbage?))
  {
    ReadOnce(c, c.GetCache().0, CacheT);
  }

  lemma PutText(c: Cluster, c': Cluster, data: map<string, ManifestText>, version: string, m: Manifest)
    requires data == if c.cache.Some? then c.cache.value else map[]
    requires c'.cache == Some(data[version := JsonOf(m)])
    ensures InCache(c', version) == Some(m.Cached()) && OtherTextsKept(c, c', version)
  {
  }

  /** A stored manifest is read back with its values as JSON decodes them; other versions are left alone, and a call
      that fails leaves all of them alone. */
  lemma CacheRoundTrip(c: Cluster, version: string, m: Manifest)
    ensures var (c', r) := CacheSet(c, version, m);
            && c' == c.(trace := c'.trace, cache := c'.cache) && OtherTextsKept(c, c', version)
            && InCache(c', version) == (if r.Ok? then Some(m.Cached()) else InCache(c, version))
            && (c.faults == {} ==> r.Ok?)
  {
    var (c', r) := CacheSet(c, version, m);
    if r.Ok? {
      PutText(c, c', if c.cache.Some? then c.cache.value else map[], version, m);
    } else {
      assert c'.cache == c.cache;
    }
  }

  lemma CacheSetQuiet(c: Cluster, version: string, m: Manifest)
    ensures Quiet(c, CacheSet(c, version, m).0)
  {
    var (c1, texts) := c.GetCache();
    LogOne(c, c1, Read(CacheT));
    if texts.Ok? {
      var e := if texts.value.None? then Create(CacheT) else Update(CacheT);
      LogOne(c1, CacheSet(c, version, m).0, e);
      QuietThen(c, c1, CacheSet(c, version, m).0);
    }
  }
}
