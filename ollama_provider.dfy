/**
 * backend/ollama_provider.py: the standalone Ollama model-list cache that
 * reads the native `/api/tags` listing, and `is_ollama_available`.
 *
 * The cached set is one mutable set object: a successful fetch installs a
 * new set, while a failed one empties the cached set in place
 * (`_cached_models.clear()`), so every earlier caller still holding that set
 * sees it emptied. `Listing.NameSet` is that object.
 */
module OllamaProvider {
  import opened Wrappers
  import opened Listing
  import opened ModelMatch

  /**
   * The loop over the `models` entries of an `/api/tags` payload: skip an
   * entry whose `name` is missing or empty, add the name, and add the part
   * before the first colon when there is one.
   */
  method CollectTagNames(entries: seq<Option<string>>) returns (models: set<string>)
    ensures models == TagNames(entries)
    ensures models == ExpandAliases(TruthyIds(entries))
  {
    models := {};
    for i := 0 to |entries|
      invariant models == TagNames(entries[..i])
    {
      assert entries[..i + 1] == entries[..i] + [entries[i]];
      var name := entries[i];
      if !Truthy(name) {
        continue;
      }
      models := models + {name.value};
      if ':' in name.value {
        models := models + {BaseName(name.value)};
      }
    }
    assert entries[..|entries|] == entries;
    TagNamesAreExpandedIds(entries);
  }

  /** The module-level cache of backend/ollama_provider.py. */
  class OllamaCache {
    const host: string
    const ttl: int
    var cached: NameSet
    var timestamp: int

    /** The cache starts as an empty set with timestamp 0. */
    constructor (host: string, ttl: int)
      ensures this.host == host && this.ttl == ttl
      ensures fresh(cached) && cached.elems == {} && timestamp == 0
    {
      this.host := host;
      this.ttl := ttl;
      cached := new NameSet({});
      timestamp := 0;
    }

    /**
     * `_fetch_ollama_models`. Fresh cache: the cached set object, untouched.
     * Successful listing: a new set of the listed names and their bases,
     * stamped `now`. Any failure: the cached set object emptied in place,
     * stamped `now`, and returned. Nothing is raised.
     */
    method FetchOllamaModels(now: int, probe: Probe) returns (r: NameSet)
      modifies this, cached
      ensures r == cached
      ensures Fresh(old(cached.elems), old(timestamp), ttl, now) ==>
                cached == old(cached) && cached.elems == old(cached.elems) && timestamp == old(timestamp)
      ensures !Fresh(old(cached.elems), old(timestamp), ttl, now) && probe.Listed? ==>
                fresh(cached) && cached.elems == TagNames(probe.entries) && timestamp == now
                && old(cached).elems == old(cached.elems)
      ensures !Fresh(old(cached.elems), old(timestamp), ttl, now) && probe.Failed? ==>
                cached == old(cached) && cached.elems == {} && timestamp == now
    {
      if cached.elems != {} && now - timestamp < ttl {
        return cached;
      }
      if probe.Listed? {
        var names := CollectTagNames(probe.entries);
        cached := new NameSet(names);
        timestamp := now;
        return cached;
      }
      cached.elems := {};
      timestamp := now;
      return cached;
    }

    /** `is_ollama_available`: an empty name resolves to nothing without fetching. */
    method IsOllamaAvailable(model: string, now: int, probe: Probe) returns (r: Option<string>)
      modifies this, cached
      ensures model == "" ==>
                r == None && cached == old(cached) && cached.elems == old(cached.elems)
                && timestamp == old(timestamp)
      ensures model != "" ==> Resolves(model, cached.elems, r)
      ensures model != "" && Fresh(old(cached.elems), old(timestamp), ttl, now) ==>
                cached == old(cached) && cached.elems == old(cached.elems) && timestamp == old(timestamp)
      ensures model != "" && !Fresh(old(cached.elems), old(timestamp), ttl, now) && probe.Listed? ==>
                fresh(cached) && cached.elems == TagNames(probe.entries) && timestamp == now
                && old(cached).elems == old(cached.elems)
      ensures model != "" && !Fresh(old(cached.elems), old(timestamp), ttl, now) && probe.Failed? ==>
                cached == old(cached) && cached.elems == {} && timestamp == now
      ensures model != "" && probe.Failed? ==> r == None || Fresh(old(cached.elems), old(timestamp), ttl, now)
    {
      if model == "" {
        return None;
      }
      var available := FetchOllamaModels(now, probe);
      r := FindOllamaModel(model, available.elems);
    }
  }

  /**
   * The set handed out by a successful fetch is the cached object itself, so
   * a later failed refresh empties the caller's set too; and since an empty
   * set is never fresh, the next call probes again.
   */
  method FailureClearsHandedOutSet(c: OllamaCache, t: int, entries: seq<Option<string>>)
    returns (first: NameSet, second: NameSet)
    requires !Fresh(c.cached.elems, c.timestamp, c.ttl, t)
    modifies c, c.cached
    ensures first == second && first.elems == {}
    ensures !Fresh(c.cached.elems, c.timestamp, c.ttl, t + c.ttl)
  {
    first := c.FetchOllamaModels(t, Listed(entries));
    second := c.FetchOllamaModels(t + c.ttl, Failed);
  }

  /**
   * On a stale cache, a model that `/api/tags` lists under its plain name is
   * found under that name.
   */
  method StaleCacheFindsListedModel(c: OllamaCache, now: int) returns (r: Option<string>)
    requires !Fresh(c.cached.elems, c.timestamp, c.ttl, now)
    modifies c, c.cached
    ensures r == Some("llama3")
    ensures c.cached.elems == {"llama3"} && c.timestamp == now
  {
    var entries := [Some("llama3")];
    assert ':' !in "llama3";
    assert Truthy(entries[0]);
    assert forall n :: n in TruthyIds(entries) ==> n == "llama3";
    TagNamesAreExpandedIds(entries);
    r := c.IsOllamaAvailable("llama3", now, Listed([Some("llama3")]));
  }
}
