/**
 * backend/lm_studio.py: the standalone LM Studio model-list cache that reads
 * the OpenAI-compatible `/models` listing, and `resolve_client_params`.
 *
 * As in backend/ollama_provider.py, a failed refresh empties the cached set
 * object in place, so the set is a shared `Listing.NameSet`.
 */
module LmStudio {
  import opened Wrappers
  import opened Listing

  /** The placeholder key of LM Studio's OpenAI-compatible server. */
  const LM_STUDIO_KEY: string := "lm-studio"

  /**
   * The set a refresh stores: the ids of a listing whose every entry has an
   * `id` (the empty id included), or nothing when the listing failed or an
   * entry lacks its `id`, which raises a `KeyError` that the generic handler
   * swallows.
   */
  function RefreshedIds(probe: Probe): (r: Option<set<string>>)
    ensures probe.Failed? ==> r == None
    ensures probe.Listed? ==> r == AllIds(probe.entries)
    ensures r.Some? ==> forall n :: n in r.value <==> Some(n) in probe.entries
  {
    match probe
    case Failed => None
    case Listed(entries) => AllIds(entries)
  }

  /** A listing entry without an `id` makes the whole refresh fail. */
  lemma MissingIdFailsRefresh(entries: seq<Option<string>>, i: nat)
    requires i < |entries| && entries[i] == None
    ensures RefreshedIds(Listed(entries)) == None
  {
  }

  /** The module-level cache of backend/lm_studio.py. */
  class LmStudioCache {
    const url: string
    const ttl: int
    var cached: NameSet
    var timestamp: int

    /** The cache starts as an empty set with timestamp 0. */
    constructor (url: string, ttl: int)
      ensures this.url == url && this.ttl == ttl
      ensures fresh(cached) && cached.elems == {} && timestamp == 0
    {
      this.url := url;
      this.ttl := ttl;
      cached := new NameSet({});
      timestamp := 0;
    }

    /**
     * `_fetch_lm_studio_models`. Fresh cache: the cached set object,
     * untouched. Successful refresh: a new set of exactly the listed ids,
     * stamped `now`. Any failure: the cached set emptied in place, stamped
     * `now`, and returned; although the source's comment speaks of caching
     * the empty result, an empty set is never fresh, so the next call probes again.
     */
    method FetchLmStudioModels(now: int, probe: Probe) returns (r: NameSet)
      modifies this, cached
      ensures r == cached
      ensures Fresh(old(cached.elems), old(timestamp), ttl, now) ==>
                cached == old(cached) && cached.elems == old(cached.elems) && timestamp == old(timestamp)
      ensures !Fresh(old(cached.elems), old(timestamp), ttl, now) && RefreshedIds(probe).Some? ==>
                fresh(cached) && cached.elems == RefreshedIds(probe).value && timestamp == now
                && old(cached).elems == old(cached.elems)
      ensures !Fresh(old(cached.elems), old(timestamp), ttl, now) && RefreshedIds(probe).None? ==>
                cached == old(cached) && cached.elems == {} && timestamp == now
    {
      if cached.elems != {} && now - timestamp < ttl {
        return cached;
      }
      var ids := RefreshedIds(probe);
      if ids.Some? {
        cached := new NameSet(ids.value);
        timestamp := now;
        return cached;
      }
      cached.elems := {};
      timestamp := now;
      return cached;
    }

    /**
     * `resolve_client_params`: an empty model name keeps the caller's
     * parameters without fetching; otherwise `(url, "lm-studio")` exactly when
     * LM Studio lists the model, and the caller's parameters unchanged when not.
     */
    method ResolveClientParams(model: string, baseUrl: string, apiKey: string, now: int, probe: Probe)
      returns (resolvedUrl: string, resolvedKey: string)
      modifies this, cached
      ensures model == "" ==>
                resolvedUrl == baseUrl && resolvedKey == apiKey
                && cached == old(cached) && cached.elems == old(cached.elems) && timestamp == old(timestamp)
      ensures model != "" && model in cached.elems ==> resolvedUrl == url && resolvedKey == LM_STUDIO_KEY
      ensures model != "" && model !in cached.elems ==> resolvedUrl == baseUrl && resolvedKey == apiKey
      ensures model != "" && Fresh(old(cached.elems), old(timestamp), ttl, now) ==>
                cached == old(cached) && cached.elems == old(cached.elems) && timestamp == old(timestamp)
      ensures model != "" && !Fresh(old(cached.elems), old(timestamp), ttl, now) && RefreshedIds(probe).Some? ==>
                fresh(cached) && cached.elems == RefreshedIds(probe).value && timestamp == now
                && old(cached).elems == old(cached.elems)
      ensures model != "" && !Fresh(old(cached.elems), old(timestamp), ttl, now) && RefreshedIds(probe).None? ==>
                cached == old(cached) && cached.elems == {} && timestamp == now
    {
      if model == "" {
        return baseUrl, apiKey;
      }
      var available := FetchLmStudioModels(now, probe);
      if model in available.elems {
        return url, LM_STUDIO_KEY;
      }
      return baseUrl, apiKey;
    }
  }

  /**
   * A model already in a fresh cache is routed to LM Studio whatever the
   * network would say, and the cache is left as it was.
   */
  method FreshCacheRoutesListedModel(c: LmStudioCache, model: string, baseUrl: string, apiKey: string,
                                     now: int, probe: Probe)
    returns (resolvedUrl: string, resolvedKey: string)
    requires model != "" && model in c.cached.elems && now - c.timestamp < c.ttl
    modifies c, c.cached
    ensures resolvedUrl == c.url && resolvedKey == LM_STUDIO_KEY
    ensures c.cached == old(c.cached) && c.cached.elems == old(c.cached.elems) && c.timestamp == old(c.timestamp)
  {
    resolvedUrl, resolvedKey := c.ResolveClientParams(model, baseUrl, apiKey, now, probe);
  }

  /** On a stale cache, a model the refreshed listing names is routed to LM Studio. */
  method StaleCacheRoutesListedModel(c: LmStudioCache, model: string, baseUrl: string, apiKey: string, now: int)
    returns (resolvedUrl: string, resolvedKey: string)
    requires model != "" && !Fresh(c.cached.elems, c.timestamp, c.ttl, now)
    modifies c, c.cached
    ensures resolvedUrl == c.url && resolvedKey == LM_STUDIO_KEY
    ensures c.cached.elems == {model} && c.timestamp == now
  {
    assert AllHaveIds([Some(model)]);
    resolvedUrl, resolvedKey := c.ResolveClientParams(model, baseUrl, apiKey, now, Listed([Some(model)]));
  }
}
