/**
 * backend/local_providers.py: model-list caches for Ollama and LM Studio,
 * both read through the OpenAI-compatible `/v1/models` listing, the Ollama
 * alias expansion, Ollama name resolution and LM Studio routing.
 *
 * The module-level globals become the fields of `LocalProviders`; the host,
 * URL and TTL settings read from the environment at start-up become
 * constructor parameters. The monotonic clock reading `now` and the outcome
 * of the listing request `probe` are parameters of each call.
 */
module LocalProviders {
  import opened Wrappers
  import opened Strings
  import opened Listing
  import opened ModelMatch

  /** The placeholder key sent to (and routed to) LM Studio. */
  const LM_STUDIO_KEY: string := "lm-studio"

  /** The placeholder key sent to Ollama's OpenAI-compatible endpoint. */
  const OLLAMA_KEY: string := "ollama"

  /**
   * `_fetch_models`: reuse the cached set when it is fresh, otherwise take the
   * listing's truthy ids (or the empty set on failure), stamped with `now`.
   * Nothing is raised on failure.
   */
  function FetchModels(cache: set<string>, cacheTs: int, ttl: int, now: int, probe: Probe): (r: (set<string>, int))
    ensures Fresh(cache, cacheTs, ttl, now) ==> r == (cache, cacheTs)
    ensures !Fresh(cache, cacheTs, ttl, now) ==> r.1 == now
    ensures !Fresh(cache, cacheTs, ttl, now) && probe.Failed? ==> r.0 == {}
    ensures !Fresh(cache, cacheTs, ttl, now) && probe.Listed? ==> r.0 == TruthyIds(probe.entries)
  {
    if cache != {} && now - cacheTs < ttl then (cache, cacheTs)
    else match probe
      case Listed(entries) => (TruthyIds(entries), now)
      case Failed => ({}, now)
  }

  /** On the fresh path the result does not depend on the probe at all: no request is made. */
  lemma FreshPathIgnoresProbe(cache: set<string>, cacheTs: int, ttl: int, now: int, p1: Probe, p2: Probe)
    requires Fresh(cache, cacheTs, ttl, now)
    ensures FetchModels(cache, cacheTs, ttl, now, p1) == FetchModels(cache, cacheTs, ttl, now, p2)
  {
  }

  /** An empty cache always leads to a probe, whatever its timestamp: a failure is retried on the next call. */
  lemma EmptyCacheAlwaysProbes(cacheTs: int, ttl: int, now: int, probe: Probe)
    ensures FetchModels({}, cacheTs, ttl, now, probe)
         == (if probe.Listed? then TruthyIds(probe.entries) else {}, now)
  {
  }

  /**
   * Within the TTL after a probe that found models, the next call is served
   * from the cache; from `ts + ttl` on it probes again.
   */
  lemma SecondCallWithinTtl(cache: set<string>, cacheTs: int, ttl: int, now: int, later: int, probe: Probe, next: Probe)
    requires !Fresh(cache, cacheTs, ttl, now) && probe.Listed?
    requires TruthyIds(probe.entries) != {}
    ensures var (m, ts) := FetchModels(cache, cacheTs, ttl, now, probe);
            now <= later < now + ttl ==> FetchModels(m, ts, ttl, later, next) == (m, ts)
  {
  }

  /** With TTL 30 and a fetch at 0, a call at 29 is served from cache and a call at 31 probes. */
  lemma TtlScenario(models: set<string>, probe: Probe)
    requires models != {}
    ensures FetchModels(models, 0, 30, 29, probe) == (models, 0)
    ensures FetchModels(models, 0, 30, 31, probe).1 == 31
  {
  }

  /** The expansion loop of `_fetch_ollama_models`: copy the set and add each colon-qualified name's base. */
  method Expand(models: set<string>) returns (expanded: set<string>)
    ensures expanded == ExpandAliases(models)
  {
    expanded := models;
    var rest := models;
    while rest != {}
      invariant rest <= models
      invariant expanded == models + set n | n in models - rest && ':' in n :: BaseName(n)
      decreases rest
    {
      var name :| name in rest;
      if ':' in name {
        expanded := expanded + {BaseName(name)};
      }
      rest := rest - {name};
    }
  }

  /** The module-level cache state of backend/local_providers.py. */
  class LocalProviders {
    const ollamaHost: string
    const ollamaTtl: int
    const lmStudioUrl: string
    const lmStudioTtl: int

    var ollamaModels: set<string>
    var ollamaTs: int
    var lmStudioModels: set<string>
    var lmStudioTs: int

    /** The Ollama cache always holds an expanded set. */
    ghost predicate Valid()
      reads this
    {
      ExpandAliases(ollamaModels) == ollamaModels
    }

    /** Both caches start empty with timestamp 0. */
    constructor (ollamaHost: string, ollamaTtl: int, lmStudioUrl: string, lmStudioTtl: int)
      ensures Valid()
      ensures this.ollamaHost == ollamaHost && this.ollamaTtl == ollamaTtl
      ensures this.lmStudioUrl == lmStudioUrl && this.lmStudioTtl == lmStudioTtl
      ensures ollamaModels == {} && ollamaTs == 0 && lmStudioModels == {} && lmStudioTs == 0
    {
      this.ollamaHost := ollamaHost;
      this.ollamaTtl := ollamaTtl;
      this.lmStudioUrl := lmStudioUrl;
      this.lmStudioTtl := lmStudioTtl;
      ollamaModels, ollamaTs := {}, 0;
      lmStudioModels, lmStudioTs := {}, 0;
    }

    /**
     * `_fetch_ollama_models`: fetch through `_fetch_models`, expand aliases and
     * store the expanded set and the timestamp. The expansion also runs on the
     * fresh path, where, the stored set being expanded already, it changes nothing.
     */
    method FetchOllamaModels(now: int, probe: Probe) returns (r: set<string>)
      requires Valid()
      modifies this`ollamaModels, this`ollamaTs
      ensures Valid()
      ensures var (models, ts) := FetchModels(old(ollamaModels), old(ollamaTs), ollamaTtl, now, probe);
              ollamaModels == ExpandAliases(models) && ollamaTs == ts
      ensures Fresh(old(ollamaModels), old(ollamaTs), ollamaTtl, now) ==>
                ollamaModels == old(ollamaModels) && ollamaTs == old(ollamaTs)
      ensures r == ollamaModels
    {
      var (models, ts) := FetchModels(ollamaModels, ollamaTs, ollamaTtl, now, probe);
      var expanded := Expand(models);
      ExpandAliasesIdempotent(models);
      ollamaModels := expanded;
      ollamaTs := ts;
      r := ollamaModels;
    }

    /** `is_ollama_available`: an empty name resolves to nothing without fetching. */
    method IsOllamaAvailable(model: string, now: int, probe: Probe) returns (r: Option<string>)
      requires Valid()
      modifies this`ollamaModels, this`ollamaTs
      ensures Valid()
      ensures model == "" ==> r == None && ollamaModels == old(ollamaModels) && ollamaTs == old(ollamaTs)
      ensures model != "" ==>
                (var (models, ts) := FetchModels(old(ollamaModels), old(ollamaTs), ollamaTtl, now, probe);
                 ollamaModels == ExpandAliases(models) && ollamaTs == ts)
                && Resolves(model, ollamaModels, r)
    {
      if model == "" {
        return None;
      }
      var available := FetchOllamaModels(now, probe);
      r := FindOllamaModel(model, available);
    }

    /** `_fetch_lm_studio_models`: fetch through `_fetch_models` and store the result. */
    method FetchLmStudioModels(now: int, probe: Probe) returns (r: set<string>)
      modifies this`lmStudioModels, this`lmStudioTs
      ensures (lmStudioModels, lmStudioTs)
           == FetchModels(old(lmStudioModels), old(lmStudioTs), lmStudioTtl, now, probe)
      ensures r == lmStudioModels
    {
      var (models, ts) := FetchModels(lmStudioModels, lmStudioTs, lmStudioTtl, now, probe);
      lmStudioModels := models;
      lmStudioTs := ts;
      r := lmStudioModels;
    }

    /**
     * `resolve_client_params`: an empty model name keeps the caller's
     * parameters without fetching; otherwise a model LM Studio lists is routed
     * to LM Studio's URL and placeholder key, and any other keeps the caller's.
     */
    method ResolveClientParams(model: string, baseUrl: string, apiKey: string, now: int, probe: Probe)
      returns (url: string, key: string)
      modifies this`lmStudioModels, this`lmStudioTs
      ensures model == "" ==>
                url == baseUrl && key == apiKey
                && lmStudioModels == old(lmStudioModels) && lmStudioTs == old(lmStudioTs)
      ensures model != "" ==>
                (lmStudioModels, lmStudioTs)
                == FetchModels(old(lmStudioModels), old(lmStudioTs), lmStudioTtl, now, probe)
      ensures model != "" && model in lmStudioModels ==> url == lmStudioUrl && key == LM_STUDIO_KEY
      ensures model != "" && model !in lmStudioModels ==> url == baseUrl && key == apiKey
    {
      if model == "" {
        return baseUrl, apiKey;
      }
      var available := FetchLmStudioModels(now, probe);
      if model in available {
        return lmStudioUrl, LM_STUDIO_KEY;
      }
      return baseUrl, apiKey;
    }
  }
}
