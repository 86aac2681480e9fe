/**
 * What the local model runners' listing endpoints return, how model names
 * are read out of a listing, the alias expansion of `base:tag` names, and
 * the freshness rule of the per-provider model-list caches.
 */
module Listing {
  import opened Wrappers
  import opened Strings

  /**
   * The outcome of one request to a listing endpoint. `Failed` stands for a
   * non-200 status, a connection error, a timeout and every other exception
   * raised while issuing the request or reading its payload. `Listed` carries the
   * entries of the listing in order; each entry is the value of its `id` (or
   * `name`) key, `None` when the entry has no such key.
   */
  datatype Probe = Failed | Listed(entries: seq<Option<string>>)

  /** Python truthiness of an entry's identifier: present and non-empty. */
  predicate Truthy(e: Option<string>)
  {
    e.Some? && e.value != ""
  }

  /** `{m.id for m in response.data if m.id}`: the truthy identifiers of a listing. */
  function TruthyIds(entries: seq<Option<string>>): (ids: set<string>)
    ensures forall n :: n in ids ==> n != ""
    ensures forall i :: 0 <= i < |entries| && Truthy(entries[i]) ==> entries[i].value in ids
    ensures forall n :: n in ids ==> Some(n) in entries
  {
    set i | 0 <= i < |entries| && Truthy(entries[i]) :: entries[i].value
  }

  /** `name.split(":")[0]`: the part of a model name before its first colon. */
  function BaseName(name: string): (b: string)
    ensures ':' !in b
    ensures StartsWith(name, b)
    ensures ':' in name ==> StartsWith(name, b + ":")
    ensures ':' !in name ==> b == name
  {
    SplitHead(name, ':');
    var b := Split(name, ':')[0];
    assert ':' in name ==> name[..|b| + 1] == name[..|b|] + [name[|b|]];
    b
  }

  /** A set of names with the base of every colon-qualified member added. */
  function ExpandAliases(models: set<string>): (r: set<string>)
    ensures models <= r
    ensures forall n :: n in models && ':' in n ==> BaseName(n) in r
    ensures forall m :: m in r && m !in models ==> ':' !in m
  {
    models + set n | n in models && ':' in n :: BaseName(n)
  }

  /** Expanding an already expanded set changes nothing. */
  lemma ExpandAliasesIdempotent(models: set<string>)
    ensures ExpandAliases(ExpandAliases(models)) == ExpandAliases(models)
  {
    var e := ExpandAliases(models);
    forall n | n in e && ':' in n ensures BaseName(n) in e {
      assert n in models;
    }
  }

  /** An expanded set is exactly the sets whose every colon-qualified member has its base in it. */
  lemma ExpandedIsFixedPoint(models: set<string>)
    ensures (ExpandAliases(models) == models) <==>
            (forall n :: n in models && ':' in n ==> BaseName(n) in models)
  {
  }

  /**
   * The names an `/api/tags` listing yields: every non-empty `name`, and the
   * part of it before the first colon when it has one.
   */
  function TagNames(entries: seq<Option<string>>): set<string>
  {
    (set i | 0 <= i < |entries| && Truthy(entries[i]) :: entries[i].value)
    + (set i | 0 <= i < |entries| && Truthy(entries[i]) && ':' in entries[i].value
         :: BaseName(entries[i].value))
  }

  /** The `/api/tags` reading equals alias expansion of the truthy names. */
  lemma TagNamesAreExpandedIds(entries: seq<Option<string>>)
    ensures TagNames(entries) == ExpandAliases(TruthyIds(entries))
  {
    var ids := TruthyIds(entries);
    forall n | n in ExpandAliases(ids) ensures n in TagNames(entries) {
      if n !in ids {
        var m :| m in ids && ':' in m && BaseName(m) == n;
        var i :| 0 <= i < |entries| && Truthy(entries[i]) && entries[i].value == m;
      }
    }
  }

  /** All entries carry an identifier. */
  predicate AllHaveIds(entries: seq<Option<string>>)
  {
    forall i :: 0 <= i < |entries| ==> entries[i].Some?
  }

  /**
   * `{m["id"] for m in data.get("data", [])}`: every identifier, the empty one
   * included, or `None` when some entry has no `id` key (a `KeyError`).
   */
  function AllIds(entries: seq<Option<string>>): (r: Option<set<string>>)
    ensures r.Some? <==> AllHaveIds(entries)
    ensures r.Some? ==> forall n :: n in r.value <==> Some(n) in entries
  {
    if AllHaveIds(entries) then Some(set i | 0 <= i < |entries| :: entries[i].value) else None
  }

  /** A mutable set of model names, shared by reference like a Python `set`: the cached
   * model list of backend/ollama_provider.py and backend/lm_studio.py. */
  class NameSet {
    var elems: set<string>

    constructor (elems: set<string>)
      ensures this.elems == elems
    {
      this.elems := elems;
    }
  }

  /**
   * The freshness rule shared by every model-list cache in the backend: the
   * stored set is reused only when it is non-empty and younger than the TTL.
   */
  predicate Fresh(models: set<string>, ts: int, ttl: int, now: int)
  {
    models != {} && now - ts < ttl
  }

  /** An empty cached set is never fresh, whatever its timestamp. */
  lemma EmptyNeverFresh(ts: int, ttl: int, now: int)
    ensures !Fresh({}, ts, ttl, now)
  {
  }

  /** A non-empty set stored at `ts` stays fresh for exactly `ttl` clock units. */
  lemma FreshWindow(models: set<string>, ts: int, ttl: int, now: int)
    requires models != {}
    ensures Fresh(models, ts, ttl, now) <==> now < ts + ttl
  {
  }
}
