/**
 * `_find_ollama_model`, written identically in backend/local_providers.py
 * and backend/ollama_provider.py: resolve a requested name against the set of
 * names an Ollama server reports, by exact name, then `name:latest`, then any
 * member tagged `name:<something>`.
 */
module ModelMatch {
  import opened Wrappers
  import opened Strings
  import opened Listing

  /** `m` is a tagged variant of `requested`: it starts with `requested + ":"`. */
  predicate TaggedVariant(m: string, requested: string)
  {
    StartsWith(m, requested + ":")
  }

  /** Some member of `available` is a tagged variant of `requested`. */
  ghost predicate HasTaggedVariant(requested: string, available: set<string>)
  {
    exists m :: m in available && TaggedVariant(m, requested)
  }

  /**
   * The three-tier precedence, first tier that applies wins. The third tier
   * allows any tagged variant: the source returns whichever one set iteration
   * happens to meet first.
   */
  ghost predicate Resolves(requested: string, available: set<string>, r: Option<string>)
  {
    if requested in available then r == Some(requested)
    else if requested + ":latest" in available then r == Some(requested + ":latest")
    else if HasTaggedVariant(requested, available) then
      r.Some? && r.value in available && TaggedVariant(r.value, requested)
    else r == None
  }

  /** `_find_ollama_model(requested, available)`. */
  method FindOllamaModel(requested: string, available: set<string>) returns (r: Option<string>)
    ensures Resolves(requested, available, r)
  {
    if requested in available {
      return Some(requested);
    }
    if requested + ":latest" in available {
      return Some(requested + ":latest");
    }
    var rest := available;
    while rest != {}
      invariant rest <= available
      invariant forall m :: m in available - rest ==> !TaggedVariant(m, requested)
      decreases rest
    {
      var m :| m in rest;
      if TaggedVariant(m, requested) {
        return Some(m);
      }
      rest := rest - {m};
    }
    return None;
  }

  /** Any name the matcher returns is a member of the available set. */
  lemma ResolvedIsMember(requested: string, available: set<string>, r: Option<string>)
    requires Resolves(requested, available, r)
    ensures r.Some? ==> r.value in available
  {
  }

  /** The matcher finds nothing exactly when no tier applies. */
  lemma ResolvesNoneIff(requested: string, available: set<string>, r: Option<string>)
    requires Resolves(requested, available, r)
    ensures r == None <==>
      requested !in available && requested + ":latest" !in available
      && forall m :: m in available ==> !TaggedVariant(m, requested)
  {
  }

  /**
   * Because expansion puts the base of every `base:tag` into the set, asking
   * for that base always hits the exact tier and returns the base itself,
   * never the tagged name.
   */
  lemma BaseOfExpandedResolvesToItself(models: set<string>, name: string, r: Option<string>)
    requires name in models && ':' in name
    requires Resolves(BaseName(name), ExpandAliases(models), r)
    ensures r == Some(BaseName(name))
  {
  }

  /**
   * Both the untagged and the tagged form of a reported `base:tag` name are
   * matched against the expanded set, each by the exact tier.
   */
  lemma ExpandedMatchesBothForms(models: set<string>, name: string, r1: Option<string>, r2: Option<string>)
    requires name in models && ':' in name
    requires Resolves(name, ExpandAliases(models), r1)
    requires Resolves(BaseName(name), ExpandAliases(models), r2)
    ensures r1 == Some(name) && r2 == Some(BaseName(name))
  {
  }

  /** With `{"llama3.2:latest"}` unexpanded, `"llama3.2"` resolves by the `:latest` tier. */
  lemma LatestTierExample(r: Option<string>)
    requires Resolves("llama3.2", {"llama3.2:latest"}, r)
    ensures r == Some("llama3.2:latest")
  {
    assert "llama3.2" != "llama3.2:latest";
  }

  /** The base of a name is the part before its first colon. */
  lemma BaseNameAt(name: string, k: nat)
    requires k < |name| && name[k] == ':' && ':' !in name[..k]
    ensures BaseName(name) == name[..k]
  {
    SplitHeadAt(name, ':', k);
  }

  /**
   * After expansion a request for `base` returns `base` itself when the
   * server reports only `base:tag` (for instance `llama3.2` against
   * `llama3.2:latest`).
   */
  lemma ExpandedBaseResolvesToItself(base: string, tag: string, r: Option<string>)
    requires ':' !in base
    requires Resolves(base, ExpandAliases({base + ":" + tag}), r)
    ensures r == Some(base)
  {
    var n := base + ":" + tag;
    assert n[..|base|] == base;
    BaseNameAt(n, |base|);
    BaseOfExpandedResolvesToItself({n}, n, r);
  }
}
