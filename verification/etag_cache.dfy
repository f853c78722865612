/**
 The etag cache: go_cache's `GO_PIPELINE_CONFIGS_ETAGS_CACHE` region, an
 immutable map from the lower-cased pipeline name to the etag last computed
 for it, and `get_etag_for_pipeline`, the get-or-compute-and-store operation
 on it.
 */
module EtagCache {
  import opened Text
  import opened Pipelines

  /** Lower-cased pipeline name to etag. */
  type Cache = map<string, string>

  /** The cache key of a pipeline name. */
  function Key(pipelineName: string): (k: string)
    ensures IsLowerCase(k)
  {
    Lower(pipelineName)
  }

  /** Every key is a lower-cased name, as only `Key` ever writes one. */
  predicate KeysCanonical(cache: Cache) {
    forall k :: k in cache ==> Lower(k) == k
  }

  /** The two caches agree on every key except `key`. */
  predicate AgreeExcept(cache: Cache, cache': Cache, key: string) {
    && cache.Keys - {key} == cache'.Keys - {key}
    && (forall k :: k != key && k in cache ==> k in cache' && cache'[k] == cache[k])
  }

  /** An etag and the cache after producing it. */
  datatype Lookup = Lookup(etag: string, cache: Cache)

  /**
   `get_etag_for_pipeline(pipeline_name, json)`: the cached etag for the
   lower-cased name when there is one, otherwise the fingerprint of `json`,
   which is then stored under that key.
   */
  function EtagForPipeline(env: Env, cache: Cache, pipelineName: string, json: Json): (r: Lookup)
    ensures Key(pipelineName) in r.cache && r.cache[Key(pipelineName)] == r.etag
    ensures Key(pipelineName) in cache ==> r.cache == cache
    ensures Key(pipelineName) !in cache ==> r.etag == Fingerprint(env, json)
    ensures AgreeExcept(cache, r.cache, Key(pipelineName))
  {
    var key := Key(pipelineName);
    if key in cache then
      Lookup(cache[key], cache)
    else
      var etag := Fingerprint(env, json);
      Lookup(etag, cache[key := etag])
  }

  /** A hit returns the stored entry verbatim and leaves the cache as it was. */
  lemma EtagForPipelineHit(env: Env, cache: Cache, pipelineName: string, json: Json)
    requires Key(pipelineName) in cache
    ensures EtagForPipeline(env, cache, pipelineName, json) == Lookup(cache[Key(pipelineName)], cache)
  {
  }

  /** A miss returns the fingerprint of `json` and adds exactly that entry. */
  lemma EtagForPipelineMiss(env: Env, cache: Cache, pipelineName: string, json: Json)
    requires Key(pipelineName) !in cache
    ensures var r := EtagForPipeline(env, cache, pipelineName, json);
      && r.etag == Fingerprint(env, json)
      && r.cache == cache[Key(pipelineName) := Fingerprint(env, json)]
      && r.cache.Keys == cache.Keys + {Key(pipelineName)}
  {
  }

  /**
   A second call for any case variant of the name, whatever representation it
   is handed, returns the first call's etag and does not modify the cache.
   */
  lemma EtagForPipelineIdempotent(env: Env, cache: Cache, a: string, b: string, json: Json, json': Json)
    requires SameName(a, b)
    ensures var first := EtagForPipeline(env, cache, a, json);
      var second := EtagForPipeline(env, first.cache, b, json');
      second == Lookup(first.etag, first.cache)
  {
  }

  /** The cache keeps only lower-cased keys. */
  lemma EtagForPipelineKeepsKeysCanonical(env: Env, cache: Cache, pipelineName: string, json: Json)
    requires KeysCanonical(cache)
    ensures KeysCanonical(EtagForPipeline(env, cache, pipelineName, json).cache)
  {
    LowerIdempotent(pipelineName);
  }
}
