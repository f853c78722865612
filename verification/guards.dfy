/**
 The controller's `before_action` guards, each a pure function from the
 request and the etag cache to either "continue" (with the cache as the guard
 left it) or "halt" with the response it rendered, together with
 `load_pipeline` and `get_etag_for_pipeline_from_cache`.
 */
module Guards {
  import opened Base
  import opened Text
  import opened Pipelines
  import opened EtagCache

  const StalePipelineConfig := "STALE_PIPELINE_CONFIG"
  const PipelineRenamingNotAllowed := "PIPELINE_RENAMING_NOT_ALLOWED"
  const CannotCreatePipelineAlreadyExists := "CANNOT_CREATE_PIPELINE_ALREADY_EXISTS"
  const PipelineGroupMandatory := "PIPELINE_GROUP_MANDATORY_FOR_PIPELINE_CREATE"

  /** A `LocalizedMessage`: a message key and its arguments. */
  datatype Message = Message(key: string, args: seq<string>)

  /** What `pipeline_config_service` reports through `HttpLocalizedOperationResult`. */
  datatype OperationResult = Successful | Unsuccessful(message: Message)

  /** The rendered response of one request. */
  datatype Response =
    | Ok(etag: string, body: Json)              // 200, with the etag as validator
    | NotModified(etag: string)                 // `stale?` found the client fresh
    | NotFound                                  // `RecordNotFound` raised by `load_pipeline`
    | Unprocessable(message: Message)           // `unprocessableEntity`
    | NotAcceptable(message: Message)           // `notAcceptable`
    | Stale(message: Message)                   // `stale`
    | Failed(result: OperationResult, data: Json) // the service's failure, with the payload

  /** The parts of a request the controller reads. */
  datatype Request = Request(
    name: string,                // params[:name], the pipeline named in the path
    pipeline: PipelineConfig,    // params[:pipeline], as the representer builds it
    group: Option<string>,       // params[:group]
    ifMatch: Option<string>)     // the If-Match header

  /** The result of one guard: go on, or stop with a rendered response. */
  datatype Step = Continue(cache: Cache) | Halt(response: Response, cache: Cache)

  /**
   `getPipelineConfig(name)` and `load_pipeline(name)` built on it: the
   configuration, or `nil` (raised as `RecordNotFound` by `load_pipeline`) as `None`.
   */
  function LoadPipeline(store: Store, name: string): (r: Option<PipelineConfig>)
    ensures r.None? <==> name !in store
    ensures r.Some? ==> r.value == store[name]
  {
    if name in store then Some(store[name]) else None
  }

  /**
   `get_etag_for_pipeline_from_cache(name)`: the cached etag when there is one;
   otherwise the pipeline is loaded (`None` when it is absent) and its etag is
   computed and stored through `get_etag_for_pipeline`.
   */
  function EtagFromCache(env: Env, cache: Cache, store: Store, name: string): (r: Option<Lookup>)
    ensures Key(name) in cache ==> r == Some(Lookup(cache[Key(name)], cache))
    ensures Key(name) !in cache ==> (r.None? <==> name !in store)
    ensures Key(name) !in cache && name in store ==>
      r == Some(EtagForPipeline(env, cache, name, env.represent(store[name])))
    ensures r.Some? ==> Key(name) in r.value.cache && r.value.cache[Key(name)] == r.value.etag
    ensures r.Some? ==> AgreeExcept(cache, r.value.cache, Key(name))
  {
    var key := Key(name);
    if key in cache then
      Some(Lookup(cache[key], cache))
    else
      match LoadPipeline(store, name)
      case None => None
      case Some(config) => Some(EtagForPipeline(env, cache, name, env.represent(config)))
  }

  /** The If-Match value a client must send: the quoted MD5 of the etag. */
  function ExpectedToken(env: Env, etag: string): (t: string)
    ensures |t| == |env.md5(etag)| + 2
    ensures t[0] == '"' && t[|t| - 1] == '"' && t[1..|t| - 1] == env.md5(etag)
    ensures HexDigests(env) ==> |t| == 34
  {
    Quote(env.md5(etag))
  }

  /**
   `check_for_stale_request`: the request goes on exactly when its If-Match
   header equals the expected token for the etag the cache holds (or, on a
   miss, has just been given); anything else, including no header, is stale.
   */
  function CheckForStaleRequest(env: Env, cache: Cache, store: Store, req: Request): (r: Step)
    ensures EtagFromCache(env, cache, store, req.name).None? <==> r == Halt(NotFound, cache)
    ensures r.Continue? <==>
      (var l := EtagFromCache(env, cache, store, req.name);
       l.Some? && req.ifMatch == Some(ExpectedToken(env, l.value.etag)))
    ensures r.Halt? && !r.response.NotFound? ==>
      r.response == Stale(Message(StalePipelineConfig, [req.name]))
    ensures EtagFromCache(env, cache, store, req.name).Some? ==>
      r.cache == EtagFromCache(env, cache, store, req.name).value.cache
  {
    match EtagFromCache(env, cache, store, req.name)
    case None => Halt(NotFound, cache)
    case Some(l) =>
      if req.ifMatch != Some(ExpectedToken(env, l.etag)) then
        Halt(Stale(Message(StalePipelineConfig, [req.name])), l.cache)
      else
        Continue(l.cache)
  }

  /** With the etag cached, the check passes iff If-Match is the quoted MD5 of that entry. */
  lemma StaleCheckOnCachedEtag(env: Env, cache: Cache, store: Store, req: Request)
    requires Key(req.name) in cache
    ensures CheckForStaleRequest(env, cache, store, req).Continue? <==>
      req.ifMatch == Some(ExpectedToken(env, cache[Key(req.name)]))
    ensures CheckForStaleRequest(env, cache, store, req).cache == cache
  {
  }

  /**
   No If-Match, the wildcard `*` and a weak tag `W/"..."` are all stale:
   there is no wildcard or weak-comparison handling.
   */
  lemma UnconventionalIfMatchIsStale(env: Env, cache: Cache, store: Store, req: Request)
    requires req.ifMatch == None
          || req.ifMatch == Some("*")
          || (req.ifMatch.Some? && |req.ifMatch.value| > 0 && req.ifMatch.value[0] == 'W')
    ensures CheckForStaleRequest(env, cache, store, req).Halt?
  {
  }

  /**
   With digests shaped like MD5 hex digests, a comma-separated list of entity
   tags is stale: there is no list handling.
   */
  lemma IfMatchListIsStale(env: Env, cache: Cache, store: Store, req: Request)
    requires HexDigests(env)
    requires req.ifMatch.Some? && exists i :: 0 <= i < |req.ifMatch.value| && req.ifMatch.value[i] == ','
    ensures CheckForStaleRequest(env, cache, store, req).Halt?
  {
    var l := EtagFromCache(env, cache, store, req.name);
    if l.Some? {
      QuotedDigestHasNoComma(env.md5(l.value.etag), req.ifMatch.value);
    }
  }

  /**
   `check_for_attempted_pipeline_rename`: halts with not-acceptable exactly
   when the payload's name and the path's name differ ignoring case.
   */
  function CheckForAttemptedPipelineRename(cache: Cache, req: Request): (r: Step)
    ensures r.cache == cache
    ensures r.Continue? <==> SameName(req.pipeline.name, req.name)
    ensures r.Halt? ==> r.response == NotAcceptable(Message(PipelineRenamingNotAllowed, []))
  {
    if Lower(req.pipeline.name) != Lower(req.name) then
      Halt(NotAcceptable(Message(PipelineRenamingNotAllowed, [])), cache)
    else
      Continue(cache)
  }

  /**
   `check_if_pipeline_by_same_name_already_exists`: halts as unprocessable
   exactly when the store already holds a pipeline under the requested name.
   */
  function CheckIfPipelineBySameNameAlreadyExists(cache: Cache, store: Store, req: Request): (r: Step)
    ensures r.cache == cache
    ensures r.Continue? <==> req.name !in store
    ensures r.Halt? ==> r.response == Unprocessable(Message(CannotCreatePipelineAlreadyExists, [req.name]))
  {
    if LoadPipeline(store, req.name).Some? then
      Halt(Unprocessable(Message(CannotCreatePipelineAlreadyExists, [req.name])), cache)
    else
      Continue(cache)
  }

  /** `check_group_not_blank`: halts as unprocessable exactly when the group is blank. */
  function CheckGroupNotBlank(cache: Cache, req: Request): (r: Step)
    ensures r.cache == cache
    ensures r.Continue? <==> !Blank(req.group)
    ensures r.Halt? ==> r.response == Unprocessable(Message(PipelineGroupMandatory, []))
  {
    if Blank(req.group) then
      Halt(Unprocessable(Message(PipelineGroupMandatory, [])), cache)
    else
      Continue(cache)
  }

  /** An absent or whitespace-only group is refused; a group with a visible character is not. */
  lemma GroupBlankCases(cache: Cache, req: Request)
    ensures req.group == None ==> CheckGroupNotBlank(cache, req).Halt?
    ensures req.group == Some("") ==> CheckGroupNotBlank(cache, req).Halt?
    ensures req.group.Some? && (exists i :: 0 <= i < |req.group.value| && !IsSpace(req.group.value[i])) ==>
      CheckGroupNotBlank(cache, req).Continue?
  {
  }
}
