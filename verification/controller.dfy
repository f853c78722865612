/**
 The three actions of the admin pipelines controller (`show`, `create`,
 `update`) with their `before_action` chains, and the shared
 `handle_config_save_or_update_result`. Calls into
 `pipeline_config_service` and `pipeline_pause_service` are recorded as
 effects; what the configuration service replies is a parameter.
 */
module Controller {
  import opened Base
  import opened Text
  import opened Pipelines
  import opened EtagCache
  import opened Guards

  const UnderConstruction := "Under construction"

  /** A call into a collaborator that changes pipeline state. */
  datatype Effect =
    | CreatePipelineConfig(config: PipelineConfig, group: Option<string>)
    | UpdatePipelineConfig(config: PipelineConfig)
    | Pause(pipelineName: string, cause: string)

  /** What the configuration service did with a create or update call. */
  datatype ServiceReply = ServiceReply(result: OperationResult, store: Store)

  /** The response, the etag cache and store afterwards, and the calls made, in order. */
  datatype Outcome = Outcome(response: Response, cache: Cache, store: Store, effects: seq<Effect>)

  /** The save handler either renders or lets `load_pipeline` raise `RecordNotFound`. */
  datatype SaveReply = Rendered(response: Response, cache: Cache) | RecordNotFound

  /**
   `handle_config_save_or_update_result(result, pipeline_name)`: on success the
   pipeline is reloaded under `pipelineName` and rendered with its etag as
   validator; on failure the request's own configuration is rendered with the
   service's message and no etag.
   */
  function HandleConfigSaveOrUpdateResult(env: Env, cache: Cache, store: Store, result: OperationResult,
                                          pipelineName: string, fromRequest: PipelineConfig): (r: SaveReply)
    ensures result.Successful? ==> (r.RecordNotFound? <==> pipelineName !in store)
    ensures result.Successful? && pipelineName in store ==>
      var reloaded := store[pipelineName];
      var l := EtagForPipeline(env, cache, reloaded.name, env.represent(reloaded));
      r == Rendered(Ok(l.etag, env.represent(reloaded)), l.cache)
    ensures result.Unsuccessful? ==> r == Rendered(Failed(result, env.represent(fromRequest)), cache)
  {
    if result.Successful? then
      match LoadPipeline(store, pipelineName)
      case None => RecordNotFound
      case Some(config) =>
        var json := env.represent(config);
        var l := EtagForPipeline(env, cache, config.name, json);
        Rendered(Ok(l.etag, json), l.cache)
    else
      Rendered(Failed(result, env.represent(fromRequest)), cache)
  }

  /** A successful save answers with the etag the cache now holds for the reloaded pipeline. */
  lemma SavedEtagIsCached(env: Env, cache: Cache, store: Store, result: OperationResult,
                          pipelineName: string, fromRequest: PipelineConfig)
    requires result.Successful? && pipelineName in store
    ensures var r := HandleConfigSaveOrUpdateResult(env, cache, store, result, pipelineName, fromRequest);
      && r.Rendered? && r.response.Ok?
      && Key(store[pipelineName].name) in r.cache
      && r.cache[Key(store[pipelineName].name)] == r.response.etag
      && r.response.body == env.represent(store[pipelineName])
  {
  }

  /**
   `show`: `load_pipeline` runs first; the etag then comes from the cache (or is
   computed and stored), and `isFresh` stands for Rails' conditional-GET test
   `stale?`, which answers "not modified" when it holds of the etag.
   */
  function Show(env: Env, cache: Cache, store: Store, name: string, isFresh: string -> bool): (r: Outcome)
    ensures r.store == store && r.effects == []
    ensures name !in store <==> r.response == NotFound
    ensures name !in store ==> r.cache == cache
    ensures name in store ==>
      var config := store[name];
      var l := EtagForPipeline(env, cache, config.name, env.represent(config));
      && r.cache == l.cache
      && (isFresh(l.etag) ==> r.response == NotModified(l.etag))
      && (!isFresh(l.etag) ==> r.response == Ok(l.etag, env.represent(config)))
  {
    match LoadPipeline(store, name)
    case None => Outcome(NotFound, cache, store, [])
    case Some(config) =>
      var json := env.represent(config);
      var l := EtagForPipeline(env, cache, config.name, json);
      if isFresh(l.etag) then
        Outcome(NotModified(l.etag), l.cache, store, [])
      else
        Outcome(Ok(l.etag, json), l.cache, store, [])
  }

  /** The before_action chain of `create`: the name check, then the group check. */
  function CreateGuards(cache: Cache, store: Store, req: Request): (r: Step)
    ensures r.cache == cache
    ensures r.Continue? <==> req.name !in store && !Blank(req.group)
    ensures req.name in store ==>
      r.response == Unprocessable(Message(CannotCreatePipelineAlreadyExists, [req.name]))
    ensures req.name !in store && Blank(req.group) ==>
      r.response == Unprocessable(Message(PipelineGroupMandatory, []))
  {
    match CheckIfPipelineBySameNameAlreadyExists(cache, store, req)
    case Halt(response, c) => Halt(response, c)
    case Continue(c) => CheckGroupNotBlank(c, req)
  }

  /**
   `create`: when a guard renders, nothing else happens; otherwise the service
   is asked to create the pipeline, the result is handled under the payload's
   name, and only then, and only on success, is that pipeline paused.
   */
  function Create(env: Env, cache: Cache, store: Store, req: Request, reply: ServiceReply): (r: Outcome)
    ensures CreateGuards(cache, store, req).Halt? ==>
      r == Outcome(CreateGuards(cache, store, req).response, cache, store, [])
    ensures CreateGuards(cache, store, req).Continue? ==>
      && r.store == reply.store
      && 1 <= |r.effects| <= 2
      && r.effects[0] == CreatePipelineConfig(req.pipeline, req.group)
      && (|r.effects| == 2 <==> reply.result.Successful? && req.pipeline.name in reply.store)
      && (|r.effects| == 2 ==> r.effects[1] == Pause(req.pipeline.name, UnderConstruction))
    ensures CreateGuards(cache, store, req).Continue? ==>
      match HandleConfigSaveOrUpdateResult(env, cache, reply.store, reply.result, req.pipeline.name, req.pipeline)
      case RecordNotFound => r.response == NotFound && r.cache == cache
      case Rendered(response, c) => r.response == response && r.cache == c
  {
    match CreateGuards(cache, store, req)
    case Halt(response, c) => Outcome(response, c, store, [])
    case Continue(c) =>
      var called := [CreatePipelineConfig(req.pipeline, req.group)];
      match HandleConfigSaveOrUpdateResult(env, c, reply.store, reply.result, req.pipeline.name, req.pipeline)
      case RecordNotFound => Outcome(NotFound, c, reply.store, called)
      case Rendered(response, c') =>
        if reply.result.Successful? then
          Outcome(response, c', reply.store, called + [Pause(req.pipeline.name, UnderConstruction)])
        else
          Outcome(response, c', reply.store, called)
  }

  /** The before_action chain of `update`: the staleness check, then the rename check. */
  function UpdateGuards(env: Env, cache: Cache, store: Store, req: Request): (r: Step)
    ensures CheckForStaleRequest(env, cache, store, req).Halt? ==> r == CheckForStaleRequest(env, cache, store, req)
    ensures r.Continue? <==>
      CheckForStaleRequest(env, cache, store, req).Continue? && SameName(req.pipeline.name, req.name)
    ensures CheckForStaleRequest(env, cache, store, req).Continue? ==>
      r.cache == CheckForStaleRequest(env, cache, store, req).cache
  {
    match CheckForStaleRequest(env, cache, store, req)
    case Halt(response, c) => Halt(response, c)
    case Continue(c) => CheckForAttemptedPipelineRename(c, req)
  }

  /**
   `update`: when a guard renders, the service is not called; otherwise the
   service is asked to update the pipeline and the result is handled under
   the path's name.
   */
  function Update(env: Env, cache: Cache, store: Store, req: Request, reply: ServiceReply): (r: Outcome)
    ensures UpdateGuards(env, cache, store, req).Halt? ==>
      r == Outcome(UpdateGuards(env, cache, store, req).response, UpdateGuards(env, cache, store, req).cache, store, [])
    ensures UpdateGuards(env, cache, store, req).Continue? ==>
      && r.store == reply.store
      && r.effects == [UpdatePipelineConfig(req.pipeline)]
      && var c := UpdateGuards(env, cache, store, req).cache;
         match HandleConfigSaveOrUpdateResult(env, c, reply.store, reply.result, req.name, req.pipeline)
         case RecordNotFound => r.response == NotFound && r.cache == c
         case Rendered(response, c') => r.response == response && r.cache == c'
  {
    match UpdateGuards(env, cache, store, req)
    case Halt(response, c) => Outcome(response, c, store, [])
    case Continue(c) =>
      var called := [UpdatePipelineConfig(req.pipeline)];
      match HandleConfigSaveOrUpdateResult(env, c, reply.store, reply.result, req.name, req.pipeline)
      case RecordNotFound => Outcome(NotFound, c, reply.store, called)
      case Rendered(response, c') => Outcome(response, c', reply.store, called)
  }
}
