/**
 Properties of the etag protocol that relate several requests: guard order,
 the pause that follows a create, what a client's token from one request
 means for the next, and the fact that nothing in the controller ever
 invalidates a cached etag.
 */
module Protocol {
  import opened Base
  import opened Text
  import opened Pipelines
  import opened EtagCache
  import opened Guards
  import opened Controller

  /**
   The staleness check decides first: a stale request is answered as stale
   even when it also attempts a rename, and the service is never called.
   */
  lemma UpdateStaleCheckComesFirst(env: Env, cache: Cache, store: Store, req: Request, reply: ServiceReply)
    requires req.name in store || Key(req.name) in cache
    requires CheckForStaleRequest(env, cache, store, req).Halt?
    ensures var r := Update(env, cache, store, req, reply);
      && r.response == Stale(Message(StalePipelineConfig, [req.name]))
      && r.effects == []
      && r.store == store
  {
  }

  /** A fresh request that renames the pipeline is refused as not acceptable, without a service call. */
  lemma UpdateRenameRefused(env: Env, cache: Cache, store: Store, req: Request, reply: ServiceReply)
    requires CheckForStaleRequest(env, cache, store, req).Continue?
    requires !SameName(req.pipeline.name, req.name)
    ensures var r := Update(env, cache, store, req, reply);
      && r.response == NotAcceptable(Message(PipelineRenamingNotAllowed, []))
      && r.effects == []
      && r.store == store
  {
  }

  /** The service is called on update exactly when both guards let the request through. */
  lemma UpdateCallsServiceOnlyPastGuards(env: Env, cache: Cache, store: Store, req: Request, reply: ServiceReply)
    ensures var r := Update(env, cache, store, req, reply);
      (UpdatePipelineConfig(req.pipeline) in r.effects) <==>
        && CheckForStaleRequest(env, cache, store, req).Continue?
        && SameName(req.pipeline.name, req.name)
  {
  }

  /** An existing name is refused before the group is looked at, and nothing is created. */
  lemma CreateExistingNameRefusedFirst(env: Env, cache: Cache, store: Store, req: Request, reply: ServiceReply)
    requires req.name in store
    ensures var r := Create(env, cache, store, req, reply);
      && r.response == Unprocessable(Message(CannotCreatePipelineAlreadyExists, [req.name]))
      && r.effects == [] && r.store == store && r.cache == cache
  {
  }

  /**
   The existence check looks only at `params[:name]`: a payload naming a
   pipeline that already exists passes the create guards whenever
   `params[:name]` names one that does not.
   */
  lemma CreateGuardsIgnorePayloadName(cache: Cache, store: Store, req: Request)
    requires req.pipeline.name in store && req.name !in store && !Blank(req.group)
    ensures CreateGuards(cache, store, req).Continue?
  {
  }

  /** A new name with a blank group is refused, and nothing is created. */
  lemma CreateBlankGroupRefused(env: Env, cache: Cache, store: Store, req: Request, reply: ServiceReply)
    requires req.name !in store && Blank(req.group)
    ensures var r := Create(env, cache, store, req, reply);
      && r.response == Unprocessable(Message(PipelineGroupMandatory, []))
      && r.effects == [] && r.store == store && r.cache == cache
  {
  }

  /**
   A pause happens only after the service was asked to create the pipeline,
   only when it reported success, and always under the payload's name.
   */
  lemma CreatePausesOnlyAfterSuccessfulCreate(env: Env, cache: Cache, store: Store, req: Request,
                                              reply: ServiceReply, i: nat)
    requires var r := Create(env, cache, store, req, reply); i < |r.effects| && r.effects[i].Pause?
    ensures var r := Create(env, cache, store, req, reply);
      && reply.result.Successful?
      && r.effects[i] == Pause(req.pipeline.name, UnderConstruction)
      && 0 < i && r.effects[i - 1] == CreatePipelineConfig(req.pipeline, req.group)
  {
  }

  /**
   A failed create or update answers with the request's own configuration and
   the service's message, carries no etag, and pauses nothing.
   */
  lemma FailureRendersPayloadWithoutEtag(env: Env, cache: Cache, store: Store, req: Request, reply: ServiceReply)
    requires reply.result.Unsuccessful?
    ensures var r := Create(env, cache, store, req, reply);
      CreateGuards(cache, store, req).Continue? ==>
        r.response == Failed(reply.result, env.represent(req.pipeline)) && r.cache == cache
        && r.effects == [CreatePipelineConfig(req.pipeline, req.group)]
    ensures var r := Update(env, cache, store, req, reply);
      UpdateGuards(env, cache, store, req).Continue? ==>
        r.response == Failed(reply.result, env.represent(req.pipeline))
        && r.cache == UpdateGuards(env, cache, store, req).cache
  {
  }

  /**
   A client that read a pipeline and sends back the quoted MD5 of the etag it
   was given passes the staleness check of its next update, as long as no
   other etag was stored for that name in between.
   */
  lemma ShownEtagPassesStaleCheck(env: Env, cache: Cache, store: Store, isFresh: string -> bool, req: Request)
    requires req.name in store && SameName(store[req.name].name, req.name)
    requires var shown := Show(env, cache, store, req.name, isFresh);
      shown.response.Ok? && req.ifMatch == Some(ExpectedToken(env, shown.response.etag))
    ensures var shown := Show(env, cache, store, req.name, isFresh);
      CheckForStaleRequest(env, shown.cache, store, req) == Continue(shown.cache)
  {
    var config := store[req.name];
    var l := EtagForPipeline(env, cache, config.name, env.represent(config));
    assert Key(config.name) == Key(req.name);
    StaleCheckOnCachedEtag(env, l.cache, store, req);
  }

  /**
   Repeated reads: once an etag is cached, later reads of any case variant of
   the name report that same etag, whatever the stored configuration has
   become meanwhile; a client presenting it is told "not modified".
   */
  lemma RepeatedShowKeepsEtag(env: Env, cache: Cache, store: Store, store': Store, name: string,
                              isFresh: string -> bool)
    requires name in store && name in store'
    requires SameName(store[name].name, store'[name].name)
    ensures var first := Show(env, cache, store, name, isFresh);
      var second := Show(env, first.cache, store', name, isFresh);
      var etag := EtagForPipeline(env, cache, store[name].name, env.represent(store[name])).etag;
      && second.cache == first.cache
      && (isFresh(etag) ==> second.response == NotModified(etag))
      && (!isFresh(etag) ==> second.response == Ok(etag, env.represent(store'[name])))
  {
    var l := EtagForPipeline(env, cache, store[name].name, env.represent(store[name]));
    EtagForPipelineIdempotent(env, cache, store[name].name, store'[name].name,
                              env.represent(store[name]), env.represent(store'[name]));
  }

  /**
   Nothing in the controller invalidates the cache: an accepted, successful
   update of a pipeline whose etag was cached answers with that same cached
   etag, leaves the cache as it was, and a retry with the same If-Match
   header passes the staleness check again.
   */
  lemma UpdateKeepsCachedEtag(env: Env, cache: Cache, store: Store, req: Request, reply: ServiceReply)
    requires Key(req.name) in cache
    requires req.ifMatch == Some(ExpectedToken(env, cache[Key(req.name)]))
    requires SameName(req.pipeline.name, req.name)
    requires reply.result.Successful? && req.name in reply.store
    requires SameName(reply.store[req.name].name, req.name)
    ensures var r := Update(env, cache, store, req, reply);
      && r.response.Ok? && r.response.etag == cache[Key(req.name)]
      && r.cache == cache
      && CheckForStaleRequest(env, r.cache, r.store, req).Continue?
  {
    StaleCheckOnCachedEtag(env, cache, store, req);
    var reloaded := reply.store[req.name];
    assert Key(reloaded.name) == Key(req.name);
    StaleCheckOnCachedEtag(env, cache, reply.store, req);
  }

  /** `show` keeps the cache's keys lower-cased. */
  lemma ShowKeepsKeysCanonical(env: Env, cache: Cache, store: Store, name: string, isFresh: string -> bool)
    requires KeysCanonical(cache)
    ensures KeysCanonical(Show(env, cache, store, name, isFresh).cache)
  {
    if name in store {
      var config := store[name];
      EtagForPipelineKeepsKeysCanonical(env, cache, config.name, env.represent(config));
    }
  }

  /** `create` keeps the cache's keys lower-cased. */
  lemma CreateKeepsKeysCanonical(env: Env, cache: Cache, store: Store, req: Request, reply: ServiceReply)
    requires KeysCanonical(cache)
    ensures KeysCanonical(Create(env, cache, store, req, reply).cache)
  {
    if reply.result.Successful? && req.pipeline.name in reply.store {
      var reloaded := reply.store[req.pipeline.name];
      EtagForPipelineKeepsKeysCanonical(env, cache, reloaded.name, env.represent(reloaded));
    }
  }

  /** `update` keeps the cache's keys lower-cased. */
  lemma UpdateKeepsKeysCanonical(env: Env, cache: Cache, store: Store, req: Request, reply: ServiceReply)
    requires KeysCanonical(cache)
    ensures KeysCanonical(Update(env, cache, store, req, reply).cache)
  {
    if req.name in store {
      EtagForPipelineKeepsKeysCanonical(env, cache, req.name, env.represent(store[req.name]));
    }
    var c := CheckForStaleRequest(env, cache, store, req).cache;
    if reply.result.Successful? && req.name in reply.store {
      var reloaded := reply.store[req.name];
      EtagForPipelineKeepsKeysCanonical(env, c, reloaded.name, env.represent(reloaded));
    }
  }
}
