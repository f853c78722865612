/**
 A session: any sequence of `show`, `create` and `update` requests served one
 after another against the same etag cache and configuration store. Since the
 controller only ever adds entries to the cache, an etag once cached for a
 name outlives every later request, and so does a client's If-Match token
 built from it.
 */
module Session {
  import opened Base
  import opened Text
  import opened Pipelines
  import opened EtagCache
  import opened Guards
  import opened Controller
  import Protocol

  /** One request, with the collaborators' answers it will receive. */
  datatype Action =
    | ShowRequest(name: string, isFresh: string -> bool)
    | CreateRequest(req: Request, reply: ServiceReply)
    | UpdateRequest(req: Request, reply: ServiceReply)

  /** The state shared between requests. */
  datatype State = State(cache: Cache, store: Store)

  /** Every entry of `cache` is still in `cache'` with the same etag. */
  predicate Extends(cache: Cache, cache': Cache) {
    forall k :: k in cache ==> k in cache' && cache'[k] == cache[k]
  }

  /** Serves one request. */
  function Perform(env: Env, s: State, a: Action): Outcome {
    match a
    case ShowRequest(name, isFresh) => Show(env, s.cache, s.store, name, isFresh)
    case CreateRequest(req, reply) => Create(env, s.cache, s.store, req, reply)
    case UpdateRequest(req, reply) => Update(env, s.cache, s.store, req, reply)
  }

  /** The state after serving `actions` in order. */
  function Run(env: Env, s: State, actions: seq<Action>): State
    decreases |actions|
  {
    if actions == [] then s
    else
      var o := Perform(env, s, actions[0]);
      Run(env, State(o.cache, o.store), actions[1..])
  }

  /** No single request removes or overwrites a cached etag. */
  lemma PerformExtendsCache(env: Env, s: State, a: Action)
    ensures Extends(s.cache, Perform(env, s, a).cache)
  {
  }

  /** No sequence of requests removes or overwrites a cached etag. */
  lemma {:induction false} RunExtendsCache(env: Env, s: State, actions: seq<Action>)
    ensures Extends(s.cache, Run(env, s, actions).cache)
    decreases |actions|
  {
    if actions != [] {
      var o := Perform(env, s, actions[0]);
      PerformExtendsCache(env, s, actions[0]);
      RunExtendsCache(env, State(o.cache, o.store), actions[1..]);
    }
  }

  /** The cache keeps only lower-cased keys across any sequence of requests. */
  lemma {:induction false} RunKeepsKeysCanonical(env: Env, s: State, actions: seq<Action>)
    requires KeysCanonical(s.cache)
    ensures KeysCanonical(Run(env, s, actions).cache)
    decreases |actions|
  {
    if actions != [] {
      match actions[0] {
        case ShowRequest(name, isFresh) => Protocol.ShowKeepsKeysCanonical(env, s.cache, s.store, name, isFresh);
        case CreateRequest(req, reply) => Protocol.CreateKeepsKeysCanonical(env, s.cache, s.store, req, reply);
        case UpdateRequest(req, reply) => Protocol.UpdateKeepsKeysCanonical(env, s.cache, s.store, req, reply);
      }
      var o := Perform(env, s, actions[0]);
      RunKeepsKeysCanonical(env, State(o.cache, o.store), actions[1..]);
    }
  }

  /**
   An If-Match token built from the etag cached for a name stays valid for
   that name's updates after any sequence of requests, successful updates
   included: the controller never makes it stale.
   */
  lemma TokenStaysValid(env: Env, s: State, actions: seq<Action>, req: Request)
    requires Key(req.name) in s.cache
    requires req.ifMatch == Some(ExpectedToken(env, s.cache[Key(req.name)]))
    ensures var t := Run(env, s, actions);
      CheckForStaleRequest(env, t.cache, t.store, req) == Continue(t.cache)
  {
    RunExtendsCache(env, s, actions);
    var t := Run(env, s, actions);
    StaleCheckOnCachedEtag(env, t.cache, t.store, req);
  }
}
