# Pipeline configuration etags: a Dafny model

This project models the optimistic-concurrency core of GoCD's admin pipelines
API (`ApiV1::Admin::PipelinesController`, API version 1). The controller keeps
a cache of pipeline fingerprints ("etags"). The cache key is the lower-cased
pipeline name. An etag is the MD5 of the JSON form of the pipeline's configuration.

- `show` answers a conditional GET with the cached etag.
- `update` is accepted only when its `If-Match` header is the quoted MD5 of the
  cached etag, and only when it does not rename the pipeline.
- `create` refuses an existing name or a blank group, calls the
  configuration service, and then pauses the new pipeline on success.
- A successful save reloads the pipeline and answers with its etag.
- A failed save answers with the request's own configuration and no etag.

The model is functional. The cache is an immutable `map<string, string>`. The
configuration store is a map from name to configuration. MD5, `JSON.generate`
and the representer's `to_hash` are function-valued fields of `Pipelines.Env`.
Apart from their types, the only assumption about them is the hex-digest shape,
and only where a contract states it. `to_hash` takes the configuration alone
(see "## Left out"). Each guard is a pure
function that returns either "continue" with the cache it leaves behind, or
"halt" with the response it rendered. Calls into the configuration and pause
services are recorded, in order, as a trace of effects. What the
configuration service replies to a create or update is a parameter.

Modules: `Base` (Option), `Text` (lower-casing, `blank?`, quoting, hex
digests), `Pipelines` (configuration, store, collaborators), `EtagCache`
(`get_etag_for_pipeline`), `Guards` (`before_action` guards, `load_pipeline`,
`get_etag_for_pipeline_from_cache`), `Controller` (`show`, `create`,
`update`, the save handler), `Protocol` (properties relating requests) and
`Session` (any sequence of requests against one cache and store).

Points where the code behaves differently from what an optimistic-concurrency
scheme is usually expected to do, and which the model follows as written:

- A scheme of this kind usually invalidates the cached etag on a successful
  write, so that the next read sees a new etag and a retried write is stale.
  Nothing in this controller invalidates the cache. `Protocol.UpdateKeepsCachedEtag`
  proves the code's behaviour: an update of a pipeline with a cached etag
  answers with that same etag, and retrying with the same `If-Match` passes
  the staleness check again. `Session.TokenStaysValid` extends this to any
  sequence of requests. Any invalidation must happen outside this controller.
- The duplicate-name check on create asks `getPipelineConfig(params[:name])`.
  Whether that lookup ignores case is not part of this model. The model's
  store lookup is exact.
- The existence check looks up the request parameter `params[:name]`. The
  pipeline that is created, reloaded and paused is named by the payload
  (`@pipeline_config_from_request.name`). The model keeps the two apart, and
  `Protocol.CreateGuardsIgnorePayloadName` shows the consequence: a payload
  naming an existing pipeline passes the create guards when `params[:name]`
  names one that does not exist.
- A successful create whose reload finds nothing raises `RecordNotFound`
  out of the save handler. The pause on the following line is then never
  reached. `Controller.Create` models this.

## Model

| member | source | states |
|---|---|---|
| Text.LowerChar | server/webapp/WEB-INF/rails.new/app/controllers/api_v1/admin/pipelines_controller.rb:92 | an upper-case ASCII letter becomes the same letter in lower case; every other character is left as it is |
| Text.Lower | server/webapp/WEB-INF/rails.new/app/controllers/api_v1/admin/pipelines_controller.rb:92 | the cache key keeps the name's length, lower-cases each letter in place, and has no upper-case letter left |
| Text.LowerOfLowerCase | server/webapp/WEB-INF/rails.new/app/controllers/api_v1/admin/pipelines_controller.rb:103 | lower-casing a name that is already lower-case changes nothing |
| Text.LowerIdempotent | server/webapp/WEB-INF/rails.new/app/controllers/api_v1/admin/pipelines_controller.rb:92 | lower-casing twice gives the same key as lower-casing once |
| Text.CaseVariantsAreSameName | server/webapp/WEB-INF/rails.new/app/controllers/api_v1/admin/pipelines_controller.rb:71 | names that differ only in whether each letter is upper or lower case compare equal, the way `CaseInsensitiveString` compares them |
| Text.Quote | server/webapp/WEB-INF/rails.new/app/controllers/api_v1/admin/pipelines_controller.rb:79 | the expected header is the digest with one double quote added on each side |
| Text.BlankIffSpaceRun | server/webapp/WEB-INF/rails.new/app/controllers/api_v1/admin/pipelines_controller.rb:123 | a present group parameter is blank exactly when it matches ActiveSupport's pattern of whitespace from start to end, a run of whitespace characters |
| Text.QuotedDigestHasNoComma | server/webapp/WEB-INF/rails.new/app/controllers/api_v1/admin/pipelines_controller.rb:79 | a quoted hex digest never contains a comma, so no list of entity tags can equal it |
| Pipelines.Fingerprint | server/webapp/WEB-INF/rails.new/app/controllers/api_v1/admin/pipelines_controller.rb:96 | the fingerprint of a representation is a digest of its JSON text, so it has the shape of an MD5 hex digest whenever the digest function does |
| EtagCache.Key | server/webapp/WEB-INF/rails.new/app/controllers/api_v1/admin/pipelines_controller.rb:92 | every cache key is lower-case |
| EtagCache.EtagForPipeline | server/webapp/WEB-INF/rails.new/app/controllers/api_v1/admin/pipelines_controller.rb:91-100 | afterwards the cache maps the name's key to the returned etag; a hit changes nothing; a miss returns the MD5 of the JSON text; no other key is touched |
| EtagCache.EtagForPipelineHit | server/webapp/WEB-INF/rails.new/app/controllers/api_v1/admin/pipelines_controller.rb:93-99 | with an entry present, that entry is returned verbatim and the cache is unchanged |
| EtagCache.EtagForPipelineMiss | server/webapp/WEB-INF/rails.new/app/controllers/api_v1/admin/pipelines_controller.rb:95-98 | with no entry, the fingerprint is returned and the cache gains exactly that one key with that value |
| EtagCache.EtagForPipelineIdempotent | server/webapp/WEB-INF/rails.new/app/controllers/api_v1/admin/pipelines_controller.rb:92-99 | a second call for any case variant of the name, whatever JSON it is given, returns the first call's etag and leaves the cache alone |
| EtagCache.EtagForPipelineKeepsKeysCanonical | server/webapp/WEB-INF/rails.new/app/controllers/api_v1/admin/pipelines_controller.rb:92-97 | a cache whose keys are all lower-case keeps that property |
| Guards.LoadPipeline | server/webapp/WEB-INF/rails.new/app/controllers/api_v1/admin/pipelines_controller.rb:86-89 | `getPipelineConfig` yields the stored configuration exactly when the store holds the name; otherwise `load_pipeline` raises not-found |
| Guards.EtagFromCache | server/webapp/WEB-INF/rails.new/app/controllers/api_v1/admin/pipelines_controller.rb:102-112 | a cached etag is returned as is; on a miss the pipeline is loaded, and its absence is not-found; otherwise the result is `get_etag_for_pipeline` of the loaded configuration, which is stored |
| Guards.CheckForStaleRequest | server/webapp/WEB-INF/rails.new/app/controllers/api_v1/admin/pipelines_controller.rb:78-84 | the request continues iff If-Match equals the quoted MD5 of the cached or freshly computed etag; otherwise the response is stale (or not-found when the pipeline is missing); a miss populates the cache either way |
| Guards.StaleCheckOnCachedEtag | server/webapp/WEB-INF/rails.new/app/controllers/api_v1/admin/pipelines_controller.rb:79 | with the etag cached, the check passes iff If-Match is the quoted MD5 of the cached entry, and the cache is unchanged |
| Guards.ExpectedToken | server/webapp/WEB-INF/rails.new/app/controllers/api_v1/admin/pipelines_controller.rb:79 | the If-Match value an update must carry is the MD5 of the cached etag with one double quote on each side, 34 characters when digests are hex |
| Guards.UnconventionalIfMatchIsStale | server/webapp/WEB-INF/rails.new/app/controllers/api_v1/admin/pipelines_controller.rb:79 | a missing header, the wildcard `*` and a weak tag `W/...` all halt the update |
| Guards.IfMatchListIsStale | server/webapp/WEB-INF/rails.new/app/controllers/api_v1/admin/pipelines_controller.rb:79 | when digests have the MD5 hex shape, a comma-separated list of entity tags halts the update |
| Guards.CheckForAttemptedPipelineRename | server/webapp/WEB-INF/rails.new/app/controllers/api_v1/admin/pipelines_controller.rb:70-76 | the request halts as not-acceptable iff the payload name and the path name differ after lower-casing |
| Guards.CheckIfPipelineBySameNameAlreadyExists | server/webapp/WEB-INF/rails.new/app/controllers/api_v1/admin/pipelines_controller.rb:114-120 | the request halts as unprocessable, naming the pipeline, iff the store already holds the requested name |
| Guards.CheckGroupNotBlank | server/webapp/WEB-INF/rails.new/app/controllers/api_v1/admin/pipelines_controller.rb:122-128 | the request halts as unprocessable iff the group parameter is missing, empty or whitespace only |
| Guards.GroupBlankCases | server/webapp/WEB-INF/rails.new/app/controllers/api_v1/admin/pipelines_controller.rb:123 | a missing or empty group is refused; a group with any non-space character is accepted |
| Controller.HandleConfigSaveOrUpdateResult | server/webapp/WEB-INF/rails.new/app/controllers/api_v1/admin/pipelines_controller.rb:57-67 | on success the pipeline is reloaded (not-found raises) and rendered with `get_etag_for_pipeline` of the reloaded configuration; on failure the request's configuration is rendered with the service's message and no etag |
| Controller.SavedEtagIsCached | server/webapp/WEB-INF/rails.new/app/controllers/api_v1/admin/pipelines_controller.rb:58-62 | a successful save answers with exactly the etag the cache then holds for the reloaded pipeline |
| Controller.Show | server/webapp/WEB-INF/rails.new/app/controllers/api_v1/admin/pipelines_controller.rb:25-30 | a missing pipeline is not-found; otherwise the etag comes through the cache and the answer is not-modified or the full body, as the freshness test decides; nothing else changes |
| Controller.CreateGuards | server/webapp/WEB-INF/rails.new/app/controllers/api_v1/admin/pipelines_controller.rb:22 | create continues iff the name is new and the group is not blank; an existing name is reported before a blank group |
| Controller.Create | server/webapp/WEB-INF/rails.new/app/controllers/api_v1/admin/pipelines_controller.rb:32-40 | a guard's refusal leaves everything unchanged; otherwise the service is called first, and the pause under the payload's name follows iff the create succeeded and the reload found the pipeline |
| Controller.UpdateGuards | server/webapp/WEB-INF/rails.new/app/controllers/api_v1/admin/pipelines_controller.rb:23 | a stale request is answered by the staleness check alone; the request continues iff it is fresh and does not rename the pipeline |
| Controller.Update | server/webapp/WEB-INF/rails.new/app/controllers/api_v1/admin/pipelines_controller.rb:42-47 | a guard's refusal means no service call and an unchanged store; otherwise exactly one update call is made, and the result is handled under the path's name |
| Protocol.UpdateStaleCheckComesFirst | server/webapp/WEB-INF/rails.new/app/controllers/api_v1/admin/pipelines_controller.rb:23 | a stale update of an existing pipeline is answered as stale even if it also renames, with no service call |
| Protocol.UpdateRenameRefused | server/webapp/WEB-INF/rails.new/app/controllers/api_v1/admin/pipelines_controller.rb:70-76 | a fresh update that renames is refused as not-acceptable, with no service call |
| Protocol.UpdateCallsServiceOnlyPastGuards | server/webapp/WEB-INF/rails.new/app/controllers/api_v1/admin/pipelines_controller.rb:42-47 | the update service is called iff the staleness and rename checks both pass |
| Protocol.CreateExistingNameRefusedFirst | server/webapp/WEB-INF/rails.new/app/controllers/api_v1/admin/pipelines_controller.rb:114-120 | an existing name is refused as unprocessable whatever the group, with nothing created or cached |
| Protocol.CreateGuardsIgnorePayloadName | server/webapp/WEB-INF/rails.new/app/controllers/api_v1/admin/pipelines_controller.rb:114-120 | the existence check reads only `params[:name]`: a payload naming an existing pipeline passes the create guards when `params[:name]` is new and the group is not blank |
| Protocol.CreateBlankGroupRefused | server/webapp/WEB-INF/rails.new/app/controllers/api_v1/admin/pipelines_controller.rb:122-128 | a new name with a blank group is refused as unprocessable, with nothing created or cached |
| Protocol.CreatePausesOnlyAfterSuccessfulCreate | server/webapp/WEB-INF/rails.new/app/controllers/api_v1/admin/pipelines_controller.rb:35-39 | any pause follows directly after the create call, happens only on success, and names the payload's pipeline with cause "Under construction" |
| Protocol.FailureRendersPayloadWithoutEtag | server/webapp/WEB-INF/rails.new/app/controllers/api_v1/admin/pipelines_controller.rb:63-66 | a failed create or update renders the request's configuration and the service's result, carries no etag, and pauses nothing |
| Protocol.ShownEtagPassesStaleCheck | server/webapp/WEB-INF/rails.new/app/controllers/api_v1/admin/pipelines_controller.rb:27 | a client that sends back the quoted MD5 of the etag a read gave it passes the next staleness check |
| Protocol.RepeatedShowKeepsEtag | server/webapp/WEB-INF/rails.new/app/controllers/api_v1/admin/pipelines_controller.rb:25-30 | once cached, later reads report the same etag whatever the configuration has become, and a client holding it is told not-modified |
| Protocol.UpdateKeepsCachedEtag | server/webapp/WEB-INF/rails.new/app/controllers/api_v1/admin/pipelines_controller.rb:57-61 | a successful update answers with the previously cached etag and leaves the cache alone, so retrying the same If-Match still passes |
| Protocol.ShowKeepsKeysCanonical | server/webapp/WEB-INF/rails.new/app/controllers/api_v1/admin/pipelines_controller.rb:25-30 | `show` keeps every cache key lower-case |
| Protocol.CreateKeepsKeysCanonical | server/webapp/WEB-INF/rails.new/app/controllers/api_v1/admin/pipelines_controller.rb:32-40 | `create` keeps every cache key lower-case |
| Protocol.UpdateKeepsKeysCanonical | server/webapp/WEB-INF/rails.new/app/controllers/api_v1/admin/pipelines_controller.rb:42-47 | `update`, through both its staleness check and its save handler, keeps every cache key lower-case |
| Session.PerformExtendsCache | server/webapp/WEB-INF/rails.new/app/controllers/api_v1/admin/pipelines_controller.rb:91-100 | no single request removes a cached etag or changes its value |
| Session.RunExtendsCache | server/webapp/WEB-INF/rails.new/app/controllers/api_v1/admin/pipelines_controller.rb:95-98 | over any sequence of requests, every cached etag survives with its value unchanged |
| Session.RunKeepsKeysCanonical | server/webapp/WEB-INF/rails.new/app/controllers/api_v1/admin/pipelines_controller.rb:92 | over any sequence of requests, every cache key stays lower-case |
| Session.TokenStaysValid | server/webapp/WEB-INF/rails.new/app/controllers/api_v1/admin/pipelines_controller.rb:78-84 | an If-Match token built from a cached etag still passes the staleness check after any sequence of requests, successful updates included |

## Left out

- Authorization (`check_admin_user_and_401`) and the base controller's plumbing: their logic is not part of this model.
- Rails' `stale?` and `response.etag`, the conditional GET of section 3.2 of RFC 7232: `Controller.Show` takes the freshness test as a parameter, and responses carry the raw etag, not Rails' own quoted digest of it.
- MD5 (RFC 1321), `JSON.generate` and the representer's `to_hash` and `from_hash`: uninterpreted functions. Only the hex-digest shape is assumed, and only where a contract says so (`Guards.IfMatchListIsStale`, and conditional clauses of `Pipelines.Fingerprint` and `Guards.ExpectedToken`).
- `pipeline_config_service`, `pipeline_pause_service` and `go_config_service`: the create or update reply is a parameter. The pause is recorded as an effect, not as a state change.
- The request's payload name: `params[:pipeline][:name]` is taken to be the name of the configuration built from the payload.
- `go_cache` itself, its thread-safety, and any invalidation done outside this controller: these are concurrency concerns, and their code is not part of this model. Requests are modelled one at a time.
- `HttpLocalizedOperationResult` and `LocalizedMessage`: reduced to a response datatype and a message key with arguments. HTTP status codes are not modelled.
- Text.Lower: covers ASCII letters only. Ruby's `downcase` and Java's `toLowerCase` also fold non-ASCII letters.
- Text.Blank: covers ASCII whitespace only. The non-ASCII members of `[[:space:]]` are not modelled, and neither are non-string `group` parameters.
- Text.BlankIffSpaceRun: its whitespace class is the ASCII part of `[[:space:]]` only, as for `Text.Blank`.
- Text.LowerChar: folds ASCII letters only. Java's `toLowerCase` and Ruby's `downcase` also fold non-ASCII letters, such as the Kelvin sign U+212A to `k`.
- Guards.CheckForAttemptedPipelineRename: compares names after ASCII-only lower-casing. `CaseInsensitiveString` compares with Java's Unicode `toLowerCase`, so a payload name "\u212A" with the path name "k" passes the real check but is refused here.
- Guards.CheckGroupNotBlank: treats ASCII whitespace only as blank. A group made only of non-ASCII `[[:space:]]` characters, such as U+00A0, is blank to `blank?` but passes here.
- Guards.GroupBlankCases: inherits the same gap. Its third clause accepts a group whose only non-space characters are non-ASCII whitespace such as U+00A0, which `blank?` refuses.
- Pipelines.Env: `represent` takes the configuration alone. Every call of `to_hash` also passes the controller as `url_builder: self`, so the real JSON, and the etag a cache miss computes from it, can depend on the request's URLs. That dependence is not modelled.
- Guards.LoadPipeline: exact-key lookup. How the real service matches names is not part of this model.
- Guards.CheckIfPipelineBySameNameAlreadyExists: assumes `params[:name]` is present on create. Nothing in the controller guarantees it there, and what `getPipelineConfig(nil)` does is not part of this model.
