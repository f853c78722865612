/**
 The collaborators the controller talks to, reduced to what the etag protocol
 needs: a pipeline configuration with a name, the configuration store behind
 `pipeline_config_service.getPipelineConfig`, and the three pure functions the
 fingerprint is built from (the representer's `to_hash`, `JSON.generate` and
 `Digest::MD5.hexdigest`), which stay uninterpreted.
 */
module Pipelines {
  import opened Text

  /** The representer's hash form of a configuration, flattened to string fields. */
  type Json = map<string, string>

  /** A pipeline configuration: its name and everything else, kept opaque. */
  datatype PipelineConfig = PipelineConfig(name: string, settings: Json)

  /** The configuration store, by the name `getPipelineConfig` is asked for. */
  type Store = map<string, PipelineConfig>

  /** The pure functions the fingerprint is computed with. */
  datatype Env = Env(
    represent: PipelineConfig -> Json,   // PipelineConfigRepresenter#to_hash
    generate: Json -> string,            // JSON.generate
    md5: string -> string)               // Digest::MD5.hexdigest

  /** Every digest has the shape of an MD5 hex digest. */
  ghost predicate HexDigests(env: Env) {
    forall s :: IsHexDigest(env.md5(s))
  }

  /** The fingerprint of a representation: the MD5 of its JSON text. */
  function Fingerprint(env: Env, json: Json): (f: string)
    ensures HexDigests(env) ==> IsHexDigest(f)
  {
    env.md5(env.generate(json))
  }
}
