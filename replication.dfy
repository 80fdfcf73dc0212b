/** The request bodies for CouchDB's own `_replicate`: a local database name
    on one side and a remote peer on the other. */
module Replication {
  import opened Wrappers
  import opened Json
  import opened Primitives
  import opened Auth

  /** The keyword options a replication body may carry. */
  const ReplicationKw: set<string> :=
    {"cancel", "continuous", "create_target", "doc_ids", "filter", "proxy", "query_params"}

  /** The named parameters of `replication_body`. */
  const BodyParams: set<string> := {"source", "target"}

  /** The named parameters of `push_replication` and `pull_replication`. */
  const PeerParams: set<string> := {"local_db", "remote_db", "remote_env"}

  /** `replication_body`: source and target, with the options added. An
      option named `source` or `target` is refused by the call itself. */
  function Body(source: Value, target: Value, kw: Fields): (r: Result<Fields, PyError>)
    ensures r.Ok? <==> kw.Keys <= ReplicationKw
    ensures Clashes(BodyParams, kw) ==> r == Err(TypeError)
    ensures r == Err(AssertionError) <==> !Clashes(BodyParams, kw) && !(kw.Keys <= ReplicationKw)
    ensures r.Ok? ==> r.value.Keys == {"source", "target"} + kw.Keys
    ensures r.Ok? ==> r.value["source"] == source && r.value["target"] == target
    ensures r.Ok? ==> forall k | k in kw :: r.value[k] == kw[k]
  {
    if Clashes(BodyParams, kw) then Err(TypeError)
    else if !(kw.Keys <= ReplicationKw) then Err(AssertionError)
    else Ok(map["source" := source, "target" := target] + kw)
  }

  /** `replication_peer`: the remote database's URL, and its credentials when
      the env holds any. Unlike `get_auth_headers`, an entry counts only when
      its value is truthy; OAuth wins over basic auth. */
  function Peer(lib: Lib, name: string, env: Fields): (r: Result<Fields, PyError>)
    ensures "url" !in env ==> r == Err(KeyError("url"))
    ensures "url" in env && !env["url"].Str? ==> r == Err(TypeError)
    ensures r.Ok? ==> "url" in env && env["url"].Str? && "url" in r.value && r.value["url"] == Str(env["url"].s + name)
    ensures "url" in env && env["url"].Str? && Truthy(Get(env, "oauth")) ==>
      r == Ok(map["url" := Str(env["url"].s + name), "auth" := Obj(map["oauth" := env["oauth"]])])
    ensures "url" in env && env["url"].Str? && !Truthy(Get(env, "oauth")) && Truthy(Get(env, "basic")) ==>
      && (r.Ok? <==> BasicAuthHeader(lib, env["basic"]).Ok?)
      && (r.Ok? ==> r.value == map["url" := r.value["url"],
                                   "headers" := Obj(map["authorization" := Str(BasicAuthHeader(lib, env["basic"]).value)])])
    ensures "url" in env && env["url"].Str? && !Truthy(Get(env, "oauth")) && !Truthy(Get(env, "basic")) ==>
      r == Ok(map["url" := Str(env["url"].s + name)])
  {
    if "url" !in env then Err(KeyError("url"))
    else if !env["url"].Str? then Err(TypeError)
    else
      var peer := map["url" := Str(env["url"].s + name)];
      if Truthy(Get(env, "oauth")) then Ok(peer["auth" := Obj(map["oauth" := env["oauth"]])])
      else if Truthy(Get(env, "basic")) then
        match BasicAuthHeader(lib, env["basic"])
        case Err(e) => Err(e)
        case Ok(h) => Ok(peer["headers" := Obj(map["authorization" := Str(h)])])
      else Ok(peer)
  }

  /** `push_replication`: from the local database to the remote peer. An
      option named like one of its parameters is refused by the call. */
  function Push(lib: Lib, localDb: string, remoteDb: string, remoteEnv: Fields, kw: Fields): (r: Result<Fields, PyError>)
    ensures r.Ok? <==> Peer(lib, remoteDb, remoteEnv).Ok? && kw.Keys <= ReplicationKw
    ensures Clashes(PeerParams, kw) ==> r == Err(TypeError)
    ensures !Clashes(PeerParams, kw) && Peer(lib, remoteDb, remoteEnv).Err? ==> r == Err(Peer(lib, remoteDb, remoteEnv).error)
    ensures r.Ok? ==> "source" in r.value && "target" in r.value
    ensures r.Ok? ==> r.value["source"] == Str(localDb) && r.value["target"] == Obj(Peer(lib, remoteDb, remoteEnv).value)
  {
    if Clashes(PeerParams, kw) then Err(TypeError) else
    var target :- Peer(lib, remoteDb, remoteEnv);
    Body(Str(localDb), Obj(target), kw)
  }

  /** `pull_replication`: from the remote peer to the local database. An
      option named like one of its parameters is refused by the call. */
  function Pull(lib: Lib, localDb: string, remoteDb: string, remoteEnv: Fields, kw: Fields): (r: Result<Fields, PyError>)
    ensures r.Ok? <==> Peer(lib, remoteDb, remoteEnv).Ok? && kw.Keys <= ReplicationKw
    ensures Clashes(PeerParams, kw) ==> r == Err(TypeError)
    ensures !Clashes(PeerParams, kw) && Peer(lib, remoteDb, remoteEnv).Err? ==> r == Err(Peer(lib, remoteDb, remoteEnv).error)
    ensures r.Ok? ==> "source" in r.value && "target" in r.value
    ensures r.Ok? ==> r.value["target"] == Str(localDb) && r.value["source"] == Obj(Peer(lib, remoteDb, remoteEnv).value)
  {
    if Clashes(PeerParams, kw) then Err(TypeError) else
    var source :- Peer(lib, remoteDb, remoteEnv);
    Body(Obj(source), Str(localDb), kw)
  }

  /** A pull is the push with source and target exchanged. */
  lemma PullMirrorsPush(lib: Lib, localDb: string, remoteDb: string, remoteEnv: Fields, kw: Fields)
    ensures Push(lib, localDb, remoteDb, remoteEnv, kw).Ok? <==> Pull(lib, localDb, remoteDb, remoteEnv, kw).Ok?
    ensures Push(lib, localDb, remoteDb, remoteEnv, kw).Ok? ==>
      var push := Push(lib, localDb, remoteDb, remoteEnv, kw).value;
      Pull(lib, localDb, remoteDb, remoteEnv, kw).value == push["source" := push["target"]]["target" := push["source"]]
  {
    if Push(lib, localDb, remoteDb, remoteEnv, kw).Ok? {
      var push := Push(lib, localDb, remoteDb, remoteEnv, kw).value;
      var pull := Pull(lib, localDb, remoteDb, remoteEnv, kw).value;
      assert pull.Keys == push.Keys;
    }
  }
}
