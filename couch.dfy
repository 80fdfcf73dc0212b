/** `CouchBase.request` and the `Server` and `Database` handles with the
    database conveniences built on it. A request's answer is a parameter:
    its status and its decoded body. */
module Couch {
  import opened Wrappers
  import opened Json
  import opened Primitives
  import opened Status
  import opened Query
  import opened Context
  import opened Documents
  import Replication

  /** What a database method can raise. */
  datatype DbError =
    | Http(err: HttpError)
    | Py(exc: PyError)
    | BulkConflict(conflicts: seq<Doc>, rows: seq<Fields>)

  /** A request as it goes out. */
  datatype Sent = Sent(verb: string, path: string, headers: map<string, string>)

  /** The path of a request: the base path, the parts joined by '/', and
      the encoded query when there are options. */
  function RequestPath(lib: Lib, basepath: string, parts: seq<string>, options: map<string, Value>): (r: string)
    ensures StartsWith(r, basepath + Join("/", parts))
    ensures options == map[] ==> r == basepath + Join("/", parts)
    ensures options != map[] ==> r == basepath + Join("/", parts) + "?" + lib.urlencode(QueryIter(lib, options))
  {
    QueryIterEmpty(lib, options);
    var path := basepath + Join("/", parts);
    var query := QueryIter(lib, options);
    var r := if query == [] then path else path + "?" + lib.urlencode(query);
    assert r[..|path|] == path;
    r
  }

  /** `CouchBase.request`: the headers are the user agent, then the
      caller's, then the auth headers, each overriding the one before; the
      status decides between the response and an HTTPError. */
  function Request(lib: Lib, ctx: Context, basepath: string, verb: string, parts: seq<string>,
                   options: map<string, Value>, headers: map<string, string>,
                   testing: (string, string), status: int): (r: Result<Sent, DbError>)
    ensures var auth := ctx.AuthHeaders(lib, verb, basepath + Join("/", parts), QueryIter(lib, options), testing);
      && (auth.Err? ==> r == Err(Py(auth.error)))
      && (auth.Ok? && status < 400 ==>
            r == Ok(Sent(verb, RequestPath(lib, basepath, parts, options),
                         map["user-agent" := lib.userAgent] + headers + auth.value)))
      && (auth.Ok? && status >= 400 ==>
            r.Err? && r.error.Http? && Some(r.error.err.kind) == Classify(status) &&
            r.error.err.url == RequestPath(lib, basepath, parts, options))
  {
    var path := basepath + Join("/", parts);
    var query := QueryIter(lib, options);
    match ctx.AuthHeaders(lib, verb, path, query, testing)
    case Err(e) => Err(Py(e))
    case Ok(auth) =>
      var full := RequestPath(lib, basepath, parts, options);
      match Check(verb, full, status)
      case Some(e) => Err(Http(e))
      case None => Ok(Sent(verb, full, map["user-agent" := lib.userAgent] + headers + auth))
  }

  /** The auth headers of a request override any the caller passed. */
  lemma AuthHeadersWin(lib: Lib, ctx: Context, basepath: string, verb: string, parts: seq<string>,
                       options: map<string, Value>, headers: map<string, string>,
                       testing: (string, string), status: int, name: string)
    requires Request(lib, ctx, basepath, verb, parts, options, headers, testing, status).Ok?
    requires var auth := ctx.AuthHeaders(lib, verb, basepath + Join("/", parts), QueryIter(lib, options), testing);
      auth.Ok? && name in auth.value
    ensures var auth := ctx.AuthHeaders(lib, verb, basepath + Join("/", parts), QueryIter(lib, options), testing);
      Request(lib, ctx, basepath, verb, parts, options, headers, testing, status).value.headers[name] == auth.value[name]
  {
  }

  /** The `doc` of each row of `_all_docs`, None where it has none. */
  function RowDocs(rows: seq<Fields>): (r: seq<Value>)
    ensures |r| == |rows| && forall i :: 0 <= i < |rows| ==> r[i] == Get(rows[i], "doc")
  {
    seq(|rows|, i requires 0 <= i < |rows| => Get(rows[i], "doc"))
  }

  /** Each default where the stored doc is None, the stored doc otherwise. */
  function Defaulted(defaults: seq<Fields>, docs: seq<Value>): (r: seq<Value>)
    ensures |r| == Min(|defaults|, |docs|)
    ensures forall i :: 0 <= i < |r| ==> r[i] == (if docs[i].Null? then Obj(defaults[i]) else docs[i])
  {
    seq(Min(|defaults|, |docs|), i requires 0 <= i < Min(|defaults|, |docs|) =>
      if docs[i].Null? then Obj(defaults[i]) else docs[i])
  }

  /** A request the handle would make: verb, parts, options and body. */
  datatype Call = Call(verb: string, parts: seq<string>, options: map<string, Value>, body: Option<Value>)

  /** The server's side of one `update`: the first save's generated id,
      status and response; the GET of the latest revision; the retry's. */
  datatype UpdateReplies = UpdateReplies(
    newId: string, status: int, resp: Fields,
    getStatus: int, latest: Fields,
    retryId: string, retryStatus: int, retryResp: Fields)

  /** Whether `update` succeeds on a doc holding `f`: the first save goes
      through with a `rev`, or it conflicts on a str `_id` and both the GET
      of the latest revision and the second save go through. */
  predicate UpdateSaves(f: Fields, replies: UpdateReplies) {
    && "_id" in f
    && ((replies.status < 400 && "rev" in replies.resp)
        || (replies.status == 409 && f["_id"].Str? && replies.getStatus < 400
            && replies.retryStatus < 400 && "rev" in replies.retryResp))
  }

  class Server {
    const ctx: Context
    const basepath: string := ctx.settings.basepath
    const url: string := ctx.settings.url

    constructor(ctx: Context)
      ensures this.ctx == ctx
    {
      this.ctx := ctx;
    }

    /** `Server.push`: POST a push replication of a local database to
        `_replicate`. As a method it also refuses an option named `self`. */
    function Push(lib: Lib, localDb: string, remoteDb: string, remoteEnv: Fields, kw: Fields): (r: Result<Call, PyError>)
      ensures r.Ok? <==> Replication.Push(lib, localDb, remoteDb, remoteEnv, kw).Ok?
      ensures Clashes({"self"}, kw) ==> r == Err(TypeError)
      ensures r.Err? && !Clashes({"self"}, kw) ==> r.error == Replication.Push(lib, localDb, remoteDb, remoteEnv, kw).error
      ensures r.Ok? ==> r.value.verb == "POST" && r.value.parts == ["_replicate"] && r.value.options == map[]
      ensures r.Ok? ==> r.value.body == Some(Obj(Replication.Push(lib, localDb, remoteDb, remoteEnv, kw).value))
    {
      if Clashes({"self"}, kw) then Err(TypeError) else
      var obj :- Replication.Push(lib, localDb, remoteDb, remoteEnv, kw);
      Ok(Call("POST", ["_replicate"], map[], Some(Obj(obj))))
    }

    /** `Server.pull`: the same with a pull replication. */
    function Pull(lib: Lib, localDb: string, remoteDb: string, remoteEnv: Fields, kw: Fields): (r: Result<Call, PyError>)
      ensures r.Ok? <==> Replication.Pull(lib, localDb, remoteDb, remoteEnv, kw).Ok?
      ensures Clashes({"self"}, kw) ==> r == Err(TypeError)
      ensures r.Err? && !Clashes({"self"}, kw) ==> r.error == Replication.Pull(lib, localDb, remoteDb, remoteEnv, kw).error
      ensures r.Ok? ==> r.value.verb == "POST" && r.value.parts == ["_replicate"] && r.value.options == map[]
      ensures r.Ok? ==> r.value.body == Some(Obj(Replication.Pull(lib, localDb, remoteDb, remoteEnv, kw).value))
    {
      if Clashes({"self"}, kw) then Err(TypeError) else
      var obj :- Replication.Pull(lib, localDb, remoteDb, remoteEnv, kw);
      Ok(Call("POST", ["_replicate"], map[], Some(Obj(obj))))
    }

    /** `Server.database(name, ensure)`: a handle on the same context; with
        `ensure`, the database is also PUT, a 412 meaning it already exists. */
    method Database(name: string, ensure: bool, status: int) returns (r: Result<Database, DbError>)
      ensures r.Ok? ==> fresh(r.value) && r.value.ctx == ctx && r.value.name == name
      ensures r.Ok? ==> r.value.basepath == basepath + name + "/" && r.value.url == url
      ensures !ensure ==> r.Ok?
      ensures ensure ==> (r.Ok? <==> status < 400 || status == 412)
      ensures ensure && r.Err? ==> r.error == Http(Check("PUT", basepath + name + "/", status).value)
    {
      var db := new Database(name, ctx);
      if ensure {
        var e := db.Ensure(status);
        if e.Err? {
          return Err(e.error);
        }
      }
      return Ok(db);
    }
  }

  class Database {
    const ctx: Context
    const name: string
    const basepath: string := ctx.settings.basepath + name + "/"
    const url: string := ctx.settings.url

    constructor(name: string, ctx: Context)
      ensures this.ctx == ctx && this.name == name
    {
      this.ctx := ctx;
      this.name := name;
    }

    /** `Database.server`: a handle on the server, sharing the context. */
    method Server() returns (s: Server)
      ensures fresh(s) && s.ctx == ctx && s.basepath == ctx.settings.basepath && s.url == url
    {
      s := new Server(ctx);
    }

    /** `Database.database`: a sibling database on the same context. */
    method Database(name: string) returns (db: Database)
      ensures fresh(db) && db.ctx == ctx && db.name == name
      ensures db.basepath == ctx.settings.basepath + name + "/"
    {
      db := new Database(name, ctx);
    }

    /** Every database path is the context's base path, the name and '/'. */
    lemma BasepathOf()
      requires WellFormed(ctx.settings)
      ensures StartsWith(basepath, ctx.settings.basepath) && EndsWith(basepath, "/")
      ensures ctx.FullUrl(basepath) == url + name + "/"
    {
      ctx.FullUrlOfBasepath();
      assert basepath[..|ctx.settings.basepath|] == ctx.settings.basepath;
    }

    /** `ensure`: PUT the database; True when created, False when it
        already existed (PreconditionFailed), any other error escapes. */
    function Ensure(status: int): (r: Result<bool, DbError>)
      ensures r == Ok(true) <==> status < 400
      ensures r == Ok(false) <==> status == 412
      ensures r.Err? ==> r.error.Http? && r.error.err.status == status && r.error.err.verb == "PUT" && r.error.err.url == basepath
      ensures r.Err? ==> status >= 400 && status != 412
    {
      ClassifySpecific(PreconditionFailed, status);
      match Check("PUT", basepath, status)
      case None => Ok(true)
      case Some(e) => if e.kind == PreconditionFailed then Ok(false) else Err(Http(e))
    }

    /** `view`: `reduce` defaults to False; with `keys` the keys go in a
        POST body, otherwise it is a GET. An option named `self`, `design`
        or `view` is refused by the call itself. */
    function View(design: string, view: string, options: map<string, Value>): (r: Result<Call, PyError>)
      ensures r.Err? <==> Clashes({"self", "design", "view"}, options)
      ensures r.Err? ==> r.error == TypeError
      ensures r.Ok? ==> r.value.parts == ["_design", design, "_view", view]
      ensures r.Ok? ==> "reduce" in r.value.options && r.value.options["reduce"] == (if "reduce" in options then options["reduce"] else Bool(false))
      ensures r.Ok? ==> "keys" !in r.value.options
      ensures r.Ok? ==> forall k | k in options && k != "keys" && k != "reduce" :: k in r.value.options && r.value.options[k] == options[k]
      ensures r.Ok? ==> r.value.options.Keys == options.Keys - {"keys"} + {"reduce"}
      ensures r.Ok? && "keys" in options ==> r.value.verb == "POST" && r.value.body == Some(Obj(map["keys" := options["keys"]]))
      ensures r.Ok? && "keys" !in options ==> r.value.verb == "GET" && r.value.body == None
    {
      if Clashes({"self", "design", "view"}, options) then Err(TypeError) else
      var opts := if "reduce" in options then options else options["reduce" := Bool(false)];
      var parts := ["_design", design, "_view", view];
      if "keys" in opts then Ok(Call("POST", parts, opts - {"keys"}, Some(Obj(map["keys" := opts["keys"]]))))
      else Ok(Call("GET", parts, opts, None))
    }

    /** `get_many`: POST the ids to `_all_docs` with `include_docs`, then
        each row's `doc`, None for an id that has none. */
    function GetMany(lib: Lib, status: int, rows: seq<Fields>): (r: Result<seq<Value>, DbError>)
      ensures status >= 400 <==> r.Err?
      ensures r.Err? ==> r.error.Http? && r.error.err.status == status
      ensures r.Err? ==> r.error.err.url == RequestPath(lib, basepath, ["_all_docs"], map["include_docs" := Bool(true)])
      ensures r.Ok? ==> r.value == RowDocs(rows)
    {
      match Check("POST", RequestPath(lib, basepath, ["_all_docs"], map["include_docs" := Bool(true)]), status)
      case Some(e) => Err(Http(e))
      case None => Ok(RowDocs(rows))
    }

    /** `get_defaults`: each default where the database has no such doc,
        the stored doc where it has one. */
    function GetDefaults(lib: Lib, defaults: seq<Fields>, status: int, rows: seq<Fields>): (r: Result<seq<Value>, DbError>)
      ensures (exists i :: 0 <= i < |defaults| && "_id" !in defaults[i]) ==> r == Err(Py(KeyError("_id")))
      ensures (forall i :: 0 <= i < |defaults| ==> "_id" in defaults[i]) ==> (r.Err? <==> status >= 400)
      ensures r.Ok? ==> r.value == Defaulted(defaults, RowDocs(rows))
    {
      if exists i :: 0 <= i < |defaults| && "_id" !in defaults[i] then Err(Py(KeyError("_id")))
      else
        var docs :- GetMany(lib, status, rows);
        Ok(Defaulted(defaults, docs))
    }

    /** `save`: give the doc an id if it has none, POST it, and store the
        new revision in it. */
    method Save(doc: Doc, newId: string, status: int, resp: Fields) returns (r: Result<Fields, DbError>)
      modifies doc
      ensures status >= 400 ==> doc.fields == WithId(old(doc.fields), newId) && r == Err(Http(Check("POST", basepath, status).value))
      ensures status < 400 && "rev" !in resp ==> doc.fields == WithId(old(doc.fields), newId) && r == Err(Py(KeyError("rev")))
      ensures status < 400 && "rev" in resp ==> doc.fields == WithId(old(doc.fields), newId)["_rev" := resp["rev"]] && r == Ok(resp)
    {
      if "_id" !in doc.fields {
        doc.fields := doc.fields["_id" := Str(newId)];
      }
      var e := Check("POST", basepath, status);
      if e.Some? {
        return Err(Http(e.value));
      }
      if "rev" !in resp {
        return Err(Py(KeyError("rev")));
      }
      doc.fields := doc.fields["_rev" := resp["rev"]];
      return Ok(resp);
    }

    /** The whole outcome of `save_many` on documents whose ids were filled
        in (`filled`) and that end up as `after`. */
    ghost predicate SaveManyDone(filled: seq<Fields>, after: seq<Fields>, docs: seq<Doc>,
                                 status: int, rows: seq<Fields>, r: Result<seq<Fields>, DbError>)
    {
      var n := Min(|docs|, |rows|);
      var k := FirstMismatch(filled, rows);
      && |filled| == |docs|
      && (status >= 400 ==> after == filled && r == Err(Http(Check("POST", basepath + "_bulk_docs", status).value)))
      && (status < 400 ==> k <= n && after == Reconciled(filled, rows, k))
      && (status < 400 && k < n ==> r == Err(Py(RowError(rows[k]))))
      && (status < 400 && k == n && ConflictIndices(rows, n) != [] ==>
            r == Err(BulkConflict(Pick(docs, ConflictIndices(rows, n)), rows)))
      && (status < 400 && k == n && ConflictIndices(rows, n) == [] ==> r == Ok(rows))
    }

    /** `save_many`: non-atomic bulk save. Every saved doc gets its new
        revision in place; the docs whose rows carry no revision are the
        conflicts, left as they were, and raised together. */
    method SaveMany(docs: seq<Doc>, newId: nat -> string, status: int, rows: seq<Fields>) returns (r: Result<seq<Fields>, DbError>)
      requires Distinct(docs)
      modifies set d | d in docs
      ensures SaveManyDone(FillIds(old(Contents(docs)), newId), Contents(docs), docs, status, rows, r)
    {
      FillMissingIds(docs, newId);
      var e := Check("POST", basepath + "_bulk_docs", status);
      if e.Some? {
        return Err(Http(e.value));
      }
      var k, conflicts := ApplyRows(docs, rows);
      if k < Min(|docs|, |rows|) {
        return Err(Py(RowError(rows[k])));
      }
      if conflicts != [] {
        return Err(BulkConflict(conflicts, rows));
      }
      return Ok(rows);
    }

    /** The whole outcome of `delete_many` on documents that were `before`
        and end up as `after`. */
    ghost predicate DeleteManyDone(before: seq<Fields>, after: seq<Fields>, docs: seq<Doc>,
                                   status: int, rows: seq<Fields>, r: Result<seq<Fields>, DbError>)
    {
      var m := FirstWithoutId(before);
      && (m < |before| ==> after == MarkDeleted(before, m + 1) && r == Err(Py(AssertionError)))
      && (m == |before| ==> SaveManyDone(MarkDeleted(before, |before|), after, docs, status, rows, r))
    }

    /** `delete_many`: mark every doc `_deleted`, stopping with an
        AssertionError at the first without an `_id` (already marked), then
        `save_many`. */
    method DeleteMany(docs: seq<Doc>, newId: nat -> string, status: int, rows: seq<Fields>) returns (r: Result<seq<Fields>, DbError>)
      requires Distinct(docs)
      modifies set d | d in docs
      ensures DeleteManyDone(old(Contents(docs)), Contents(docs), docs, status, rows, r)
    {
      ghost var before := Contents(docs);
      var m := MarkAll(docs);
      if m < |docs| {
        r := Err(Py(AssertionError));
        assert DeleteManyDone(before, Contents(docs), docs, status, rows, r);
        return;
      }
      ghost var marked := Contents(docs);
      MarkedKeepIds(before);
      FillIdsNoop(marked, newId);
      assert FillIds(marked, newId) == MarkDeleted(before, |docs|);
      r := SaveMany(docs, newId, status, rows);
      assert DeleteManyDone(before, Contents(docs), docs, status, rows, r);
    }

    /** `bulksave`: all-or-nothing bulk save; each row's revision goes into
        its doc until a row does not echo its doc or has no revision. */
    method Bulksave(docs: seq<Doc>, newId: nat -> string, status: int, rows: seq<Fields>) returns (r: Result<seq<Fields>, DbError>)
      requires Distinct(docs)
      modifies set d | d in docs
      ensures var filled := FillIds(old(Contents(docs)), newId);
        status >= 400 ==> Contents(docs) == filled && r == Err(Http(Check("POST", basepath + "_bulk_docs", status).value))
      ensures var filled := FillIds(old(Contents(docs)), newId);
        var k := FirstBulkFailure(filled, rows);
        && (status < 400 ==> Contents(docs) == Reconciled(filled, rows, k))
        && (status < 400 && k < Min(|docs|, |rows|) ==> r == Err(Py(BulkRowError(filled[k], rows[k]))))
        && (status < 400 && k == Min(|docs|, |rows|) ==> r == Ok(rows))
    {
      FillMissingIds(docs, newId);
      ghost var filled := Contents(docs);
      var e := Check("POST", basepath + "_bulk_docs", status);
      if e.Some? {
        return Err(Http(e.value));
      }
      var k := ApplyAllRows(docs, rows);
      if k < Min(|docs|, |rows|) {
        return Err(Py(BulkRowError(docs[k].fields, rows[k])));
      }
      return Ok(rows);
    }

    /** `update`: apply `func`, save, and on a Conflict fetch the latest
        revision, apply `func` to it and save that once more. */
    method Update(func: Fields -> Fields, doc: Doc, replies: UpdateReplies) returns (r: Result<Doc, DbError>)
      modifies doc
      ensures "_id" !in old(doc.fields) ==> r == Err(Py(KeyError("_id"))) && doc.fields == old(doc.fields)
      ensures "_id" in old(doc.fields) && replies.status < 400 ==>
        r == (if "rev" in replies.resp then Ok(doc) else Err(Py(KeyError("rev")))) &&
        doc.fields == (if "rev" in replies.resp then WithId(func(old(doc.fields)), replies.newId)["_rev" := replies.resp["rev"]]
                       else WithId(func(old(doc.fields)), replies.newId))
      ensures "_id" in old(doc.fields) && replies.status >= 400 && replies.status != 409 ==>
        r == Err(Http(Check("POST", basepath, replies.status).value)) && doc.fields == WithId(func(old(doc.fields)), replies.newId)
      ensures "_id" in old(doc.fields) && replies.status == 409 ==> doc.fields == WithId(func(old(doc.fields)), replies.newId)
      ensures "_id" in old(doc.fields) && replies.status == 409 && !old(doc.fields)["_id"].Str? ==> r == Err(Py(TypeError))
      ensures "_id" in old(doc.fields) && replies.status == 409 && old(doc.fields)["_id"].Str? && replies.getStatus >= 400 ==>
        r == Err(Http(Check("GET", basepath + old(doc.fields)["_id"].s, replies.getStatus).value))
      ensures "_id" in old(doc.fields) && replies.status == 409 && old(doc.fields)["_id"].Str? && replies.getStatus < 400 ==>
        && (r.Ok? <==> replies.retryStatus < 400 && "rev" in replies.retryResp)
        && (r.Ok? ==> fresh(r.value) && r.value.fields == WithId(func(replies.latest), replies.retryId)["_rev" := replies.retryResp["rev"]])
      ensures "_id" in old(doc.fields) && replies.status == 409 && old(doc.fields)["_id"].Str? && replies.getStatus < 400
              && replies.retryStatus >= 400 ==>
        r == Err(Http(Check("POST", basepath, replies.retryStatus).value))
      ensures "_id" in old(doc.fields) && replies.status == 409 && old(doc.fields)["_id"].Str? && replies.getStatus < 400
              && replies.retryStatus < 400 && "rev" !in replies.retryResp ==>
        r == Err(Py(KeyError("rev")))
    {
      if "_id" !in doc.fields {
        return Err(Py(KeyError("_id")));
      }
      var id := doc.fields["_id"];
      doc.fields := func(doc.fields);
      var saved := Save(doc, replies.newId, replies.status, replies.resp);
      if saved.Ok? {
        return Ok(doc);
      }
      ClassifySpecific(Conflict, replies.status);
      if !(saved.error.Http? && saved.error.err.kind == Conflict) {
        return Err(saved.error);
      }
      if !id.Str? {
        return Err(Py(TypeError));
      }
      var e := Check("GET", basepath + id.s, replies.getStatus);
      if e.Some? {
        return Err(Http(e.value));
      }
      var next := new Doc(func(replies.latest));
      var again := Save(next, replies.retryId, replies.retryStatus, replies.retryResp);
      if again.Err? {
        return Err(again.error);
      }
      return Ok(next);
    }
  }
}
