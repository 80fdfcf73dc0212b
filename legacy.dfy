/** The standalone `microfiber.py` module: an older client with its own
    query encoding, a four-entry status table and positional saves. */
module Legacy {
  import opened Wrappers
  import opened Json
  import opened Primitives
  import opened StringOrder
  import Status
  import opened Query
  import opened Documents
  import Couch

  /** `USER_AGENT` of this version. */
  const UserAgent: string := "microfiber 0.1.0"

  /** This module's `errors` table. */
  const LegacyErrors: map<int, Status.ErrorKind> := map[400 := Status.BadRequest, 404 := Status.NotFound, 409 := Status.Conflict, 412 := Status.PreconditionFailed]

  /** The exception class `CouchCore.request` raises, or None. */
  function Classify(status: int): (r: Option<Status.ErrorKind>)
    ensures r.None? <==> status < 400
    ensures r == Some(Status.ServerError) <==> status >= 500
    ensures r == Some(Status.BadRequest) <==> status == 400
    ensures r == Some(Status.NotFound) <==> status == 404
    ensures r == Some(Status.Conflict) <==> status == 409
    ensures r == Some(Status.PreconditionFailed) <==> status == 412
    ensures 400 <= status < 500 && status !in {400, 404, 409, 412} <==> r == Some(Status.ClientError)
  {
    if status >= 500 then Some(Status.ServerError)
    else if status >= 400 then Some(if status in LegacyErrors then LegacyErrors[status] else Status.ClientError)
    else None
  }

  /** The package's classification refines this one: they agree on every
      status this table maps and on every status outside 4xx; elsewhere
      this one says ClientError where the package names a subclass. */
  lemma {:induction false} RefinedByPackage(status: int)
    ensures status in {400, 404, 409, 412} || status < 400 || status >= 500 ==> Classify(status) == Status.Classify(status)
    ensures 400 <= status < 500 && Classify(status) != Status.Classify(status) ==>
      Classify(status) == Some(Status.ClientError) && Status.Classify(status).value.Specific()
  {
    if 400 <= status < 500 && status in Status.Errors {
      Status.ErrorsTableIsCodes();
    }
    if status in {400, 404, 409, 412} {
      Status.ClassifySpecific(Status.Errors[status], status);
      assert Status.Errors[400] == Status.BadRequest && Status.Errors[404] == Status.NotFound && Status.Errors[409] == Status.Conflict && Status.Errors[412] == Status.PreconditionFailed;
    }
  }

  /** The error `request` raises for a response. */
  function Check(verb: string, url: string, status: int): (r: Option<Status.HttpError>)
    ensures r.None? <==> status < 400
    ensures r.Some? ==> Some(r.value.kind) == Classify(status) && r.value.status == status && r.value.verb == verb && r.value.url == url
  {
    match Classify(status)
    case None => None
    case Some(k) => Some(Status.HttpError(k, status, verb, url))
  }

  /** The value `queryiter` yields for an option: JSON for a bool or None,
      the value itself otherwise, as `urlencode` then prints it. */
  function Encode(lib: Lib, v: Value): (r: string)
    ensures v == Bool(true) ==> r == "true"
    ensures v == Bool(false) ==> r == "false"
    ensures v == Null ==> r == "null"
    ensures v.Str? ==> r == v.s
  {
    match v
    case Bool(b) => if b then "true" else "false"
    case Null => "null"
    case Str(s) => s
    case _ => lib.pyStr(v)
  }

  /** `queryiter`: the options in sorted key order. */
  function QueryIter(lib: Lib, options: map<string, Value>): (r: seq<(string, string)>)
    ensures |r| == |options|
    ensures StrictlySorted(KeysOf(r))
    ensures forall k :: k in KeysOf(r) <==> k in options
    ensures forall i :: 0 <= i < |r| ==> r[i].0 in options && r[i].1 == Encode(lib, options[r[i].0])
  {
    var ks := SortedKeys(options.Keys);
    var r := seq(|ks|, i requires 0 <= i < |ks| => (ks[i], Encode(lib, options[ks[i]])));
    assert KeysOf(r) == ks;
    r
  }

  /** Both modules send the options in the same key order. */
  lemma SameKeyOrder(lib: Lib, options: map<string, Value>)
    ensures |QueryIter(lib, options)| == |Query.QueryIter(lib, options)|
    ensures KeysOf(QueryIter(lib, options)) == KeysOf(Query.QueryIter(lib, options))
  {
    var a, b := KeysOf(QueryIter(lib, options)), KeysOf(Query.QueryIter(lib, options));
    SortedUnique(a, b);
  }

  /** Unlike the package's `_queryiter`, a string under `key`, `startkey`
      or `endkey` goes out as it is, unquoted, where the package sends its
      JSON text; under any other key both send the string itself. */
  lemma StringKeysUnquoted(lib: Lib, options: map<string, Value>, i: nat)
    requires i < |QueryIter(lib, options)| && options[QueryIter(lib, options)[i].0].Str?
    ensures QueryIter(lib, options)[i].1 == options[QueryIter(lib, options)[i].0].s
    ensures i < |Query.QueryIter(lib, options)| && Query.QueryIter(lib, options)[i].0 == QueryIter(lib, options)[i].0
    ensures QueryIter(lib, options)[i].0 in Query.JsonKeys ==>
      Query.QueryIter(lib, options)[i].1 == lib.dumpsAscii(options[QueryIter(lib, options)[i].0])
    ensures QueryIter(lib, options)[i].0 !in Query.JsonKeys ==> Query.QueryIter(lib, options)[i] == QueryIter(lib, options)[i]
  {
    SameKeyOrder(lib, options);
    assert KeysOf(QueryIter(lib, options))[i] == KeysOf(Query.QueryIter(lib, options))[i];
  }

  /** When every option is a str under an ordinary key, the two modules
      build the same query. */
  lemma SameQueryWhenPlain(lib: Lib, options: map<string, Value>)
    requires forall k :: k in options ==> Query.PassesThrough(k, options[k])
    ensures QueryIter(lib, options) == Query.QueryIter(lib, options)
  {
    var a, b := QueryIter(lib, options), Query.QueryIter(lib, options);
    SameKeyOrder(lib, options);
    forall i | 0 <= i < |a|
      ensures a[i] == b[i]
    {
      assert KeysOf(a)[i] == KeysOf(b)[i];
    }
  }

  /** `query` */
  function QueryString(lib: Lib, options: map<string, Value>): string {
    lib.urlencode(QueryIter(lib, options))
  }

  /** The URL a `CouchCore` keeps: a '/' is added only when missing. */
  function Normalise(url: string): (r: string)
    ensures EndsWith(r, "/")
    ensures EndsWith(url, "/") ==> r == url
    ensures !EndsWith(url, "/") ==> r == url + "/"
  {
    if EndsWith(url, "/") then url else url + "/"
  }

  lemma NormaliseIdempotent(url: string)
    ensures Normalise(Normalise(url)) == Normalise(url)
  {
  }

  /** `CouchCore.path`: the base path, the parts joined by '/', and the
      query after a '?' when there are options. */
  function Path(lib: Lib, basepath: string, parts: seq<string>, options: map<string, Value>): (r: string)
    ensures options == map[] ==> r == basepath + Join("/", parts)
    ensures options != map[] ==> r == basepath + Join("/", parts) + "?" + QueryString(lib, options)
  {
    var url := basepath + Join("/", parts);
    if options != map[] then url + "?" + QueryString(lib, options) else url
  }

  /** `CouchCore.path` against the package's: the same without options or
      when every option is a str under an ordinary key, and otherwise
      different at most in the query after the '?'. */
  lemma {:induction false} PathVersusPackage(lib: Lib, basepath: string, parts: seq<string>, options: map<string, Value>)
    ensures options == map[] ==> Path(lib, basepath, parts, options) == Couch.RequestPath(lib, basepath, parts, options)
    ensures (forall k :: k in options ==> Query.PassesThrough(k, options[k])) ==>
      Path(lib, basepath, parts, options) == Couch.RequestPath(lib, basepath, parts, options)
    ensures options != map[] ==>
      (Path(lib, basepath, parts, options) == Couch.RequestPath(lib, basepath, parts, options)
       <==> QueryString(lib, options) == lib.urlencode(Query.QueryIter(lib, options)))
  {
    if options != map[] {
      var url := basepath + Join("/", parts);
      var legacy, package := QueryString(lib, options), lib.urlencode(Query.QueryIter(lib, options));
      assert (url + "?" + legacy)[|url| + 1..] == legacy;
      assert (url + "?" + package)[|url| + 1..] == package;
      if forall k :: k in options ==> Query.PassesThrough(k, options[k]) {
        SameQueryWhenPlain(lib, options);
      }
    }
  }

  /** A request as it goes out. */
  datatype Sent = Sent(verb: string, url: string, headers: map<string, string>)

  class CouchCore {
    const url: string
    const basepath: string
    /** HTTPS unless the scheme is exactly `http` */
    const secure: bool

    constructor(lib: Lib, url: string)
      ensures this.url == Normalise(url)
      ensures basepath == lib.urlparse(Normalise(url)).path
      ensures secure <==> lib.urlparse(Normalise(url)).scheme != "http"
    {
      this.url := Normalise(url);
      basepath := lib.urlparse(Normalise(url)).path;
      secure := lib.urlparse(Normalise(url)).scheme != "http";
    }

    /** `request`: user agent and JSON accept, the caller's headers over
        them, and the status decides between the response and an error. */
    function Request(verb: string, url: string, headers: map<string, string>, status: int): (r: Result<Sent, Status.HttpError>)
      ensures r.Ok? <==> status < 400
      ensures r.Ok? ==> r.value == Sent(verb, url, map["User-Agent" := UserAgent, "Accept" := "application/json"] + headers)
      ensures r.Err? ==> Some(r.error.kind) == Classify(status) && r.error.status == status && r.error.url == url
    {
      match Check(verb, url, status)
      case Some(e) => Err(e)
      case None => Ok(Sent(verb, url, map["User-Agent" := UserAgent, "Accept" := "application/json"] + headers))
    }
  }

  class Server {
    const core: CouchCore

    constructor(lib: Lib, url: string)
      ensures core.url == Normalise(url) && core.basepath == lib.urlparse(Normalise(url)).path
    {
      core := new CouchCore(lib, url);
    }

    /** `Server.db`: PUT the database, ignoring PreconditionFailed (it
        exists already), and return a handle at the server URL plus the
        name. */
    method Db(lib: Lib, name: string, status: int) returns (r: Result<Database, Status.HttpError>)
      ensures status < 400 || status == 412 <==> r.Ok?
      ensures r.Ok? ==> fresh(r.value) && r.value.core.url == Normalise(core.url + name)
      ensures r.Ok? ==> r.value.core.basepath == lib.urlparse(Normalise(core.url + name)).path
      ensures r.Err? ==> r.error.status == status && r.error.verb == "PUT" && r.error.url == Path(lib, core.basepath, [name], map[])
    {
      var e := Check("PUT", Path(lib, core.basepath, [name], map[]), status);
      if e.Some? && e.value.kind != Status.PreconditionFailed {
        return Err(e.value);
      }
      var db := new Database(lib, core.url + name);
      return Ok(db);
    }
  }

  /** A server URL ends with '/', so the database URL is `url + name + '/'`
      unless the name itself ends with '/'. */
  lemma DbUrl(serverUrl: string, name: string)
    requires EndsWith(serverUrl, "/") && !EndsWith(name, "/") && name != ""
    ensures Normalise(serverUrl + name) == serverUrl + name + "/"
  {
    var u := serverUrl + name;
    assert u[|u| - 1] == name[|name| - 1];
    assert u[|u| - 1..] == [name[|name| - 1]];
    assert name[|name| - 1..] == [name[|name| - 1]];
  }

  /** The fields `bulksave` sets from one row: `_id` from `id` and `_rev`
      from `rev`, as far as the row has them. */
  function Apply(f: Fields, row: Fields): Fields {
    if "id" !in row then f
    else if "rev" !in row then f["_id" := row["id"]]
    else f["_id" := row["id"]]["_rev" := row["rev"]]
  }

  /** The first row without `id` or `rev`, or the shorter length. */
  function FirstIncomplete(rows: seq<Fields>, n: nat): (k: nat)
    requires n <= |rows|
    ensures k <= n
    ensures forall j :: 0 <= j < k ==> "id" in rows[j] && "rev" in rows[j]
    ensures k < n ==> "id" !in rows[k] || "rev" !in rows[k]
    decreases n
  {
    if n == 0 then 0
    else
      var k := FirstIncomplete(rows, n - 1);
      if k < n - 1 then k else if "id" in rows[n - 1] && "rev" in rows[n - 1] then n else n - 1
  }

  /** The docs after `bulksave` copied its first `m` rows, the last of
      them perhaps only in part. */
  function Applied(fs: seq<Fields>, rows: seq<Fields>, m: nat): (r: seq<Fields>)
    requires m <= Min(|fs|, |rows|)
    ensures |r| == |fs|
  {
    seq(|fs|, j requires 0 <= j < |fs| => if j < m then Apply(fs[j], rows[j]) else fs[j])
  }

  /** How many rows `bulksave` copies before it stops. */
  function Touched(rows: seq<Fields>, n: nat): (m: nat)
    requires n <= |rows|
    ensures m <= n
  {
    var k := FirstIncomplete(rows, n);
    if k < n then k + 1 else n
  }

  /** With complete rows, each doc takes its own row's `id` and `rev`. */
  lemma {:induction false} Positional(fs: seq<Fields>, rows: seq<Fields>, j: nat)
    requires FirstIncomplete(rows, Min(|fs|, |rows|)) == Min(|fs|, |rows|) && j < Min(|fs|, |rows|)
    ensures Applied(fs, rows, Min(|fs|, |rows|))[j]["_id"] == rows[j]["id"]
    ensures Applied(fs, rows, Min(|fs|, |rows|))[j]["_rev"] == rows[j]["rev"]
    ensures forall key | key in fs[j] && key != "_id" && key != "_rev" ::
      key in Applied(fs, rows, Min(|fs|, |rows|))[j] && Applied(fs, rows, Min(|fs|, |rows|))[j][key] == fs[j][key]
  {
    assert "id" in rows[j] && "rev" in rows[j];
    assert Applied(fs, rows, Min(|fs|, |rows|))[j] == fs[j]["_id" := rows[j]["id"]]["_rev" := rows[j]["rev"]];
  }

  class Database {
    const core: CouchCore

    constructor(lib: Lib, url: string)
      ensures core.url == Normalise(url) && core.basepath == lib.urlparse(Normalise(url)).path
    {
      core := new CouchCore(lib, url);
    }

    /** `save`: POST the doc, then copy the response's `id` and `rev`
        into it. */
    method Save(doc: Doc, status: int, ret: Fields) returns (r: Result<Fields, Failure>)
      modifies doc
      ensures status >= 400 ==> r == Err(Http(Check("POST", core.basepath, status).value)) && doc.fields == old(doc.fields)
      ensures status < 400 ==> doc.fields == Apply(old(doc.fields), ret)
      ensures status < 400 && "id" !in ret ==> r == Err(Py(KeyError("id")))
      ensures status < 400 && "id" in ret && "rev" !in ret ==> r == Err(Py(KeyError("rev")))
      ensures status < 400 && "id" in ret && "rev" in ret ==> r == Ok(ret)
    {
      var e := Check("POST", core.basepath, status);
      if e.Some? {
        return Err(Http(e.value));
      }
      if "id" !in ret {
        return Err(Py(KeyError("id")));
      }
      doc.fields := doc.fields["_id" := ret["id"]];
      if "rev" !in ret {
        return Err(Py(KeyError("rev")));
      }
      doc.fields := doc.fields["_rev" := ret["rev"]];
      return Ok(ret);
    }

    /** `bulksave`: POST the docs, then pair each row with its doc by
        position and copy `id` and `rev` over; a row missing either is a
        KeyError that leaves the later docs untouched. */
    method Bulksave(docs: seq<Doc>, status: int, rows: seq<Fields>) returns (r: Result<seq<Fields>, Failure>)
      requires Distinct(docs)
      modifies set d | d in docs
      ensures status >= 400 ==> r == Err(Http(Check("POST", core.basepath + "_bulk_docs", status).value)) && Contents(docs) == old(Contents(docs))
      ensures var n := Min(|docs|, |rows|); var k := FirstIncomplete(rows, n);
        && (status < 400 ==> Contents(docs) == Applied(old(Contents(docs)), rows, Touched(rows, n)))
        && (status < 400 && k < n ==> r == Err(Py(KeyError(if "id" !in rows[k] then "id" else "rev"))))
        && (status < 400 && k == n ==> r == Ok(rows))
    {
      var e := Check("POST", core.basepath + "_bulk_docs", status);
      if e.Some? {
        return Err(Http(e.value));
      }
      var k := CopyRows(docs, rows);
      var n := Min(|docs|, |rows|);
      if k < n {
        return Err(Py(KeyError(if "id" !in rows[k] then "id" else "rev")));
      }
      return Ok(rows);
    }
  }

  /** What `save` and `bulksave` raise. */
  datatype Failure = Http(err: Status.HttpError) | Py(exc: PyError)

  /** The `bulksave` loop over the complete rows: each doc in front of
      the first incomplete row takes its row's `id` and `rev`. */
  method CopyCompleteRows(docs: seq<Doc>, rows: seq<Fields>) returns (k: nat)
    requires Distinct(docs)
    modifies set d | d in docs
    ensures k == FirstIncomplete(rows, Min(|docs|, |rows|))
    ensures forall j :: 0 <= j < k ==> docs[j].fields == Apply(old(docs[j].fields), rows[j])
    ensures forall j :: k <= j < |docs| ==> docs[j].fields == old(docs[j].fields)
  {
    var n := Min(|docs|, |rows|);
    k := 0;
    while k < n
      invariant 0 <= k <= n
      invariant forall j :: 0 <= j < k ==> "id" in rows[j] && "rev" in rows[j]
      invariant forall j :: 0 <= j < k ==> docs[j].fields == Apply(old(docs[j].fields), rows[j])
      invariant forall j :: k <= j < |docs| ==> docs[j].fields == old(docs[j].fields)
    {
      if "id" !in rows[k] || "rev" !in rows[k] {
        break;
      }
      docs[k].fields := docs[k].fields["_id" := rows[k]["id"]]["_rev" := rows[k]["rev"]];
      k := k + 1;
    }
    FirstIncompleteAt(rows, n, k);
  }

  /** `CopyCompleteRows` on the dicts' contents. */
  method CopyComplete(docs: seq<Doc>, rows: seq<Fields>) returns (k: nat)
    requires Distinct(docs)
    modifies set d | d in docs
    ensures k == FirstIncomplete(rows, Min(|docs|, |rows|))
    ensures Contents(docs) == Applied(old(Contents(docs)), rows, k)
  {
    ghost var before := Contents(docs);
    k := CopyCompleteRows(docs, rows);
    AppliedFrom(before, rows, k, Contents(docs));
  }

  /** The whole `bulksave` loop: the row that stops it is still copied as
      far as it goes. */
  method CopyRows(docs: seq<Doc>, rows: seq<Fields>) returns (k: nat)
    requires Distinct(docs)
    modifies set d | d in docs
    ensures k == FirstIncomplete(rows, Min(|docs|, |rows|))
    ensures Contents(docs) == Applied(old(Contents(docs)), rows, Touched(rows, Min(|docs|, |rows|)))
  {
    ghost var before := Contents(docs);
    k := CopyComplete(docs, rows);
    if k < Min(|docs|, |rows|) {
      AppliedNext(before, rows, k);
      SetFields(docs, k, Apply(docs[k].fields, rows[k]));
    }
  }

  lemma FirstIncompleteAt(rows: seq<Fields>, n: nat, k: nat)
    requires k <= n <= |rows|
    requires forall j :: 0 <= j < k ==> "id" in rows[j] && "rev" in rows[j]
    requires k < n ==> "id" !in rows[k] || "rev" !in rows[k]
    ensures FirstIncomplete(rows, n) == k
  {
  }

  lemma AppliedNext(fs: seq<Fields>, rows: seq<Fields>, m: nat)
    requires m < Min(|fs|, |rows|)
    ensures Applied(fs, rows, m)[m := Apply(fs[m], rows[m])] == Applied(fs, rows, m + 1)
  {
  }

  lemma AppliedFrom(fs: seq<Fields>, rows: seq<Fields>, m: nat, after: seq<Fields>)
    requires m <= Min(|fs|, |rows|) && |after| == |fs|
    requires forall j :: 0 <= j < m ==> after[j] == Apply(fs[j], rows[j])
    requires forall j :: m <= j < |fs| ==> after[j] == fs[j]
    ensures after == Applied(fs, rows, m)
  {
  }
}
