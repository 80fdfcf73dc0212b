/** `Context`: the configuration, parsed URL and per-thread connection that
    every `Server` and `Database` built from it shares. */
module Context {
  import opened Wrappers
  import opened Json
  import opened Primitives
  import opened StringOrder
  import opened Query
  import opened Auth

  const DefaultUrl: string := "http://127.0.0.1:5984/"

  /** TypeError for an env that is neither a dict nor a str (nor None),
      UrlNotText for a non-str 'url', ValueError for a bad scheme or an
      empty network location. */
  datatype ConfigError = EnvTypeError | UrlNotText | BadScheme(url: string) | BadUrl(url: string)

  /** What the constructor computes: `env`, `t`, `basepath` and `url`. */
  datatype Settings = Settings(env: Fields, t: Url, basepath: string, url: string)

  predicate ValidScheme(scheme: string) {
    scheme == "http" || scheme == "https"
  }

  /** The shape every constructed context has. */
  predicate WellFormed(s: Settings) {
    && ValidScheme(s.t.scheme)
    && s.t.netloc != ""
    && EndsWith(s.basepath, "/")
    && (s.basepath == s.t.path || s.basepath == s.t.path + "/")
    && (EndsWith(s.t.path, "/") ==> s.basepath == s.t.path)
    && s.url == s.t.scheme + "://" + s.t.netloc + s.basepath
  }

  /** The env dict made from the argument: None means the default URL, a str
      means a dict holding just that URL. */
  function EnvOf(arg: Value): Option<Fields> {
    match arg
    case Null => Some(map["url" := Str(DefaultUrl)])
    case Str(_) => Some(map["url" := arg])
    case Obj(m) => Some(m)
    case _ => None
  }

  /** `env.get('url', DEFAULT_URL)` */
  function ConfiguredUrl(env: Fields): Value {
    if "url" in env then env["url"] else Str(DefaultUrl)
  }

  /** The checks and normalisation of `Context.__init__`. */
  function Resolve(lib: Lib, arg: Value): (r: Result<Settings, ConfigError>)
    ensures r == Err(EnvTypeError) <==> EnvOf(arg).None?
    ensures r.Ok? ==> Some(r.value.env) == EnvOf(arg)
    ensures r.Ok? ==> ConfiguredUrl(r.value.env).Str? && r.value.t == lib.urlparse(ConfiguredUrl(r.value.env).s)
    ensures r.Ok? ==> WellFormed(r.value)
    ensures r.Err? && r.error.BadScheme? ==> !ValidScheme(lib.urlparse(r.error.url).scheme)
    ensures r.Err? && r.error.BadUrl? ==> ValidScheme(lib.urlparse(r.error.url).scheme) && lib.urlparse(r.error.url).netloc == ""
    ensures r == Err(UrlNotText) <==> EnvOf(arg).Some? && !ConfiguredUrl(EnvOf(arg).value).Str?
    ensures r.Err? && (r.error.BadScheme? || r.error.BadUrl?) ==>
      EnvOf(arg).Some? && ConfiguredUrl(EnvOf(arg).value) == Str(r.error.url)
  {
    match EnvOf(arg)
    case None => Err(EnvTypeError)
    case Some(env) =>
      var url := ConfiguredUrl(env);
      if !url.Str? then Err(UrlNotText)
      else
        var t := lib.urlparse(url.s);
        if !ValidScheme(t.scheme) then Err(BadScheme(url.s))
        else if t.netloc == "" then Err(BadUrl(url.s))
        else
          var basepath := if EndsWith(t.path, "/") then t.path else t.path + "/";
          assert EndsWith(t.path + "/", "/");
          Ok(Settings(env, t, basepath, t.scheme + "://" + t.netloc + basepath))
  }

  /** A context accepts its own URL: when the parser reads the normalised URL
      back into its parts, a context built from that URL has the same base
      path and URL. */
  lemma ResolveOwnUrl(lib: Lib, arg: Value)
    requires Resolve(lib, arg).Ok?
    requires var s := Resolve(lib, arg).value; lib.urlparse(s.url) == Url(s.t.scheme, s.t.netloc, s.basepath)
    ensures var s := Resolve(lib, arg).value;
      Resolve(lib, Str(s.url)).Ok? &&
      Resolve(lib, Str(s.url)).value.basepath == s.basepath &&
      Resolve(lib, Str(s.url)).value.url == s.url
  {
  }

  /** `dict(query)`: later pairs win over earlier ones with the same key. */
  function PairsToMap(pairs: seq<(string, string)>): (r: map<string, string>)
    ensures forall k :: k in r <==> k in KeysOf(pairs)
    decreases |pairs|
  {
    if pairs == [] then map[]
    else
      var last := pairs[|pairs| - 1];
      var r := PairsToMap(pairs[..|pairs| - 1])[last.0 := last.1];
      assert forall k :: k in KeysOf(pairs) <==> k in KeysOf(pairs[..|pairs| - 1]) || k == last.0 by {
        assert KeysOf(pairs) == KeysOf(pairs[..|pairs| - 1]) + [last.0];
      }
      r
  }

  /** With distinct keys, as `_queryiter` yields them, every pair survives. */
  lemma {:induction false} PairsToMapSorted(pairs: seq<(string, string)>, i: nat)
    requires StrictlySorted(KeysOf(pairs))
    requires i < |pairs|
    ensures pairs[i].0 in PairsToMap(pairs) && PairsToMap(pairs)[pairs[i].0] == pairs[i].1
    decreases |pairs|
  {
    var n := |pairs| - 1;
    if i < n {
      SortedFront(pairs, n);
      assert Less(KeysOf(pairs)[i], KeysOf(pairs)[n]);
      PairsToMapSorted(pairs[..n], i);
    }
  }

  lemma SortedFront(pairs: seq<(string, string)>, n: nat)
    requires StrictlySorted(KeysOf(pairs))
    requires n <= |pairs|
    ensures StrictlySorted(KeysOf(pairs[..n]))
  {
    assert KeysOf(pairs[..n]) == KeysOf(pairs)[..n];
  }

  /** `self.client.connect()` yields one of these. */
  class Connection {
    var closed: bool

    constructor()
      ensures !closed
    {
      closed := false;
    }
  }

  class Context {
    const settings: Settings
    /** `threadlocal.connection` of the one thread the model follows */
    var connection: Option<Connection>
    /** How many times `client.connect()` has been called. */
    var connects: nat

    constructor(settings: Settings)
      requires WellFormed(settings)
      ensures this.settings == settings && connection == None && connects == 0
    {
      this.settings := settings;
      connection := None;
      connects := 0;
    }

    /** `Context(env)`: the checks of `Resolve`, then a context without a
        connection. */
    static method Create(lib: Lib, env: Value) returns (r: Result<Context, ConfigError>)
      ensures r.Ok? <==> Resolve(lib, env).Ok?
      ensures r.Err? ==> r.error == Resolve(lib, env).error
      ensures r.Ok? ==> fresh(r.value) && r.value.settings == Resolve(lib, env).value
      ensures r.Ok? ==> r.value.connection == None && r.value.connects == 0
    {
      var s := Resolve(lib, env);
      if s.Err? {
        return Err(s.error);
      }
      var ctx := new Context(s.value);
      return Ok(ctx);
    }

    /** `full_url`: the path after the URL's scheme and host; on a
        well-formed context it gives the context's own URL exactly for the
        base path. */
    function FullUrl(path: string): (r: string)
      ensures EndsWith(r, path)
      ensures WellFormed(settings) ==> (r == settings.url <==> path == settings.basepath)
    {
      var origin := settings.t.scheme + "://" + settings.t.netloc;
      assert (origin + path)[|origin|..] == path;
      assert (origin + settings.basepath)[|origin|..] == settings.basepath;
      origin + path
    }

    /** The context's URL is the full URL of its base path. */
    lemma FullUrlOfBasepath()
      requires WellFormed(settings)
      ensures FullUrl(settings.basepath) == settings.url
    {
    }

    /** `get_threadlocal_connection`: the thread's connection is reused
        while it is open; otherwise a new one is made and remembered. */
    method GetThreadlocalConnection() returns (conn: Connection)
      modifies this
      ensures connection == Some(conn)
      ensures old(connection.Some? && !connection.value.closed) ==>
        conn == old(connection.value) && connects == old(connects)
      ensures old(connection.None? || connection.value.closed) ==>
        fresh(conn) && !conn.closed && connects == old(connects) + 1
    {
      if connection.None? || connection.value.closed {
        conn := new Connection();
        connection := Some(conn);
        connects := connects + 1;
      } else {
        conn := connection.value;
      }
    }

    /** The connection handling of `raw_request`: when the first attempt
        fails with ConnectionError (which leaves its connection closed), it
        retries once, on a connection it obtains again. */
    method RawRequest(firstFails: bool) returns (conn: Connection)
      modifies this, if connection.Some? then {connection.value} else {}
      ensures connection == Some(conn) && !conn.closed
      ensures !firstFails && old(connection.Some? && !connection.value.closed) ==>
        conn == old(connection.value) && connects == old(connects)
      ensures !firstFails && old(connection.None? || connection.value.closed) ==>
        fresh(conn) && connects == old(connects) + 1
      ensures firstFails ==> fresh(conn)
      ensures firstFails && old(connection.Some? && !connection.value.closed) ==>
        old(connection.value).closed && connects == old(connects) + 1
      ensures firstFails && old(connection.None? || connection.value.closed) ==>
        connects == old(connects) + 2
    {
      conn := GetThreadlocalConnection();
      if firstFails {
        conn.closed := true;
        conn := GetThreadlocalConnection();
      }
    }

    /** `get_auth_headers`: OAuth when the env has an 'oauth' entry (it wins
        over 'basic'), basic auth when it has a 'basic' entry, else none. */
    function AuthHeaders(lib: Lib, verb: string, path: string, query: seq<(string, string)>,
                         testing: (string, string)): (r: Result<map<string, string>, PyError>)
      ensures "oauth" in settings.env ==> var oauth := settings.env["oauth"];
        && (r.Ok? <==> TokensOf(lib, oauth).Ok?)
        && (r.Ok? ==> var tok := TokensOf(lib, oauth).value;
              var sig := RequestSignature(lib, tok, verb, FullUrl(path), PairsToMap(query), testing);
              r.value == map["authorization" := Join(", ", HeaderItems(tok, testing, sig))])
      ensures "oauth" !in settings.env && "basic" in settings.env ==>
        && (r.Ok? <==> BasicAuthHeader(lib, settings.env["basic"]).Ok?)
        && (r.Ok? ==> r.value == map["authorization" := BasicAuthHeader(lib, settings.env["basic"]).value])
      ensures "oauth" !in settings.env && "basic" !in settings.env ==> r == Ok(map[])
    {
      if "oauth" in settings.env then
        var oauth := settings.env["oauth"];
        match OAuthHeader(lib, oauth, verb, FullUrl(path), PairsToMap(query), testing)
        case Err(e) => Err(e)
        case Ok(v) =>
          OAuthHeaderLayout(lib, oauth, verb, FullUrl(path), PairsToMap(query), testing);
          Ok(map["authorization" := v])
      else if "basic" in settings.env then
        match BasicAuthHeader(lib, settings.env["basic"])
        case Err(e) => Err(e)
        case Ok(v) => Ok(map["authorization" := v])
      else Ok(map[])
    }
  }
}
