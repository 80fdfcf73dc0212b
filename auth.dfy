/** The two ways the client authenticates a request: HTTP basic auth and a
    signed OAuth 1.0 header (section 3.4.1 of RFC 5849 for the base string). */
module Auth {
  import opened Wrappers
  import opened Json
  import opened Primitives
  import opened StringOrder
  import opened Query

  /** How `str.format` and `urlencode` render a value: a str as itself,
      anything else through `str()`. */
  function Text(lib: Lib, v: Value): string {
    if v.Str? then v.s else lib.pyStr(v)
  }

  /** `basic_auth_header`: 'Basic ' and the base64 of 'username:password'. */
  function BasicAuthHeader(lib: Lib, basic: Value): (r: Result<string, PyError>)
    ensures !basic.Obj? ==> r == Err(TypeError)
    ensures basic.Obj? ==> (r.Ok? <==> "username" in basic.members && "password" in basic.members)
    ensures r.Ok? ==> StartsWith(r.value, "Basic ")
    ensures r.Ok? ==> r.value[6..] == lib.base64(Text(lib, basic.members["username"]) + ":" + Text(lib, basic.members["password"]))
  {
    if !basic.Obj? then Err(TypeError)
    else if "username" !in basic.members then Err(KeyError("username"))
    else if "password" !in basic.members then Err(KeyError("password"))
    else
      var r := "Basic " + lib.base64(Text(lib, basic.members["username"]) + ":" + Text(lib, basic.members["password"]));
      assert r[..6] == "Basic ";
      Ok(r)
  }

  /** The four credentials of an `oauth` env entry. */
  datatype Tokens = Tokens(consumerKey: string, consumerSecret: string, token: string, tokenSecret: string)

  /** Reading the credentials in the order `_oauth_header` does: the key and
      token go into the parameters (as text), the two secrets are joined and
      must be str. `str.join` reads both secrets before it checks their
      types, so a missing secret is reported before a non-str one. */
  function TokensOf(lib: Lib, oauth: Value): (r: Result<Tokens, PyError>)
    ensures r.Ok? <==> (oauth.Obj? &&
      "consumer_key" in oauth.members && "token" in oauth.members &&
      "consumer_secret" in oauth.members && oauth.members["consumer_secret"].Str? &&
      "token_secret" in oauth.members && oauth.members["token_secret"].Str?)
    ensures r.Ok? ==> r.value.consumerSecret == oauth.members["consumer_secret"].s
    ensures r.Ok? ==> r.value.tokenSecret == oauth.members["token_secret"].s
    ensures r.Ok? ==> r.value.consumerKey == Text(lib, oauth.members["consumer_key"])
    ensures r.Ok? ==> r.value.token == Text(lib, oauth.members["token"])
    ensures !oauth.Obj? ==> r == Err(TypeError)
    ensures oauth.Obj? && "consumer_key" in oauth.members && "token" in oauth.members &&
            !("consumer_secret" in oauth.members && "token_secret" in oauth.members) ==>
      r == Err(KeyError(if "consumer_secret" !in oauth.members then "consumer_secret" else "token_secret"))
    ensures r == Err(TypeError) ==>
      || !oauth.Obj?
      || ("consumer_secret" in oauth.members && "token_secret" in oauth.members &&
          !(oauth.members["consumer_secret"].Str? && oauth.members["token_secret"].Str?))
  {
    if !oauth.Obj? then Err(TypeError)
    else
      var m := oauth.members;
      if "consumer_key" !in m then Err(KeyError("consumer_key"))
      else if "token" !in m then Err(KeyError("token"))
      else if "consumer_secret" !in m then Err(KeyError("consumer_secret"))
      else if "token_secret" !in m then Err(KeyError("token_secret"))
      else if !m["consumer_secret"].Str? || !m["token_secret"].Str? then Err(TypeError)
      else Ok(Tokens(Text(lib, m["consumer_key"]), m["consumer_secret"].s, Text(lib, m["token"]), m["token_secret"].s))
  }

  /** The six protocol parameters that are signed. */
  function OAuthParams(tok: Tokens, timestamp: string, nonce: string): map<string, string> {
    map[
      "oauth_consumer_key" := tok.consumerKey,
      "oauth_token" := tok.token,
      "oauth_timestamp" := timestamp,
      "oauth_nonce" := nonce,
      "oauth_signature_method" := "HMAC-SHA1",
      "oauth_version" := "1.0"
    ]
  }

  /** The pairs of a dict in ascending key order. */
  function SortedPairs(m: map<string, string>): (r: seq<(string, string)>)
    ensures |r| == |m|
    ensures StrictlySorted(KeysOf(r))
    ensures forall k :: k in KeysOf(r) <==> k in m
    ensures forall i :: 0 <= i < |r| ==> r[i].0 in m && r[i].1 == m[r[i].0]
  {
    var ks := SortedKeys(m.Keys);
    var r := seq(|ks|, i requires 0 <= i < |ks| => (ks[i], m[ks[i]]));
    assert KeysOf(r) == ks;
    r
  }

  /** `_oauth_base_string`: method, quoted URL and quoted sorted query. */
  function BaseString(lib: Lib, verb: string, baseurl: string, query: map<string, string>): string {
    verb + "&" + lib.quotePlus(baseurl) + "&" + lib.quotePlus(lib.urlencode(SortedPairs(query)))
  }

  /** `_oauth_sign`: HMAC-SHA1 keyed by 'consumer_secret&token_secret'. */
  function Signature(lib: Lib, tok: Tokens, base: string): string {
    lib.hmacSha1Base64(tok.consumerSecret + "&" + tok.tokenSecret, base)
  }

  /** The query the signature covers: the request's query with the protocol
      parameters written over it, as `query.update(o)` does. */
  function SignedQuery(tok: Tokens, query: map<string, string>, testing: (string, string)): map<string, string> {
    query + OAuthParams(tok, testing.0, testing.1)
  }

  /** The parameters of the header: the protocol ones, the signature and an
      empty realm. */
  function HeaderParams(tok: Tokens, testing: (string, string), sig: string): map<string, string> {
    OAuthParams(tok, testing.0, testing.1)["oauth_signature" := sig]["OAuth realm" := ""]
  }

  /** The quoted signature of a request. */
  function RequestSignature(lib: Lib, tok: Tokens, verb: string, baseurl: string, query: map<string, string>, testing: (string, string)): string {
    lib.quotePlus(Signature(lib, tok, BaseString(lib, verb, baseurl, SignedQuery(tok, query, testing))))
  }

  function Quoted(k: string, v: string): string {
    k + "=\"" + v + "\""
  }

  /** `k="v"` over the keys of `o` in ascending order, joined by ', '. */
  function HeaderValue(o: map<string, string>): string {
    var ks := SortedKeys(o.Keys);
    Join(", ", seq(|ks|, i requires 0 <= i < |ks| => Quoted(ks[i], o[ks[i]])))
  }

  /** `_oauth_header`, with the timestamp and nonce supplied by the caller
      as the `testing` pair. */
  function OAuthHeader(lib: Lib, oauth: Value, verb: string, baseurl: string,
                       query: map<string, string>, testing: (string, string)): (r: Result<string, PyError>)
    ensures r.Ok? <==> TokensOf(lib, oauth).Ok?
    ensures r.Ok? ==> var tok := TokensOf(lib, oauth).value;
      r.value == HeaderValue(HeaderParams(tok, testing, RequestSignature(lib, tok, verb, baseurl, query, testing)))
  {
    var tok :- TokensOf(lib, oauth);
    Ok(HeaderValue(HeaderParams(tok, testing, RequestSignature(lib, tok, verb, baseurl, query, testing))))
  }

  /** The header's parameter names in the order the header lists them:
      the capital 'O' of the realm sorts before every 'oauth_' name. */
  const HeaderOrder: seq<string> := [
    "OAuth realm", "oauth_consumer_key", "oauth_nonce", "oauth_signature",
    "oauth_signature_method", "oauth_timestamp", "oauth_token", "oauth_version"
  ]

  // Each name of the header is below the next one.

  lemma HeaderOrderStep0()
    ensures Less("OAuth realm", "oauth_consumer_key")
  {
    FirstCharLess("OAuth realm", "oauth_consumer_key");
  }

  lemma HeaderOrderStep1()
    ensures Less("oauth_consumer_key", "oauth_nonce")
  {
    assert "oauth_consumer_key"[..6] == "oauth_nonce"[..6];
    LessAt("oauth_consumer_key", "oauth_nonce", 6);
  }

  lemma HeaderOrderStep2()
    ensures Less("oauth_nonce", "oauth_signature")
  {
    assert "oauth_nonce"[..6] == "oauth_signature"[..6];
    LessAt("oauth_nonce", "oauth_signature", 6);
  }

  lemma HeaderOrderStep3()
    ensures Less("oauth_signature", "oauth_signature_method")
  {
    assert "oauth_signature_method"[..15] == "oauth_signature";
    ProperPrefixLess("oauth_signature", "oauth_signature_method");
  }

  lemma HeaderOrderStep4()
    ensures Less("oauth_signature_method", "oauth_timestamp")
  {
    assert "oauth_signature_method"[..6] == "oauth_timestamp"[..6];
    LessAt("oauth_signature_method", "oauth_timestamp", 6);
  }

  lemma HeaderOrderStep5()
    ensures Less("oauth_timestamp", "oauth_token")
  {
    assert "oauth_timestamp"[..7] == "oauth_token"[..7];
    LessAt("oauth_timestamp", "oauth_token", 7);
  }

  lemma HeaderOrderStep6()
    ensures Less("oauth_token", "oauth_version")
  {
    assert "oauth_token"[..6] == "oauth_version"[..6];
    LessAt("oauth_token", "oauth_version", 6);
  }

  /** Eight names, each below the next, are sorted. */
  lemma EightSorted(a0: string, a1: string, a2: string, a3: string, a4: string, a5: string, a6: string, a7: string)
    requires Less(a0, a1) && Less(a1, a2) && Less(a2, a3) && Less(a3, a4)
    requires Less(a4, a5) && Less(a5, a6) && Less(a6, a7)
    ensures StrictlySorted([a0, a1, a2, a3, a4, a5, a6, a7])
  {
    var r := [a0, a1, a2, a3, a4, a5, a6, a7];
    forall i | 0 <= i < |r| - 1 ensures Less(r[i], r[i + 1]) {
      assert i == 0 || i == 1 || i == 2 || i == 3 || i == 4 || i == 5 || i == 6;
    }
    ChainSorted(r);
  }

  lemma HeaderOrderSorted()
    ensures StrictlySorted(HeaderOrder)
  {
    HeaderOrderStep0();
    HeaderOrderStep1();
    HeaderOrderStep2();
    HeaderOrderStep3();
    HeaderOrderStep4();
    HeaderOrderStep5();
    HeaderOrderStep6();
    EightSorted("OAuth realm", "oauth_consumer_key", "oauth_nonce", "oauth_signature",
      "oauth_signature_method", "oauth_timestamp", "oauth_token", "oauth_version");
  }

  lemma HeaderParamsKeys(tok: Tokens, testing: (string, string), sig: string)
    ensures HeaderParams(tok, testing, sig).Keys == set k | k in HeaderOrder
  {
  }

  /** The items of the header value, one per name in `HeaderOrder`. */
  lemma HeaderValueItems(o: map<string, string>)
    requires o.Keys == set k | k in HeaderOrder
    ensures HeaderValue(o) == Join(", ", seq(|HeaderOrder|, i requires 0 <= i < |HeaderOrder| => Quoted(HeaderOrder[i], o[HeaderOrder[i]])))
  {
    HeaderOrderSorted();
    SortedKeysOfSorted(HeaderOrder, o.Keys);
  }

  /** The header's items as the source's oauth tests spell them out:
      realm, consumer key, nonce, signature, signature method, timestamp,
      token and version, in that order. */
  function HeaderItems(tok: Tokens, testing: (string, string), sig: string): seq<string> {
    [
      Quoted("OAuth realm", ""),
      Quoted("oauth_consumer_key", tok.consumerKey),
      Quoted("oauth_nonce", testing.1),
      Quoted("oauth_signature", sig),
      Quoted("oauth_signature_method", "HMAC-SHA1"),
      Quoted("oauth_timestamp", testing.0),
      Quoted("oauth_token", tok.token),
      Quoted("oauth_version", "1.0")
    ]
  }

  /** The whole header value, with the signature of the request in it. */
  lemma OAuthHeaderLayout(lib: Lib, oauth: Value, verb: string, baseurl: string,
                          query: map<string, string>, testing: (string, string))
    requires OAuthHeader(lib, oauth, verb, baseurl, query, testing).Ok?
    ensures var tok := TokensOf(lib, oauth).value;
      var sig := RequestSignature(lib, tok, verb, baseurl, query, testing);
      OAuthHeader(lib, oauth, verb, baseurl, query, testing).value == Join(", ", HeaderItems(tok, testing, sig))
  {
    var tok := TokensOf(lib, oauth).value;
    HeaderValueLayout(tok, testing, RequestSignature(lib, tok, verb, baseurl, query, testing));
  }

  lemma HeaderValueLayout(tok: Tokens, testing: (string, string), sig: string)
    ensures HeaderValue(HeaderParams(tok, testing, sig)) == Join(", ", HeaderItems(tok, testing, sig))
  {
    var o := HeaderParams(tok, testing, sig);
    HeaderParamsKeys(tok, testing, sig);
    HeaderValueItems(o);
    HeaderItemsOfParams(tok, testing, sig);
  }

  lemma HeaderItemsOfParams(tok: Tokens, testing: (string, string), sig: string)
    ensures var o := HeaderParams(tok, testing, sig);
      seq(|HeaderOrder|, i requires 0 <= i < |HeaderOrder| => Quoted(HeaderOrder[i], o[HeaderOrder[i]])) == HeaderItems(tok, testing, sig)
  {
    var o := HeaderParams(tok, testing, sig);
    HeaderParamsValues(tok, testing, sig);
    var h := HeaderOrder;
    var items := seq(|h|, i requires 0 <= i < |h| => Quoted(h[i], o[h[i]]));
    var want := HeaderItems(tok, testing, sig);
    forall i | 0 <= i < |h| ensures items[i] == want[i] {
      if i == 0 {} else if i == 1 {} else if i == 2 {} else if i == 3 {}
      else if i == 4 {} else if i == 5 {} else if i == 6 {} else {}
    }
  }

  lemma HeaderParamsValues(tok: Tokens, testing: (string, string), sig: string)
    ensures var o := HeaderParams(tok, testing, sig);
      && o["OAuth realm"] == ""
      && o["oauth_consumer_key"] == tok.consumerKey
      && o["oauth_nonce"] == testing.1
      && o["oauth_signature"] == sig
      && o["oauth_signature_method"] == "HMAC-SHA1"
      && o["oauth_timestamp"] == testing.0
      && o["oauth_token"] == tok.token
      && o["oauth_version"] == "1.0"
  {
  }

  /** The signature covers every query parameter of the request, each with
      its own value unless a protocol parameter of the same name replaces it. */
  lemma SignedQueryCovers(tok: Tokens, query: map<string, string>, testing: (string, string), k: string)
    requires k in query
    ensures k in SignedQuery(tok, query, testing)
    ensures k !in OAuthParams(tok, testing.0, testing.1) ==> SignedQuery(tok, query, testing)[k] == query[k]
  {
  }
}
