/** The library routines the client calls but does not implement, taken as
    given: URL parsing, JSON text encoding, URL query encoding, quoting,
    HMAC-SHA1 with base64, the basic-auth header and the Dbase32 alphabet
    test. The model is parametric in them: nothing is assumed about what
    they return. */
module Primitives {
  import opened Json

  /** The three fields of `urllib.parse.urlparse(url)` the client reads. */
  datatype Url = Url(scheme: string, netloc: string, path: string)

  datatype Lib = Lib(
    /** `urllib.parse.urlparse` */
    urlparse: string -> Url,
    /** `json.dumps(v, sort_keys=True, separators=(',',':'))`, ASCII escapes on */
    dumpsAscii: Value -> string,
    /** `urllib.parse.urlencode` over a sequence of pairs */
    urlencode: seq<(string, string)> -> string,
    /** `urllib.parse.quote_plus` */
    quotePlus: string -> string,
    /** `b64encode(hmac.new(key, msg, sha1).digest()).decode()` */
    hmacSha1Base64: (string, string) -> string,
    /** `b64encode(s.encode()).decode()` */
    base64: string -> string,
    /** `str(v)`, as `urlencode` applies it to a non-string value */
    pyStr: Value -> string,
    /** `dbase32.isdb32` */
    isDb32: string -> bool,
    /** `USER_AGENT`, which names the platform the client runs on */
    userAgent: string,
    /** `db32enc(sha512(dumps(info).encode()).digest()[:30])` */
    replicationHash: Value -> string
  )

  /** `'/'.join(parts)` and friends. */
  function Join(sep: string, parts: seq<string>): (r: string)
    ensures parts == [] ==> r == ""
    ensures |parts| == 1 ==> r == parts[0]
    decreases |parts|
  {
    if parts == [] then ""
    else if |parts| == 1 then parts[0]
    else parts[0] + sep + Join(sep, parts[1..])
  }

  predicate EndsWith(s: string, suffix: string) {
    |suffix| <= |s| && s[|s| - |suffix|..] == suffix
  }

  predicate StartsWith(s: string, prefix: string) {
    |prefix| <= |s| && s[..|prefix|] == prefix
  }
}
