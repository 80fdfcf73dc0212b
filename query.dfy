/** `_queryiter`: the encoded (key, value) pairs of a request's query string. */
module Query {
  import opened Json
  import opened Primitives
  import opened StringOrder

  /** Keys whose values CouchDB reads as JSON even when they are strings. */
  const JsonKeys: set<string> := {"key", "startkey", "endkey"}

  /** A value is sent as written only if it is a str under an ordinary key. */
  predicate PassesThrough(key: string, v: Value) {
    v.Str? && key !in JsonKeys
  }

  function Encode(lib: Lib, key: string, v: Value): string {
    if PassesThrough(key, v) then v.s else lib.dumpsAscii(v)
  }

  function KeysOf(pairs: seq<(string, string)>): (r: seq<string>)
    ensures |r| == |pairs|
    ensures forall i :: 0 <= i < |pairs| ==> r[i] == pairs[i].0
  {
    seq(|pairs|, i requires 0 <= i < |pairs| => pairs[i].0)
  }

  /** One pair per option, keys strictly ascending; each value is the option's
      own string when it passes through, its JSON text otherwise. */
  function QueryIter(lib: Lib, options: map<string, Value>): (r: seq<(string, string)>)
    ensures |r| == |options|
    ensures StrictlySorted(KeysOf(r))
    ensures forall k :: k in KeysOf(r) <==> k in options
    ensures forall i :: 0 <= i < |r| ==> r[i].0 in options
    ensures forall i :: 0 <= i < |r| && PassesThrough(r[i].0, options[r[i].0]) ==> r[i].1 == options[r[i].0].s
    ensures forall i :: 0 <= i < |r| && !PassesThrough(r[i].0, options[r[i].0]) ==> r[i].1 == lib.dumpsAscii(options[r[i].0])
  {
    var ks := SortedKeys(options.Keys);
    var r := seq(|ks|, i requires 0 <= i < |ks| => (ks[i], Encode(lib, ks[i], options[ks[i]])));
    assert KeysOf(r) == ks;
    r
  }

  /** The query string is empty exactly when there are no options. */
  lemma QueryIterEmpty(lib: Lib, options: map<string, Value>)
    ensures QueryIter(lib, options) == [] <==> options == map[]
  {
    if options != map[] {
      var k :| k in options;
      assert |options| > 0;
    }
  }

  /** Each key is sent with the encoding of its own value. */
  lemma QueryIterLookup(lib: Lib, options: map<string, Value>, k: string)
    requires k in options
    ensures exists i ::
      0 <= i < |QueryIter(lib, options)| && QueryIter(lib, options)[i] == (k, Encode(lib, k, options[k]))
  {
    var r := QueryIter(lib, options);
    assert k in KeysOf(r);
    var i :| 0 <= i < |r| && KeysOf(r)[i] == k;
    assert r[i] == (k, Encode(lib, k, options[k]));
  }
}
