// The request-building half of the client's `_makeRequest`: method default,
// header merge over the fixed browser identity, and the settings object handed
// to the cookie-jar-backed HTTP client. The HTTP client itself is an oracle.
module Transport {

  import opened Wrappers

  /** A value in a form-encoded body: JavaScript strings, numbers, null and undefined. */
  datatype FormValue = Text(s: string) | Number(n: int) | Null | Undefined

  /** A form object, as its (key, value) pairs in insertion order. */
  type Form = seq<(string, FormValue)>

  /** The options object a step passes to `_makeRequest`; `None` is an absent key. */
  datatype Options = Options(
    uri: string,
    verb: Option<string>,
    form: Option<Form>,
    headers: Option<map<string, string>>,
    simple: Option<bool>,
    fullResponse: Option<bool>)

  /** The settings object handed to the HTTP client: one request on the wire. */
  datatype Settings = Settings(
    uri: string,
    verb: string,
    proxy: Option<string>,
    headers: map<string, string>,
    form: Option<Form>,
    simple: Option<bool>,
    fullResponse: Option<bool>)

  /** What the HTTP client resolves with, or the rejection it raises (connection
      error, timeout, or a non-2xx status when `simple` is left on). */
  datatype Reply<+T> = Delivered(value: T) | Rejected(reason: string)

  /** The value of `key` in a form: its first pair, as a JavaScript object keeps one value per key. */
  function Lookup(form: Form, key: string): Option<FormValue>
  {
    if form == [] then None
    else if form[0].0 == key then Some(form[0].1)
    else Lookup(form[1..], key)
  }

  /** Every key of the form appears once. */
  predicate DistinctKeys(form: Form)
  {
    forall i, j :: 0 <= i < j < |form| ==> form[i].0 != form[j].0
  }

  /** In a form whose keys are distinct, looking up a key finds its own pair. */
  lemma {:induction false} LookupDistinct(form: Form, i: int)
    requires DistinctKeys(form)
    requires 0 <= i < |form|
    ensures Lookup(form, form[i].0) == Some(form[i].1)
  {
    if i > 0 {
      assert DistinctKeys(form[1..]);
      LookupDistinct(form[1..], i - 1);
    }
  }

  const AcceptEncoding := "deflate, br"
  const AcceptLanguage := "en-GB,en-US;q=0.9,en;q=0.8"
  const Accept := "text/html,application/xhtml+xml,application/xml;q=0.9,image/webp,image/apng,*/*;q=0.8"

  /** The fixed header set every request starts from. */
  function BaseHeaders(userAgent: string): (h: map<string, string>)
    ensures h.Keys == {"User-Agent", "Accept-Encoding", "Accept-Language", "Accept"}
    ensures h["User-Agent"] == userAgent
  {
    map["User-Agent" := userAgent,
        "Accept-Encoding" := AcceptEncoding,
        "Accept-Language" := AcceptLanguage,
        "Accept" := Accept]
  }

  /** `options.method || 'GET'`: an absent or empty method becomes GET. */
  function DefaultMethod(verb: Option<string>): (r: string)
    ensures r != ""
    ensures verb.Some? && verb.value != "" ==> r == verb.value
    ensures verb.None? || verb.value == "" ==> r == "GET"
  {
    if verb.Some? && verb.value != "" then verb.value else "GET"
  }

  /** The headers a request carries: the base set with the caller's headers
      written over it. */
  function MergedHeaders(base: map<string, string>, custom: Option<map<string, string>>): (h: map<string, string>)
    ensures custom.None? ==> h == base
    ensures custom.Some? ==> h.Keys == base.Keys + custom.value.Keys
    ensures custom.Some? ==> forall k :: k in custom.value ==> h[k] == custom.value[k]
    ensures forall k :: k in base && (custom.None? || k !in custom.value) ==> h[k] == base[k]
  {
    if custom.Some? then base + custom.value else base
  }

  /** The header-building loop: start from the base set and copy every caller
      key over it, one at a time (`Object.keys` order does not matter, since
      the keys are distinct). */
  method MergeHeaders(base: map<string, string>, custom: Option<map<string, string>>)
    returns (headers: map<string, string>)
    ensures headers == MergedHeaders(base, custom)
  {
    headers := base;
    if custom.Some? {
      var extra := custom.value;
      var todo := extra.Keys;
      while todo != {}
        invariant todo <= extra.Keys
        invariant headers.Keys == base.Keys + (extra.Keys - todo)
        invariant forall k :: k in extra.Keys - todo ==> headers[k] == extra[k]
        invariant forall k :: k in base && k !in extra.Keys - todo ==> headers[k] == base[k]
        decreases todo
      {
        var k :| k in todo;
        headers := headers[k := extra[k]];
        todo := todo - {k};
      }
      assert headers == base + extra;
    }
  }
}
