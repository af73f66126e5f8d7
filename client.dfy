/**
 * client/client.go: the signed HTTP transport every endpoint goes through.
 * newRequest encodes the body once, attaches the query only when there are
 * parameters, signs timestamp, method, request URI and body, Sets the four
 * authentication headers and Content-Type and then Adds the first value of
 * each configured header; decode reads the envelope and returns its domain
 * error, unmarshals its data, or does nothing.
 *
 * The JSON, URL and HTTP libraries, the network and the HMAC digest are the
 * fields of a Library value; the clock is the ts parameter; the order in
 * which Go ranges over the configured header map is the order parameter.
 */
module Client {
  import opened Wrappers
  import opened ErrCode
  import opened Query
  import opened HttpHeader
  import opened ClientOption
  import opened ClientInteger
  import opened Transport

  const MethodGet := "GET"
  const MethodPost := "POST"

  const AccessKey := "OK-ACCESS-KEY"
  const AccessPassphrase := "OK-ACCESS-PASSPHRASE"
  const AccessTimestamp := "OK-ACCESS-TIMESTAMP"
  const AccessSign := "OK-ACCESS-SIGN"
  const ContentType := "Content-Type"
  const Json := "application/json"

  /** A url.Values: each query key with its values. */
  type QueryValues = map<string, seq<string>>

  /** The parts of a parsed *url.URL the client reads: the escaped path and the raw query. */
  datatype Url = Url(path: string, rawQuery: string)

  /** An *http.Request as the client leaves it. */
  datatype HttpRequest = HttpRequest(verb: string, url: string, rawQuery: string, header: Header, body: string)

  /** The envelope every response carries: {"code": ..., "msg": ..., "data": ...}; data None is an absent field. */
  datatype Envelope = Envelope(code: Integer, message: string, data: Option<string>)

  /**
   * The library and network calls the client makes, taken as given:
   * url.Parse as http.NewRequest uses it, URL.Query, url.Values.Encode,
   * the base64 HMAC-SHA256 of sign (section 2 of RFC 2104 over FIPS 180-4,
   * in the standard alphabet of section 4 of RFC 4648), http.Client.Do with
   * reading the response body, and json.Decoder.Decode into the envelope.
   */
  datatype Library = Library(
    parseUrl: string -> Result<Url, Error>,
    parseQuery: string -> QueryValues,
    encodeQuery: QueryValues -> string,
    hmac: (string, string) -> string,
    send: (HttpClient, HttpRequest) -> Result<string, Error>,
    parseEnvelope: string -> Result<Envelope, Error>)

  /** The message sign authenticates: timestamp, method, request URI and body bytes, in that order, with nothing between them. */
  function Prehash(ts: string, verb: string, requestUri: string, body: Option<string>): string {
    ts + verb + requestUri + (if body.Some? then body.value else "")
  }

  /** URL.RequestURI: the escaped path ("/" when empty), then "?" and the raw query when there is one. */
  function RequestUri(u: Url): string {
    (if u.path == "" then "/" else u.path) + (if u.rawQuery == "" then "" else "?" + u.rawQuery)
  }

  function Existing(q: QueryValues, k: string): seq<string> {
    if k in q then q[k] else []
  }

  /** The url.Values after q.Add(k, v) for every entry of params, in any order: each key's value is appended once. */
  function AddAll(q: QueryValues, params: Params): (r: QueryValues)
    ensures r.Keys == q.Keys + params.Keys
    ensures forall k :: k in params ==> r[k] == Existing(q, k) + [params[k]]
    ensures forall k :: k in q && k !in params ==> r[k] == q[k]
  {
    map k | k in q.Keys + params.Keys :: Existing(q, k) + (if k in params then [params[k]] else [])
  }

  /** The raw query newRequest leaves: the URL's own when params is empty, otherwise the URL's values with params added, encoded. */
  function RawQuery(lib: Library, u: Url, params: Params): string {
    if |params| > 0 then lib.encodeQuery(AddAll(lib.parseQuery(u.rawQuery), params)) else u.rawQuery
  }

  /** The header map after the five Set calls of newRequest. */
  function BaseHeader(key: string, passphrase: string, ts: string, signature: string): Header {
    var h := Set(map[], AccessKey, key);
    var h := Set(h, AccessPassphrase, passphrase);
    var h := Set(h, AccessTimestamp, ts);
    var h := Set(h, AccessSign, signature);
    Set(h, ContentType, Json)
  }

  /** How Go may range over the configured headers: each key exactly once; and v[0] needs every key to hold a value. */
  predicate HeaderOrder(extra: Header, order: seq<string>) {
    && (forall k :: k in extra ==> k in order)
    && (forall i :: 0 <= i < |order| ==> order[i] in extra)
    && (forall i, j :: 0 <= i < j < |order| ==> order[i] != order[j])
    && (forall k :: k in extra ==> |extra[k]| > 0)
  }

  /** The header map after req.Header.Add(k, v[0]) for the keys of extra in the given order. */
  function AddFirstValues(h: Header, extra: Header, order: seq<string>): Header
    requires forall i :: 0 <= i < |order| ==> order[i] in extra && |extra[order[i]]| > 0
    decreases |order|
  {
    if order == [] then h
    else
      var k := order[|order| - 1];
      Add(AddFirstValues(h, extra, order[..|order| - 1]), k, extra[k][0])
  }

  /**
   * decode: an envelope that does not parse is that error; a non-zero code
   * is the domain error of code and message, whatever data holds; with code
   * zero, absent data leaves the target alone and present data is exactly
   * the outcome of unmarshalling it into the target.
   */
  function Decode<T>(parsed: Result<Envelope, Error>, target: T, unmarshal: (string, T) -> Reply<T>): (r: Reply<T>)
    ensures parsed.Err? ==> r == Reply(target, Some(parsed.error))
    ensures parsed.Ok? && parsed.value.code != 0 ==>
      r == Reply(target, Some(Domain(New(parsed.value.code, parsed.value.message))))
    ensures parsed.Ok? && parsed.value.code == 0 && parsed.value.data.None? ==> r == Reply(target, None)
    ensures parsed.Ok? && parsed.value.code == 0 && parsed.value.data.Some? ==> r == unmarshal(parsed.value.data.value, target)
  {
    match parsed
    case Err(e) => Reply(target, Some(e))
    case Ok(resp) =>
      if Int(resp.code) != 0 then Reply(target, Some(Domain(New(Int(resp.code), resp.message))))
      else if resp.data.Some? then unmarshal(resp.data.value, target)
      else Reply(target, None)
  }

  /** An error the JSON and HTTP libraries produce: not a domain error, and no domain error inside it. */
  predicate Codeless(err: Option<Error>) {
    CodeOf(err).None?
  }

  /** The error of decode carries a code exactly when the envelope parsed with a non-zero code, and then it is that code. */
  lemma DecodeCode<T>(parsed: Result<Envelope, Error>, target: T, unmarshal: (string, T) -> Reply<T>)
    requires parsed.Err? ==> Codeless(Some(parsed.error))
    requires parsed.Ok? && parsed.value.data.Some? ==> Codeless(unmarshal(parsed.value.data.value, target).err)
    ensures CodeOf(Decode(parsed, target, unmarshal).err) ==
      if parsed.Ok? && parsed.value.code != 0 then Some(parsed.value.code) else None
  {
    if parsed.Ok? && parsed.value.code != 0 {
      NewIsRecognised(parsed.value.code, parsed.value.message, [], parsed.value.code);
    }
  }

  /** With a non-zero code the data field is never looked at: neither its contents nor the unmarshaller matter. */
  lemma DecodeIgnoresDataOnError<T>(code: Integer, message: string, d1: Option<string>, d2: Option<string>,
                                    target: T, u1: (string, T) -> Reply<T>, u2: (string, T) -> Reply<T>)
    requires code != 0
    ensures Decode(Ok(Envelope(code, message, d1)), target, u1) == Decode(Ok(Envelope(code, message, d2)), target, u2)
    ensures Decode(Ok(Envelope(code, message, d1)), target, u1).value == target
  {
  }

  /** Adding headers never changes the first value of a key that already had one. */
  lemma {:induction false} AddFirstValuesKeepsFirst(h: Header, extra: Header, order: seq<string>, j: string)
    requires forall i :: 0 <= i < |order| ==> order[i] in extra && |extra[order[i]]| > 0
    requires Values(h, j) != []
    ensures Values(AddFirstValues(h, extra, order), j) != []
    ensures Get(AddFirstValues(h, extra, order), j) == Get(h, j)
    decreases |order|
  {
    if order != [] {
      var k := order[|order| - 1];
      AddFirstValuesKeepsFirst(h, extra, order[..|order| - 1], j);
      AddKeepsFirst(AddFirstValues(h, extra, order[..|order| - 1]), k, extra[k][0], j);
    }
  }

  /**
   * A configured header whose canonical key is not one newRequest Sets, and
   * that no other configured key shares, ends up with exactly its first value.
   */
  lemma {:induction false} AddFirstValuesCopies(h: Header, extra: Header, order: seq<string>, k: string)
    requires forall i :: 0 <= i < |order| ==> order[i] in extra && |extra[order[i]]| > 0
    requires forall i, j :: 0 <= i < j < |order| ==> order[i] != order[j]
    requires k in extra && |extra[k]| > 0 && Values(h, k) == []
    requires forall j :: j in extra && j != k ==> CanonicalKey(j) != CanonicalKey(k)
    ensures Values(AddFirstValues(h, extra, order), k) == if k in order then [extra[k][0]] else []
    decreases |order|
  {
    if order != [] {
      var init := order[..|order| - 1];
      var last := order[|order| - 1];
      AddFirstValuesCopies(h, extra, init, k);
      assert k in order <==> k in init || k == last;
      if last == k {
        assert k !in init;
      }
    }
  }

  /** The five headers newRequest Sets have pairwise different canonical keys, so each keeps its own value. */
  lemma BaseHeaderValues(key: string, passphrase: string, ts: string, signature: string)
    ensures var h := BaseHeader(key, passphrase, ts, signature);
      && Values(h, AccessKey) == [key]
      && Values(h, AccessPassphrase) == [passphrase]
      && Values(h, AccessTimestamp) == [ts]
      && Values(h, AccessSign) == [signature]
      && Values(h, ContentType) == [Json]
  {
    DifferentLengthsDiffer(AccessKey, AccessPassphrase);
    DifferentLengthsDiffer(AccessKey, AccessTimestamp);
    DifferentLengthsDiffer(AccessKey, AccessSign);
    DifferentLengthsDiffer(AccessKey, ContentType);
    DifferentLengthsDiffer(AccessPassphrase, AccessTimestamp);
    DifferentLengthsDiffer(AccessPassphrase, AccessSign);
    DifferentLengthsDiffer(AccessPassphrase, ContentType);
    DifferentLengthsDiffer(AccessTimestamp, AccessSign);
    DifferentLengthsDiffer(AccessTimestamp, ContentType);
    DifferentLengthsDiffer(AccessSign, ContentType);
  }

  /** A key whose canonical form is none of the five newRequest Sets. */
  predicate NotSetByClient(k: string) {
    && CanonicalKey(k) != CanonicalKey(AccessKey)
    && CanonicalKey(k) != CanonicalKey(AccessPassphrase)
    && CanonicalKey(k) != CanonicalKey(AccessTimestamp)
    && CanonicalKey(k) != CanonicalKey(AccessSign)
    && CanonicalKey(k) != CanonicalKey(ContentType)
  }

  /** The five Set calls put nothing under any other key. */
  lemma BaseHeaderOthers(key: string, passphrase: string, ts: string, signature: string, k: string)
    requires NotSetByClient(k)
    ensures Values(BaseHeader(key, passphrase, ts, signature), k) == []
  {
  }

  /** Where each part of the signed message sits in it. */
  lemma PrehashLayout(ts: string, verb: string, requestUri: string, body: string)
    ensures var m := Prehash(ts, verb, requestUri, Some(body));
      && |m| == |ts| + |verb| + |requestUri| + |body|
      && m[..|ts|] == ts
      && m[|ts|..|ts| + |verb|] == verb
      && m[|ts| + |verb|..|ts| + |verb| + |requestUri|] == requestUri
      && m[|ts| + |verb| + |requestUri|..] == body
    ensures Prehash(ts, verb, requestUri, None) == Prehash(ts, verb, requestUri, Some(""))
  {
    var m := Prehash(ts, verb, requestUri, Some(body));
    assert m == ts + verb + requestUri + body;
  }

  /** Adding one more parameter to the ones already added appends its value under its key. */
  lemma AddAllStep(q0: QueryValues, done: Params, k: string, v: string)
    requires k !in done
    ensures AddAll(q0, done[k := v]) == AddAll(q0, done)[k := Existing(AddAll(q0, done), k) + [v]]
  {
    var l, r := AddAll(q0, done[k := v]), AddAll(q0, done)[k := Existing(AddAll(q0, done), k) + [v]];
    assert l.Keys == r.Keys;
    forall j | j in l
      ensures l[j] == r[j]
    {
    }
  }

  /** The query loop of newRequest: q.Add(k, v) for every entry of params, in whatever order the map is ranged over. */
  method AddQuery(q0: QueryValues, params: Params) returns (q: QueryValues)
    ensures q == AddAll(q0, params)
  {
    q := q0;
    var done: Params := map[];
    var rest := params;
    while rest != map[]
      invariant forall k :: k in done ==> k in params && done[k] == params[k]
      invariant forall k :: k in rest ==> k in params && rest[k] == params[k]
      invariant forall k :: k in params ==> (k in done <==> k !in rest)
      invariant q == AddAll(q0, done)
      decreases rest.Keys
    {
      assert rest.Keys != {};
      var k :| k in rest.Keys;
      AddAllStep(q0, done, k, rest[k]);
      q := q[k := Existing(q, k) + [rest[k]]];
      done := done[k := rest[k]];
      rest := rest - {k};
    }
    assert done.Keys == params.Keys;
    assert done == params;
  }

  /** The header loop of newRequest: req.Header.Add(k, v[0]) for the configured keys, in the order they are ranged over. */
  method AddHeaders(h0: Header, extra: Header, order: seq<string>) returns (h: Header)
    requires forall i :: 0 <= i < |order| ==> order[i] in extra && |extra[order[i]]| > 0
    ensures h == AddFirstValues(h0, extra, order)
  {
    h := h0;
    for i := 0 to |order|
      invariant h == AddFirstValues(h0, extra, order[..i])
    {
      assert order[..i + 1][..i] == order[..i];
      h := Add(h, order[i], extra[order[i]][0]);
    }
    assert order[..|order|] == order;
  }

  /** A *Client: the credentials and the settings newOptions produced. */
  class Client {
    const key: string
    const secretKey: string
    const passphrase: string
    const client: HttpClient
    const endpoint: string
    const headers: Option<Header>

    /** NewClient: the credentials as given and the options folded over the defaults. */
    constructor NewClient(key: string, secretKey: string, passphrase: string, opts: seq<ClientOption>)
      ensures this.key == key && this.secretKey == secretKey && this.passphrase == passphrase
      ensures Settings(endpoint, headers, client) == Folded(Defaults, opts)
    {
      var options := NewOptions(opts);
      this.key := key;
      this.secretKey := secretKey;
      this.passphrase := passphrase;
      this.client := options.client;
      this.endpoint := options.endpoint;
      this.headers := options.headers;
    }

    /** sign: the buffer is grown to the summed length, filled part by part, and authenticated. */
    method Sign(ts: string, verb: string, path: string, body: Option<string>, hmac: (string, string) -> string)
      returns (signature: string)
      ensures signature == hmac(secretKey, Prehash(ts, verb, path, body))
    {
      var size := |ts| + |verb| + |path|;
      if body.Some? {
        size := size + |body.value|;
      }
      var buf := "";
      buf := buf + ts;
      buf := buf + verb;
      buf := buf + path;
      if body.Some? {
        buf := buf + body.value;
      }
      assert |buf| == size && buf == Prehash(ts, verb, path, body);
      signature := hmac(secretKey, buf);
    }

    /** The request newRequest signs, for a URL whose raw query is final and a body already encoded. */
    function Signed(verb: string, path: string, u: Url, bytes: string, ts: string, lib: Library, order: seq<string>): HttpRequest
      requires HeaderOrder(Allocated(headers), order)
    {
      var signature := lib.hmac(secretKey, Prehash(ts, verb, RequestUri(u), Some(bytes)));
      var header := AddFirstValues(BaseHeader(key, passphrase, ts, signature), Allocated(headers), order);
      HttpRequest(verb, endpoint + path, u.rawQuery, header, bytes)
    }

    /** What newRequest builds: the encoding error, the URL error, or the signed request. */
    function Assembled(verb: string, path: string, params: Params, body: Option<Result<string, Error>>,
                       ts: string, lib: Library, order: seq<string>): Result<HttpRequest, Error>
      requires HeaderOrder(Allocated(headers), order)
    {
      if body.Some? && body.value.Err? then Err(body.value.error)
      else
        var bytes := if body.Some? then body.value.value else "";
        match lib.parseUrl(endpoint + path)
        case Err(e) => Err(e)
        case Ok(u) => Ok(Signed(verb, path, u.(rawQuery := RawQuery(lib, u, params)), bytes, ts, lib, order))
    }

    /**
     * newRequest, with the outcome of json.Encoder.Encode already in body
     * (None for a nil body): the query loop adds every parameter, the
     * signature covers the same bytes that become the request body, and the
     * header loop ranges over the configured headers in the given order.
     */
    method NewRequest(verb: string, path: string, params: Params, body: Option<Result<string, Error>>,
                      ts: string, lib: Library, order: seq<string>)
      returns (r: Result<HttpRequest, Error>)
      requires HeaderOrder(Allocated(headers), order)
      ensures r == Assembled(verb, path, params, body, ts, lib, order)
    {
      var bytes := "";
      if body.Some? {
        if body.value.Err? {
          return Err(body.value.error);
        }
        bytes := body.value.value;
      }
      var parsed := lib.parseUrl(endpoint + path);
      if parsed.Err? {
        return Err(parsed.error);
      }
      var u := parsed.value;
      ghost var u0 := u;
      if |params| > 0 {
        var q := AddQuery(lib.parseQuery(u.rawQuery), params);
        u := u.(rawQuery := lib.encodeQuery(q));
      }
      assert u == u0.(rawQuery := RawQuery(lib, u0, params));
      var req := SignRequest(verb, path, u, bytes, ts, lib, order);
      r := Ok(req);
    }

    /** The second half of newRequest: sign the request and set, then add, its headers. */
    method SignRequest(verb: string, path: string, u: Url, bytes: string, ts: string, lib: Library, order: seq<string>)
      returns (req: HttpRequest)
      requires HeaderOrder(Allocated(headers), order)
      ensures req == Signed(verb, path, u, bytes, ts, lib, order)
    {
      var signature := Sign(ts, verb, RequestUri(u), Some(bytes), lib.hmac);
      var header := Set(map[], AccessKey, key);
      header := Set(header, AccessPassphrase, passphrase);
      header := Set(header, AccessTimestamp, ts);
      header := Set(header, AccessSign, signature);
      header := Set(header, ContentType, Json);
      header := AddHeaders(header, Allocated(headers), order);
      req := HttpRequest(verb, endpoint + path, u.rawQuery, header, bytes);
    }

    /** What happens after the request is built: the send error, or the decoded envelope. */
    function Exchanged<T>(lib: Library, req: HttpRequest, target: T, unmarshal: (string, T) -> Reply<T>): Reply<T> {
      match lib.send(client, req)
      case Err(e) => Reply(target, Some(e))
      case Ok(response) => Decode(lib.parseEnvelope(response), target, unmarshal)
    }

    /**
     * request: a request that cannot be built is never sent and its error is
     * returned; otherwise it is sent once and the response decoded.  sent is
     * the request handed to http.Client.Do, if any.
     */
    method Request<T>(verb: string, path: string, params: Params, body: Option<Result<string, Error>>,
                      ts: string, lib: Library, order: seq<string>, target: T, unmarshal: (string, T) -> Reply<T>)
      returns (r: Reply<T>, sent: Option<HttpRequest>)
      requires HeaderOrder(Allocated(headers), order)
      ensures var a := Assembled(verb, path, params, body, ts, lib, order);
        && (a.Err? ==> sent == None && r == Reply(target, Some(a.error)))
        && (a.Ok? ==> sent == Some(a.value) && r == Exchanged(lib, a.value, target, unmarshal))
    {
      var req := NewRequest(verb, path, params, body, ts, lib, order);
      if req.Err? {
        return Reply(target, Some(req.error)), None;
      }
      sent := Some(req.value);
      var resp := lib.send(client, req.value);
      if resp.Err? {
        return Reply(target, Some(resp.error)), sent;
      }
      r := Decode(lib.parseEnvelope(resp.value), target, unmarshal);
    }

    /** Get: a GET with the parameters and no body. */
    method Get<T>(path: string, params: Params, ts: string, lib: Library, order: seq<string>,
                  target: T, unmarshal: (string, T) -> Reply<T>)
      returns (r: Reply<T>, sent: Option<HttpRequest>)
      requires HeaderOrder(Allocated(headers), order)
      ensures var a := Assembled(MethodGet, path, params, None, ts, lib, order);
        && (a.Err? ==> sent == None && r == Reply(target, Some(a.error)))
        && (a.Ok? ==> sent == Some(a.value) && r == Exchanged(lib, a.value, target, unmarshal))
      ensures sent.Some? ==> sent.value.verb == MethodGet && sent.value.body == ""
    {
      r, sent := Request(MethodGet, path, params, None, ts, lib, order, target, unmarshal);
    }

    /** Post: a POST of the encoded body and no parameters; a body that fails to encode is never sent. */
    method Post<T>(path: string, body: Result<string, Error>, ts: string, lib: Library, order: seq<string>,
                   target: T, unmarshal: (string, T) -> Reply<T>)
      returns (r: Reply<T>, sent: Option<HttpRequest>)
      requires HeaderOrder(Allocated(headers), order)
      ensures var a := Assembled(MethodPost, path, map[], Some(body), ts, lib, order);
        && (a.Err? ==> sent == None && r == Reply(target, Some(a.error)))
        && (a.Ok? ==> sent == Some(a.value) && r == Exchanged(lib, a.value, target, unmarshal))
      ensures body.Err? ==> sent == None && r == Reply(target, Some(body.error))
      ensures sent.Some? ==> sent.value.verb == MethodPost && sent.value.body == body.value
      ensures sent.Some? ==> sent.value.rawQuery == lib.parseUrl(endpoint + path).value.rawQuery
    {
      r, sent := Request(MethodPost, path, map[], Some(body), ts, lib, order, target, unmarshal);
    }

    /**
     * The signed request: the timestamp header is the ts that was signed, the
     * signature covers method, request URI (with the query actually attached)
     * and exactly the body that is sent, and the credentials and Content-Type
     * keep their values whatever headers were configured.
     */
    lemma AssembledSigned(verb: string, path: string, params: Params, body: Option<Result<string, Error>>,
                          ts: string, lib: Library, order: seq<string>)
      requires HeaderOrder(Allocated(headers), order)
      requires Assembled(verb, path, params, body, ts, lib, order).Ok?
      ensures var req := Assembled(verb, path, params, body, ts, lib, order).value;
        var u := lib.parseUrl(endpoint + path).value;
        && HttpHeader.Get(req.header, AccessTimestamp) == ts
        && HttpHeader.Get(req.header, AccessSign) == lib.hmac(secretKey, Prehash(ts, verb, RequestUri(u.(rawQuery := req.rawQuery)), Some(req.body)))
        && HttpHeader.Get(req.header, AccessKey) == key
        && HttpHeader.Get(req.header, AccessPassphrase) == passphrase
        && HttpHeader.Get(req.header, ContentType) == Json
    {
      var req := Assembled(verb, path, params, body, ts, lib, order).value;
      var u := lib.parseUrl(endpoint + path).value;
      var signature := lib.hmac(secretKey, Prehash(ts, verb, RequestUri(u.(rawQuery := req.rawQuery)), Some(req.body)));
      var base := BaseHeader(key, passphrase, ts, signature);
      BaseHeaderValues(key, passphrase, ts, signature);
      AddFirstValuesKeepsFirst(base, Allocated(headers), order, AccessTimestamp);
      AddFirstValuesKeepsFirst(base, Allocated(headers), order, AccessSign);
      AddFirstValuesKeepsFirst(base, Allocated(headers), order, AccessKey);
      AddFirstValuesKeepsFirst(base, Allocated(headers), order, AccessPassphrase);
      AddFirstValuesKeepsFirst(base, Allocated(headers), order, ContentType);
    }

    /**
     * The query is attached only when there are parameters: without them the
     * URL's own query is kept; with them the URL's values plus one value per
     * parameter are encoded.
     */
    lemma AssembledQuery(verb: string, path: string, params: Params, body: Option<Result<string, Error>>,
                         ts: string, lib: Library, order: seq<string>)
      requires HeaderOrder(Allocated(headers), order)
      requires Assembled(verb, path, params, body, ts, lib, order).Ok?
      ensures var req := Assembled(verb, path, params, body, ts, lib, order).value;
        var u := lib.parseUrl(endpoint + path).value;
        && (|params| == 0 ==> req.rawQuery == u.rawQuery)
        && (|params| > 0 ==> req.rawQuery == lib.encodeQuery(AddAll(lib.parseQuery(u.rawQuery), params)))
    {
    }

    /** A configured header nobody else shares a canonical key with, and that newRequest does not Set, is sent with its first value only. */
    lemma AssembledCopiesHeader(verb: string, path: string, params: Params, body: Option<Result<string, Error>>,
                                ts: string, lib: Library, order: seq<string>, k: string)
      requires HeaderOrder(Allocated(headers), order)
      requires Assembled(verb, path, params, body, ts, lib, order).Ok?
      requires k in Allocated(headers)
      requires forall j :: j in Allocated(headers) && j != k ==> CanonicalKey(j) != CanonicalKey(k)
      requires NotSetByClient(k)
      ensures Values(Assembled(verb, path, params, body, ts, lib, order).value.header, k) == [Allocated(headers)[k][0]]
    {
      var req := Assembled(verb, path, params, body, ts, lib, order).value;
      var u := lib.parseUrl(endpoint + path).value;
      var signature := lib.hmac(secretKey, Prehash(ts, verb, RequestUri(u.(rawQuery := req.rawQuery)), Some(req.body)));
      BaseHeaderOthers(key, passphrase, ts, signature, k);
      AddFirstValuesCopies(BaseHeader(key, passphrase, ts, signature), Allocated(headers), order, k);
    }
  }
}
