/**
 * client/option.go: the functional options of NewClient.  An Options record
 * starts from the defaults and every option, applied in the order given,
 * overwrites one of its fields; WithHeader allocates the header map when it
 * is nil and Sets one key in it.
 */
module ClientOption {
  import opened Wrappers
  import opened HttpHeader

  /** An *http.Client: the package default or a caller-supplied client, told apart by identity. */
  datatype HttpClient = DefaultClient | Custom(id: nat)

  /** The value of one Option constructor. */
  datatype ClientOption =
    | WithClient(client: HttpClient)
    | WithEndpoint(endpoint: string)
    | WithHeaders(headers: Option<Header>)   // None is a nil http.Header
    | WithHeader(key: string, value: string)

  const DefaultEndpoint := "https://www.okx.com"

  /** The header WithProjectID sets. */
  const ProjectHeader := "OK-ACCESS-PROJECT"

  /** WithProjectID: the WithHeader option for the project header. */
  function WithProjectID(projectID: string): (o: ClientOption)
    ensures o.WithHeader? && o.key == ProjectHeader && o.value == projectID
  {
    WithHeader(ProjectHeader, projectID)
  }

  /** The fields of an Options record, as a value. */
  datatype Settings = Settings(endpoint: string, headers: Option<Header>, client: HttpClient)

  /** The record newOptions starts from. */
  const Defaults := Settings(DefaultEndpoint, Some(map[]), DefaultClient)

  /** The header map WithHeader writes into: the existing one, or a fresh empty one when it is nil. */
  function Allocated(h: Option<Header>): (r: Header)
    ensures h.Some? ==> r == h.value
    ensures h.None? ==> r == map[]
  {
    if h.Some? then h.value else map[]
  }

  /** What applying one option does to the record. */
  function Applied(s: Settings, opt: ClientOption): Settings {
    match opt
    case WithClient(c) => s.(client := c)
    case WithEndpoint(e) => s.(endpoint := e)
    case WithHeaders(h) => s.(headers := h)
    case WithHeader(k, v) => s.(headers := Some(Set(Allocated(s.headers), k, v)))
  }

  /** The options applied left to right. */
  function Folded(s: Settings, opts: seq<ClientOption>): Settings
    decreases |opts|
  {
    if opts == [] then s else Applied(Folded(s, opts[..|opts| - 1]), opts[|opts| - 1])
  }

  /** The Options record newOptions fills in. */
  class Options {
    var endpoint: string
    var headers: Option<Header>
    var client: HttpClient

    function State(): Settings
      reads this
    {
      Settings(endpoint, headers, client)
    }

    /** The literal at the top of newOptions. */
    constructor ()
      ensures State() == Defaults
    {
      endpoint := DefaultEndpoint;
      headers := Some(map[]);
      client := DefaultClient;
    }

    /** opt.apply(&o): the closure each Option constructor returns. */
    method Apply(opt: ClientOption)
      modifies this
      ensures State() == Applied(old(State()), opt)
    {
      match opt
      case WithClient(c) =>
        client := c;
      case WithEndpoint(e) =>
        endpoint := e;
      case WithHeaders(h) =>
        headers := h;
      case WithHeader(k, v) =>
        if headers.None? {
          headers := Some(map[]);
        }
        headers := Some(Set(headers.value, k, v));
    }
  }

  /** newOptions: the defaults, then every option in order. */
  method NewOptions(opts: seq<ClientOption>) returns (o: Options)
    ensures fresh(o)
    ensures o.State() == Folded(Defaults, opts)
  {
    o := new Options();
    for i := 0 to |opts|
      invariant o.State() == Folded(Defaults, opts[..i])
    {
      assert opts[..i + 1][..i] == opts[..i];
      o.Apply(opts[i]);
    }
    assert opts[..|opts|] == opts;
  }

  /** Folding a concatenation folds the first part, then the second. */
  lemma {:induction false} FoldedAppend(s: Settings, a: seq<ClientOption>, b: seq<ClientOption>)
    ensures Folded(s, a + b) == Folded(Folded(s, a), b)
    decreases |b|
  {
    if b == [] {
      assert a + b == a;
    } else {
      assert (a + b)[..|a + b| - 1] == a + b[..|b| - 1];
      FoldedAppend(s, a, b[..|b| - 1]);
    }
  }

  /** With no options the record is the default endpoint, an empty header map and the default client. */
  lemma NoOptions()
    ensures Folded(Defaults, []) == Settings("https://www.okx.com", Some(map[]), DefaultClient)
  {
  }

  /** The endpoint of the last WithEndpoint wins; options of other kinds leave it alone. */
  lemma {:induction false} LastEndpointWins(s: Settings, opts: seq<ClientOption>, i: nat)
    requires i < |opts| && opts[i].WithEndpoint?
    requires forall j :: i < j < |opts| ==> !opts[j].WithEndpoint?
    ensures Folded(s, opts).endpoint == opts[i].endpoint
    decreases |opts|
  {
    if i < |opts| - 1 {
      LastEndpointWins(s, opts[..|opts| - 1], i);
    }
  }

  /** Without any WithEndpoint the endpoint is the starting one. */
  lemma {:induction false} EndpointKept(s: Settings, opts: seq<ClientOption>)
    requires forall j :: 0 <= j < |opts| ==> !opts[j].WithEndpoint?
    ensures Folded(s, opts).endpoint == s.endpoint
    decreases |opts|
  {
    if opts != [] {
      EndpointKept(s, opts[..|opts| - 1]);
    }
  }

  /** The client of the last WithClient wins; options of other kinds leave it alone. */
  lemma {:induction false} LastClientWins(s: Settings, opts: seq<ClientOption>, i: nat)
    requires i < |opts| && opts[i].WithClient?
    requires forall j :: i < j < |opts| ==> !opts[j].WithClient?
    ensures Folded(s, opts).client == opts[i].client
    decreases |opts|
  {
    if i < |opts| - 1 {
      LastClientWins(s, opts[..|opts| - 1], i);
    }
  }

  /**
   * WithHeader(k, v) leaves exactly the value v under k, replacing what was
   * there, and every key with another canonical form as it was, also when the
   * map was nil.
   */
  lemma WithHeaderEffect(s: Settings, k: string, v: string)
    ensures Applied(s, WithHeader(k, v)).headers.Some?
    ensures Values(Applied(s, WithHeader(k, v)).headers.value, k) == [v]
    ensures forall j :: CanonicalKey(j) != CanonicalKey(k) ==>
      Values(Applied(s, WithHeader(k, v)).headers.value, j) == Values(Allocated(s.headers), j)
  {
  }

  /** WithHeaders(h) replaces the whole map: the WithHeader options before it are lost. */
  lemma WithHeadersDiscards(s: Settings, before: seq<ClientOption>, h: Option<Header>)
    ensures Folded(s, before + [WithHeaders(h)]).headers == h
  {
    FoldedAppend(s, before, [WithHeaders(h)]);
  }

  /** WithHeader after WithHeaders(nil) starts a fresh map holding just that header. */
  lemma WithHeaderAfterNil(s: Settings, k: string, v: string)
    ensures Folded(s, [WithHeaders(None), WithHeader(k, v)]).headers == Some(map[CanonicalKey(k) := [v]])
  {
    assert [WithHeaders(None), WithHeader(k, v)][..1] == [WithHeaders(None)];
  }

  /** WithProjectID(id) puts id, alone, under OK-ACCESS-PROJECT, exactly as WithHeader does. */
  lemma ProjectIdHeader(s: Settings, id: string)
    ensures Applied(s, WithProjectID(id)) == Applied(s, WithHeader("OK-ACCESS-PROJECT", id))
    ensures Get(Applied(s, WithProjectID(id)).headers.value, "OK-ACCESS-PROJECT") == id
  {
  }
}
