/**
 * client/transport.go: the Transport interface every endpoint file calls.
 * A call `tr.Get(ctx, path, params, &target)` is modelled as a function from
 * (path, params) to the Reply it produces: the target's state after the call
 * (starting from its zero value) together with the error returned.  The
 * selection helpers below are the ways the endpoint files turn that Reply
 * into their own return pair.
 */
module Transport {
  import opened Wrappers
  import opened ErrCode
  import opened Query

  /** A Go (value, error) pair; `err == None` is a nil error. */
  datatype Reply<T> = Reply(value: T, err: Option<Error>)

  /** Transport.Get: path and query parameters to the decoded target and error. */
  type Getter<T> = (string, Params) -> Reply<T>

  /** Transport.Post: path and request body to the decoded target and error. */
  type Poster<!B, T> = (string, B) -> Reply<T>

  /**
   * The most common tail of an endpoint: on a transport error return (nil, err);
   * on an empty list return (nil, ErrResultsNotFound); otherwise (results[0], nil).
   */
  function FirstOrNotFound<T>(r: Reply<seq<T>>): (o: Reply<Option<T>>)
    ensures r.err.Some? ==> o == Reply(None, r.err)
    ensures r.err.None? && r.value == [] ==> o == Reply(None, Some(ErrResultsNotFound))
    ensures r.err.None? && r.value != [] ==> o == Reply(Some(r.value[0]), None)
  {
    if r.err.Some? then Reply(None, r.err)
    else if r.value == [] then Reply(None, Some(ErrResultsNotFound))
    else Reply(Some(r.value[0]), None)
  }

  /** The list endpoints: the whole list, or ErrResultsNotFound when it is empty. */
  function ListOrNotFound<T>(r: Reply<seq<T>>): (o: Reply<seq<T>>)
    ensures r.err.Some? ==> o == Reply([], r.err)
    ensures r.err.None? && r.value == [] ==> o == Reply([], Some(ErrResultsNotFound))
    ensures r.err.None? && r.value != [] ==> o == Reply(r.value, None)
  {
    if r.err.Some? then Reply([], r.err)
    else if r.value == [] then Reply([], Some(ErrResultsNotFound))
    else Reply(r.value, None)
  }

  /** dex/limitorder GetOrder: like FirstOrNotFound, but an empty list is (nil, nil). */
  function FirstOrNil<T>(r: Reply<seq<T>>): (o: Reply<Option<T>>)
    ensures r.err.Some? ==> o == Reply(None, r.err)
    ensures r.err.None? && r.value == [] ==> o == Reply(None, None)
    ensures r.err.None? && r.value != [] ==> o == Reply(Some(r.value[0]), None)
  {
    if r.err.Some? then Reply(None, r.err)
    else if r.value == [] then Reply(None, None)
    else Reply(Some(r.value[0]), None)
  }

  /** Decoding straight into a *T target: the target stays nil on a nil data field; on error nil is returned. */
  function DirectOrNil<T>(r: Reply<Option<T>>): (o: Reply<Option<T>>)
    ensures r.err.Some? ==> o == Reply(None, r.err)
    ensures r.err.None? ==> o == r
  {
    if r.err.Some? then Reply(None, r.err) else r
  }

  /** dex/limitorder CancelOrder: the decoded value on success, the zero value with the error on failure. */
  function ValueOrZero<T>(r: Reply<T>, zero: T): (o: Reply<T>)
    ensures r.err.Some? ==> o == Reply(zero, r.err)
    ensures r.err.None? ==> o == r
  {
    if r.err.Some? then Reply(zero, r.err) else r
  }

  /** A single-result endpoint succeeds exactly when the transport succeeded with a non-empty list, and then returns an element of it. */
  lemma FirstOrNotFoundOutcome<T>(r: Reply<seq<T>>)
    ensures FirstOrNotFound(r).err.None? <==> r.err.None? && r.value != []
    ensures FirstOrNotFound(r).value.Some? <==> FirstOrNotFound(r).err.None?
    ensures FirstOrNotFound(r).value.Some? ==> FirstOrNotFound(r).value.value in r.value
    ensures FirstOrNotFound(r).err.Some? && r.err.None? ==> CodeOf(FirstOrNotFound(r).err).None?
  {
  }

  /** The two list-selection tails agree with FirstOrNotFound on success and failure. */
  lemma ListAndFirstAgree<T>(r: Reply<seq<T>>)
    ensures ListOrNotFound(r).err == FirstOrNotFound(r).err
    ensures ListOrNotFound(r).err.None? ==> FirstOrNotFound(r).value == Some(ListOrNotFound(r).value[0])
  {
  }

  /** FirstOrNil differs from FirstOrNotFound only in giving (nil, nil) for an empty list. */
  lemma FirstOrNilDiffers<T>(r: Reply<seq<T>>)
    ensures FirstOrNil(r).value == FirstOrNotFound(r).value
    ensures FirstOrNil(r).err != FirstOrNotFound(r).err <==> r.err.None? && r.value == []
  {
  }
}
