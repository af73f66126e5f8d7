/**
 * dex/limitorder/limitorder.go: the limit-order endpoints.  CreateOrder posts
 * its request record; ListOrders returns the whole list; GetOrder answers
 * (nil, nil) for an empty list; CancelOrder decodes a bare calldata string
 * and ignores its chainId argument.
 */
module LimitOrder {
  import opened Wrappers
  import opened ErrCode
  import opened Query
  import opened Transport

  const CreateOrderPath := "/dex/aggregator/limit-order/save-order"

  /** CreateOrder posts the request record unchanged: the transport error, ErrResultsNotFound for an empty list, or the first result. */
  method CreateOrder<B, R>(post: Poster<B, seq<R>>, req: B) returns (r: Reply<Option<R>>)
    ensures r == FirstOrNotFound(post(CreateOrderPath, req))
  {
    var results := post(CreateOrderPath, req);
    if results.err.Some? {
      return Reply(None, results.err);
    }
    if |results.value| == 0 {
      return Reply(None, Some(ErrResultsNotFound));
    }
    return Reply(Some(results.value[0]), None);
  }

  /** ListOrdersRequest. */
  datatype ListOrdersRequest = ListOrdersRequest(
    chainId: string,
    page: string,
    limit: string,
    statuses: string,
    takerAsset: string,
    makerAsset: string)

  const ListOrdersPath := "/dex/aggregator/limit-order/all"

  /** The keys ListOrders sends, in the order the source writes them; the rules are listed in the same order in ListOrdersRules. */
  const ListOrdersNames: seq<string> := [
    "chainId",
    "page",
    "limit",
    "statuses",
    "takerAsset",
    "makerAsset" ]

  function ListOrdersRules(req: ListOrdersRequest): (rs: seq<Rule>)
    ensures |rs| == |ListOrdersNames|
  {
    [ Always(req.chainId),
      IfNonEmpty(req.page),
      IfNonEmpty(req.limit),
      IfNonEmpty(req.statuses),
      IfNonEmpty(req.takerAsset),
      IfNonEmpty(req.makerAsset) ]
  }

  function ListOrdersTable(req: ListOrdersRequest): seq<Param> {
    Zip(ListOrdersNames, ListOrdersRules(req))
  }

  /** The position of key k in ListOrdersNames, or -1; lengths are compared first so that most keys are told apart without comparing characters. */
  function ListOrdersPosition(k: string): int {
    if |k| == 7 && k == "chainId" then 0 else
    if |k| == 4 && k == "page" then 1 else
    if |k| == 5 && k == "limit" then 2 else
    if |k| == 8 && k == "statuses" then 3 else
    if |k| == 10 && k == "takerAsset" then 4 else
    if |k| == 10 && k == "makerAsset" then 5 else
    -1
  }

  lemma ListOrdersPositions()
    ensures forall i :: 0 <= i < |ListOrdersNames| ==> ListOrdersPosition(ListOrdersNames[i]) == i
  {
  }

  lemma ListOrdersNamesUnique()
    ensures UniqueNames(ListOrdersNames)
  {
    ListOrdersPositions();
    PositionsUnique(ListOrdersNames, ListOrdersPosition);
  }

  /** The query map of ListOrders: each key follows its rule and no other key is sent. */
  function ListOrdersQuery(req: ListOrdersRequest): (p: Params)
    ensures Sends(p, ListOrdersTable(req))
  {
    ListOrdersNamesUnique();
    ZipDistinct(ListOrdersNames, ListOrdersRules(req));
    BuildSends(ListOrdersTable(req));
    Build(ListOrdersTable(req))
  }

  /** ListOrders: the transport error, ErrResultsNotFound for an empty list, or the whole list. */
  method ListOrders<R>(get: Getter<seq<R>>, req: ListOrdersRequest) returns (r: Reply<seq<R>>)
    ensures r == ListOrNotFound(get(ListOrdersPath, ListOrdersQuery(req)))
  {
    var params := Assemble(ListOrdersTable(req));
    var results := get(ListOrdersPath, params);
    if results.err.Some? {
      return Reply([], results.err);
    }
    if |results.value| == 0 {
      return Reply([], Some(ErrResultsNotFound));
    }
    return Reply(results.value, None);
  }

  const GetOrderPath := "/dex/aggregator/limit-order/detail"

  /** The keys GetOrder sends, in the order the source writes them; the rules are listed in the same order in GetOrderRules. */
  const GetOrderNames: seq<string> := ["chainId", "orderHash"]

  function GetOrderRules(chainId: string, orderHash: string): (rs: seq<Rule>)
    ensures |rs| == |GetOrderNames|
  {
    [Always(chainId), Always(orderHash)]
  }

  function GetOrderTable(chainId: string, orderHash: string): seq<Param> {
    Zip(GetOrderNames, GetOrderRules(chainId, orderHash))
  }

  lemma GetOrderNamesUnique()
    ensures UniqueNames(GetOrderNames)
  {
  }

  /** The query map of GetOrder: each key follows its rule and no other key is sent. */
  function GetOrderQuery(chainId: string, orderHash: string): (p: Params)
    ensures Sends(p, GetOrderTable(chainId, orderHash))
  {
    GetOrderNamesUnique();
    ZipDistinct(GetOrderNames, GetOrderRules(chainId, orderHash));
    BuildSends(GetOrderTable(chainId, orderHash));
    Build(GetOrderTable(chainId, orderHash))
  }

  /** GetOrder: the transport error, (nil, nil) for an empty list, or the first result. */
  method GetOrder<R>(get: Getter<seq<R>>, chainId: string, orderHash: string) returns (r: Reply<Option<R>>)
    ensures r == FirstOrNil(get(GetOrderPath, GetOrderQuery(chainId, orderHash)))
  {
    var params := Assemble(GetOrderTable(chainId, orderHash));
    var results := get(GetOrderPath, params);
    if results.err.Some? {
      return Reply(None, results.err);
    }
    if |results.value| == 0 {
      return Reply(None, None);
    }
    return Reply(Some(results.value[0]), None);
  }

  /** GetOrder sends exactly chainId and orderHash. */
  lemma GetOrderSendsEveryKey(chainId: string, orderHash: string)
    ensures GetOrderQuery(chainId, orderHash).Keys == Names(GetOrderTable(chainId, orderHash))
  {
    SendsEveryName(GetOrderQuery(chainId, orderHash), GetOrderTable(chainId, orderHash));
  }

  const CancelOrderPath := "/dex/aggregator/limit-order/cancel/calldata"

  /** The keys CancelOrder sends, in the order the source writes them; the rules are listed in the same order in CancelOrderRules. */
  const CancelOrderNames: seq<string> := ["orderHash"]

  function CancelOrderRules(chainId: string, orderHash: string): (rs: seq<Rule>)
    ensures |rs| == |CancelOrderNames|
  {
    [Always(orderHash)]
  }

  function CancelOrderTable(chainId: string, orderHash: string): seq<Param> {
    Zip(CancelOrderNames, CancelOrderRules(chainId, orderHash))
  }

  lemma CancelOrderNamesUnique()
    ensures UniqueNames(CancelOrderNames)
  {
  }

  /** The query map of CancelOrder: each key follows its rule and no other key is sent. */
  function CancelOrderQuery(chainId: string, orderHash: string): (p: Params)
    ensures Sends(p, CancelOrderTable(chainId, orderHash))
  {
    CancelOrderNamesUnique();
    ZipDistinct(CancelOrderNames, CancelOrderRules(chainId, orderHash));
    BuildSends(CancelOrderTable(chainId, orderHash));
    Build(CancelOrderTable(chainId, orderHash))
  }

  /** CancelOrder: the empty string with the transport error, or the decoded calldata. */
  method CancelOrder(get: Getter<string>, chainId: string, orderHash: string) returns (r: Reply<string>)
    ensures r == ValueOrZero(get(CancelOrderPath, CancelOrderQuery(chainId, orderHash)), "")
  {
    var params := Assemble(CancelOrderTable(chainId, orderHash));
    var calldata := get(CancelOrderPath, params);
    if calldata.err.Some? {
      return Reply("", calldata.err);
    }
    return calldata;
  }

  /** The chainId argument of CancelOrder is never sent: only the order hash decides the query. */
  lemma CancelOrderIgnoresChainId(a: string, b: string, orderHash: string)
    ensures CancelOrderQuery(a, orderHash) == CancelOrderQuery(b, orderHash)
    ensures CancelOrderQuery(a, orderHash).Keys == {"orderHash"}
  {
    SendsEveryName(CancelOrderQuery(a, orderHash), CancelOrderTable(a, orderHash));
    assert CancelOrderTable(a, orderHash) == CancelOrderTable(b, orderHash);
  }
}
