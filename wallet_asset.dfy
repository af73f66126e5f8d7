/**
 * wallet/asset.go: the six balance and valuation endpoints.  The by-address
 * and total-value calls send their chain list joined even when it is empty;
 * the by-account token balance call sends it only when non-empty; the
 * *bool excludeRiskToken is sent only when non-nil.  The two POST calls send
 * their request record as the body.
 */
module WalletAsset {
  import opened Wrappers
  import opened Strconv
  import opened ErrCode
  import opened Strings
  import opened Query
  import opened Transport

  /** GetTotalValueByAddressRequest. */
  datatype GetTotalValueByAddressRequest = GetTotalValueByAddressRequest(
    address: string,
    chains: seq<string>,
    assetType: string,
    excludeRiskToken: Option<bool>)

  const GetTotalValueByAddressPath := "/api/v5/wallet/asset/total-value-by-address"

  /** The keys GetTotalValueByAddress sends, in the order the source writes them; the rules are listed in the same order in GetTotalValueByAddressRules. */
  const GetTotalValueByAddressNames: seq<string> := [
    "address",
    "chains",
    "assetType",
    "excludeRiskToken" ]

  function GetTotalValueByAddressRules(req: GetTotalValueByAddressRequest): (rs: seq<Rule>)
    ensures |rs| == |GetTotalValueByAddressNames|
  {
    [ Always(req.address),
      Always(Join(req.chains, [Comma])),
      Always(req.assetType),
      BoolIfNonNil(req.excludeRiskToken) ]
  }

  function GetTotalValueByAddressTable(req: GetTotalValueByAddressRequest): seq<Param> {
    Zip(GetTotalValueByAddressNames, GetTotalValueByAddressRules(req))
  }

  lemma GetTotalValueByAddressNamesUnique()
    ensures UniqueNames(GetTotalValueByAddressNames)
  {
  }

  /** The query map of GetTotalValueByAddress: each key follows its rule and no other key is sent. */
  function GetTotalValueByAddressQuery(req: GetTotalValueByAddressRequest): (p: Params)
    ensures Sends(p, GetTotalValueByAddressTable(req))
  {
    GetTotalValueByAddressNamesUnique();
    ZipDistinct(GetTotalValueByAddressNames, GetTotalValueByAddressRules(req));
    BuildSends(GetTotalValueByAddressTable(req));
    Build(GetTotalValueByAddressTable(req))
  }

  /** GetTotalValueByAddress: the transport error, ErrResultsNotFound for an empty list, or the first result. */
  method GetTotalValueByAddress<R>(get: Getter<seq<R>>, req: GetTotalValueByAddressRequest) returns (r: Reply<Option<R>>)
    ensures r == FirstOrNotFound(get(GetTotalValueByAddressPath, GetTotalValueByAddressQuery(req)))
  {
    var params := Assemble(GetTotalValueByAddressTable(req));
    var results := get(GetTotalValueByAddressPath, params);
    if results.err.Some? {
      return Reply(None, results.err);
    }
    if |results.value| == 0 {
      return Reply(None, Some(ErrResultsNotFound));
    }
    return Reply(Some(results.value[0]), None);
  }

  /** GetTotalTokenBalancesByAddressRequest. */
  datatype GetTotalTokenBalancesByAddressRequest = GetTotalTokenBalancesByAddressRequest(
    address: string,
    chains: seq<string>,
    filter: string)

  const GetTotalTokenBalancesByAddressPath := "/api/v5/wallet/asset/all-token-balances-by-address"

  /** The keys GetTotalTokenBalancesByAddress sends, in the order the source writes them; the rules are listed in the same order in GetTotalTokenBalancesByAddressRules. */
  const GetTotalTokenBalancesByAddressNames: seq<string> := ["address", "chains", "filter"]

  function GetTotalTokenBalancesByAddressRules(req: GetTotalTokenBalancesByAddressRequest): (rs: seq<Rule>)
    ensures |rs| == |GetTotalTokenBalancesByAddressNames|
  {
    [ Always(req.address),
      Always(Join(req.chains, [Comma])),
      Always(req.filter) ]
  }

  function GetTotalTokenBalancesByAddressTable(req: GetTotalTokenBalancesByAddressRequest): seq<Param> {
    Zip(GetTotalTokenBalancesByAddressNames, GetTotalTokenBalancesByAddressRules(req))
  }

  lemma GetTotalTokenBalancesByAddressNamesUnique()
    ensures UniqueNames(GetTotalTokenBalancesByAddressNames)
  {
  }

  /** The query map of GetTotalTokenBalancesByAddress: each key follows its rule and no other key is sent. */
  function GetTotalTokenBalancesByAddressQuery(req: GetTotalTokenBalancesByAddressRequest): (p: Params)
    ensures Sends(p, GetTotalTokenBalancesByAddressTable(req))
  {
    GetTotalTokenBalancesByAddressNamesUnique();
    ZipDistinct(GetTotalTokenBalancesByAddressNames, GetTotalTokenBalancesByAddressRules(req));
    BuildSends(GetTotalTokenBalancesByAddressTable(req));
    Build(GetTotalTokenBalancesByAddressTable(req))
  }

  /** GetTotalTokenBalancesByAddress: the transport error, ErrResultsNotFound for an empty list, or the first result. */
  method GetTotalTokenBalancesByAddress<R>(get: Getter<seq<R>>, req: GetTotalTokenBalancesByAddressRequest) returns (r: Reply<Option<R>>)
    ensures r == FirstOrNotFound(get(GetTotalTokenBalancesByAddressPath, GetTotalTokenBalancesByAddressQuery(req)))
  {
    var params := Assemble(GetTotalTokenBalancesByAddressTable(req));
    var results := get(GetTotalTokenBalancesByAddressPath, params);
    if results.err.Some? {
      return Reply(None, results.err);
    }
    if |results.value| == 0 {
      return Reply(None, Some(ErrResultsNotFound));
    }
    return Reply(Some(results.value[0]), None);
  }

  /** address, chains and filter are sent on every call. */
  lemma GetTotalTokenBalancesByAddressSendsEveryKey(req: GetTotalTokenBalancesByAddressRequest)
    ensures GetTotalTokenBalancesByAddressQuery(req).Keys == Names(GetTotalTokenBalancesByAddressTable(req))
  {
    SendsEveryName(GetTotalTokenBalancesByAddressQuery(req), GetTotalTokenBalancesByAddressTable(req));
  }

  const GetTokenBalancesByAddressPath := "/api/v5/wallet/asset/token-balances-by-address"

  /** GetTokenBalancesByAddress posts the request record unchanged and returns first-or-not-found. */
  method GetTokenBalancesByAddress<B, R>(post: Poster<B, seq<R>>, req: B) returns (r: Reply<Option<R>>)
    ensures r == FirstOrNotFound(post(GetTokenBalancesByAddressPath, req))
  {
    var results := post(GetTokenBalancesByAddressPath, req);
    if results.err.Some? {
      return Reply(None, results.err);
    }
    if |results.value| == 0 {
      return Reply(None, Some(ErrResultsNotFound));
    }
    return Reply(Some(results.value[0]), None);
  }

  /** GetTotalValueByAccountRequest. */
  datatype GetTotalValueByAccountRequest = GetTotalValueByAccountRequest(
    accountId: string,
    chains: seq<string>,
    assetType: string,
    excludeRiskToken: Option<bool>)

  const GetTotalValueByAccountPath := "/api/v5/wallet/asset/total-value"

  /** The keys GetTotalValueByAccount sends, in the order the source writes them; the rules are listed in the same order in GetTotalValueByAccountRules. */
  const GetTotalValueByAccountNames: seq<string> := [
    "accountId",
    "chains",
    "assetType",
    "excludeRiskToken" ]

  function GetTotalValueByAccountRules(req: GetTotalValueByAccountRequest): (rs: seq<Rule>)
    ensures |rs| == |GetTotalValueByAccountNames|
  {
    [ Always(req.accountId),
      Always(Join(req.chains, [Comma])),
      Always(req.assetType),
      BoolIfNonNil(req.excludeRiskToken) ]
  }

  function GetTotalValueByAccountTable(req: GetTotalValueByAccountRequest): seq<Param> {
    Zip(GetTotalValueByAccountNames, GetTotalValueByAccountRules(req))
  }

  lemma GetTotalValueByAccountNamesUnique()
    ensures UniqueNames(GetTotalValueByAccountNames)
  {
  }

  /** The query map of GetTotalValueByAccount: each key follows its rule and no other key is sent. */
  function GetTotalValueByAccountQuery(req: GetTotalValueByAccountRequest): (p: Params)
    ensures Sends(p, GetTotalValueByAccountTable(req))
  {
    GetTotalValueByAccountNamesUnique();
    ZipDistinct(GetTotalValueByAccountNames, GetTotalValueByAccountRules(req));
    BuildSends(GetTotalValueByAccountTable(req));
    Build(GetTotalValueByAccountTable(req))
  }

  /** GetTotalValueByAccount: the transport error, ErrResultsNotFound for an empty list, or the first result. */
  method GetTotalValueByAccount<R>(get: Getter<seq<R>>, req: GetTotalValueByAccountRequest) returns (r: Reply<Option<R>>)
    ensures r == FirstOrNotFound(get(GetTotalValueByAccountPath, GetTotalValueByAccountQuery(req)))
  {
    var params := Assemble(GetTotalValueByAccountTable(req));
    var results := get(GetTotalValueByAccountPath, params);
    if results.err.Some? {
      return Reply(None, results.err);
    }
    if |results.value| == 0 {
      return Reply(None, Some(ErrResultsNotFound));
    }
    return Reply(Some(results.value[0]), None);
  }

  /** GetTotalTokenBalancesByAccountRequest. */
  datatype GetTotalTokenBalancesByAccountRequest = GetTotalTokenBalancesByAccountRequest(
    accountId: string,
    chains: seq<string>,
    filter: string)

  const GetTotalTokenBalancesByAccountPath := "/api/v5/wallet/asset/wallet-all-token-balances"

  /** The keys GetTotalTokenBalancesByAccount sends, in the order the source writes them; the rules are listed in the same order in GetTotalTokenBalancesByAccountRules. */
  const GetTotalTokenBalancesByAccountNames: seq<string> := ["accountId", "chains", "filter"]

  function GetTotalTokenBalancesByAccountRules(req: GetTotalTokenBalancesByAccountRequest): (rs: seq<Rule>)
    ensures |rs| == |GetTotalTokenBalancesByAccountNames|
  {
    [ Always(req.accountId),
      ListIfNonEmpty(req.chains),
      IfNonEmpty(req.filter) ]
  }

  function GetTotalTokenBalancesByAccountTable(req: GetTotalTokenBalancesByAccountRequest): seq<Param> {
    Zip(GetTotalTokenBalancesByAccountNames, GetTotalTokenBalancesByAccountRules(req))
  }

  lemma GetTotalTokenBalancesByAccountNamesUnique()
    ensures UniqueNames(GetTotalTokenBalancesByAccountNames)
  {
  }

  /** The query map of GetTotalTokenBalancesByAccount: each key follows its rule and no other key is sent. */
  function GetTotalTokenBalancesByAccountQuery(req: GetTotalTokenBalancesByAccountRequest): (p: Params)
    ensures Sends(p, GetTotalTokenBalancesByAccountTable(req))
  {
    GetTotalTokenBalancesByAccountNamesUnique();
    ZipDistinct(GetTotalTokenBalancesByAccountNames, GetTotalTokenBalancesByAccountRules(req));
    BuildSends(GetTotalTokenBalancesByAccountTable(req));
    Build(GetTotalTokenBalancesByAccountTable(req))
  }

  /** GetTotalTokenBalancesByAccount: the transport error, ErrResultsNotFound for an empty list, or the first result. */
  method GetTotalTokenBalancesByAccount<R>(get: Getter<seq<R>>, req: GetTotalTokenBalancesByAccountRequest) returns (r: Reply<Option<R>>)
    ensures r == FirstOrNotFound(get(GetTotalTokenBalancesByAccountPath, GetTotalTokenBalancesByAccountQuery(req)))
  {
    var params := Assemble(GetTotalTokenBalancesByAccountTable(req));
    var results := get(GetTotalTokenBalancesByAccountPath, params);
    if results.err.Some? {
      return Reply(None, results.err);
    }
    if |results.value| == 0 {
      return Reply(None, Some(ErrResultsNotFound));
    }
    return Reply(Some(results.value[0]), None);
  }

  const GetTokenBalancesByAccountPath := "/api/v5/wallet/asset/token-balances"

  /** GetTokenBalancesByAccount posts the request record unchanged and returns first-or-not-found. */
  method GetTokenBalancesByAccount<B, R>(post: Poster<B, seq<R>>, req: B) returns (r: Reply<Option<R>>)
    ensures r == FirstOrNotFound(post(GetTokenBalancesByAccountPath, req))
  {
    var results := post(GetTokenBalancesByAccountPath, req);
    if results.err.Some? {
      return Reply(None, results.err);
    }
    if |results.value| == 0 {
      return Reply(None, Some(ErrResultsNotFound));
    }
    return Reply(Some(results.value[0]), None);
  }
}
