/**
 * wallet/post_transaction.go: the order list and the address history
 * queries, both made only of conditional inserts apart from the history's
 * address.
 */
module WalletPostTransaction {
  import opened Wrappers
  import opened ErrCode
  import opened Query
  import opened Transport

  /** TransactionOrderRequest. */
  datatype TransactionOrderRequest = TransactionOrderRequest(
    address: string,
    accountId: string,
    chainIndex: string,
    txStatus: string,
    orderId: string,
    cursor: string,
    limit: string)

  const GetTransactionOrderPath := "/api/v5/wallet/post-transaction/orders"

  /** The keys GetTransactionOrder sends, in the order the source writes them; the rules are listed in the same order in GetTransactionOrderRules. */
  const GetTransactionOrderNames: seq<string> := [
    "address",
    "accountId",
    "chainIndex",
    "txStatus",
    "orderId",
    "cursor",
    "limit" ]

  function GetTransactionOrderRules(req: TransactionOrderRequest): (rs: seq<Rule>)
    ensures |rs| == |GetTransactionOrderNames|
  {
    [ IfNonEmpty(req.address),
      IfNonEmpty(req.accountId),
      IfNonEmpty(req.chainIndex),
      IfNonEmpty(req.txStatus),
      IfNonEmpty(req.orderId),
      IfNonEmpty(req.cursor),
      IfNonEmpty(req.limit) ]
  }

  function GetTransactionOrderTable(req: TransactionOrderRequest): seq<Param> {
    Zip(GetTransactionOrderNames, GetTransactionOrderRules(req))
  }

  /** The position of key k in GetTransactionOrderNames, or -1; lengths are compared first so that most keys are told apart without comparing characters. */
  function GetTransactionOrderPosition(k: string): int {
    if |k| == 7 && k == "address" then 0 else
    if |k| == 9 && k == "accountId" then 1 else
    if |k| == 10 && k == "chainIndex" then 2 else
    if |k| == 8 && k == "txStatus" then 3 else
    if |k| == 7 && k == "orderId" then 4 else
    if |k| == 6 && k == "cursor" then 5 else
    if |k| == 5 && k == "limit" then 6 else
    -1
  }

  lemma GetTransactionOrderPositions()
    ensures forall i :: 0 <= i < |GetTransactionOrderNames| ==> GetTransactionOrderPosition(GetTransactionOrderNames[i]) == i
  {
  }

  lemma GetTransactionOrderNamesUnique()
    ensures UniqueNames(GetTransactionOrderNames)
  {
    GetTransactionOrderPositions();
    PositionsUnique(GetTransactionOrderNames, GetTransactionOrderPosition);
  }

  /** The query map of GetTransactionOrder: each key follows its rule and no other key is sent. */
  function GetTransactionOrderQuery(req: TransactionOrderRequest): (p: Params)
    ensures Sends(p, GetTransactionOrderTable(req))
  {
    GetTransactionOrderNamesUnique();
    ZipDistinct(GetTransactionOrderNames, GetTransactionOrderRules(req));
    BuildSends(GetTransactionOrderTable(req));
    Build(GetTransactionOrderTable(req))
  }

  /** GetTransactionOrder: the transport error, ErrResultsNotFound for an empty list, or the whole list. */
  method GetTransactionOrder<R>(get: Getter<seq<R>>, req: TransactionOrderRequest) returns (r: Reply<seq<R>>)
    ensures r == ListOrNotFound(get(GetTransactionOrderPath, GetTransactionOrderQuery(req)))
  {
    var params := Assemble(GetTransactionOrderTable(req));
    var results := get(GetTransactionOrderPath, params);
    if results.err.Some? {
      return Reply([], results.err);
    }
    if |results.value| == 0 {
      return Reply([], Some(ErrResultsNotFound));
    }
    return Reply(results.value, None);
  }

  /** A request whose seven fields are all empty sends the empty map. */
  lemma GetTransactionOrderSendsNothing(req: TransactionOrderRequest)
    requires req.address == "" && req.accountId == "" && req.chainIndex == "" && req.txStatus == "" && req.orderId == "" && req.cursor == "" && req.limit == ""
    ensures GetTransactionOrderQuery(req) == map[]
  {
    SendsNothing(GetTransactionOrderQuery(req), GetTransactionOrderTable(req));
  }

  /** GetTransactionHistoryByAddressRequest. */
  datatype GetTransactionHistoryByAddressRequest = GetTransactionHistoryByAddressRequest(
    address: string,
    chains: seq<string>,
    chainIndex: string,
    tokenAddress: string,
    begin: string,
    end: string,
    cursor: string,
    limit: string,
    excludeRiskToken: Option<bool>)

  const GetTransactionHistoryByAddressPath := "/api/v5/wallet/post-transaction/transactions-by-address"

  /** The keys GetTransactionHistoryByAddress sends, in the order the source writes them; the rules are listed in the same order in GetTransactionHistoryByAddressRules. */
  const GetTransactionHistoryByAddressNames: seq<string> := [
    "address",
    "chains",
    "tokenAddress",
    "begin",
    "end",
    "cursor",
    "limit",
    "excludeRiskToken" ]

  function GetTransactionHistoryByAddressRules(req: GetTransactionHistoryByAddressRequest): (rs: seq<Rule>)
    ensures |rs| == |GetTransactionHistoryByAddressNames|
  {
    [ Always(req.address),
      ListIfNonEmpty(req.chains),
      IfNonEmpty(req.tokenAddress),
      IfNonEmpty(req.begin),
      IfNonEmpty(req.end),
      IfNonEmpty(req.cursor),
      IfNonEmpty(req.limit),
      BoolIfNonNil(req.excludeRiskToken) ]
  }

  function GetTransactionHistoryByAddressTable(req: GetTransactionHistoryByAddressRequest): seq<Param> {
    Zip(GetTransactionHistoryByAddressNames, GetTransactionHistoryByAddressRules(req))
  }

  /** The position of key k in GetTransactionHistoryByAddressNames, or -1; lengths are compared first so that most keys are told apart without comparing characters. */
  function GetTransactionHistoryByAddressPosition(k: string): int {
    if |k| == 7 && k == "address" then 0 else
    if |k| == 6 && k == "chains" then 1 else
    if |k| == 12 && k == "tokenAddress" then 2 else
    if |k| == 5 && k == "begin" then 3 else
    if |k| == 3 && k == "end" then 4 else
    if |k| == 6 && k == "cursor" then 5 else
    if |k| == 5 && k == "limit" then 6 else
    if |k| == 16 && k == "excludeRiskToken" then 7 else
    -1
  }

  lemma GetTransactionHistoryByAddressPositions()
    ensures forall i :: 0 <= i < |GetTransactionHistoryByAddressNames| ==> GetTransactionHistoryByAddressPosition(GetTransactionHistoryByAddressNames[i]) == i
  {
  }

  lemma GetTransactionHistoryByAddressNamesUnique()
    ensures UniqueNames(GetTransactionHistoryByAddressNames)
  {
    GetTransactionHistoryByAddressPositions();
    PositionsUnique(GetTransactionHistoryByAddressNames, GetTransactionHistoryByAddressPosition);
  }

  /** The query map of GetTransactionHistoryByAddress: each key follows its rule and no other key is sent. */
  function GetTransactionHistoryByAddressQuery(req: GetTransactionHistoryByAddressRequest): (p: Params)
    ensures Sends(p, GetTransactionHistoryByAddressTable(req))
  {
    GetTransactionHistoryByAddressNamesUnique();
    ZipDistinct(GetTransactionHistoryByAddressNames, GetTransactionHistoryByAddressRules(req));
    BuildSends(GetTransactionHistoryByAddressTable(req));
    Build(GetTransactionHistoryByAddressTable(req))
  }

  /** GetTransactionHistoryByAddress: the transport error, ErrResultsNotFound for an empty list, or the first result. */
  method GetTransactionHistoryByAddress<R>(get: Getter<seq<R>>, req: GetTransactionHistoryByAddressRequest) returns (r: Reply<Option<R>>)
    ensures r == FirstOrNotFound(get(GetTransactionHistoryByAddressPath, GetTransactionHistoryByAddressQuery(req)))
  {
    var params := Assemble(GetTransactionHistoryByAddressTable(req));
    var results := get(GetTransactionHistoryByAddressPath, params);
    if results.err.Some? {
      return Reply(None, results.err);
    }
    if |results.value| == 0 {
      return Reply(None, Some(ErrResultsNotFound));
    }
    return Reply(Some(results.value[0]), None);
  }

  /** The request field GetTransactionHistoryByAddress has but never sends. */
  const HistoryUnsent: seq<string> := ["chainIndex"]

  lemma HistoryUnsentAbsent()
    ensures forall i :: 0 <= i < |HistoryUnsent| ==> Absent(HistoryUnsent[i], GetTransactionHistoryByAddressNames)
  {
  }

  /** The request's chainIndex field is never sent, whatever its value. */
  lemma HistoryOmitsChainIndex(req: GetTransactionHistoryByAddressRequest)
    ensures forall i :: 0 <= i < |HistoryUnsent| ==> HistoryUnsent[i] !in GetTransactionHistoryByAddressQuery(req)
  {
    HistoryUnsentAbsent();
    forall i | 0 <= i < |HistoryUnsent|
      ensures HistoryUnsent[i] !in GetTransactionHistoryByAddressQuery(req)
    {
      SendsOnlyNames(GetTransactionHistoryByAddressQuery(req), GetTransactionHistoryByAddressNames, GetTransactionHistoryByAddressRules(req), HistoryUnsent[i]);
    }
  }
}
