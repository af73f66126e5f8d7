/**
 * dex/crosschain/quote.go: GetQuote, six keys always, the sort order only
 * when non-zero (as its decimal rendering) and the bridge lists only when
 * non-empty (joined with commas).
 */
module CrossChainQuote {
  import opened Wrappers
  import opened Strconv
  import opened ErrCode
  import opened Query
  import opened Transport

  /** GetQuoteRequest; Go's int sort field is 64 bits wide. */
  datatype GetQuoteRequest = GetQuoteRequest(
    fromChainId: string,
    toChainId: string,
    fromTokenAddress: string,
    toTokenAddress: string,
    amount: string,
    slippage: string,
    sort: Int64,
    feePercent: string,
    allowBridge: seq<string>,
    denyBridge: seq<string>,
    priceImpactProtectionPercentage: string)

  const GetQuotePath := "/api/v5/dex/cross-chain/quote"

  /** The keys GetQuote sends, in the order the source writes them; the rules are listed in the same order in GetQuoteRules. */
  const GetQuoteNames: seq<string> := [
    "fromChainId",
    "toChainId",
    "fromTokenAddress",
    "toTokenAddress",
    "amount",
    "slippage",
    "sort",
    "feePercent",
    "allowBridge",
    "denyBridge",
    "priceImpactProtectionPercentage" ]

  function GetQuoteRules(quote: GetQuoteRequest): (rs: seq<Rule>)
    ensures |rs| == |GetQuoteNames|
  {
    [ Always(quote.fromChainId),
      Always(quote.toChainId),
      Always(quote.fromTokenAddress),
      Always(quote.toTokenAddress),
      Always(quote.amount),
      Always(quote.slippage),
      IntIfNonZero(quote.sort),
      IfNonEmpty(quote.feePercent),
      ListIfNonEmpty(quote.allowBridge),
      ListIfNonEmpty(quote.denyBridge),
      IfNonEmpty(quote.priceImpactProtectionPercentage) ]
  }

  function GetQuoteTable(quote: GetQuoteRequest): seq<Param> {
    Zip(GetQuoteNames, GetQuoteRules(quote))
  }

  /** The position of key k in GetQuoteNames, or -1; lengths are compared first so that most keys are told apart without comparing characters. */
  function GetQuotePosition(k: string): int {
    if |k| == 11 && k == "fromChainId" then 0 else
    if |k| == 9 && k == "toChainId" then 1 else
    if |k| == 16 && k == "fromTokenAddress" then 2 else
    if |k| == 14 && k == "toTokenAddress" then 3 else
    if |k| == 6 && k == "amount" then 4 else
    if |k| == 8 && k == "slippage" then 5 else
    if |k| == 4 && k == "sort" then 6 else
    if |k| == 10 && k == "feePercent" then 7 else
    if |k| == 11 && k == "allowBridge" then 8 else
    if |k| == 10 && k == "denyBridge" then 9 else
    if |k| == 31 && k == "priceImpactProtectionPercentage" then 10 else
    -1
  }

  lemma GetQuotePositions()
    ensures forall i :: 0 <= i < |GetQuoteNames| ==> GetQuotePosition(GetQuoteNames[i]) == i
  {
  }

  lemma GetQuoteNamesUnique()
    ensures UniqueNames(GetQuoteNames)
  {
    GetQuotePositions();
    PositionsUnique(GetQuoteNames, GetQuotePosition);
  }

  /** The query map of GetQuote: each key follows its rule and no other key is sent. */
  function GetQuoteQuery(quote: GetQuoteRequest): (p: Params)
    ensures Sends(p, GetQuoteTable(quote))
  {
    GetQuoteNamesUnique();
    ZipDistinct(GetQuoteNames, GetQuoteRules(quote));
    BuildSends(GetQuoteTable(quote));
    Build(GetQuoteTable(quote))
  }

  /** GetQuote: the transport error, ErrResultsNotFound for an empty list, or the first result. */
  method GetQuote<R>(get: Getter<seq<R>>, quote: GetQuoteRequest) returns (r: Reply<Option<R>>)
    ensures r == FirstOrNotFound(get(GetQuotePath, GetQuoteQuery(quote)))
  {
    var params := Assemble(GetQuoteTable(quote));
    var results := get(GetQuotePath, params);
    if results.err.Some? {
      return Reply(None, results.err);
    }
    if |results.value| == 0 {
      return Reply(None, Some(ErrResultsNotFound));
    }
    return Reply(Some(results.value[0]), None);
  }
}
