/**
 * dex/swap/quotes.go: the swap package's copy of GetQuotes, with its own
 * request record and the same map literal as dex/quotes.go.
 */
module SwapQuotes {
  import opened Wrappers
  import opened ErrCode
  import opened Strings
  import opened Query
  import opened Transport
  import DexQuotes

  /** GetQuotesRequest. */
  datatype GetQuotesRequest = GetQuotesRequest(
    chainId: string,
    amount: string,
    fromTokenAddress: string,
    toTokenAddress: string,
    dexIds: seq<string>,
    priceImpactProtectionPercentage: string,
    feePercent: string)

  const GetQuotesPath := "/api/v5/dex/aggregator/quote"

  /** The keys GetQuotes sends, in the order the source writes them; the rules are listed in the same order in GetQuotesRules. */
  const GetQuotesNames: seq<string> := [
    "chainId",
    "amount",
    "fromTokenAddress",
    "toTokenAddress",
    "dexIds",
    "priceImpactProtectionPercentage",
    "feePercent" ]

  function GetQuotesRules(req: GetQuotesRequest): (rs: seq<Rule>)
    ensures |rs| == |GetQuotesNames|
  {
    [ Always(req.chainId),
      Always(req.amount),
      Always(req.fromTokenAddress),
      Always(req.toTokenAddress),
      Always(Join(req.dexIds, [Comma])),
      Always(req.priceImpactProtectionPercentage),
      Always(req.feePercent) ]
  }

  function GetQuotesTable(req: GetQuotesRequest): seq<Param> {
    Zip(GetQuotesNames, GetQuotesRules(req))
  }

  /** The position of key k in GetQuotesNames, or -1; lengths are compared first so that most keys are told apart without comparing characters. */
  function GetQuotesPosition(k: string): int {
    if |k| == 7 && k == "chainId" then 0 else
    if |k| == 6 && k == "amount" then 1 else
    if |k| == 16 && k == "fromTokenAddress" then 2 else
    if |k| == 14 && k == "toTokenAddress" then 3 else
    if |k| == 6 && k == "dexIds" then 4 else
    if |k| == 31 && k == "priceImpactProtectionPercentage" then 5 else
    if |k| == 10 && k == "feePercent" then 6 else
    -1
  }

  lemma GetQuotesPositions()
    ensures forall i :: 0 <= i < |GetQuotesNames| ==> GetQuotesPosition(GetQuotesNames[i]) == i
  {
  }

  lemma GetQuotesNamesUnique()
    ensures UniqueNames(GetQuotesNames)
  {
    GetQuotesPositions();
    PositionsUnique(GetQuotesNames, GetQuotesPosition);
  }

  /** The query map of GetQuotes: each key follows its rule and no other key is sent. */
  function GetQuotesQuery(req: GetQuotesRequest): (p: Params)
    ensures Sends(p, GetQuotesTable(req))
  {
    GetQuotesNamesUnique();
    ZipDistinct(GetQuotesNames, GetQuotesRules(req));
    BuildSends(GetQuotesTable(req));
    Build(GetQuotesTable(req))
  }

  /** GetQuotes: the transport error, ErrResultsNotFound for an empty list, or the first result. */
  method GetQuotes<R>(get: Getter<seq<R>>, req: GetQuotesRequest) returns (r: Reply<Option<R>>)
    ensures r == FirstOrNotFound(get(GetQuotesPath, GetQuotesQuery(req)))
  {
    var params := Assemble(GetQuotesTable(req));
    var results := get(GetQuotesPath, params);
    if results.err.Some? {
      return Reply(None, results.err);
    }
    if |results.value| == 0 {
      return Reply(None, Some(ErrResultsNotFound));
    }
    return Reply(Some(results.value[0]), None);
  }

  /** All seven keys are sent on every call, whatever the field values. */
  lemma GetQuotesSendsEveryKey(req: GetQuotesRequest)
    ensures GetQuotesQuery(req).Keys == Names(GetQuotesTable(req))
  {
    SendsEveryName(GetQuotesQuery(req), GetQuotesTable(req));
  }

  /** An empty dex id list is still sent, as the empty string. */
  lemma GetQuotesEmptyDexIds(req: GetQuotesRequest)
    requires req.dexIds == []
    ensures "dexIds" in GetQuotesQuery(req) && GetQuotesQuery(req)["dexIds"] == ""
  {
    assert Follows(GetQuotesQuery(req), GetQuotesNames[4], GetQuotesRules(req)[4]);
  }
  /** The dex package's request record with the same field values. */
  function AsDexRequest(req: GetQuotesRequest): (d: DexQuotes.GetQuotesRequest)
    ensures d.chainId == req.chainId && d.dexIds == req.dexIds
  {
    DexQuotes.GetQuotesRequest(req.chainId, req.amount, req.fromTokenAddress, req.toTokenAddress, req.dexIds, req.priceImpactProtectionPercentage, req.feePercent)
  }

  /** For equal requests the swap package sends the same query map as dex/quotes.go. */
  lemma GetQuotesMatchesDex(req: GetQuotesRequest)
    ensures GetQuotesQuery(req) == DexQuotes.GetQuotesQuery(AsDexRequest(req))
  {
    assert GetQuotesNames == DexQuotes.GetQuotesNames;
    assert GetQuotesTable(req) == DexQuotes.GetQuotesTable(AsDexRequest(req));
  }
}
