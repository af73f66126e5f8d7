/**
 * dex/swap/swap.go: Swap, the swap package's copy of the aggregator swap
 * call, with its own request record and the same 21 keys as GetSwapTx in
 * dex/swap.go.
 */
module SwapSwap {
  import opened Wrappers
  import opened ErrCode
  import opened Query
  import opened Transport
  import DexSwap

  /** SwapRequest; the result records are left abstract (R). */
  datatype SwapRequest = SwapRequest(
    chainId: string,
    amount: string,
    fromTokenAddress: string,
    toTokenAddress: string,
    slippage: string,
    userWalletAddress: string,
    referrerAddress: string,
    swapReceiverAddress: string,
    feePercent: string,
    gaslimit: string,
    gasLevel: string,
    dexIds: seq<string>,
    priceImpactProtectionPercentage: string,
    callDataMemo: string,
    toTokenReferrerAddress: string,
    computeUnitPrice: string,
    computeUnitLimit: string,
    fromTokenReferrerWalletAddress: string,
    toTokenReferrerWalletAddress: string,
    autoSlippage: bool,
    maxAutoSlippage: string)

  const SwapPath := "/api/v5/dex/aggregator/swap"

  /** The keys Swap sends, in the order the source writes them; the rules are listed in the same order in SwapRules. */
  const SwapNames: seq<string> := [
    "chainId",
    "amount",
    "fromTokenAddress",
    "toTokenAddress",
    "slippage",
    "userWalletAddress",
    "referrerAddress",
    "swapReceiverAddress",
    "feePercent",
    "gaslimit",
    "gasLevel",
    "dexIds",
    "priceImpactProtectionPercentage",
    "callDataMemo",
    "toTokenReferrerAddress",
    "computeUnitPrice",
    "computeUnitLimit",
    "fromTokenReferrerWalletAddress",
    "toTokenReferrerWalletAddress",
    "autoSlippage",
    "maxAutoSlippage" ]

  function SwapRules(swap: SwapRequest): (rs: seq<Rule>)
    ensures |rs| == |SwapNames|
  {
    [ Always(swap.chainId),
      Always(swap.amount),
      Always(swap.fromTokenAddress),
      Always(swap.toTokenAddress),
      Always(swap.slippage),
      Always(swap.userWalletAddress),
      IfNonEmpty(swap.referrerAddress),
      IfNonEmpty(swap.swapReceiverAddress),
      IfNonEmpty(swap.feePercent),
      IfNonEmpty(swap.gaslimit),
      IfNonEmpty(swap.gasLevel),
      ListIfNonEmpty(swap.dexIds),
      IfNonEmpty(swap.priceImpactProtectionPercentage),
      IfNonEmpty(swap.callDataMemo),
      IfNonEmpty(swap.toTokenReferrerAddress),
      IfNonEmpty(swap.computeUnitPrice),
      IfNonEmpty(swap.computeUnitLimit),
      IfNonEmpty(swap.fromTokenReferrerWalletAddress),
      IfNonEmpty(swap.toTokenReferrerWalletAddress),
      FlagIfSet(swap.autoSlippage),
      IfNonEmpty(swap.maxAutoSlippage) ]
  }

  function SwapTable(swap: SwapRequest): seq<Param> {
    Zip(SwapNames, SwapRules(swap))
  }

  /** The position of key k in SwapNames, or -1; lengths are compared first so that most keys are told apart without comparing characters. */
  function SwapPosition(k: string): int {
    if |k| == 7 && k == "chainId" then 0 else
    if |k| == 6 && k == "amount" then 1 else
    if |k| == 16 && k == "fromTokenAddress" then 2 else
    if |k| == 14 && k == "toTokenAddress" then 3 else
    if |k| == 8 && k == "slippage" then 4 else
    if |k| == 17 && k == "userWalletAddress" then 5 else
    if |k| == 15 && k == "referrerAddress" then 6 else
    if |k| == 19 && k == "swapReceiverAddress" then 7 else
    if |k| == 10 && k == "feePercent" then 8 else
    if |k| == 8 && k == "gaslimit" then 9 else
    if |k| == 8 && k == "gasLevel" then 10 else
    if |k| == 6 && k == "dexIds" then 11 else
    if |k| == 31 && k == "priceImpactProtectionPercentage" then 12 else
    if |k| == 12 && k == "callDataMemo" then 13 else
    if |k| == 22 && k == "toTokenReferrerAddress" then 14 else
    if |k| == 16 && k == "computeUnitPrice" then 15 else
    if |k| == 16 && k == "computeUnitLimit" then 16 else
    if |k| == 30 && k == "fromTokenReferrerWalletAddress" then 17 else
    if |k| == 28 && k == "toTokenReferrerWalletAddress" then 18 else
    if |k| == 12 && k == "autoSlippage" then 19 else
    if |k| == 15 && k == "maxAutoSlippage" then 20 else
    -1
  }

  lemma SwapPositions()
    ensures forall i :: 0 <= i < |SwapNames| ==> SwapPosition(SwapNames[i]) == i
  {
  }

  lemma SwapNamesUnique()
    ensures UniqueNames(SwapNames)
  {
    SwapPositions();
    PositionsUnique(SwapNames, SwapPosition);
  }

  /** The query map of Swap: each key follows its rule and no other key is sent. */
  function SwapQuery(swap: SwapRequest): (p: Params)
    ensures Sends(p, SwapTable(swap))
  {
    SwapNamesUnique();
    ZipDistinct(SwapNames, SwapRules(swap));
    BuildSends(SwapTable(swap));
    Build(SwapTable(swap))
  }

  /** Swap: the transport error, ErrResultsNotFound for an empty list, or the first result. */
  method Swap<R>(get: Getter<seq<R>>, swap: SwapRequest) returns (r: Reply<Option<R>>)
    ensures r == FirstOrNotFound(get(SwapPath, SwapQuery(swap)))
  {
    var params := Assemble(SwapTable(swap));
    var results := get(SwapPath, params);
    if results.err.Some? {
      return Reply(None, results.err);
    }
    if |results.value| == 0 {
      return Reply(None, Some(ErrResultsNotFound));
    }
    return Reply(Some(results.value[0]), None);
  }

  /** The dex package's request record with the same field values. */
  function AsGetSwapTxRequest(swap: SwapRequest): (g: DexSwap.GetSwapTxRequest)
    ensures g.chainId == swap.chainId && g.dexIds == swap.dexIds && g.autoSlippage == swap.autoSlippage
  {
    DexSwap.GetSwapTxRequest(swap.chainId, swap.amount, swap.fromTokenAddress, swap.toTokenAddress, swap.slippage, swap.userWalletAddress, swap.referrerAddress, swap.swapReceiverAddress, swap.feePercent, swap.gaslimit, swap.gasLevel, swap.dexIds, swap.priceImpactProtectionPercentage, swap.callDataMemo, swap.toTokenReferrerAddress, swap.computeUnitPrice, swap.computeUnitLimit, swap.fromTokenReferrerWalletAddress, swap.toTokenReferrerWalletAddress, swap.autoSlippage, swap.maxAutoSlippage)
  }

  /** For equal field values Swap sends the same query map as GetSwapTx of dex/swap.go. */
  lemma SwapMatchesGetSwapTx(swap: SwapRequest)
    ensures SwapQuery(swap) == DexSwap.GetSwapTxQuery(AsGetSwapTxRequest(swap))
  {
    assert SwapNames == DexSwap.GetSwapTxNames;
    assert SwapTable(swap) == DexSwap.GetSwapTxTable(AsGetSwapTxRequest(swap));
  }
}
