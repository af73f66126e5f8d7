/**
 * dex/swap.go: GetSwapTx and GetSolSwapInstruction build their query maps
 * from a request record (six keys always, the rest only when set) and call
 * the aggregator's swap and swap-instruction endpoints.
 */
module DexSwap {
  import opened Wrappers
  import opened ErrCode
  import opened Query
  import opened Transport

  /** GetSwapTxRequest; the result records are left abstract (R). */
  datatype GetSwapTxRequest = GetSwapTxRequest(
    chainId: string,
    amount: string,
    fromTokenAddress: string,
    toTokenAddress: string,
    slippage: string,
    userWalletAddress: string,
    referrerAddress: string,
    swapReceiverAddress: string,
    feePercent: string,
    gaslimit: string,
    gasLevel: string,
    dexIds: seq<string>,
    priceImpactProtectionPercentage: string,
    callDataMemo: string,
    toTokenReferrerAddress: string,
    computeUnitPrice: string,
    computeUnitLimit: string,
    fromTokenReferrerWalletAddress: string,
    toTokenReferrerWalletAddress: string,
    autoSlippage: bool,
    maxAutoSlippage: string)

  const GetSwapTxPath := "/api/v5/dex/aggregator/swap"

  /** The keys GetSwapTx sends, in the order the source writes them; the rules are listed in the same order in GetSwapTxRules. */
  const GetSwapTxNames: seq<string> := [
    "chainId",
    "amount",
    "fromTokenAddress",
    "toTokenAddress",
    "slippage",
    "userWalletAddress",
    "referrerAddress",
    "swapReceiverAddress",
    "feePercent",
    "gaslimit",
    "gasLevel",
    "dexIds",
    "priceImpactProtectionPercentage",
    "callDataMemo",
    "toTokenReferrerAddress",
    "computeUnitPrice",
    "computeUnitLimit",
    "fromTokenReferrerWalletAddress",
    "toTokenReferrerWalletAddress",
    "autoSlippage",
    "maxAutoSlippage" ]

  function GetSwapTxRules(swap: GetSwapTxRequest): (rs: seq<Rule>)
    ensures |rs| == |GetSwapTxNames|
  {
    [ Always(swap.chainId),
      Always(swap.amount),
      Always(swap.fromTokenAddress),
      Always(swap.toTokenAddress),
      Always(swap.slippage),
      Always(swap.userWalletAddress),
      IfNonEmpty(swap.referrerAddress),
      IfNonEmpty(swap.swapReceiverAddress),
      IfNonEmpty(swap.feePercent),
      IfNonEmpty(swap.gaslimit),
      IfNonEmpty(swap.gasLevel),
      ListIfNonEmpty(swap.dexIds),
      IfNonEmpty(swap.priceImpactProtectionPercentage),
      IfNonEmpty(swap.callDataMemo),
      IfNonEmpty(swap.toTokenReferrerAddress),
      IfNonEmpty(swap.computeUnitPrice),
      IfNonEmpty(swap.computeUnitLimit),
      IfNonEmpty(swap.fromTokenReferrerWalletAddress),
      IfNonEmpty(swap.toTokenReferrerWalletAddress),
      FlagIfSet(swap.autoSlippage),
      IfNonEmpty(swap.maxAutoSlippage) ]
  }

  function GetSwapTxTable(swap: GetSwapTxRequest): seq<Param> {
    Zip(GetSwapTxNames, GetSwapTxRules(swap))
  }

  /** The position of key k in GetSwapTxNames, or -1; lengths are compared first so that most keys are told apart without comparing characters. */
  function GetSwapTxPosition(k: string): int {
    if |k| == 7 && k == "chainId" then 0 else
    if |k| == 6 && k == "amount" then 1 else
    if |k| == 16 && k == "fromTokenAddress" then 2 else
    if |k| == 14 && k == "toTokenAddress" then 3 else
    if |k| == 8 && k == "slippage" then 4 else
    if |k| == 17 && k == "userWalletAddress" then 5 else
    if |k| == 15 && k == "referrerAddress" then 6 else
    if |k| == 19 && k == "swapReceiverAddress" then 7 else
    if |k| == 10 && k == "feePercent" then 8 else
    if |k| == 8 && k == "gaslimit" then 9 else
    if |k| == 8 && k == "gasLevel" then 10 else
    if |k| == 6 && k == "dexIds" then 11 else
    if |k| == 31 && k == "priceImpactProtectionPercentage" then 12 else
    if |k| == 12 && k == "callDataMemo" then 13 else
    if |k| == 22 && k == "toTokenReferrerAddress" then 14 else
    if |k| == 16 && k == "computeUnitPrice" then 15 else
    if |k| == 16 && k == "computeUnitLimit" then 16 else
    if |k| == 30 && k == "fromTokenReferrerWalletAddress" then 17 else
    if |k| == 28 && k == "toTokenReferrerWalletAddress" then 18 else
    if |k| == 12 && k == "autoSlippage" then 19 else
    if |k| == 15 && k == "maxAutoSlippage" then 20 else
    -1
  }

  lemma GetSwapTxPositions()
    ensures forall i :: 0 <= i < |GetSwapTxNames| ==> GetSwapTxPosition(GetSwapTxNames[i]) == i
  {
  }

  lemma GetSwapTxNamesUnique()
    ensures UniqueNames(GetSwapTxNames)
  {
    GetSwapTxPositions();
    PositionsUnique(GetSwapTxNames, GetSwapTxPosition);
  }

  /** The query map of GetSwapTx: each key follows its rule and no other key is sent. */
  function GetSwapTxQuery(swap: GetSwapTxRequest): (p: Params)
    ensures Sends(p, GetSwapTxTable(swap))
  {
    GetSwapTxNamesUnique();
    ZipDistinct(GetSwapTxNames, GetSwapTxRules(swap));
    BuildSends(GetSwapTxTable(swap));
    Build(GetSwapTxTable(swap))
  }

  /** GetSwapTx: the transport error, ErrResultsNotFound for an empty list, or the first result. */
  method GetSwapTx<R>(get: Getter<seq<R>>, swap: GetSwapTxRequest) returns (r: Reply<Option<R>>)
    ensures r == FirstOrNotFound(get(GetSwapTxPath, GetSwapTxQuery(swap)))
  {
    var params := Assemble(GetSwapTxTable(swap));
    var results := get(GetSwapTxPath, params);
    if results.err.Some? {
      return Reply(None, results.err);
    }
    if |results.value| == 0 {
      return Reply(None, Some(ErrResultsNotFound));
    }
    return Reply(Some(results.value[0]), None);
  }

  /** GetSolSwapInstructionRequest. */
  datatype GetSolSwapInstructionRequest = GetSolSwapInstructionRequest(
    chainId: string,
    amount: string,
    fromTokenAddress: string,
    toTokenAddress: string,
    slippage: string,
    userWalletAddress: string,
    swapReceiverAddress: string,
    feePercent: string,
    fromTokenReferrerWalletAddress: string,
    toTokenReferrerWalletAddress: string,
    dexIds: seq<string>,
    priceImpactProtectionPercentage: string,
    computeUnitPrice: string,
    computeUnitLimit: string)

  const GetSolSwapInstructionPath := "/api/v5/dex/aggregator/swap-instruction"

  /** The keys GetSolSwapInstruction sends, in the order the source writes them; the rules are listed in the same order in GetSolSwapInstructionRules. */
  const GetSolSwapInstructionNames: seq<string> := [
    "chainId",
    "amount",
    "fromTokenAddress",
    "toTokenAddress",
    "slippage",
    "userWalletAddress",
    "swapReceiverAddress",
    "feePercent",
    "fromTokenReferrerWalletAddress",
    "toTokenReferrerWalletAddress",
    "dexIds",
    "priceImpactProtectionPercentage",
    "computeUnitPrice",
    "computeUnitLimit" ]

  function GetSolSwapInstructionRules(req: GetSolSwapInstructionRequest): (rs: seq<Rule>)
    ensures |rs| == |GetSolSwapInstructionNames|
  {
    [ Always(req.chainId),
      Always(req.amount),
      Always(req.fromTokenAddress),
      Always(req.toTokenAddress),
      Always(req.slippage),
      Always(req.userWalletAddress),
      IfNonEmpty(req.swapReceiverAddress),
      IfNonEmpty(req.feePercent),
      IfNonEmpty(req.fromTokenReferrerWalletAddress),
      IfNonEmpty(req.toTokenReferrerWalletAddress),
      ListIfNonEmpty(req.dexIds),
      IfNonEmpty(req.priceImpactProtectionPercentage),
      IfNonEmpty(req.computeUnitPrice),
      IfNonEmpty(req.computeUnitLimit) ]
  }

  function GetSolSwapInstructionTable(req: GetSolSwapInstructionRequest): seq<Param> {
    Zip(GetSolSwapInstructionNames, GetSolSwapInstructionRules(req))
  }

  /** The position of key k in GetSolSwapInstructionNames, or -1; lengths are compared first so that most keys are told apart without comparing characters. */
  function GetSolSwapInstructionPosition(k: string): int {
    if |k| == 7 && k == "chainId" then 0 else
    if |k| == 6 && k == "amount" then 1 else
    if |k| == 16 && k == "fromTokenAddress" then 2 else
    if |k| == 14 && k == "toTokenAddress" then 3 else
    if |k| == 8 && k == "slippage" then 4 else
    if |k| == 17 && k == "userWalletAddress" then 5 else
    if |k| == 19 && k == "swapReceiverAddress" then 6 else
    if |k| == 10 && k == "feePercent" then 7 else
    if |k| == 30 && k == "fromTokenReferrerWalletAddress" then 8 else
    if |k| == 28 && k == "toTokenReferrerWalletAddress" then 9 else
    if |k| == 6 && k == "dexIds" then 10 else
    if |k| == 31 && k == "priceImpactProtectionPercentage" then 11 else
    if |k| == 16 && k == "computeUnitPrice" then 12 else
    if |k| == 16 && k == "computeUnitLimit" then 13 else
    -1
  }

  lemma GetSolSwapInstructionPositions()
    ensures forall i :: 0 <= i < |GetSolSwapInstructionNames| ==> GetSolSwapInstructionPosition(GetSolSwapInstructionNames[i]) == i
  {
  }

  lemma GetSolSwapInstructionNamesUnique()
    ensures UniqueNames(GetSolSwapInstructionNames)
  {
    GetSolSwapInstructionPositions();
    PositionsUnique(GetSolSwapInstructionNames, GetSolSwapInstructionPosition);
  }

  /** The query map of GetSolSwapInstruction: each key follows its rule and no other key is sent. */
  function GetSolSwapInstructionQuery(req: GetSolSwapInstructionRequest): (p: Params)
    ensures Sends(p, GetSolSwapInstructionTable(req))
  {
    GetSolSwapInstructionNamesUnique();
    ZipDistinct(GetSolSwapInstructionNames, GetSolSwapInstructionRules(req));
    BuildSends(GetSolSwapInstructionTable(req));
    Build(GetSolSwapInstructionTable(req))
  }

  /** GetSolSwapInstruction: decoded straight into its *result, with no emptiness check. */
  method GetSolSwapInstruction<R>(get: Getter<Option<R>>, req: GetSolSwapInstructionRequest) returns (r: Reply<Option<R>>)
    ensures r == DirectOrNil(get(GetSolSwapInstructionPath, GetSolSwapInstructionQuery(req)))
  {
    var params := Assemble(GetSolSwapInstructionTable(req));
    var result := get(GetSolSwapInstructionPath, params);
    if result.err.Some? {
      return Reply(None, result.err);
    }
    return Reply(result.value, None);
  }

  /** The keys GetSwapTx sends that GetSolSwapInstructionRequest has no field for. */
  const SolSwapInstructionUnsent: seq<string> := ["referrerAddress", "gaslimit", "gasLevel", "callDataMemo", "autoSlippage"]

  lemma SolSwapInstructionUnsentAbsent()
    ensures forall i :: 0 <= i < |SolSwapInstructionUnsent| ==> Absent(SolSwapInstructionUnsent[i], GetSolSwapInstructionNames)
  {
  }

  /** The Solana instruction endpoint never sends the five keys of GetSwapTx it has no field for. */
  lemma SolSwapInstructionOmits(req: GetSolSwapInstructionRequest)
    ensures forall i :: 0 <= i < |SolSwapInstructionUnsent| ==> SolSwapInstructionUnsent[i] !in GetSolSwapInstructionQuery(req)
  {
    SolSwapInstructionUnsentAbsent();
    forall i | 0 <= i < |SolSwapInstructionUnsent|
      ensures SolSwapInstructionUnsent[i] !in GetSolSwapInstructionQuery(req)
    {
      SendsOnlyNames(GetSolSwapInstructionQuery(req), GetSolSwapInstructionNames, GetSolSwapInstructionRules(req), SolSwapInstructionUnsent[i]);
    }
  }
}
