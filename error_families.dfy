/**
 * How the five predicate tables relate.  Each package declares its own
 * table, and the same code can mean different things in different families:
 * dex/swap/errors.go repeats dex/errors.go, dex/errors.go repeats the
 * generic 80000, and the cross-chain table gives 82000 and 82001 other
 * meanings than the DEX table does.
 */
module ErrorFamilies {
  import opened Wrappers
  import opened Strconv
  import opened ErrCode
  import ErrCodeErrors
  import DexErrors
  import SwapErrors
  import CrossChainErrors
  import WalletErrors

  /** The swap package's table is the DEX table, predicate by predicate. */
  lemma SwapIsDex(err: Option<Error>)
    ensures SwapErrors.Outcomes(err) == DexErrors.Outcomes(err)
    ensures SwapErrors.IsInsufficientLiquidity(err) == DexErrors.IsInsufficientLiquidity(err)
    ensures SwapErrors.IsSuiObjectsNotEnough(err) == DexErrors.IsSuiObjectsNotEnough(err)
  {
    SwapErrors.NamedOutcomes(err);
    DexErrors.NamedOutcomes(err);
  }

  /** The DEX table's repeated-request predicate is the generic one. */
  lemma RepeatedRequestShared(err: Option<Error>)
    ensures DexErrors.IsRepeatedRequest(err) == ErrCodeErrors.IsRepeatedRequest(err)
    ensures SwapErrors.IsRepeatedRequest(err) == ErrCodeErrors.IsRepeatedRequest(err)
  {
  }

  /**
   * 82001 is insufficient liquidity for the DEX aggregator but the commission
   * service being unavailable for cross-chain; 82000 is insufficient liquidity
   * for cross-chain but too few Sui objects for the DEX aggregator.
   */
  lemma LiquidityCodesDiffer(err: Option<Error>)
    ensures CodeOf(err) == Some(82001) ==>
      DexErrors.IsInsufficientLiquidity(err) && !CrossChainErrors.IsInsufficientLiquidity(err)
      && CrossChainErrors.IsCommissionServiceNotAvailable(err)
    ensures CodeOf(err) == Some(82000) ==>
      CrossChainErrors.IsInsufficientLiquidity(err) && !DexErrors.IsInsufficientLiquidity(err)
      && DexErrors.IsSuiObjectsNotEnough(err)
  {
  }

  /**
   * errors.Join(New(82000, a), New(82001, b)) reads as 82000 in every table:
   * too few Sui objects for the DEX aggregator and insufficient liquidity for
   * cross-chain, although the joined 82001 error is also inside it.
   */
  lemma JoinedLiquidityCodes(a: string, b: string)
    ensures var err := Some(Joined([Domain(New(82000, a)), Domain(New(82001, b))]));
      && DexErrors.IsSuiObjectsNotEnough(err) && !DexErrors.IsInsufficientLiquidity(err)
      && CrossChainErrors.IsInsufficientLiquidity(err) && !CrossChainErrors.IsCommissionServiceNotAvailable(err)
  {
    JoinFirstWins(82000, a, 82001, b, 82000);
    JoinFirstWins(82000, a, 82001, b, 82001);
  }

  /** 82116, the cross-chain bridge-not-found code, matches nothing in the DEX and swap tables. */
  lemma BridgeNotFoundOnlyCrossChain(err: Option<Error>)
    requires CodeOf(err) == Some(82116)
    ensures CountTrue(DexErrors.Outcomes(err)) == 0
    ensures CountTrue(SwapErrors.Outcomes(err)) == 0
    ensures CrossChainErrors.IsCrossChainBridgeNotFound(err)
    ensures CountTrue(CrossChainErrors.Outcomes(err)) == 1
  {
    assert (82116 as Int64) !in DexErrors.Codes;
    assert CrossChainErrors.Codes[9] == 82116;
    DexErrors.Classification(err);
    SwapErrors.Classification(err);
    CrossChainErrors.Classification(err);
  }

  /** An error with code 50011 makes the rate-limit predicate, and only it, true among the generic codes; no family table claims it. */
  lemma RateLimitOnly(err: Option<Error>)
    requires CodeOf(err) == Some(50011)
    ensures ErrCodeErrors.IsRateLimitReached(err)
    ensures CountTrue(ErrCodeErrors.Outcomes(err)) == 1
    ensures CountTrue(DexErrors.Outcomes(err)) == 0
    ensures CountTrue(CrossChainErrors.Outcomes(err)) == 0
    ensures CountTrue(WalletErrors.Outcomes(err)) == 0
  {
    assert ErrCodeErrors.Codes[1] == 50011;
    assert (50011 as Int64) !in DexErrors.Codes;
    assert (50011 as Int64) !in CrossChainErrors.Codes;
    assert (50011 as Int64) !in WalletErrors.Codes;
    ErrCodeErrors.Classification(err);
    DexErrors.Classification(err);
    CrossChainErrors.Classification(err);
    WalletErrors.Classification(err);
  }

  /** A nil error, or one with no domain error inside, satisfies no predicate of any table. */
  lemma CodelessMatchesNothing(err: Option<Error>)
    requires CodeOf(err).None?
    ensures CountTrue(ErrCodeErrors.Outcomes(err)) == 0
    ensures CountTrue(DexErrors.Outcomes(err)) == 0
    ensures CountTrue(SwapErrors.Outcomes(err)) == 0
    ensures CountTrue(CrossChainErrors.Outcomes(err)) == 0
    ensures CountTrue(WalletErrors.Outcomes(err)) == 0
  {
    ErrCodeErrors.Classification(err);
    DexErrors.Classification(err);
    SwapErrors.Classification(err);
    CrossChainErrors.Classification(err);
    WalletErrors.Classification(err);
  }
}
