/**
 * dex/crosschain/errors.go: the predicates for the cross-chain codes.
 * Each predicate holds exactly when errcode.FromError finds a domain error with its code.
 */
module CrossChainErrors {
  import opened Wrappers
  import opened Strconv
  import opened ErrCode

  /** 82000: Insufficient liquidity. */
  function IsInsufficientLiquidity(err: Option<Error>): (r: bool)
    ensures r <==> CodeOf(err) == Some(82000)
  {
    Is(err, 82000)
  }

  /** 82001: The commission service is not available during the upgrade. */
  function IsCommissionServiceNotAvailable(err: Option<Error>): (r: bool)
    ensures r <==> CodeOf(err) == Some(82001)
  {
    Is(err, 82001)
  }

  /** 82102: Minimum amount is {0}. */
  function IsMinimumAmount(err: Option<Error>): (r: bool)
    ensures r <==> CodeOf(err) == Some(82102)
  {
    Is(err, 82102)
  }

  /** 82103: Maximum amount is {0}. */
  function IsMaximumAmount(err: Option<Error>): (r: bool)
    ensures r <==> CodeOf(err) == Some(82103)
  {
    Is(err, 82103)
  }

  /** 82104: This token is not supported. */
  function IsThisTokenIsNotSupported(err: Option<Error>): (r: bool)
    ensures r <==> CodeOf(err) == Some(82104)
  {
    Is(err, 82104)
  }

  /** 82105: This chain is not supported. */
  function IsThisChainIsNotSupported(err: Option<Error>): (r: bool)
    ensures r <==> CodeOf(err) == Some(82105)
  {
    Is(err, 82105)
  }

  /** 82112: The value difference from this transaction's quote route is higher than {num}, which may cause asset loss. */
  function IsValueDifference(err: Option<Error>): (r: bool)
    ensures r <==> CodeOf(err) == Some(82112)
  {
    Is(err, 82112)
  }

  /** 82114: The slippage too low,Suggest {0}. */
  function IsSlippageTooLow(err: Option<Error>): (r: bool)
    ensures r <==> CodeOf(err) == Some(82114)
  {
    Is(err, 82114)
  }

  /** 82115: The chain has not token pairs. */
  function IsChainHasNotTokenPairs(err: Option<Error>): (r: bool)
    ensures r <==> CodeOf(err) == Some(82115)
  {
    Is(err, 82115)
  }

  /** 82116: No suitable cross-chain bridge found. */
  function IsCrossChainBridgeNotFound(err: Option<Error>): (r: bool)
    ensures r <==> CodeOf(err) == Some(82116)
  {
    Is(err, 82116)
  }

  /** The codes of this table, in declaration order. */
  const Codes: seq<Int64> := [82000, 82001, 82102, 82103, 82104, 82105, 82112, 82114, 82115, 82116]

  /** The outcome of this table's predicate for each code, in the order of Codes. */
  function Outcomes(err: Option<Error>): (r: seq<bool>)
    ensures |r| == |Codes|
    ensures forall i :: 0 <= i < |Codes| ==> (r[i] <==> CodeOf(err) == Some(Codes[i]))
  {
    seq(|Codes|, i requires 0 <= i < |Codes| => Is(err, Codes[i]))
  }

  /** The named predicates are the entries of Outcomes, one per declared code. */
  lemma NamedOutcomes(err: Option<Error>)
    ensures Outcomes(err) == [IsInsufficientLiquidity(err),
      IsCommissionServiceNotAvailable(err),
      IsMinimumAmount(err),
      IsMaximumAmount(err),
      IsThisTokenIsNotSupported(err),
      IsThisChainIsNotSupported(err),
      IsValueDifference(err),
      IsSlippageTooLow(err),
      IsChainHasNotTokenPairs(err),
      IsCrossChainBridgeNotFound(err)]
  {
  }

  /** The table lists no code twice. */
  lemma CodesDistinct()
    ensures Distinct(Codes)
  {
    assert Increasing(Codes);
    IncreasingDistinct(Codes);
  }

  /** The table classifies: one predicate holds for an error whose code the table lists, none for any other error. */
  lemma Classification(err: Option<Error>)
    ensures CountTrue(Outcomes(err)) == if CodeOf(err).Some? && CodeOf(err).value in Codes then 1 else 0
  {
    CodesDistinct();
    CountMatches(Outcomes(err), Codes, CodeOf(err));
  }
}
