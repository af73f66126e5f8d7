/**
 * dex/swap/errors.go: the same DEX aggregator codes, redeclared in package swap.
 * Each predicate holds exactly when errcode.FromError finds a domain error with its code.
 */
module SwapErrors {
  import opened Wrappers
  import opened Strconv
  import opened ErrCode

  /** 80000: Repeated request. */
  function IsRepeatedRequest(err: Option<Error>): (r: bool)
    ensures r <==> CodeOf(err) == Some(80000)
  {
    Is(err, 80000)
  }

  /** 80001: CallData exceeds the maximum limit. Try again in 5 minutes. */
  function IsCallDataExceedsMaxLimit(err: Option<Error>): (r: bool)
    ensures r <==> CodeOf(err) == Some(80001)
  {
    Is(err, 80001)
  }

  /** 80002: Requested token Object count has reached the limit. */
  function IsTokenLimitReached(err: Option<Error>): (r: bool)
    ensures r <==> CodeOf(err) == Some(80002)
  {
    Is(err, 80002)
  }

  /** 80003: Requested native token Object count has reached the limit. */
  function IsNativeTokenLimitReached(err: Option<Error>): (r: bool)
    ensures r <==> CodeOf(err) == Some(80003)
  {
    Is(err, 80003)
  }

  /** 80004: Timeout when querying SUI Object. */
  function IsTimeoutQueryingSuiObject(err: Option<Error>): (r: bool)
    ensures r <==> CodeOf(err) == Some(80004)
  {
    Is(err, 80004)
  }

  /** 82000: Not enough Sui objects under the address for swapping. */
  function IsSuiObjectsNotEnough(err: Option<Error>): (r: bool)
    ensures r <==> CodeOf(err) == Some(82000)
  {
    Is(err, 82000)
  }

  /** 82001: Insufficient liquidity. */
  function IsInsufficientLiquidity(err: Option<Error>): (r: bool)
    ensures r <==> CodeOf(err) == Some(82001)
  {
    Is(err, 82001)
  }

  /** 82112: The value difference from this transaction's quote route is higher than {num} (90% by default), which may cause asset loss; it can be adjusted with priceImpactProtectionPercentage. */
  function IsValueDifference(err: Option<Error>): (r: bool)
    ensures r <==> CodeOf(err) == Some(82112)
  {
    Is(err, 82112)
  }

  /** 82120: Detected honeypot tokens or high-risk tokens with a 100% buy/sell tax. */
  function IsTransactionIntercepted(err: Option<Error>): (r: bool)
    ensures r <==> CodeOf(err) == Some(82120)
  {
    Is(err, 82120)
  }

  /** The codes of this table, in declaration order. */
  const Codes: seq<Int64> := [80000, 80001, 80002, 80003, 80004, 82000, 82001, 82112, 82120]

  /** The outcome of this table's predicate for each code, in the order of Codes. */
  function Outcomes(err: Option<Error>): (r: seq<bool>)
    ensures |r| == |Codes|
    ensures forall i :: 0 <= i < |Codes| ==> (r[i] <==> CodeOf(err) == Some(Codes[i]))
  {
    seq(|Codes|, i requires 0 <= i < |Codes| => Is(err, Codes[i]))
  }

  /** The named predicates are the entries of Outcomes, one per declared code. */
  lemma NamedOutcomes(err: Option<Error>)
    ensures Outcomes(err) == [IsRepeatedRequest(err),
      IsCallDataExceedsMaxLimit(err),
      IsTokenLimitReached(err),
      IsNativeTokenLimitReached(err),
      IsTimeoutQueryingSuiObject(err),
      IsSuiObjectsNotEnough(err),
      IsInsufficientLiquidity(err),
      IsValueDifference(err),
      IsTransactionIntercepted(err)]
  {
  }

  /** The table lists no code twice. */
  lemma CodesDistinct()
    ensures Distinct(Codes)
  {
    assert Increasing(Codes);
    IncreasingDistinct(Codes);
  }

  /** The table classifies: one predicate holds for an error whose code the table lists, none for any other error. */
  lemma Classification(err: Option<Error>)
    ensures CountTrue(Outcomes(err)) == if CodeOf(err).Some? && CodeOf(err).value in Codes then 1 else 0
  {
    CodesDistinct();
    CountMatches(Outcomes(err), Codes, CodeOf(err));
  }
}
