/**
 * wallet/errors.go: the predicates for the wallet API codes.
 * Each predicate holds exactly when errcode.FromError finds a domain error with its code.
 */
module WalletErrors {
  import opened Wrappers
  import opened Strconv
  import opened ErrCode

  /** 81104: Blockchain not supported. */
  function IsBlockchainNotSupported(err: Option<Error>): (r: bool)
    ensures r <==> CodeOf(err) == Some(81104)
  {
    Is(err, 81104)
  }

  /** 81105: Wallet verification error. */
  function IsWalletVerificationError(err: Option<Error>): (r: bool)
    ensures r <==> CodeOf(err) == Some(81105)
  {
    Is(err, 81105)
  }

  /** 81106: Address must be in lowercase. */
  function IsAddressMustBeLowercase(err: Option<Error>): (r: bool)
    ensures r <==> CodeOf(err) == Some(81106)
  {
    Is(err, 81106)
  }

  /** 81107: Too many wallet addresses. */
  function IsTooManyWalletAddresses(err: Option<Error>): (r: bool)
    ensures r <==> CodeOf(err) == Some(81107)
  {
    Is(err, 81107)
  }

  /** 81108: Wallet type mismatch. */
  function IsWalletTypeMismatch(err: Option<Error>): (r: bool)
    ensures r <==> CodeOf(err) == Some(81108)
  {
    Is(err, 81108)
  }

  /** 81109: Address update error. */
  function IsAddressUpdateError(err: Option<Error>): (r: bool)
    ensures r <==> CodeOf(err) == Some(81109)
  {
    Is(err, 81109)
  }

  /** 81150: Chain not supported in this interface. */
  function IsChainNotSupported(err: Option<Error>): (r: bool)
    ensures r <==> CodeOf(err) == Some(81150)
  {
    Is(err, 81150)
  }

  /** 81151: Token address incorrect. */
  function IsTokenAddressIncorrect(err: Option<Error>): (r: bool)
    ensures r <==> CodeOf(err) == Some(81151)
  {
    Is(err, 81151)
  }

  /** 81152: Token does not exist. */
  function IsTokenDoesNotExist(err: Option<Error>): (r: bool)
    ensures r <==> CodeOf(err) == Some(81152)
  {
    Is(err, 81152)
  }

  /** 81153: This token is a platform token, no need to add. */
  function IsTokenIsPlatformToken(err: Option<Error>): (r: bool)
    ensures r <==> CodeOf(err) == Some(81153)
  {
    Is(err, 81153)
  }

  /** 81157: Blockchain and address do not match. */
  function IsBlockchainAndAddressDoNotMatch(err: Option<Error>): (r: bool)
    ensures r <==> CodeOf(err) == Some(81157)
  {
    Is(err, 81157)
  }

  /** 81158: Token protocol not supported. */
  function IsTokenProtocolNotSupported(err: Option<Error>): (r: bool)
    ensures r <==> CodeOf(err) == Some(81158)
  {
    Is(err, 81158)
  }

  /** 81159: Data caching, please try again later. */
  function IsDataCaching(err: Option<Error>): (r: bool)
    ensures r <==> CodeOf(err) == Some(81159)
  {
    Is(err, 81159)
  }

  /** 81201: Transaction not found. */
  function IsTransactionNotFound(err: Option<Error>): (r: bool)
    ensures r <==> CodeOf(err) == Some(81201)
  {
    Is(err, 81201)
  }

  /** 81202: Transaction still pending. */
  function IsTransactionStillPending(err: Option<Error>): (r: bool)
    ensures r <==> CodeOf(err) == Some(81202)
  {
    Is(err, 81202)
  }

  /** 81203: Transaction extjson parameters not found. */
  function IsExtjsonParametersNotFound(err: Option<Error>): (r: bool)
    ensures r <==> CodeOf(err) == Some(81203)
  {
    Is(err, 81203)
  }

  /** 81302: FromAddress does not belong to the account ID. */
  function IsFromAddressMismatchAccount(err: Option<Error>): (r: bool)
    ensures r <==> CodeOf(err) == Some(81302)
  {
    Is(err, 81302)
  }

  /** 81351: Insufficient balance to pay. */
  function IsInsufficientBalanceToPay(err: Option<Error>): (r: bool)
    ensures r <==> CodeOf(err) == Some(81351)
  {
    Is(err, 81351)
  }

  /** 81353: Address is illegal. */
  function IsAddressIsIllegal(err: Option<Error>): (r: bool)
    ensures r <==> CodeOf(err) == Some(81353)
  {
    Is(err, 81353)
  }

  /** 81451: Node return failed. */
  function IsNodeReturnFailed(err: Option<Error>): (r: bool)
    ensures r <==> CodeOf(err) == Some(81451)
  {
    Is(err, 81451)
  }

  /** The codes of this table, in declaration order. */
  const Codes: seq<Int64> := [81104, 81105, 81106, 81107, 81108, 81109, 81150, 81151, 81152, 81153, 81157, 81158, 81159, 81201, 81202, 81203, 81302, 81351, 81353, 81451]

  /** The outcome of this table's predicate for each code, in the order of Codes. */
  function Outcomes(err: Option<Error>): (r: seq<bool>)
    ensures |r| == |Codes|
    ensures forall i :: 0 <= i < |Codes| ==> (r[i] <==> CodeOf(err) == Some(Codes[i]))
  {
    seq(|Codes|, i requires 0 <= i < |Codes| => Is(err, Codes[i]))
  }

  /** The named predicates are the entries of Outcomes, one per declared code. */
  lemma NamedOutcomes(err: Option<Error>)
    ensures Outcomes(err) == [IsBlockchainNotSupported(err),
      IsWalletVerificationError(err),
      IsAddressMustBeLowercase(err),
      IsTooManyWalletAddresses(err),
      IsWalletTypeMismatch(err),
      IsAddressUpdateError(err),
      IsChainNotSupported(err),
      IsTokenAddressIncorrect(err),
      IsTokenDoesNotExist(err),
      IsTokenIsPlatformToken(err),
      IsBlockchainAndAddressDoNotMatch(err),
      IsTokenProtocolNotSupported(err),
      IsDataCaching(err),
      IsTransactionNotFound(err),
      IsTransactionStillPending(err),
      IsExtjsonParametersNotFound(err),
      IsFromAddressMismatchAccount(err),
      IsInsufficientBalanceToPay(err),
      IsAddressIsIllegal(err),
      IsNodeReturnFailed(err)]
  {
  }

  /** The table lists no code twice. */
  lemma CodesDistinct()
    ensures Distinct(Codes)
  {
    assert Increasing(Codes);
    IncreasingDistinct(Codes);
  }

  /** The table classifies: one predicate holds for an error whose code the table lists, none for any other error. */
  lemma Classification(err: Option<Error>)
    ensures CountTrue(Outcomes(err)) == if CodeOf(err).Some? && CodeOf(err).value in Codes then 1 else 0
  {
    CodesDistinct();
    CountMatches(Outcomes(err), Codes, CodeOf(err));
  }
}
