/**
 * errcode/errors.go: the predicates for the codes common to every API family.
 * Each predicate holds exactly when errcode.FromError finds a domain error with its code.
 */
module ErrCodeErrors {
  import opened Wrappers
  import opened Strconv
  import opened ErrCode

  /** 50001: Service temporarily unavailable, try again. */
  function IsServiceUnavailable(err: Option<Error>): (r: bool)
    ensures r <==> CodeOf(err) == Some(50001)
  {
    Is(err, 50001)
  }

  /** 50011: Rate limit reached. Please refer to API documentation and throttle requests accordingly. */
  function IsRateLimitReached(err: Option<Error>): (r: bool)
    ensures r <==> CodeOf(err) == Some(50011)
  {
    Is(err, 50011)
  }

  /** 50014: Parameter {param0} cannot be empty. */
  function IsParameterCannotBeEmpty(err: Option<Error>): (r: bool)
    ensures r <==> CodeOf(err) == Some(50014)
  {
    Is(err, 50014)
  }

  /** 50026: System error. Try again later. */
  function IsSystemError(err: Option<Error>): (r: bool)
    ensures r <==> CodeOf(err) == Some(50026)
  {
    Is(err, 50026)
  }

  /** 50113: Invalid signature. */
  function IsInvalidSignature(err: Option<Error>): (r: bool)
    ensures r <==> CodeOf(err) == Some(50113)
  {
    Is(err, 50113)
  }

  /** 51000: Parameter {param0} error. */
  function IsParameterError(err: Option<Error>): (r: bool)
    ensures r <==> CodeOf(err) == Some(51000)
  {
    Is(err, 51000)
  }

  /** 80000: Repeated request. */
  function IsRepeatedRequest(err: Option<Error>): (r: bool)
    ensures r <==> CodeOf(err) == Some(80000)
  {
    Is(err, 80000)
  }

  /** The codes of this table, in declaration order. */
  const Codes: seq<Int64> := [50001, 50011, 50014, 50026, 50113, 51000, 80000]

  /** The outcome of this table's predicate for each code, in the order of Codes. */
  function Outcomes(err: Option<Error>): (r: seq<bool>)
    ensures |r| == |Codes|
    ensures forall i :: 0 <= i < |Codes| ==> (r[i] <==> CodeOf(err) == Some(Codes[i]))
  {
    seq(|Codes|, i requires 0 <= i < |Codes| => Is(err, Codes[i]))
  }

  /** The named predicates are the entries of Outcomes, one per declared code. */
  lemma NamedOutcomes(err: Option<Error>)
    ensures Outcomes(err) == [IsServiceUnavailable(err),
      IsRateLimitReached(err),
      IsParameterCannotBeEmpty(err),
      IsSystemError(err),
      IsInvalidSignature(err),
      IsParameterError(err),
      IsRepeatedRequest(err)]
  {
  }

  /** The table lists no code twice. */
  lemma CodesDistinct()
    ensures Distinct(Codes)
  {
    assert Increasing(Codes);
    IncreasingDistinct(Codes);
  }

  /** The table classifies: one predicate holds for an error whose code the table lists, none for any other error. */
  lemma Classification(err: Option<Error>)
    ensures CountTrue(Outcomes(err)) == if CodeOf(err).Some? && CodeOf(err).value in Codes then 1 else 0
  {
    CodesDistinct();
    CountMatches(Outcomes(err), Codes, CodeOf(err));
  }
}
