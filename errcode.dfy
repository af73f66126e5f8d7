/**
 * errcode/errcode.go: the domain error that carries a non-zero envelope code,
 * the ResultsNotFound sentinel, and the search for a domain error through
 * layers of wrapping that FromError and Is perform.
 */
module ErrCode {
  import opened Wrappers
  import opened Strconv

  /** errcode.Error: the code and message of an envelope whose code is not zero. */
  datatype CodeError = CodeError(code: Int64, message: string)

  /** A non-nil Go `error` as the library produces or a caller passes in (nil is None in an Option<Error>). */
  datatype Error =
    | Domain(err: CodeError)               // a *errcode.Error
    | DomainValue(err: CodeError)          // an errcode.Error held by value, which also satisfies `error`
    | ResultsNotFound                      // the sentinel errcode.ErrResultsNotFound
    | Wrapped(context: string, inner: Error)  // an error whose Unwrap() returns inner, as fmt.Errorf("...%w") builds
    | Joined(errs: seq<Error>)             // an error whose Unwrap() returns errs, as errors.Join or several %w build
    | Foreign(text: string)                // an error of another package: network, JSON, strconv

  const ErrResultsNotFound: Error := ResultsNotFound

  /** errcode.New: a domain error holding exactly the given code and message. */
  function New(code: Int64, message: string): (e: CodeError)
    ensures e.code == code && e.message == message
  {
    CodeError(code, message)
  }

  const CodePrefix := "code: "
  const MessagePrefix := ", message: "

  /** Error.Error(): fmt.Sprintf("code: %d, message: %s", e.Code, e.Message). */
  function Render(e: CodeError): string {
    CodePrefix + FormatInt(e.code) + MessagePrefix + e.message
  }

  /**
   * errors.As for the target *Error: a depth-first, pre-order search of the
   * Unwrap tree that stops at the first *Error.  A value errcode.Error is not
   * assignable to *Error and unwraps to nothing, so the search passes it by.
   */
  function Find(e: Error): Option<CodeError>
    decreases e, 1
  {
    match e
    case Domain(c) => Some(c)
    case Wrapped(_, inner) => Find(inner)
    case Joined(errs) => FindFirst(errs)
    case _ => None
  }

  /** The search over the children of a joined error, left to right. */
  function FindFirst(errs: seq<Error>): Option<CodeError>
    decreases errs, 0
  {
    if errs == [] then None
    else match Find(errs[0])
      case Some(c) => Some(c)
      case None => FindFirst(errs[1..])
  }

  /** The joined search returns the first child's find, behind children that find nothing, and none when no child finds one. */
  lemma {:induction false} FindFirstIsFirst(errs: seq<Error>)
    ensures FindFirst(errs).None? <==> forall i :: 0 <= i < |errs| ==> Find(errs[i]).None?
    ensures FindFirst(errs).Some? ==>
      exists i :: 0 <= i < |errs| && Find(errs[i]) == FindFirst(errs) && (forall j :: 0 <= j < i ==> Find(errs[j]).None?)
    decreases |errs|
  {
    if errs != [] && Find(errs[0]).None? {
      FindFirstIsFirst(errs[1..]);
      assert forall i :: 0 <= i < |errs| - 1 ==> errs[1..][i] == errs[i + 1];
      if FindFirst(errs).Some? {
        var k :| 0 <= k < |errs[1..]| && Find(errs[1..][k]) == FindFirst(errs[1..])
          && forall j :: 0 <= j < k ==> Find(errs[1..][j]).None?;
        assert Find(errs[k + 1]) == FindFirst(errs);
        assert forall j :: 0 <= j < k + 1 ==> Find(errs[j]).None? by {
          forall j | 0 <= j < k + 1 ensures Find(errs[j]).None? {
            if j > 0 { assert errs[j] == errs[1..][j - 1]; }
          }
        }
      }
    }
  }

  /** Child i of a joined error decides the code exactly when every earlier child has none. */
  lemma JoinedDecidedBy(errs: seq<Error>, i: nat)
    requires i < |errs| && forall j :: 0 <= j < i ==> Find(errs[j]).None?
    ensures Find(Joined(errs)) == Find(errs[i]) || Find(errs[i]).None?
    ensures Find(errs[i]).Some? ==> FromError(Some(Joined(errs))) == Find(errs[i])
  {
    FindFirstIsFirst(errs);
    if FindFirst(errs).Some? {
      var k :| 0 <= k < |errs| && Find(errs[k]) == FindFirst(errs)
        && forall j :: 0 <= j < k ==> Find(errs[j]).None?;
      assert k >= i ==> Find(errs[i]).None? || k == i;
    }
  }

  /** errcode.FromError. */
  function FromError(err: Option<Error>): (r: Option<CodeError>)
    ensures err.None? ==> r.None?
  {
    match err
    case None => None
    case Some(e) => Find(e)
  }

  /** errcode.Is. */
  function Is(err: Option<Error>, code: Int64): bool {
    match FromError(err)
    case Some(e) => e.code == code
    case None => false
  }

  /** The code FromError finds, if any: what every predicate table looks at. */
  function CodeOf(err: Option<Error>): (r: Option<Int64>)
    ensures r.Some? <==> FromError(err).Some?
    ensures forall code: Int64 :: Is(err, code) <==> r == Some(code)
  {
    match FromError(err)
    case Some(e) => Some(e.code)
    case None => None
  }

  /** Wraps e in the given layers, innermost first, as successive fmt.Errorf("%w") calls do. */
  function WrapAll(e: Error, contexts: seq<string>): Error
    decreases |contexts|
  {
    if contexts == [] then e else Wrapped(contexts[|contexts| - 1], WrapAll(e, contexts[..|contexts| - 1]))
  }

  /** FromError sees through any number of wrapping layers (errcode/errors_test.go checks one). */
  lemma {:induction false} FromErrorThroughWraps(e: Error, contexts: seq<string>)
    ensures FromError(Some(WrapAll(e, contexts))) == Find(e)
    ensures forall code: Int64 :: Is(Some(WrapAll(e, contexts)), code) <==> Is(Some(e), code)
    decreases |contexts|
  {
    if contexts != [] {
      FromErrorThroughWraps(e, contexts[..|contexts| - 1]);
    }
  }

  /** A domain error built by New is recognised by Is for its own code and no other, however it was wrapped. */
  lemma NewIsRecognised(code: Int64, message: string, contexts: seq<string>, other: Int64)
    ensures FromError(Some(WrapAll(Domain(New(code, message)), contexts))) == Some(CodeError(code, message))
    ensures Is(Some(WrapAll(Domain(New(code, message)), contexts)), other) <==> other == code
  {
    FromErrorThroughWraps(Domain(New(code, message)), contexts);
  }

  /** nil, the sentinel, foreign errors and a by-value errcode.Error carry no code for FromError, so Is is false for them whatever the code. */
  lemma NoCodeOutsideDomain(code: Int64, text: string, value: CodeError)
    ensures !Is(None, code)
    ensures !Is(Some(ErrResultsNotFound), code)
    ensures !Is(Some(Foreign(text)), code)
    ensures !Is(Some(DomainValue(value)), code)
    ensures !Is(Some(Joined([])), code)
  {
  }

  /** errors.Join(New(a, m), New(b, n)): the first joined domain error decides, so Is holds for a and, when a != b, not for b. */
  lemma JoinFirstWins(a: Int64, m: string, b: Int64, n: string, other: Int64)
    ensures FromError(Some(Joined([Domain(New(a, m)), Domain(New(b, n))]))) == Some(CodeError(a, m))
    ensures Is(Some(Joined([Domain(New(a, m)), Domain(New(b, n))])), other) <==> other == a
  {
    var errs := [Domain(New(a, m)), Domain(New(b, n))];
    assert errs[0] == Domain(CodeError(a, m));
    assert FindFirst(errs) == Some(CodeError(a, m));
  }

  /** A joined error is searched child by child: children holding no *Error are passed over, however deep they go. */
  lemma {:induction false} JoinSkipsCodeless(skipped: seq<Error>, e: Error, rest: seq<Error>)
    requires forall i :: 0 <= i < |skipped| ==> Find(skipped[i]).None?
    ensures FromError(Some(Joined(skipped + [e] + rest))) == (if Find(e).Some? then Find(e) else FindFirst(rest))
    decreases |skipped|
  {
    var all := skipped + [e] + rest;
    if skipped != [] {
      assert all[1..] == skipped[1..] + [e] + rest;
      assert all[0] == skipped[0];
      assert FindFirst(all) == FindFirst(all[1..]);
      JoinSkipsCodeless(skipped[1..], e, rest);
    } else {
      assert all[0] == e && all[1..] == rest;
      assert FromError(Some(Joined(all))) == FindFirst(all);
    }
  }

  /** One error matches one code at most. */
  lemma IsExclusive(err: Option<Error>, a: Int64, b: Int64)
    requires Is(err, a) && Is(err, b)
    ensures a == b
  {
  }

  /** Where the parts of a rendered error sit: the digits after the code prefix, the comma that ends them, and the message at the end. */
  lemma RenderLayout(e: CodeError)
    ensures var s, f := Render(e), FormatInt(e.code);
      && |s| == |CodePrefix| + |f| + |MessagePrefix| + |e.message|
      && (forall i :: 0 <= i < |f| ==> s[|CodePrefix| + i] == f[i])
      && s[|CodePrefix| + |f|] == ','
      && s[|CodePrefix|..|CodePrefix| + |f|] == f
      && s[|CodePrefix| + |f| + |MessagePrefix|..] == e.message
  {
  }

  /** Error() loses nothing: the rendered text determines code and message. */
  lemma RenderInjective(a: CodeError, b: CodeError)
    requires Render(a) == Render(b)
    ensures a == b
  {
    var fa, fb := FormatInt(a.code), FormatInt(b.code);
    RenderLayout(a);
    RenderLayout(b);
    FormatIntChars(a.code);
    FormatIntChars(b.code);
    assert |fa| == |fb|;
    FormatIntInjective(a.code, b.code);
  }

  /** How many of the given predicate outcomes are true. */
  function CountTrue(bs: seq<bool>): nat
    decreases |bs|
  {
    if bs == [] then 0 else (if bs[0] then 1 else 0) + CountTrue(bs[1..])
  }

  /** No code appears twice. */
  predicate Distinct(codes: seq<Int64>) {
    forall i, j :: 0 <= i < j < |codes| ==> codes[i] != codes[j]
  }

  /** Each code is larger than the one before, as every table lists them. */
  predicate Increasing(codes: seq<Int64>) {
    forall i :: 0 < i < |codes| ==> codes[i - 1] < codes[i]
  }

  lemma {:induction false} IncreasingDistinct(codes: seq<Int64>)
    requires Increasing(codes)
    ensures Distinct(codes)
    ensures forall i :: 0 < i < |codes| ==> codes[0] < codes[i]
    decreases |codes|
  {
    if |codes| > 1 {
      IncreasingDistinct(codes[1..]);
      assert forall i :: 0 <= i < |codes| - 1 ==> codes[1..][i] == codes[i + 1];
    }
  }

  /**
   * The counting argument behind every predicate table: when each outcome says
   * "the code is codes[i]" and the codes are distinct, exactly one outcome holds
   * if the code is listed and none otherwise.
   */
  lemma {:induction false} CountMatches(bs: seq<bool>, codes: seq<Int64>, code: Option<Int64>)
    requires |bs| == |codes| && Distinct(codes)
    requires forall i :: 0 <= i < |bs| ==> (bs[i] <==> code == Some(codes[i]))
    ensures CountTrue(bs) == if code.Some? && code.value in codes then 1 else 0
    decreases |bs|
  {
    if bs != [] {
      assert forall i :: 0 <= i < |bs| - 1 ==> bs[1..][i] == bs[i + 1] && codes[1..][i] == codes[i + 1];
      CountMatches(bs[1..], codes[1..], code);
      assert codes == [codes[0]] + codes[1..];
      if bs[0] {
        assert codes[0] !in codes[1..] by {
          forall k | 0 <= k < |codes[1..]| ensures codes[1..][k] != codes[0] {
            assert codes[1..][k] == codes[k + 1];
          }
        }
      }
    }
  }
}
