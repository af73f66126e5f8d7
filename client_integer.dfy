/**
 * client/integer.go: Integer, the envelope's code type, which accepts a JSON
 * number or a JSON string holding one.  The store through the receiver is
 * the result of UnmarshalJson: the new value on success, the old one on
 * failure.
 */
module ClientInteger {
  import opened Wrappers
  import opened Strconv

  /** client.Integer, an int64. */
  type Integer = Int64

  /** What (*Integer).UnmarshalJSON leaves behind: the receiver's value and the error returned. */
  datatype Unmarshalled = Unmarshalled(value: Integer, err: Option<NumError>)

  /** Integer.Int: the stored int64, as it is. */
  function Int(n: Integer): (r: Int64)
    ensures r as int == n as int
  {
    n
  }

  /** Integer.String: strconv.FormatInt(n, 10), which ParseInt reads back. */
  function String(n: Integer): (s: string)
    ensures ParseInt(s) == Ok(n)
  {
    ParseFormatInt(n);
    FormatInt(n)
  }

  /**
   * The text UnmarshalJSON parses: when the first byte is a double quote the
   * first and the last byte are dropped, whatever the last byte is.  Go
   * indexes b[0] and slices b[1:len(b)-1], so the input must be non-empty
   * and a lone quote is out of range.
   */
  function Unquoted(b: string): (num: string)
    requires |b| > 0 && (b[0] == '"' ==> |b| >= 2)
    ensures b[0] == '"' ==> |num| == |b| - 2 && (forall i :: 0 <= i < |num| ==> num[i] == b[i + 1])
    ensures b[0] != '"' ==> num == b
  {
    if b[0] == '"' then b[1..|b| - 1] else b
  }

  /** (*Integer).UnmarshalJSON on receiver value n: ParseInt of the unquoted text; the value changes only on success. */
  function UnmarshalJson(b: string, n: Integer): (r: Unmarshalled)
    requires |b| > 0 && (b[0] == '"' ==> |b| >= 2)
    ensures r.err.Some? ==> r.value == n
    ensures r.err.None? <==> ParseInt(Unquoted(b)).Ok?
    ensures r.err.None? ==> r.value == ParseInt(Unquoted(b)).value
  {
    match ParseInt(Unquoted(b))
    case Err(e) => Unmarshalled(n, Some(e))
    case Ok(i) => Unmarshalled(i, None)
  }

  /** String's text is read back by UnmarshalJson, bare or wrapped in quotes. */
  lemma UnmarshalString(m: Integer, n: Integer)
    ensures UnmarshalJson(String(m), n) == Unmarshalled(m, None)
    ensures UnmarshalJson("\"" + String(m) + "\"", n) == Unmarshalled(m, None)
  {
    var s := String(m);
    assert s[0] != '"' by { FormatIntChars(m); }
    var q := "\"" + s + "\"";
    assert Unquoted(q) == s;
  }

  /** The closing byte is never checked: an opening quote, the digits of m and any last byte c read as m. */
  lemma UnmarshalIgnoresLastByte(m: Integer, c: char, n: Integer)
    requires c as int < 256
    ensures UnmarshalJson("\"" + String(m) + [c], n) == Unmarshalled(m, None)
  {
    var q := "\"" + String(m) + [c];
    assert Unquoted(q) == String(m);
  }

  /** A decimal integer outside the int64 range is a range error, and the receiver keeps its value. */
  lemma UnmarshalOutOfRange(m: int, n: Integer)
    requires m < MinInt64 || m > MaxInt64
    ensures UnmarshalJson(FormatInt(m), n) == Unmarshalled(n, Some(ErrRange))
  {
    ParseFormatInt(m);
    assert FormatInt(m)[0] != '"' by { FormatIntChars(m); }
  }

  /** Text that is not a number at all, such as an empty quoted string, is a syntax error and changes nothing. */
  lemma UnmarshalEmptyString(n: Integer)
    ensures UnmarshalJson("\"\"", n) == Unmarshalled(n, Some(ErrSyntax))
  {
    assert Unquoted("\"\"") == [];
  }
}
