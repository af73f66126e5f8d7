/**
 * The parts of Go's net/http header type the client uses: an http.Header is
 * a map from canonical keys to lists of values, and Set, Add and Get
 * canonicalise the key they are given the way
 * net/textproto.CanonicalMIMEHeaderKey does.  These are library functions,
 * modelled after their documented behaviour because what the client
 * promises about its headers depends on them.
 */
module HttpHeader {

  /** An http.Header. */
  type Header = map<string, seq<string>>

  /** A byte allowed in a header field name (a token character of section 5.6.2 of RFC 9110). */
  predicate IsTokenChar(c: char) {
    || 'a' <= c <= 'z' || 'A' <= c <= 'Z' || '0' <= c <= '9'
    || c in "!#$%&'*+-.^_`|~"
  }

  /** The case change of one byte: upper case at the start of a word, lower case elsewhere; other bytes are kept. */
  function Recase(c: char, upper: bool): (d: char)
    ensures IsTokenChar(c) <==> IsTokenChar(d)
    ensures (c == '-') <==> (d == '-')
  {
    if upper && 'a' <= c <= 'z' then (c as int - 32) as char
    else if !upper && 'A' <= c <= 'Z' then (c as int + 32) as char
    else c
  }

  /** The case change of a whole key, where a word starts at the beginning and after each hyphen. */
  function Title(s: string, upper: bool): (t: string)
    ensures |t| == |s|
    decreases |s|
  {
    if s == [] then [] else [Recase(s[0], upper)] + Title(s[1..], s[0] == '-')
  }

  /**
   * textproto.CanonicalMIMEHeaderKey: a key made only of token characters is
   * written with the first letter and every letter after a hyphen in upper
   * case and the rest in lower case; any other key is returned unchanged.
   */
  function CanonicalKey(k: string): (c: string)
    ensures |c| == |k|
  {
    if forall i :: 0 <= i < |k| ==> IsTokenChar(k[i]) then Title(k, true) else k
  }

  /** Header.Values: every value stored under the key's canonical form. */
  function Values(h: Header, k: string): seq<string> {
    if CanonicalKey(k) in h then h[CanonicalKey(k)] else []
  }

  /** Header.Get: the first value under the key's canonical form, "" when there is none. */
  function Get(h: Header, k: string): (v: string)
    ensures Values(h, k) != [] ==> v == Values(h, k)[0]
    ensures Values(h, k) == [] ==> v == ""
  {
    if Values(h, k) != [] then Values(h, k)[0] else ""
  }

  /** Header.Set: the single value v under the key's canonical form; no other key changes. */
  function Set(h: Header, k: string, v: string): (r: Header)
    ensures Values(r, k) == [v]
    ensures forall j :: CanonicalKey(j) != CanonicalKey(k) ==> Values(r, j) == Values(h, j)
  {
    h[CanonicalKey(k) := [v]]
  }

  /** Header.Add: v appended to the values under the key's canonical form; no other key changes. */
  function Add(h: Header, k: string, v: string): (r: Header)
    ensures Values(r, k) == Values(h, k) + [v]
    ensures forall j :: CanonicalKey(j) != CanonicalKey(k) ==> Values(r, j) == Values(h, j)
  {
    h[CanonicalKey(k) := Values(h, k) + [v]]
  }

  /** Re-casing is idempotent on token characters, starting from either case state. */
  lemma {:induction false} TitleIdempotent(s: string, upper: bool)
    requires forall i :: 0 <= i < |s| ==> IsTokenChar(s[i])
    ensures Title(Title(s, upper), upper) == Title(s, upper)
    decreases |s|
  {
    if s != [] {
      var t := Title(s, upper);
      assert t[0] == Recase(s[0], upper) && t[1..] == Title(s[1..], s[0] == '-');
      TitleIdempotent(s[1..], s[0] == '-');
    }
  }

  /** Re-casing keeps a key made of token characters made of token characters. */
  lemma {:induction false} TitleTokens(s: string, upper: bool)
    requires forall i :: 0 <= i < |s| ==> IsTokenChar(s[i])
    ensures forall i :: 0 <= i < |s| ==> IsTokenChar(Title(s, upper)[i])
    decreases |s|
  {
    if s != [] {
      var t := Title(s, upper);
      TitleTokens(s[1..], s[0] == '-');
      assert t[1..] == Title(s[1..], s[0] == '-');
      forall i | 1 <= i < |s|
        ensures IsTokenChar(t[i])
      {
        assert t[i] == t[1..][i - 1];
      }
    }
  }

  /** A canonical key is its own canonical form, so Set and Get on the stored keys are stable. */
  lemma CanonicalKeyIdempotent(k: string)
    ensures CanonicalKey(CanonicalKey(k)) == CanonicalKey(k)
  {
    if forall i :: 0 <= i < |k| ==> IsTokenChar(k[i]) {
      TitleTokens(k, true);
      TitleIdempotent(k, true);
    }
  }

  /** A key and its canonical form name the same values. */
  lemma ValuesCanonical(h: Header, k: string)
    ensures Values(h, CanonicalKey(k)) == Values(h, k)
  {
    CanonicalKeyIdempotent(k);
  }

  /** Adding under one key never changes the first value Get sees under any key that already had one. */
  lemma AddKeepsFirst(h: Header, k: string, v: string, j: string)
    requires Values(h, j) != []
    ensures Get(Add(h, k, v), j) == Get(h, j)
  {
  }

  /** Keys that differ in length never clash, since canonicalising keeps the length. */
  lemma DifferentLengthsDiffer(a: string, b: string)
    requires |a| != |b|
    ensures CanonicalKey(a) != CanonicalKey(b)
  {
  }
}
