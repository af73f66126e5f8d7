/**
 * strings.Join, which every endpoint uses to send a list as one
 * comma-separated query value, and Split, the inverse a reader of those
 * parameters applies (as strings.Split does).
 */
module Strings {

  /** strings.Join(xs, sep). */
  function Join(xs: seq<string>, sep: string): string
    decreases |xs|
  {
    if |xs| == 0 then ""
    else if |xs| == 1 then xs[0]
    else xs[0] + sep + Join(xs[1..], sep)
  }

  /** strings.Split(s, [sep]): the pieces between occurrences of sep; "" splits into [""]. */
  function Split(s: string, sep: char): (r: seq<string>)
    ensures |r| > 0
    decreases |s|
  {
    if s == [] then [""]
    else
      var rest := Split(s[1..], sep);
      if s[0] == sep then [""] + rest else [[s[0]] + rest[0]] + rest[1..]
  }

  /** No element of xs contains the separator character. */
  predicate Unseparated(xs: seq<string>, sep: char) {
    forall i :: 0 <= i < |xs| ==> sep !in xs[i]
  }

  lemma {:induction false} SplitPlain(a: string, sep: char)
    requires sep !in a
    ensures Split(a, sep) == [a]
    decreases |a|
  {
    if a != [] {
      SplitPlain(a[1..], sep);
      assert [a[0]] + a[1..] == a;
    }
  }

  lemma {:induction false} SplitAfter(a: string, sep: char, b: string)
    requires sep !in a
    ensures Split(a + [sep] + b, sep) == [a] + Split(b, sep)
    decreases |a|
  {
    if a == [] {
      assert a + [sep] + b == [sep] + b;
      assert ([sep] + b)[1..] == b;
    } else {
      var s := a + [sep] + b;
      assert s[0] == a[0];
      assert s[1..] == a[1..] + [sep] + b;
      SplitAfter(a[1..], sep, b);
      assert [a[0]] + a[1..] == a;
    }
  }

  /**
   * Joining a non-empty list whose elements are free of the separator and
   * splitting the result gives the list back; in particular [""] survives,
   * while [] (which joins to "" as well) comes back as [""].
   */
  lemma {:induction false} SplitJoin(xs: seq<string>, sep: char)
    requires |xs| > 0 && Unseparated(xs, sep)
    ensures Split(Join(xs, [sep]), sep) == xs
    decreases |xs|
  {
    if |xs| == 1 {
      SplitPlain(xs[0], sep);
    } else {
      SplitJoin(xs[1..], sep);
      SplitAfter(xs[0], sep, Join(xs[1..], [sep]));
      assert xs[0] + [sep] + Join(xs[1..], [sep]) == Join(xs, [sep]);
      assert [xs[0]] + xs[1..] == xs;
    }
  }

  /** Two ways a list can be flattened to the same query value: the cases the round trip excludes. */
  lemma JoinCollisions()
    ensures Join([], ",") == Join([""], ",") == ""
    ensures Join(["a,b"], ",") == Join(["a", "b"], ",")
  {
  }
}
