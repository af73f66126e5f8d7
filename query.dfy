/**
 * The query-parameter maps the endpoint files build.  Every endpoint starts
 * from a map literal of the keys it always sends and then makes a run of
 * conditional inserts; each key follows one of a handful of rules, and an
 * endpoint is described here by the list of its keys with their rules, in
 * the order the source writes them.  Build performs the inserts in that
 * order; Sends states, independently of the order, what the resulting map
 * holds.
 */
module Query {
  import opened Wrappers
  import opened Strconv
  import opened Strings

  /** A Go map[string]string of query parameters; a nil map is the empty map. */
  type Params = map<string, string>

  /** The separator every endpoint joins its list parameters with (strings.Join(xs, ",")). */
  const Comma := ','

  /** How an endpoint sends one key. */
  datatype Rule =
    | Always(value: string)                  // an entry of the map literal: sent even when empty
    | IfNonEmpty(value: string)              // if v != "" { params[k] = v }
    | ListIfNonEmpty(values: seq<string>)    // if len(xs) > 0 { params[k] = strings.Join(xs, ",") }
    | FlagIfSet(on: bool)                    // if b { params[k] = "true" }
    | BoolIfNonNil(flag: Option<bool>)       // if p != nil { params[k] = strconv.FormatBool(*p) }
    | IntIfNonZero(n: Int64)                 // if n != 0 { params[k] = strconv.Itoa(n) }

  /** One key of an endpoint, with the rule it is sent by. */
  datatype Param = Param(name: string, rule: Rule)

  /** The statement the source writes for one key: insert it when the rule says so. */
  function Insert(p: Params, q: Param): Params {
    var k := q.name;
    match q.rule
    case Always(v) => p[k := v]
    case IfNonEmpty(v) => if v != "" then p[k := v] else p
    case ListIfNonEmpty(xs) => if |xs| > 0 then p[k := Join(xs, [Comma])] else p
    case FlagIfSet(b) => if b then p[k := "true"] else p
    case BoolIfNonNil(o) => if o.Some? then p[k := FormatBool(o.value)] else p
    case IntIfNonZero(n) => if n != 0 then p[k := FormatInt(n)] else p
  }

  /** The map an endpoint builds: the inserts of ps performed left to right, starting from an empty map. */
  function Build(ps: seq<Param>): Params
    decreases |ps|
  {
    if ps == [] then map[] else Insert(Build(ps[..|ps| - 1]), ps[|ps| - 1])
  }

  /** What the map holds for key k under a rule: presence exactly when the rule's condition holds, and then the rendered value. */
  predicate Follows(p: Params, k: string, rule: Rule) {
    match rule
    case Always(v) => k in p && p[k] == v
    case IfNonEmpty(v) => (k in p <==> v != "") && (k in p ==> p[k] == v)
    case ListIfNonEmpty(xs) => (k in p <==> xs != []) && (k in p ==> p[k] == Join(xs, [Comma]))
    case FlagIfSet(b) => (k in p <==> b) && (k in p ==> p[k] == "true")
    case BoolIfNonNil(o) => (k in p <==> o.Some?) && (k in p ==> p[k] == FormatBool(o.value))
    case IntIfNonZero(n) => (k in p <==> n != 0) && (k in p ==> p[k] == FormatInt(n))
  }

  function Names(ps: seq<Param>): (ns: set<string>)
    ensures forall i :: 0 <= i < |ps| ==> ps[i].name in ns
  {
    set i | 0 <= i < |ps| :: ps[i].name
  }

  predicate DistinctNames(ps: seq<Param>) {
    forall i, j :: 0 <= i < j < |ps| ==> ps[i].name != ps[j].name
  }

  /** Pairs each key name with its rule. */
  function Zip(names: seq<string>, rules: seq<Rule>): (ps: seq<Param>)
    requires |names| == |rules|
    ensures |ps| == |names|
    ensures forall i :: 0 <= i < |ps| ==> ps[i] == Param(names[i], rules[i])
  {
    seq(|names|, i requires 0 <= i < |names| => Param(names[i], rules[i]))
  }

  /** The names are pairwise distinct; names of different lengths are told apart by length before their characters are compared. */
  predicate UniqueNames(names: seq<string>) {
    forall i, j :: 0 <= i < j < |names| ==> |names[i]| != |names[j]| || names[i] != names[j]
  }

  /** Names are distinct when some function maps each of them back to its own position. */
  lemma PositionsUnique(names: seq<string>, position: string -> int)
    requires forall i :: 0 <= i < |names| ==> position(names[i]) == i
    ensures UniqueNames(names)
  {
    forall i, j | 0 <= i < j < |names|
      ensures |names[i]| != |names[j]| || names[i] != names[j]
    {
      assert position(names[i]) != position(names[j]);
    }
  }

  lemma ZipDistinct(names: seq<string>, rules: seq<Rule>)
    requires |names| == |rules| && UniqueNames(names)
    ensures DistinctNames(Zip(names, rules))
  {
  }

  /** p is what an endpoint with key list ps sends: every key follows its rule, and no other key is present. */
  predicate Sends(p: Params, ps: seq<Param>) {
    && (forall i :: 0 <= i < |ps| ==> Follows(p, ps[i].name, ps[i].rule))
    && p.Keys <= Names(ps)
  }

  /** An insert leaves every other key as it was. */
  /** k is none of names; as in UniqueNames, lengths are compared first. */
  predicate Absent(k: string, names: seq<string>) {
    forall i :: 0 <= i < |names| ==> |names[i]| != |k| || names[i] != k
  }

  /** An endpoint whose table is built from a name list never sends a key that is not among those names. */
  lemma SendsOnlyNames(p: Params, names: seq<string>, rules: seq<Rule>, k: string)
    requires |names| == |rules| && Sends(p, Zip(names, rules)) && Absent(k, names)
    ensures k !in p
  {
    assert forall i :: 0 <= i < |names| ==> Zip(names, rules)[i].name != k;
  }

  lemma InsertOthers(p: Params, q: Param, k: string)
    requires k != q.name
    ensures (k in Insert(p, q) <==> k in p) && (k in p ==> Insert(p, q)[k] == p[k])
  {
  }

  /** An insert into a map that does not hold the key yet makes the key follow its rule. */
  lemma InsertFollows(p: Params, q: Param)
    requires q.name !in p
    ensures Follows(Insert(p, q), q.name, q.rule)
  {
  }

  /** With distinct key names, the inserts of Build produce exactly the map Sends describes. */
  lemma {:induction false} BuildSends(ps: seq<Param>)
    requires DistinctNames(ps)
    ensures Sends(Build(ps), ps)
    decreases |ps|
  {
    if ps != [] {
      var n := |ps| - 1;
      var front := ps[..n];
      BuildSends(front);
      SendsSnoc(Build(front), front, ps[n]);
      assert front + [ps[n]] == ps;
    }
  }

  /** One more insert, of a key not listed before, extends what the map sends by that key. */
  lemma SendsSnoc(p: Params, ps: seq<Param>, q: Param)
    requires Sends(p, ps) && DistinctNames(ps + [q])
    ensures Sends(Insert(p, q), ps + [q])
  {
    var qs := ps + [q];
    assert q.name !in Names(ps) by {
      forall i | 0 <= i < |ps| ensures ps[i].name != q.name {
        assert qs[i] == ps[i] && qs[|ps|] == q;
      }
    }
    InsertFollows(p, q);
    forall i | 0 <= i < |qs|
      ensures Follows(Insert(p, q), qs[i].name, qs[i].rule)
    {
      if i < |ps| {
        assert qs[i] == ps[i];
        InsertOthers(p, q, ps[i].name);
      }
    }
    assert Names(ps) + {q.name} <= Names(qs) by {
      forall i | 0 <= i < |ps| ensures ps[i].name in Names(qs) {
        assert qs[i] == ps[i];
      }
      assert qs[|ps|] == q;
    }
  }

  /** Sends fixes the map: two maps that both send ps are equal, so Build is the only map with that description. */
  lemma SendsUnique(p: Params, q: Params, ps: seq<Param>)
    requires Sends(p, ps) && Sends(q, ps)
    ensures p == q
  {
    forall k | k in p || k in q
      ensures k in p && k in q && p[k] == q[k]
    {
      var i :| 0 <= i < |ps| && ps[i].name == k;
      assert Follows(p, k, ps[i].rule) && Follows(q, k, ps[i].rule);
    }
  }

  /** The value a query map leaves for a key: its entry, or "" when absent (the zero value Go's map index gives). */
  function Lookup(p: Params, k: string): (v: string)
    ensures k !in p ==> v == ""
    ensures k in p ==> v == p[k]
  {
    if k in p then p[k] else ""
  }

  /** Reads back a list parameter: absent is the empty list, present is split at commas. */
  function LookupList(p: Params, k: string): (xs: seq<string>)
    ensures k !in p ==> xs == []
    ensures k in p ==> |xs| > 0
  {
    if k in p then Split(p[k], Comma) else []
  }

  /** Reads back a flag: set exactly when the key holds "true". */
  function LookupFlag(p: Params, k: string): (b: bool)
    ensures b <==> k in p && p[k] == "true"
  {
    k in p && ParseBool(p[k])
  }

  /** Reads back an optional *bool: nil exactly when the key is absent. */
  function LookupBool(p: Params, k: string): (b: Option<bool>)
    ensures b.Some? <==> k in p
  {
    if k in p then Some(ParseBool(p[k])) else None
  }

  /** Reads back an integer sent only when non-zero: absent (or unparsable) is 0. */
  function LookupInt(p: Params, k: string): (n: Int64)
    ensures k !in p ==> n == 0
  {
    if k in p then (match ParseInt(p[k]) case Ok(v) => v case Err(_) => 0) else 0
  }

  /** Reads key k of p back under the shape of rule. */
  function Recover(p: Params, k: string, rule: Rule): Rule {
    match rule
    case Always(_) => Always(Lookup(p, k))
    case IfNonEmpty(_) => IfNonEmpty(Lookup(p, k))
    case ListIfNonEmpty(_) => ListIfNonEmpty(LookupList(p, k))
    case FlagIfSet(_) => FlagIfSet(LookupFlag(p, k))
    case BoolIfNonNil(_) => BoolIfNonNil(LookupBool(p, k))
    case IntIfNonZero(_) => IntIfNonZero(LookupInt(p, k))
  }

  /** A rule whose value survives the trip through the map: a list only when no element contains a comma. */
  predicate Recoverable(rule: Rule) {
    rule.ListIfNonEmpty? ==> Unseparated(rule.values, Comma)
  }

  /** Every rule's value can be read back from a map that follows it (the round trip of one key). */
  lemma FollowsRecover(p: Params, k: string, rule: Rule)
    requires Follows(p, k, rule) && Recoverable(rule)
    ensures Recover(p, k, rule) == rule
  {
    match rule
    case ListIfNonEmpty(xs) =>
      if xs != [] {
        SplitJoin(xs, Comma);
      }
    case BoolIfNonNil(o) =>
      if o.Some? {
        assert ParseBool(FormatBool(o.value)) == o.value;
      }
    case IntIfNonZero(n) =>
      if n != 0 {
        ParseFormatInt(n);
      }
    case _ =>
  }

  /** Every key of a built map reads back as its rule's value. */
  lemma BuildRecovers(ps: seq<Param>)
    requires DistinctNames(ps)
    requires forall i :: 0 <= i < |ps| ==> Recoverable(ps[i].rule)
    ensures forall i :: 0 <= i < |ps| ==> Recover(Build(ps), ps[i].name, ps[i].rule) == ps[i].rule
  {
    BuildSends(ps);
    forall i | 0 <= i < |ps| {
      FollowsRecover(Build(ps), ps[i].name, ps[i].rule);
    }
  }

  /** Whether a rule's condition leaves its key out: never for Always, otherwise for the empty, false, nil or zero value. */
  predicate Silent(rule: Rule) {
    match rule
    case Always(_) => false
    case IfNonEmpty(v) => v == ""
    case ListIfNonEmpty(xs) => xs == []
    case FlagIfSet(b) => !b
    case BoolIfNonNil(o) => o.None?
    case IntIfNonZero(n) => n == 0
  }

  /** When every rule is silent the endpoint sends the empty map. */
  lemma SendsNothing(p: Params, ps: seq<Param>)
    requires Sends(p, ps)
    requires forall i :: 0 <= i < |ps| ==> Silent(ps[i].rule)
    ensures p == map[]
  {
    forall i | 0 <= i < |ps|
      ensures ps[i].name !in p
    {
      assert Follows(p, ps[i].name, ps[i].rule);
    }
    assert p.Keys == {};
  }

  /** When every rule is Always the endpoint sends exactly its listed keys. */
  lemma SendsEveryName(p: Params, ps: seq<Param>)
    requires Sends(p, ps)
    requires forall i :: 0 <= i < |ps| ==> ps[i].rule.Always?
    ensures p.Keys == Names(ps)
  {
    forall k | k in Names(ps)
      ensures k in p
    {
      var i :| 0 <= i < |ps| && ps[i].name == k;
      assert Follows(p, k, ps[i].rule);
    }
  }

  /**
   * The run of statements an endpoint writes, performed in order over a map
   * that starts empty: each key is inserted when its rule's condition holds.
   */
  method Assemble(ps: seq<Param>) returns (p: Params)
    ensures p == Build(ps)
  {
    p := map[];
    for i := 0 to |ps|
      invariant p == Build(ps[..i])
    {
      assert ps[..i + 1][..i] == ps[..i];
      var k := ps[i].name;
      match ps[i].rule {
        case Always(v) =>
          p := p[k := v];
        case IfNonEmpty(v) =>
          if v != "" {
            p := p[k := v];
          }
        case ListIfNonEmpty(xs) =>
          if |xs| > 0 {
            p := p[k := Join(xs, [Comma])];
          }
        case FlagIfSet(b) =>
          if b {
            p := p[k := "true"];
          }
        case BoolIfNonNil(o) =>
          if o.Some? {
            p := p[k := FormatBool(o.value)];
          }
        case IntIfNonZero(n) =>
          if n != 0 {
            p := p[k := FormatInt(n)];
          }
      }
    }
    assert ps[..|ps|] == ps;
  }
}
