/**
 * wallet/pre_transactions.go: address validation, nonce and Sui object
 * lookups, broadcasting, and the sign-info call whose result is decoded by
 * trying four chain-family structs in a fixed order.
 */
module WalletPreTransactions {
  import opened Wrappers
  import opened ErrCode
  import opened Query
  import opened Transport

  /** AddressType, the classification ValidateAddress returns ("0" invalid format, "1" user address, "2" contract address). */
  type AddressType = string

  predicate IsInvalidAddress(a: AddressType) {
    a == "0"
  }

  predicate IsUserAddress(a: AddressType) {
    a == "1"
  }

  predicate IsContractAddress(a: AddressType) {
    a == "2"
  }

  /** The three classifications exclude each other, and some one of them holds exactly for "0", "1" and "2". */
  lemma AddressTypeClassifies(a: AddressType)
    ensures !(IsInvalidAddress(a) && IsUserAddress(a))
    ensures !(IsInvalidAddress(a) && IsContractAddress(a))
    ensures !(IsUserAddress(a) && IsContractAddress(a))
    ensures IsInvalidAddress(a) || IsUserAddress(a) || IsContractAddress(a) <==> a in {"0", "1", "2"}
  {
  }

  /** ValidateAddressRequest. */
  datatype ValidateAddressRequest = ValidateAddressRequest(
    chainIndex: string,
    address: string)

  const ValidateAddressPath := "/api/v5/wallet/pre-transaction/validate-address"

  /** The keys ValidateAddress sends, in the order the source writes them; the rules are listed in the same order in ValidateAddressRules. */
  const ValidateAddressNames: seq<string> := ["chainIndex", "address"]

  function ValidateAddressRules(req: ValidateAddressRequest): (rs: seq<Rule>)
    ensures |rs| == |ValidateAddressNames|
  {
    [Always(req.chainIndex), Always(req.address)]
  }

  function ValidateAddressTable(req: ValidateAddressRequest): seq<Param> {
    Zip(ValidateAddressNames, ValidateAddressRules(req))
  }

  lemma ValidateAddressNamesUnique()
    ensures UniqueNames(ValidateAddressNames)
  {
  }

  /** The query map of ValidateAddress: each key follows its rule and no other key is sent. */
  function ValidateAddressQuery(req: ValidateAddressRequest): (p: Params)
    ensures Sends(p, ValidateAddressTable(req))
  {
    ValidateAddressNamesUnique();
    ZipDistinct(ValidateAddressNames, ValidateAddressRules(req));
    BuildSends(ValidateAddressTable(req));
    Build(ValidateAddressTable(req))
  }

  /** ValidateAddress: the transport error, ErrResultsNotFound for an empty list, or the first result. */
  method ValidateAddress<R>(get: Getter<seq<R>>, req: ValidateAddressRequest) returns (r: Reply<Option<R>>)
    ensures r == FirstOrNotFound(get(ValidateAddressPath, ValidateAddressQuery(req)))
  {
    var params := Assemble(ValidateAddressTable(req));
    var results := get(ValidateAddressPath, params);
    if results.err.Some? {
      return Reply(None, results.err);
    }
    if |results.value| == 0 {
      return Reply(None, Some(ErrResultsNotFound));
    }
    return Reply(Some(results.value[0]), None);
  }

  /** ValidateAddress sends exactly chainIndex and address. */
  lemma ValidateAddressSendsEveryKey(req: ValidateAddressRequest)
    ensures ValidateAddressQuery(req).Keys == Names(ValidateAddressTable(req))
  {
    SendsEveryName(ValidateAddressQuery(req), ValidateAddressTable(req));
  }

  const TransactionBroadcastPath := "/api/v5/wallet/pre-transaction/broadcast-transaction"

  /** TransactionBroadcast posts the request record unchanged and returns first-or-not-found. */
  method TransactionBroadcast<B, R>(post: Poster<B, seq<R>>, tx: B) returns (r: Reply<Option<R>>)
    ensures r == FirstOrNotFound(post(TransactionBroadcastPath, tx))
  {
    var results := post(TransactionBroadcastPath, tx);
    if results.err.Some? {
      return Reply(None, results.err);
    }
    if |results.value| == 0 {
      return Reply(None, Some(ErrResultsNotFound));
    }
    return Reply(Some(results.value[0]), None);
  }

  /** GetNonceRequest. */
  datatype GetNonceRequest = GetNonceRequest(
    chainIndex: string,
    address: string)

  const GetNoncePath := "/api/v5/wallet/pre-transaction/nonce"

  /** The keys GetNonce sends, in the order the source writes them; the rules are listed in the same order in GetNonceRules. */
  const GetNonceNames: seq<string> := ["chainIndex", "address"]

  function GetNonceRules(req: GetNonceRequest): (rs: seq<Rule>)
    ensures |rs| == |GetNonceNames|
  {
    [Always(req.chainIndex), Always(req.address)]
  }

  function GetNonceTable(req: GetNonceRequest): seq<Param> {
    Zip(GetNonceNames, GetNonceRules(req))
  }

  lemma GetNonceNamesUnique()
    ensures UniqueNames(GetNonceNames)
  {
  }

  /** The query map of GetNonce: each key follows its rule and no other key is sent. */
  function GetNonceQuery(req: GetNonceRequest): (p: Params)
    ensures Sends(p, GetNonceTable(req))
  {
    GetNonceNamesUnique();
    ZipDistinct(GetNonceNames, GetNonceRules(req));
    BuildSends(GetNonceTable(req));
    Build(GetNonceTable(req))
  }

  /** GetNonce: the transport error, ErrResultsNotFound for an empty list, or the first result. */
  method GetNonce<R>(get: Getter<seq<R>>, req: GetNonceRequest) returns (r: Reply<Option<R>>)
    ensures r == FirstOrNotFound(get(GetNoncePath, GetNonceQuery(req)))
  {
    var params := Assemble(GetNonceTable(req));
    var results := get(GetNoncePath, params);
    if results.err.Some? {
      return Reply(None, results.err);
    }
    if |results.value| == 0 {
      return Reply(None, Some(ErrResultsNotFound));
    }
    return Reply(Some(results.value[0]), None);
  }

  /** GetNonce sends exactly chainIndex and address. */
  lemma GetNonceSendsEveryKey(req: GetNonceRequest)
    ensures GetNonceQuery(req).Keys == Names(GetNonceTable(req))
  {
    SendsEveryName(GetNonceQuery(req), GetNonceTable(req));
  }

  /** GetSuiObjectRequest. */
  datatype GetSuiObjectRequest = GetSuiObjectRequest(
    chainIndex: string,
    address: string,
    tokenAddress: string,
    limit: string,
    cursor: string)

  const GetSuiObjectPath := "/api/v5/wallet/pre-transaction/sui-object"

  /** The keys GetSuiObject sends, in the order the source writes them; the rules are listed in the same order in GetSuiObjectRules. */
  const GetSuiObjectNames: seq<string> := [
    "chainIndex",
    "address",
    "tokenAddress",
    "limit",
    "cursor" ]

  function GetSuiObjectRules(req: GetSuiObjectRequest): (rs: seq<Rule>)
    ensures |rs| == |GetSuiObjectNames|
  {
    [ Always(req.chainIndex),
      Always(req.address),
      Always(req.tokenAddress),
      IfNonEmpty(req.limit),
      IfNonEmpty(req.cursor) ]
  }

  function GetSuiObjectTable(req: GetSuiObjectRequest): seq<Param> {
    Zip(GetSuiObjectNames, GetSuiObjectRules(req))
  }

  /** The position of key k in GetSuiObjectNames, or -1; lengths are compared first so that most keys are told apart without comparing characters. */
  function GetSuiObjectPosition(k: string): int {
    if |k| == 10 && k == "chainIndex" then 0 else
    if |k| == 7 && k == "address" then 1 else
    if |k| == 12 && k == "tokenAddress" then 2 else
    if |k| == 5 && k == "limit" then 3 else
    if |k| == 6 && k == "cursor" then 4 else
    -1
  }

  lemma GetSuiObjectPositions()
    ensures forall i :: 0 <= i < |GetSuiObjectNames| ==> GetSuiObjectPosition(GetSuiObjectNames[i]) == i
  {
  }

  lemma GetSuiObjectNamesUnique()
    ensures UniqueNames(GetSuiObjectNames)
  {
    GetSuiObjectPositions();
    PositionsUnique(GetSuiObjectNames, GetSuiObjectPosition);
  }

  /** The query map of GetSuiObject: each key follows its rule and no other key is sent. */
  function GetSuiObjectQuery(req: GetSuiObjectRequest): (p: Params)
    ensures Sends(p, GetSuiObjectTable(req))
  {
    GetSuiObjectNamesUnique();
    ZipDistinct(GetSuiObjectNames, GetSuiObjectRules(req));
    BuildSends(GetSuiObjectTable(req));
    Build(GetSuiObjectTable(req))
  }

  /** GetSuiObject: the transport error, ErrResultsNotFound for an empty list, or the first result. */
  method GetSuiObject<R>(get: Getter<seq<R>>, req: GetSuiObjectRequest) returns (r: Reply<Option<R>>)
    ensures r == FirstOrNotFound(get(GetSuiObjectPath, GetSuiObjectQuery(req)))
  {
    var params := Assemble(GetSuiObjectTable(req));
    var results := get(GetSuiObjectPath, params);
    if results.err.Some? {
      return Reply(None, results.err);
    }
    if |results.value| == 0 {
      return Reply(None, Some(ErrResultsNotFound));
    }
    return Reply(Some(results.value[0]), None);
  }

  /** The four structs UnmarshalJSON tries, in the order it tries them. */
  datatype Schema = Evm | Utxo | Solana | Tron

  const TrialOrder: seq<Schema> := [Evm, Utxo, Solana, Tron]

  /** The JSON field names of each struct: SignInfoEvm, SignInfoUtxo, SignInfoSolana and SignInfoTron. */
  function Fields(s: Schema): set<string> {
    match s
    case Evm => {"gasLimit", "nonce", "gasPrice"}
    case Utxo => {"normalFeeRate", "maxFeeRate", "minFeeRate", "inscriptionOutput", "minOutput", "normalCost", "maxCost", "minCost"}
    case Solana => {"baseFee", "priorityFee", "recentBlockHash", "lastValidBlockHeight", "fromAddressRent", "toAddressRent", "tokenAccountInfo"}
    case Tron => {"fee", "refBlockBytes", "refBlockHash", "expiration", "timestamp"}
  }

  /** The JSON value UnmarshalJSON receives, as the decoder sees it at top level; member values are left abstract (V). */
  datatype Document<V> = Null | Object(members: map<string, V>) | NotObject(value: V)

  /**
   * One trial, json.Decoder with DisallowUnknownFields into a fresh *T: null
   * is accepted and leaves T zero; an object is accepted when every key is a
   * field of T and its value fits that field's Go type (typed, the library's
   * judgement); any other value is a type error.
   */
  predicate Decodes<V>(s: Schema, doc: Document<V>, typed: (Schema, string, V) -> bool) {
    match doc
    case Null => true
    case Object(m) => forall k :: k in m ==> k in Fields(s) && typed(s, k, m[k])
    case NotObject(_) => false
  }

  /** The error of one trial: nil when it decodes, otherwise the library's error for that struct (reject). */
  function Trial<V>(s: Schema, doc: Document<V>, typed: (Schema, string, V) -> bool, reject: (Schema, Document<V>) -> Error): (err: Option<Error>)
    ensures err.None? <==> Decodes(s, doc, typed)
  {
    if Decodes(s, doc, typed) then None else Some(reject(s, doc))
  }

  /** The first schema of order that doc decodes as. */
  function FirstDecoding<V>(order: seq<Schema>, doc: Document<V>, typed: (Schema, string, V) -> bool): (w: Option<Schema>)
    ensures w.Some? ==> w.value in order && Decodes(w.value, doc, typed)
    ensures w.None? <==> forall i :: 0 <= i < |order| ==> !Decodes(order[i], doc, typed)
    decreases |order|
  {
    if order == [] then None
    else if Decodes(order[0], doc, typed) then Some(order[0])
    else FirstDecoding(order[1..], doc, typed)
  }

  /** The schema UnmarshalJSON settles on, if any. */
  function Winner<V>(doc: Document<V>, typed: (Schema, string, V) -> bool): Option<Schema> {
    FirstDecoding(TrialOrder, doc, typed)
  }

  /** SignInfoResult: one `*T` field per schema, each nil until a trial assigns it. */
  class SignInfoResult<V> {
    var evm: Option<Document<V>>
    var utxo: Option<Document<V>>
    var solana: Option<Document<V>>
    var tron: Option<Document<V>>

    constructor ()
      ensures evm == None && utxo == None && solana == None && tron == None
    {
      evm, utxo, solana, tron := None, None, None, None;
    }

    /**
     * SignInfoResult.UnmarshalJSON: try EVM, UTXO, Solana and Tron in turn,
     * rewinding to the start of data each time; the first struct that decodes
     * is stored in its own field and nil is returned.  When no struct decodes,
     * nothing is stored and the Tron trial's error is returned.
     */
    method UnmarshalJson(doc: Document<V>, typed: (Schema, string, V) -> bool, reject: (Schema, Document<V>) -> Error)
      returns (err: Option<Error>)
      modifies this
      ensures err == if Winner(doc, typed).None? then Some(reject(Tron, doc)) else None
      ensures evm == if Winner(doc, typed) == Some(Evm) then Some(doc) else old(evm)
      ensures utxo == if Winner(doc, typed) == Some(Utxo) then Some(doc) else old(utxo)
      ensures solana == if Winner(doc, typed) == Some(Solana) then Some(doc) else old(solana)
      ensures tron == if Winner(doc, typed) == Some(Tron) then Some(doc) else old(tron)
    {
      err := Trial(Evm, doc, typed, reject);
      if err.None? {
        evm := Some(doc);
        return;
      }
      err := Trial(Utxo, doc, typed, reject);
      if err.None? {
        utxo := Some(doc);
        return;
      }
      err := Trial(Solana, doc, typed, reject);
      if err.None? {
        solana := Some(doc);
        return;
      }
      err := Trial(Tron, doc, typed, reject);
      if err.None? {
        tron := Some(doc);
        return;
      }
    }
  }

  /** The winner is a schema that decodes and every schema tried before it failed; no winner means every schema failed. */
  lemma WinnerIsFirst<V>(doc: Document<V>, typed: (Schema, string, V) -> bool, i: nat)
    requires i < |TrialOrder|
    ensures Winner(doc, typed) == Some(TrialOrder[i]) <==>
      Decodes(TrialOrder[i], doc, typed) && forall j :: 0 <= j < i ==> !Decodes(TrialOrder[j], doc, typed)
  {
    assert TrialOrder[1..] == [Utxo, Solana, Tron];
    assert TrialOrder[1..][1..] == [Solana, Tron];
    assert TrialOrder[1..][1..][1..] == [Tron];
  }

  /** An object holding a key outside a struct's fields fails that struct's trial. */
  lemma UnknownFieldRejects<V>(s: Schema, m: map<string, V>, k: string, typed: (Schema, string, V) -> bool)
    requires k in m && k !in Fields(s)
    ensures !Decodes(s, Object(m), typed)
  {
  }

  /** The empty object decodes as EVM, the first schema tried, so it never reaches the others. */
  lemma EmptyObjectIsEvm<V>(typed: (Schema, string, V) -> bool)
    ensures Winner(Object(map[]), typed) == Some(Evm)
  {
  }

  /** A UTXO fee field can never be taken for EVM: an object with normalFeeRate that fits the UTXO struct is decoded as UTXO. */
  lemma UtxoFieldSkipsEvm<V>(m: map<string, V>, typed: (Schema, string, V) -> bool)
    requires "normalFeeRate" in m && Decodes(Utxo, Object(m), typed)
    ensures Winner(Object(m), typed) == Some(Utxo)
  {
    UnknownFieldRejects(Evm, m, "normalFeeRate", typed);
  }

  const GetSignInfoPath := "/api/v5/wallet/pre-transaction/sign-info"

  /** GetSignInfo posts the request record unchanged and returns first-or-not-found; each element is a SignInfoResult. */
  method GetSignInfo<B, R>(post: Poster<B, seq<R>>, req: B) returns (r: Reply<Option<R>>)
    ensures r == FirstOrNotFound(post(GetSignInfoPath, req))
  {
    var results := post(GetSignInfoPath, req);
    if results.err.Some? {
      return Reply(None, results.err);
    }
    if |results.value| == 0 {
      return Reply(None, Some(ErrResultsNotFound));
    }
    return Reply(Some(results.value[0]), None);
  }
}
