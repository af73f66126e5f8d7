/**
 * dex/transaction.go: GetTransactionStatus, which sends the chain and the
 * transaction hash, adds isFromMyProject only when the flag is set, and
 * decodes the reply straight into a single result.
 */
module DexTransaction {
  import opened Wrappers
  import opened ErrCode
  import opened Query
  import opened Transport

  /** GetTransactionStatusRequest. */
  datatype GetTransactionStatusRequest = GetTransactionStatusRequest(
    chainId: string,
    txHash: string,
    isFromMyProject: bool)

  const GetTransactionStatusPath := "/api/v5/dex/aggregator/history"

  /** The keys GetTransactionStatus sends, in the order the source writes them; the rules are listed in the same order in GetTransactionStatusRules. */
  const GetTransactionStatusNames: seq<string> := ["chainId", "txHash", "isFromMyProject"]

  function GetTransactionStatusRules(req: GetTransactionStatusRequest): (rs: seq<Rule>)
    ensures |rs| == |GetTransactionStatusNames|
  {
    [ Always(req.chainId),
      Always(req.txHash),
      FlagIfSet(req.isFromMyProject) ]
  }

  function GetTransactionStatusTable(req: GetTransactionStatusRequest): seq<Param> {
    Zip(GetTransactionStatusNames, GetTransactionStatusRules(req))
  }

  lemma GetTransactionStatusNamesUnique()
    ensures UniqueNames(GetTransactionStatusNames)
  {
  }

  /** The query map of GetTransactionStatus: each key follows its rule and no other key is sent. */
  function GetTransactionStatusQuery(req: GetTransactionStatusRequest): (p: Params)
    ensures Sends(p, GetTransactionStatusTable(req))
  {
    GetTransactionStatusNamesUnique();
    ZipDistinct(GetTransactionStatusNames, GetTransactionStatusRules(req));
    BuildSends(GetTransactionStatusTable(req));
    Build(GetTransactionStatusTable(req))
  }

  /** GetTransactionStatus: (nil, err) on a transport error, otherwise the decoded *result, which may be nil. */
  method GetTransactionStatus<R>(get: Getter<Option<R>>, req: GetTransactionStatusRequest) returns (r: Reply<Option<R>>)
    ensures r == DirectOrNil(get(GetTransactionStatusPath, GetTransactionStatusQuery(req)))
  {
    var params := Assemble(GetTransactionStatusTable(req));
    var result := get(GetTransactionStatusPath, params);
    if result.err.Some? {
      return Reply(None, result.err);
    }
    return Reply(result.value, None);
  }
}
