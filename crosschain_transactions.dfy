/**
 * dex/crosschain/transactions.go: GetTransactionStatus, which always sends the
 * hash and adds chainId only when it is non-empty.  Its bare return on a
 * transport error leaves the named result nil, so the outcome is (nil, err).
 */
module CrossChainTransactions {
  import opened Wrappers
  import opened ErrCode
  import opened Query
  import opened Transport

  /** GetTransactionStatusRequest. */
  datatype GetTransactionStatusRequest = GetTransactionStatusRequest(
    hash: string,
    chainId: string)

  const GetTransactionStatusPath := "/api/v5/dex/cross-chain/status"

  /** The keys GetTransactionStatus sends, in the order the source writes them; the rules are listed in the same order in GetTransactionStatusRules. */
  const GetTransactionStatusNames: seq<string> := ["hash", "chainId"]

  function GetTransactionStatusRules(req: GetTransactionStatusRequest): (rs: seq<Rule>)
    ensures |rs| == |GetTransactionStatusNames|
  {
    [Always(req.hash), IfNonEmpty(req.chainId)]
  }

  function GetTransactionStatusTable(req: GetTransactionStatusRequest): seq<Param> {
    Zip(GetTransactionStatusNames, GetTransactionStatusRules(req))
  }

  lemma GetTransactionStatusNamesUnique()
    ensures UniqueNames(GetTransactionStatusNames)
  {
  }

  /** The query map of GetTransactionStatus: each key follows its rule and no other key is sent. */
  function GetTransactionStatusQuery(req: GetTransactionStatusRequest): (p: Params)
    ensures Sends(p, GetTransactionStatusTable(req))
  {
    GetTransactionStatusNamesUnique();
    ZipDistinct(GetTransactionStatusNames, GetTransactionStatusRules(req));
    BuildSends(GetTransactionStatusTable(req));
    Build(GetTransactionStatusTable(req))
  }

  /** GetTransactionStatus: the transport error, ErrResultsNotFound for an empty list, or the first result. */
  method GetTransactionStatus<R>(get: Getter<seq<R>>, req: GetTransactionStatusRequest) returns (r: Reply<Option<R>>)
    ensures r == FirstOrNotFound(get(GetTransactionStatusPath, GetTransactionStatusQuery(req)))
  {
    var params := Assemble(GetTransactionStatusTable(req));
    var results := get(GetTransactionStatusPath, params);
    if results.err.Some? {
      return Reply(None, results.err);
    }
    if |results.value| == 0 {
      return Reply(None, Some(ErrResultsNotFound));
    }
    return Reply(Some(results.value[0]), None);
  }
}
