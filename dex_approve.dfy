/**
 * dex/approve_transactions.go: GetApproveTx, a map literal of three keys
 * sent unchanged, even when empty.
 */
module DexApprove {
  import opened Wrappers
  import opened ErrCode
  import opened Query
  import opened Transport

  /** ApproveTransactionsRequest. */
  datatype ApproveTransactionsRequest = ApproveTransactionsRequest(
    chainId: string,
    tokenContractAddress: string,
    approveAmount: string)

  const GetApproveTxPath := "/api/v5/dex/aggregator/approve-transaction"

  /** The keys GetApproveTx sends, in the order the source writes them; the rules are listed in the same order in GetApproveTxRules. */
  const GetApproveTxNames: seq<string> := ["chainId", "tokenContractAddress", "approveAmount"]

  function GetApproveTxRules(req: ApproveTransactionsRequest): (rs: seq<Rule>)
    ensures |rs| == |GetApproveTxNames|
  {
    [ Always(req.chainId),
      Always(req.tokenContractAddress),
      Always(req.approveAmount) ]
  }

  function GetApproveTxTable(req: ApproveTransactionsRequest): seq<Param> {
    Zip(GetApproveTxNames, GetApproveTxRules(req))
  }

  lemma GetApproveTxNamesUnique()
    ensures UniqueNames(GetApproveTxNames)
  {
  }

  /** The query map of GetApproveTx: each key follows its rule and no other key is sent. */
  function GetApproveTxQuery(req: ApproveTransactionsRequest): (p: Params)
    ensures Sends(p, GetApproveTxTable(req))
  {
    GetApproveTxNamesUnique();
    ZipDistinct(GetApproveTxNames, GetApproveTxRules(req));
    BuildSends(GetApproveTxTable(req));
    Build(GetApproveTxTable(req))
  }

  /** GetApproveTx: the transport error, ErrResultsNotFound for an empty list, or the first result. */
  method GetApproveTx<R>(get: Getter<seq<R>>, req: ApproveTransactionsRequest) returns (r: Reply<Option<R>>)
    ensures r == FirstOrNotFound(get(GetApproveTxPath, GetApproveTxQuery(req)))
  {
    var params := Assemble(GetApproveTxTable(req));
    var results := get(GetApproveTxPath, params);
    if results.err.Some? {
      return Reply(None, results.err);
    }
    if |results.value| == 0 {
      return Reply(None, Some(ErrResultsNotFound));
    }
    return Reply(Some(results.value[0]), None);
  }

  /** Exactly the three keys are sent, each with its field value unchanged. */
  lemma GetApproveTxSendsEveryKey(req: ApproveTransactionsRequest)
    ensures GetApproveTxQuery(req).Keys == Names(GetApproveTxTable(req))
  {
    SendsEveryName(GetApproveTxQuery(req), GetApproveTxTable(req));
  }
}
