/**
 * wallet/chains.go: the chain and token price endpoints.  SupportedChains
 * issues a GET with no parameters; the two price list calls post their
 * request list; these and HistoricalTokenPrice hand back whatever the
 * transport decoded, with no emptiness check.  HistoricalTokenPrice sends its
 * four int64 fields as base-10 strings on every call.
 */
module WalletChains {
  import opened Wrappers
  import opened Strconv
  import opened ErrCode
  import opened Query
  import opened Transport

  const SupportedChainsPath := "/api/v5/wallet/chain/supported-chains"

  /** SupportedChains: a GET with nil (empty) parameters whose decoded result and error are returned as they are. */
  method SupportedChains<R>(get: Getter<R>) returns (r: Reply<R>)
    ensures r == get(SupportedChainsPath, map[])
  {
    r := get(SupportedChainsPath, map[]);
  }

  const TokenIndexPricePath := "/api/v5/wallet/token/current-price"

  /** TokenIndexPrice posts the request list and returns the decoded list and error as they are. */
  method TokenIndexPrice<B, R>(post: Poster<B, R>, req: B) returns (r: Reply<R>)
    ensures r == post(TokenIndexPricePath, req)
  {
    r := post(TokenIndexPricePath, req);
  }

  const RealTimeTokenPricePath := "/api/v5/wallet/token/real-time-price"

  /** RealTimeTokenPrice posts the request list and returns the decoded list and error as they are. */
  method RealTimeTokenPrice<B, R>(post: Poster<B, R>, req: B) returns (r: Reply<R>)
    ensures r == post(RealTimeTokenPricePath, req)
  {
    r := post(RealTimeTokenPricePath, req);
  }

  /** HistoricalTokenPriceRequest. */
  datatype HistoricalTokenPriceRequest = HistoricalTokenPriceRequest(
    chainIndex: string,
    tokenAddress: string,
    limit: Int64,
    cursor: Int64,
    begin: Int64,
    end: Int64,
    period: string)

  const HistoricalTokenPricePath := "/api/v5/wallet/token/historical-price"

  /** The keys HistoricalTokenPrice sends, in the order the source writes them; the rules are listed in the same order in HistoricalTokenPriceRules. */
  const HistoricalTokenPriceNames: seq<string> := [
    "chainIndex",
    "tokenAddress",
    "limit",
    "cursor",
    "begin",
    "end",
    "period" ]

  function HistoricalTokenPriceRules(req: HistoricalTokenPriceRequest): (rs: seq<Rule>)
    ensures |rs| == |HistoricalTokenPriceNames|
  {
    [ Always(req.chainIndex),
      Always(req.tokenAddress),
      Always(FormatInt(req.limit)),
      Always(FormatInt(req.cursor)),
      Always(FormatInt(req.begin)),
      Always(FormatInt(req.end)),
      Always(req.period) ]
  }

  function HistoricalTokenPriceTable(req: HistoricalTokenPriceRequest): seq<Param> {
    Zip(HistoricalTokenPriceNames, HistoricalTokenPriceRules(req))
  }

  /** The position of key k in HistoricalTokenPriceNames, or -1; lengths are compared first so that most keys are told apart without comparing characters. */
  function HistoricalTokenPricePosition(k: string): int {
    if |k| == 10 && k == "chainIndex" then 0 else
    if |k| == 12 && k == "tokenAddress" then 1 else
    if |k| == 5 && k == "limit" then 2 else
    if |k| == 6 && k == "cursor" then 3 else
    if |k| == 5 && k == "begin" then 4 else
    if |k| == 3 && k == "end" then 5 else
    if |k| == 6 && k == "period" then 6 else
    -1
  }

  lemma HistoricalTokenPricePositions()
    ensures forall i :: 0 <= i < |HistoricalTokenPriceNames| ==> HistoricalTokenPricePosition(HistoricalTokenPriceNames[i]) == i
  {
  }

  lemma HistoricalTokenPriceNamesUnique()
    ensures UniqueNames(HistoricalTokenPriceNames)
  {
    HistoricalTokenPricePositions();
    PositionsUnique(HistoricalTokenPriceNames, HistoricalTokenPricePosition);
  }

  /** The query map of HistoricalTokenPrice: each key follows its rule and no other key is sent. */
  function HistoricalTokenPriceQuery(req: HistoricalTokenPriceRequest): (p: Params)
    ensures Sends(p, HistoricalTokenPriceTable(req))
  {
    HistoricalTokenPriceNamesUnique();
    ZipDistinct(HistoricalTokenPriceNames, HistoricalTokenPriceRules(req));
    BuildSends(HistoricalTokenPriceTable(req));
    Build(HistoricalTokenPriceTable(req))
  }

  /** HistoricalTokenPrice: the decoded *result and the error, as the transport returned them. */
  method HistoricalTokenPrice<R>(get: Getter<R>, req: HistoricalTokenPriceRequest) returns (r: Reply<R>)
    ensures r == get(HistoricalTokenPricePath, HistoricalTokenPriceQuery(req))
  {
    var params := Assemble(HistoricalTokenPriceTable(req));
    r := get(HistoricalTokenPricePath, params);
  }

  /** All seven keys are sent on every call. */
  lemma HistoricalTokenPriceSendsEveryKey(req: HistoricalTokenPriceRequest)
    ensures HistoricalTokenPriceQuery(req).Keys == Names(HistoricalTokenPriceTable(req))
  {
    SendsEveryName(HistoricalTokenPriceQuery(req), HistoricalTokenPriceTable(req));
  }

  /** A zero limit, cursor, begin or end is still sent, as "0". */
  lemma HistoricalTokenPriceZero(req: HistoricalTokenPriceRequest)
    requires req.limit == 0
    ensures "limit" in HistoricalTokenPriceQuery(req) && HistoricalTokenPriceQuery(req)["limit"] == "0"
  {
    assert Follows(HistoricalTokenPriceQuery(req), HistoricalTokenPriceNames[2], HistoricalTokenPriceRules(req)[2]);
    assert FormatInt(0) == "0";
  }

  /** ProjectInformationRequest. */
  datatype ProjectInformationRequest = ProjectInformationRequest(
    chainIndex: string,
    tokenAddress: string)

  const ProjectInformationPath := "/api/v5/wallet/token/token-detail"

  /** The keys ProjectInformation sends, in the order the source writes them; the rules are listed in the same order in ProjectInformationRules. */
  const ProjectInformationNames: seq<string> := ["chainIndex", "tokenAddress"]

  function ProjectInformationRules(req: ProjectInformationRequest): (rs: seq<Rule>)
    ensures |rs| == |ProjectInformationNames|
  {
    [Always(req.chainIndex), Always(req.tokenAddress)]
  }

  function ProjectInformationTable(req: ProjectInformationRequest): seq<Param> {
    Zip(ProjectInformationNames, ProjectInformationRules(req))
  }

  lemma ProjectInformationNamesUnique()
    ensures UniqueNames(ProjectInformationNames)
  {
  }

  /** The query map of ProjectInformation: each key follows its rule and no other key is sent. */
  function ProjectInformationQuery(req: ProjectInformationRequest): (p: Params)
    ensures Sends(p, ProjectInformationTable(req))
  {
    ProjectInformationNamesUnique();
    ZipDistinct(ProjectInformationNames, ProjectInformationRules(req));
    BuildSends(ProjectInformationTable(req));
    Build(ProjectInformationTable(req))
  }

  /** ProjectInformation: the transport error, ErrResultsNotFound for an empty list, or the first result. */
  method ProjectInformation<R>(get: Getter<seq<R>>, req: ProjectInformationRequest) returns (r: Reply<Option<R>>)
    ensures r == FirstOrNotFound(get(ProjectInformationPath, ProjectInformationQuery(req)))
  {
    var params := Assemble(ProjectInformationTable(req));
    var results := get(ProjectInformationPath, params);
    if results.err.Some? {
      return Reply(None, results.err);
    }
    if |results.value| == 0 {
      return Reply(None, Some(ErrResultsNotFound));
    }
    return Reply(Some(results.value[0]), None);
  }

  /** ProjectInformation sends exactly chainIndex and tokenAddress. */
  lemma ProjectInformationSendsEveryKey(req: ProjectInformationRequest)
    ensures ProjectInformationQuery(req).Keys == Names(ProjectInformationTable(req))
  {
    SendsEveryName(ProjectInformationQuery(req), ProjectInformationTable(req));
  }
}
