/**
 * wallet/account.go: the wallet account endpoints.  DeleteAccount and
 * UpdateAccount post with a nil result target and return only the error;
 * GetAccount takes its cursor as a variadic argument and sends it only when
 * the first one given is non-empty.
 */
module WalletAccount {
  import opened Wrappers
  import opened ErrCode
  import opened Query
  import opened Transport

  /** The two UpdateType constants. */
  const UpdateTypeAdd := "add"
  const UpdateTypeDelete := "delete"

  const CreateAccountPath := "/api/v5/wallet/account/create-wallet-account"

  /** CreateAccount posts the request record unchanged and returns first-or-not-found. */
  method CreateAccount<B, R>(post: Poster<B, seq<R>>, req: B) returns (r: Reply<Option<R>>)
    ensures r == FirstOrNotFound(post(CreateAccountPath, req))
  {
    var results := post(CreateAccountPath, req);
    if results.err.Some? {
      return Reply(None, results.err);
    }
    if |results.value| == 0 {
      return Reply(None, Some(ErrResultsNotFound));
    }
    return Reply(Some(results.value[0]), None);
  }

  const DeleteAccountPath := "/api/v5/wallet/account/delete-account"

  /** The one key of the body DeleteAccount posts, in the order the source writes them; the rules are listed in the same order in DeleteAccountRules. */
  const DeleteAccountNames: seq<string> := ["accountId"]

  function DeleteAccountRules(accountId: string): (rs: seq<Rule>)
    ensures |rs| == |DeleteAccountNames|
  {
    [Always(accountId)]
  }

  function DeleteAccountTable(accountId: string): seq<Param> {
    Zip(DeleteAccountNames, DeleteAccountRules(accountId))
  }

  lemma DeleteAccountNamesUnique()
    ensures UniqueNames(DeleteAccountNames)
  {
  }

  /** The body DeleteAccount posts: the map {"accountId": accountId}. */
  function DeleteAccountBody(accountId: string): (p: Params)
    ensures Sends(p, DeleteAccountTable(accountId))
  {
    DeleteAccountNamesUnique();
    ZipDistinct(DeleteAccountNames, DeleteAccountRules(accountId));
    BuildSends(DeleteAccountTable(accountId));
    Build(DeleteAccountTable(accountId))
  }

  /** DeleteAccount posts that body with a nil result target and returns the transport error. */
  method DeleteAccount(post: Poster<Params, ()>, accountId: string) returns (err: Option<Error>)
    ensures err == post(DeleteAccountPath, DeleteAccountBody(accountId)).err
  {
    var body := Assemble(DeleteAccountTable(accountId));
    var reply := post(DeleteAccountPath, body);
    err := reply.err;
  }

  /** The body holds accountId and nothing else. */
  lemma DeleteAccountSendsEveryKey(accountId: string)
    ensures DeleteAccountBody(accountId).Keys == Names(DeleteAccountTable(accountId))
  {
    SendsEveryName(DeleteAccountBody(accountId), DeleteAccountTable(accountId));
  }

  const UpdateAccountPath := "/api/v5/wallet/account/update-wallet-account"

  /** UpdateAccount posts the request record with a nil result target and returns the transport error. */
  method UpdateAccount<B>(post: Poster<B, ()>, req: B) returns (err: Option<Error>)
    ensures err == post(UpdateAccountPath, req).err
  {
    var reply := post(UpdateAccountPath, req);
    err := reply.err;
  }

  const GetAccountPath := "/api/v5/wallet/account/accounts"

  /** The keys GetAccount sends, in the order the source writes them; the rules are listed in the same order in GetAccountRules. */
  const GetAccountNames: seq<string> := ["limit", "cursor"]

  function GetAccountRules(limit: string, cursor: seq<string>): (rs: seq<Rule>)
    ensures |rs| == |GetAccountNames|
  {
    [Always(limit), IfNonEmpty(if |cursor| > 0 then cursor[0] else "")]
  }

  function GetAccountTable(limit: string, cursor: seq<string>): seq<Param> {
    Zip(GetAccountNames, GetAccountRules(limit, cursor))
  }

  lemma GetAccountNamesUnique()
    ensures UniqueNames(GetAccountNames)
  {
  }

  /** The query map of GetAccount: each key follows its rule and no other key is sent. */
  function GetAccountQuery(limit: string, cursor: seq<string>): (p: Params)
    ensures Sends(p, GetAccountTable(limit, cursor))
  {
    GetAccountNamesUnique();
    ZipDistinct(GetAccountNames, GetAccountRules(limit, cursor));
    BuildSends(GetAccountTable(limit, cursor));
    Build(GetAccountTable(limit, cursor))
  }

  /** GetAccount: the transport error, ErrResultsNotFound for an empty list, or the first result. */
  method GetAccount<R>(get: Getter<seq<R>>, limit: string, cursor: seq<string>) returns (r: Reply<Option<R>>)
    ensures r == FirstOrNotFound(get(GetAccountPath, GetAccountQuery(limit, cursor)))
  {
    var params := Assemble(GetAccountTable(limit, cursor));
    var results := get(GetAccountPath, params);
    if results.err.Some? {
      return Reply(None, results.err);
    }
    if |results.value| == 0 {
      return Reply(None, Some(ErrResultsNotFound));
    }
    return Reply(Some(results.value[0]), None);
  }

  /** Only the first variadic cursor is looked at: any further cursors change nothing. */
  lemma GetAccountFirstCursor(limit: string, c: string, rest: seq<string>)
    ensures GetAccountQuery(limit, [c] + rest) == GetAccountQuery(limit, [c])
  {
    assert GetAccountTable(limit, [c] + rest) == GetAccountTable(limit, [c]);
  }

  /** With no cursor, or an empty first one, only limit is sent. */
  lemma GetAccountNoCursor(limit: string, cursor: seq<string>)
    requires cursor == [] || cursor[0] == ""
    ensures GetAccountQuery(limit, cursor) == map["limit" := limit]
  {
    var p := GetAccountQuery(limit, cursor);
    assert Follows(p, GetAccountNames[0], GetAccountRules(limit, cursor)[0]);
    assert Follows(p, GetAccountNames[1], GetAccountRules(limit, cursor)[1]);
    assert p.Keys == {"limit"};
  }
}
