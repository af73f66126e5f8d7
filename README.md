# okxos: a Dafny model of the OKX REST client

okxos is a typed Go client for the OKX DEX, cross-chain and wallet REST API.
Every endpoint method turns a request record into a query map (or a JSON body),
hands it to the signed transport, and picks what to return from the decoded
`data` list. The transport encodes the body, attaches the query, signs the
request with HMAC-SHA256 and sends it. It then reads the `{code, msg, data}`
envelope, which turns a non-zero code into an `errcode.Error`. Each package
has a table of predicates that recognise those codes.

This project models that core in Dafny and proves what the code promises.

- `wrappers.dfy`, `strconv.dfy` and `strings.dfy` hold the Go library
  behaviour the rest relies on: `Option`/`Result`, base-10 `FormatInt` and
  `ParseInt`, and `strings.Join`/`strings.Split`.
- `errcode.dfy` holds the error type, `New`, `Error()`, `FromError` and `Is`
  through single and joined wrapping. `errcode_errors.dfy`, `dex_errors.dfy`,
  `swap_errors.dfy`, `crosschain_errors.dfy` and `wallet_errors.dfy` hold the
  five code tables. `error_families.dfy` relates the tables to each other.
- `query.dfy` describes how an endpoint builds its query map. Each key has a
  rule: always, only when non-empty, joined with commas, only when set, only
  when non-nil, or only when non-zero. `Sends` is the order-free description
  of the map, and the round trip from map back to request is proved here.
- `transport.dfy` gives the transport interface as function values and holds
  the four ways endpoints select their result.
- `http_header.dfy` models `http.Header` with Go's canonical-key rule.
- `client_integer.dfy` models the envelope's `Integer` code.
- `client_option.dfy` models the functional options as a class mutated by
  each option in turn.
- `client.dfy` models `Client`: signing, request assembly, the send and
  envelope decoding.
- One module per endpoint file: `dex_swap.dfy`, `swap_swap.dfy`,
  `dex_quotes.dfy`, `swap_quotes.dfy`, `dex_transaction.dfy`,
  `dex_approve.dfy`, `limit_order.dfy`, `crosschain_quote.dfy`,
  `crosschain_transactions.dfy`, `wallet_asset.dfy`, `wallet_chains.dfy`,
  `wallet_account.dfy`, `wallet_pre_transactions.dfy`,
  `wallet_post_transaction.dfy` and `wallet_transaction.dfy`. Each
  endpoint is a method whose `ensures` ties its reply to the transport
  call with the map its `...Query` (or `...Body`) function describes.
  `wallet/transaction.go` repeats names declared in
  `wallet/pre_transactions.go` and `wallet/post_transaction.go`. The three
  files are separate modules here, and they are not reconciled.

Inputs the client does not control are parameters of the model:

- the clock (`ts`);
- the HMAC digest, the JSON encoder and decoder, `url.Parse`,
  `URL.Query`, `Values.Encode` and `http.Client.Do`, which are the fields
  of `Client.Library`;
- the order in which Go ranges over the configured header map (`order`);
- which JSON values fit which Go field type (`typed`), and the library's
  decode error (`reject`), for the sign-info decoder.

## Model

| member | source | states |
|---|---|---|
| ErrCode.New | errcode/errcode.go:36-41 | the error holds the given code and message unchanged |
| ErrCode.FromError | errcode/errcode.go:47-55 | nil gives nil; otherwise the first *errcode.Error of the depth-first search errors.As makes through single and joined wrapping, skipping a by-value errcode.Error |
| ErrCode.FindFirstIsFirst | errcode/errcode.go:51 | a joined error finds nothing exactly when no child does, and otherwise finds what the first child with a find finds |
| ErrCode.JoinedDecidedBy | errcode/errcode.go:51 | when the children before i find nothing and child i finds an error, FromError of the join is that error |
| ErrCode.CodeOf | errcode/errcode.go:57-62 | a code is found exactly when FromError finds an error, and Is(err, c) holds exactly for that code |
| ErrCode.FromErrorThroughWraps | errcode/errors_test.go:8-15 | FromError and Is give the same answer through any number of fmt.Errorf("%w") layers |
| ErrCode.NewIsRecognised | errcode/errcode.go:36-62 | a wrapped New(c, m) is found by FromError as (c, m), and Is holds for c and no other code |
| ErrCode.NoCodeOutsideDomain | errcode/errcode.go:27-29 | Is is false for nil, for ErrResultsNotFound, for a foreign error, for a by-value errcode.Error and for an empty join, whatever the code |
| ErrCode.JoinFirstWins | errcode/errcode.go:51-62 | errors.Join(New(a, m), New(b, n)) is found as (a, m), and Is holds for a and no other code |
| ErrCode.JoinSkipsCodeless | errcode/errcode.go:51 | joined children holding no *errcode.Error are passed over, and the next child decides |
| ErrCode.IsExclusive | errcode/errcode.go:57-62 | an error is Is for at most one code |
| ErrCode.RenderLayout | errcode/errcode.go:43-45 | Error() is "code: ", the decimal code, ", message: " and the message, each part at its position |
| ErrCode.RenderInjective | errcode/errcode.go:43-45 | two errors that render the same text have the same code and message |
| ErrCode.IncreasingDistinct | errcode/errors.go:23-55 | a table listed in increasing order names no code twice |
| ErrCode.CountMatches | errcode/errors.go:23-55 | with distinct codes, the number of true predicates is 1 for a listed code and 0 otherwise |
| ErrCodeErrors.IsServiceUnavailable | errcode/errors.go:23-25 | true exactly when the first *errcode.Error that errors.As finds, depth-first through wrapped and joined errors, has code 50001 |
| ErrCodeErrors.IsRateLimitReached | errcode/errors.go:28-30 | true exactly when the first *errcode.Error that errors.As finds, depth-first through wrapped and joined errors, has code 50011 |
| ErrCodeErrors.IsParameterCannotBeEmpty | errcode/errors.go:33-35 | true exactly when the first *errcode.Error that errors.As finds, depth-first through wrapped and joined errors, has code 50014 |
| ErrCodeErrors.IsSystemError | errcode/errors.go:38-40 | true exactly when the first *errcode.Error that errors.As finds, depth-first through wrapped and joined errors, has code 50026 |
| ErrCodeErrors.IsInvalidSignature | errcode/errors.go:43-45 | true exactly when the first *errcode.Error that errors.As finds, depth-first through wrapped and joined errors, has code 50113 |
| ErrCodeErrors.IsParameterError | errcode/errors.go:48-50 | true exactly when the first *errcode.Error that errors.As finds, depth-first through wrapped and joined errors, has code 51000 |
| ErrCodeErrors.IsRepeatedRequest | errcode/errors.go:53-55 | true exactly when the first *errcode.Error that errors.As finds, depth-first through wrapped and joined errors, has code 80000 |
| ErrCodeErrors.Outcomes | errcode/errors.go:23-55 | entry i is true exactly when the error's code is Codes[i], the table's codes 50001, 50011, 50014, 50026, 50113, 51000, 80000 |
| ErrCodeErrors.NamedOutcomes | errcode/errors.go:23-55 | the named predicates, in declaration order, are the entries of Outcomes |
| ErrCodeErrors.CodesDistinct | errcode/errors.go:23-55 | no code is declared twice |
| ErrCodeErrors.Classification | errcode/errors.go:23-55 | exactly one predicate holds for an error carrying a listed code, none for any other error (nil, ErrResultsNotFound, foreign, unlisted code) |
| DexErrors.IsRepeatedRequest | dex/errors.go:25-27 | true exactly when the first *errcode.Error that errors.As finds, depth-first through wrapped and joined errors, has code 80000 |
| DexErrors.IsCallDataExceedsMaxLimit | dex/errors.go:30-32 | true exactly when the first *errcode.Error that errors.As finds, depth-first through wrapped and joined errors, has code 80001 |
| DexErrors.IsTokenLimitReached | dex/errors.go:35-37 | true exactly when the first *errcode.Error that errors.As finds, depth-first through wrapped and joined errors, has code 80002 |
| DexErrors.IsNativeTokenLimitReached | dex/errors.go:40-42 | true exactly when the first *errcode.Error that errors.As finds, depth-first through wrapped and joined errors, has code 80003 |
| DexErrors.IsTimeoutQueryingSuiObject | dex/errors.go:45-47 | true exactly when the first *errcode.Error that errors.As finds, depth-first through wrapped and joined errors, has code 80004 |
| DexErrors.IsSuiObjectsNotEnough | dex/errors.go:50-52 | true exactly when the first *errcode.Error that errors.As finds, depth-first through wrapped and joined errors, has code 82000 |
| DexErrors.IsInsufficientLiquidity | dex/errors.go:55-57 | true exactly when the first *errcode.Error that errors.As finds, depth-first through wrapped and joined errors, has code 82001 |
| DexErrors.IsValueDifference | dex/errors.go:62-64 | true exactly when the first *errcode.Error that errors.As finds, depth-first through wrapped and joined errors, has code 82112 |
| DexErrors.IsTransactionIntercepted | dex/errors.go:73-75 | true exactly when the first *errcode.Error that errors.As finds, depth-first through wrapped and joined errors, has code 82120 |
| DexErrors.Outcomes | dex/errors.go:25-75 | entry i is true exactly when the error's code is Codes[i], the table's codes 80000, 80001, 80002, 80003, 80004, 82000, 82001, 82112, 82120 |
| DexErrors.NamedOutcomes | dex/errors.go:25-75 | the named predicates, in declaration order, are the entries of Outcomes |
| DexErrors.CodesDistinct | dex/errors.go:25-75 | no code is declared twice |
| DexErrors.Classification | dex/errors.go:25-75 | exactly one predicate holds for an error carrying a listed code, none for any other error (nil, ErrResultsNotFound, foreign, unlisted code) |
| SwapErrors.IsRepeatedRequest | dex/swap/errors.go:6-8 | true exactly when the first *errcode.Error that errors.As finds, depth-first through wrapped and joined errors, has code 80000 |
| SwapErrors.IsCallDataExceedsMaxLimit | dex/swap/errors.go:11-13 | true exactly when the first *errcode.Error that errors.As finds, depth-first through wrapped and joined errors, has code 80001 |
| SwapErrors.IsTokenLimitReached | dex/swap/errors.go:16-18 | true exactly when the first *errcode.Error that errors.As finds, depth-first through wrapped and joined errors, has code 80002 |
| SwapErrors.IsNativeTokenLimitReached | dex/swap/errors.go:21-23 | true exactly when the first *errcode.Error that errors.As finds, depth-first through wrapped and joined errors, has code 80003 |
| SwapErrors.IsTimeoutQueryingSuiObject | dex/swap/errors.go:26-28 | true exactly when the first *errcode.Error that errors.As finds, depth-first through wrapped and joined errors, has code 80004 |
| SwapErrors.IsSuiObjectsNotEnough | dex/swap/errors.go:31-33 | true exactly when the first *errcode.Error that errors.As finds, depth-first through wrapped and joined errors, has code 82000 |
| SwapErrors.IsInsufficientLiquidity | dex/swap/errors.go:36-38 | true exactly when the first *errcode.Error that errors.As finds, depth-first through wrapped and joined errors, has code 82001 |
| SwapErrors.IsValueDifference | dex/swap/errors.go:43-45 | true exactly when the first *errcode.Error that errors.As finds, depth-first through wrapped and joined errors, has code 82112 |
| SwapErrors.IsTransactionIntercepted | dex/swap/errors.go:54-56 | true exactly when the first *errcode.Error that errors.As finds, depth-first through wrapped and joined errors, has code 82120 |
| SwapErrors.Outcomes | dex/swap/errors.go:6-56 | entry i is true exactly when the error's code is Codes[i], the table's codes 80000, 80001, 80002, 80003, 80004, 82000, 82001, 82112, 82120 |
| SwapErrors.NamedOutcomes | dex/swap/errors.go:6-56 | the named predicates, in declaration order, are the entries of Outcomes |
| SwapErrors.CodesDistinct | dex/swap/errors.go:6-56 | no code is declared twice |
| SwapErrors.Classification | dex/swap/errors.go:6-56 | exactly one predicate holds for an error carrying a listed code, none for any other error (nil, ErrResultsNotFound, foreign, unlisted code) |
| CrossChainErrors.IsInsufficientLiquidity | dex/crosschain/errors.go:25-27 | true exactly when the first *errcode.Error that errors.As finds, depth-first through wrapped and joined errors, has code 82000 |
| CrossChainErrors.IsCommissionServiceNotAvailable | dex/crosschain/errors.go:30-32 | true exactly when the first *errcode.Error that errors.As finds, depth-first through wrapped and joined errors, has code 82001 |
| CrossChainErrors.IsMinimumAmount | dex/crosschain/errors.go:35-37 | true exactly when the first *errcode.Error that errors.As finds, depth-first through wrapped and joined errors, has code 82102 |
| CrossChainErrors.IsMaximumAmount | dex/crosschain/errors.go:40-42 | true exactly when the first *errcode.Error that errors.As finds, depth-first through wrapped and joined errors, has code 82103 |
| CrossChainErrors.IsThisTokenIsNotSupported | dex/crosschain/errors.go:45-47 | true exactly when the first *errcode.Error that errors.As finds, depth-first through wrapped and joined errors, has code 82104 |
| CrossChainErrors.IsThisChainIsNotSupported | dex/crosschain/errors.go:50-52 | true exactly when the first *errcode.Error that errors.As finds, depth-first through wrapped and joined errors, has code 82105 |
| CrossChainErrors.IsValueDifference | dex/crosschain/errors.go:55-57 | true exactly when the first *errcode.Error that errors.As finds, depth-first through wrapped and joined errors, has code 82112 |
| CrossChainErrors.IsSlippageTooLow | dex/crosschain/errors.go:60-62 | true exactly when the first *errcode.Error that errors.As finds, depth-first through wrapped and joined errors, has code 82114 |
| CrossChainErrors.IsChainHasNotTokenPairs | dex/crosschain/errors.go:65-67 | true exactly when the first *errcode.Error that errors.As finds, depth-first through wrapped and joined errors, has code 82115 |
| CrossChainErrors.IsCrossChainBridgeNotFound | dex/crosschain/errors.go:70-72 | true exactly when the first *errcode.Error that errors.As finds, depth-first through wrapped and joined errors, has code 82116 |
| CrossChainErrors.Outcomes | dex/crosschain/errors.go:25-72 | entry i is true exactly when the error's code is Codes[i], the table's codes 82000, 82001, 82102, 82103, 82104, 82105, 82112, 82114, 82115, 82116 |
| CrossChainErrors.NamedOutcomes | dex/crosschain/errors.go:25-72 | the named predicates, in declaration order, are the entries of Outcomes |
| CrossChainErrors.CodesDistinct | dex/crosschain/errors.go:25-72 | no code is declared twice |
| CrossChainErrors.Classification | dex/crosschain/errors.go:25-72 | exactly one predicate holds for an error carrying a listed code, none for any other error (nil, ErrResultsNotFound, foreign, unlisted code) |
| WalletErrors.IsBlockchainNotSupported | wallet/errors.go:25-27 | true exactly when the first *errcode.Error that errors.As finds, depth-first through wrapped and joined errors, has code 81104 |
| WalletErrors.IsWalletVerificationError | wallet/errors.go:30-32 | true exactly when the first *errcode.Error that errors.As finds, depth-first through wrapped and joined errors, has code 81105 |
| WalletErrors.IsAddressMustBeLowercase | wallet/errors.go:35-37 | true exactly when the first *errcode.Error that errors.As finds, depth-first through wrapped and joined errors, has code 81106 |
| WalletErrors.IsTooManyWalletAddresses | wallet/errors.go:40-42 | true exactly when the first *errcode.Error that errors.As finds, depth-first through wrapped and joined errors, has code 81107 |
| WalletErrors.IsWalletTypeMismatch | wallet/errors.go:45-47 | true exactly when the first *errcode.Error that errors.As finds, depth-first through wrapped and joined errors, has code 81108 |
| WalletErrors.IsAddressUpdateError | wallet/errors.go:50-52 | true exactly when the first *errcode.Error that errors.As finds, depth-first through wrapped and joined errors, has code 81109 |
| WalletErrors.IsChainNotSupported | wallet/errors.go:55-57 | true exactly when the first *errcode.Error that errors.As finds, depth-first through wrapped and joined errors, has code 81150 |
| WalletErrors.IsTokenAddressIncorrect | wallet/errors.go:60-62 | true exactly when the first *errcode.Error that errors.As finds, depth-first through wrapped and joined errors, has code 81151 |
| WalletErrors.IsTokenDoesNotExist | wallet/errors.go:65-67 | true exactly when the first *errcode.Error that errors.As finds, depth-first through wrapped and joined errors, has code 81152 |
| WalletErrors.IsTokenIsPlatformToken | wallet/errors.go:70-72 | true exactly when the first *errcode.Error that errors.As finds, depth-first through wrapped and joined errors, has code 81153 |
| WalletErrors.IsBlockchainAndAddressDoNotMatch | wallet/errors.go:75-77 | true exactly when the first *errcode.Error that errors.As finds, depth-first through wrapped and joined errors, has code 81157 |
| WalletErrors.IsTokenProtocolNotSupported | wallet/errors.go:80-82 | true exactly when the first *errcode.Error that errors.As finds, depth-first through wrapped and joined errors, has code 81158 |
| WalletErrors.IsDataCaching | wallet/errors.go:85-87 | true exactly when the first *errcode.Error that errors.As finds, depth-first through wrapped and joined errors, has code 81159 |
| WalletErrors.IsTransactionNotFound | wallet/errors.go:90-92 | true exactly when the first *errcode.Error that errors.As finds, depth-first through wrapped and joined errors, has code 81201 |
| WalletErrors.IsTransactionStillPending | wallet/errors.go:95-97 | true exactly when the first *errcode.Error that errors.As finds, depth-first through wrapped and joined errors, has code 81202 |
| WalletErrors.IsExtjsonParametersNotFound | wallet/errors.go:100-102 | true exactly when the first *errcode.Error that errors.As finds, depth-first through wrapped and joined errors, has code 81203 |
| WalletErrors.IsFromAddressMismatchAccount | wallet/errors.go:105-107 | true exactly when the first *errcode.Error that errors.As finds, depth-first through wrapped and joined errors, has code 81302 |
| WalletErrors.IsInsufficientBalanceToPay | wallet/errors.go:110-112 | true exactly when the first *errcode.Error that errors.As finds, depth-first through wrapped and joined errors, has code 81351 |
| WalletErrors.IsAddressIsIllegal | wallet/errors.go:115-117 | true exactly when the first *errcode.Error that errors.As finds, depth-first through wrapped and joined errors, has code 81353 |
| WalletErrors.IsNodeReturnFailed | wallet/errors.go:120-122 | true exactly when the first *errcode.Error that errors.As finds, depth-first through wrapped and joined errors, has code 81451 |
| WalletErrors.Outcomes | wallet/errors.go:25-122 | entry i is true exactly when the error's code is Codes[i], the table's codes 81104, 81105, 81106, 81107, 81108, 81109, 81150, 81151, 81152, 81153, 81157, 81158, 81159, 81201, 81202, 81203, 81302, 81351, 81353, 81451 |
| WalletErrors.NamedOutcomes | wallet/errors.go:25-122 | the named predicates, in declaration order, are the entries of Outcomes |
| WalletErrors.CodesDistinct | wallet/errors.go:25-122 | no code is declared twice |
| WalletErrors.Classification | wallet/errors.go:25-122 | exactly one predicate holds for an error carrying a listed code, none for any other error (nil, ErrResultsNotFound, foreign, unlisted code) |
| ErrorFamilies.SwapIsDex | dex/swap/errors.go:6-56 | the swap table agrees with the DEX table predicate by predicate, for every error |
| ErrorFamilies.RepeatedRequestShared | dex/errors.go:25-27 | the DEX and swap repeated-request predicates are errcode.IsRepeatedRequest |
| ErrorFamilies.LiquidityCodesDiffer | dex/crosschain/errors.go:25-32 | 82001 is insufficient liquidity for DEX but commission-service-unavailable for cross-chain; 82000 is insufficient liquidity for cross-chain but too few Sui objects for DEX |
| ErrorFamilies.JoinedLiquidityCodes | dex/errors.go:50-57 | errors.Join(New(82000, a), New(82001, b)) is too few Sui objects and not insufficient liquidity for DEX, and insufficient liquidity and not commission-unavailable for cross-chain |
| ErrorFamilies.BridgeNotFoundOnlyCrossChain | dex/errors.go:66-69 | code 82116 makes no DEX or swap predicate true and exactly the cross-chain bridge-not-found predicate true |
| ErrorFamilies.RateLimitOnly | errcode/errors.go:28-30 | code 50011 makes only the rate-limit predicate true, and no DEX, cross-chain or wallet predicate |
| ErrorFamilies.CodelessMatchesNothing | errcode/errcode.go:57-62 | an error with no code (nil included) makes no predicate of any table true |
| Transport.FirstOrNotFound | dex/quotes.go:106-112 | the transport error with a nil result; ErrResultsNotFound for an empty list; otherwise the first element |
| Transport.ListOrNotFound | dex/limitorder/limitorder.go:137-146 | the transport error; ErrResultsNotFound for an empty list; otherwise the whole list |
| Transport.FirstOrNil | dex/limitorder/limitorder.go:163-172 | the transport error; (nil, nil) for an empty list; otherwise the first element |
| Transport.DirectOrNil | dex/transaction.go:69-74 | the transport error with a nil result; otherwise the decoded pointer unchanged |
| Transport.ValueOrZero | dex/limitorder/limitorder.go:186-191 | the zero value with the transport error; otherwise the decoded value |
| Transport.FirstOrNotFoundOutcome | dex/quotes.go:106-112 | success exactly when the transport succeeded with a non-empty list; a result exactly on success, and it is an element of the list; the not-found error carries no code |
| Transport.ListAndFirstAgree | dex/limitorder/limitorder.go:137-146 | list and first selection fail alike, and on success the first result is the head of the list |
| Transport.FirstOrNilDiffers | dex/limitorder/limitorder.go:163-172 | FirstOrNil has the same result as FirstOrNotFound, and a different error exactly for a successful empty list |
| Query.Zip | dex/swap.go:121-173 | each key name is paired with its rule, position by position |
| Query.PositionsUnique | dex/swap.go:121-173 | names that a position function maps back to their own index are pairwise distinct |
| Query.ZipDistinct | dex/swap.go:121-173 | distinct names give a table with distinct keys |
| Query.SendsOnlyNames | dex/swap.go:121-173 | a key that is none of the endpoint's names is never in its map |
| Query.InsertOthers | dex/swap.go:129-131 | one conditional insert leaves every other key as it was |
| Query.InsertFollows | dex/swap.go:129-131 | an insert into a map without the key makes the key present exactly when its condition holds, with the rendered value |
| Query.BuildSends | dex/swap.go:121-173 | the inserts in source order give a map where each key follows its rule and no other key is present |
| Query.SendsSnoc | dex/swap.go:129-131 | one more insert of a new key extends the described map by that key |
| Query.SendsUnique | dex/swap.go:121-173 | the description fixes the map: two maps that both satisfy Sends for a table are equal |
| Query.Lookup | dex/swap.go:121-173 | the entry under the key, or "" when absent |
| Query.LookupList | dex/swap.go:144-146 | absent is the empty list; present is a non-empty list |
| Query.LookupFlag | dex/swap.go:168-170 | set exactly when the key holds "true" |
| Query.LookupBool | wallet/asset.go:59-61 | nil exactly when the key is absent |
| Query.LookupInt | dex/crosschain/quote.go:111-113 | an absent key reads as 0 |
| Query.FollowsRecover | dex/swap.go:121-173 | a key that follows its rule reads back as that rule's value (for lists without commas) |
| Query.BuildRecovers | dex/swap.go:121-173 | every key of a built map reads back as its field's value: the round trip from request to map and back |
| Query.SendsNothing | wallet/post_transaction.go:56-77 | when every field is empty, false, nil or zero, the map is empty |
| Query.SendsEveryName | dex/quotes.go:96-104 | when every key is sent unconditionally, the map's keys are exactly the table's names |
| Query.Assemble | dex/swap.go:121-173 | the loop over the table builds exactly the map the inserts describe |
| Query.Names | dex/swap.go:121-173 | every key of the table is among the names |
| Strings.Split | dex/swap.go:144-146 | always at least one piece, as strings.Split gives |
| Strings.SplitPlain | dex/swap.go:144-146 | a text without the separator splits into itself |
| Strings.SplitAfter | dex/swap.go:144-146 | splitting a + sep + b is a followed by the pieces of b |
| Strings.SplitJoin | dex/swap.go:144-146 | splitting a comma join of a non-empty list without commas gives the list back |
| Strings.JoinCollisions | dex/quotes.go:101 | the empty list and [""] join alike, and so do ["a,b"] and ["a","b"]: the cases the round trip excludes |
| Strconv.FormatInt | wallet/chains.go:110-113 | never empty; ParseInt reads it back (ParseFormatInt) |
| Strconv.FormatBool | wallet/asset.go:59-61 | "true" or "false", read back as the same flag |
| Strconv.ParseUint | client/integer.go:23-28 | a success never exceeds 2^64-1 |
| Strconv.ParseInt | client/integer.go:23-28 | the empty text is a syntax error |
| Strconv.ScanDigits | client/integer.go:23-28 | the decimal digits of n scan back to n, or to a range error above 2^64-1 |
| Strconv.ParseFormatInt | client/integer.go:23-28 | ParseInt of FormatInt(n) is n when n fits int64, otherwise a range error |
| Strconv.FormatIntInjective | wallet/chains.go:110-113 | distinct integers render differently |
| Strconv.FormatIntChars | client/integer.go:18-21 | a rendered integer holds digits and at most a leading minus, never a quote |
| HttpHeader.Recase | client/client.go:131-137 | keeps token characters token characters and the hyphen a hyphen |
| HttpHeader.Title | client/client.go:131-137 | keeps the length of the key |
| HttpHeader.CanonicalKey | client/client.go:131-137 | keeps the length of the key |
| HttpHeader.Get | client/client.go:131-137 | the first value under the canonical key, "" when there is none |
| HttpHeader.Set | client/client.go:131-135 | exactly the value v under the key; every key with another canonical form unchanged |
| HttpHeader.Add | client/client.go:136-138 | v appended to the values under the key; every key with another canonical form unchanged |
| HttpHeader.TitleIdempotent | client/client.go:131-137 | re-casing a token key twice is re-casing it once |
| HttpHeader.TitleTokens | client/client.go:131-137 | re-casing keeps a token key made of token characters |
| HttpHeader.CanonicalKeyIdempotent | client/client.go:131-137 | a canonical key is its own canonical form |
| HttpHeader.ValuesCanonical | client/client.go:131-137 | a key and its canonical form name the same values |
| HttpHeader.AddKeepsFirst | client/client.go:136-138 | Add never changes the first value of a key that already had one |
| HttpHeader.DifferentLengthsDiffer | client/client.go:131-135 | keys of different lengths never share a canonical form |
| ClientInteger.Int | client/integer.go:9-11 | the stored int64, unchanged |
| ClientInteger.String | client/integer.go:13-15 | its decimal text is read back by ParseInt as the same value |
| ClientInteger.Unquoted | client/integer.go:18-21 | with a leading quote the first and last bytes are dropped, whatever the last byte is; otherwise the text as it is; needs a non-empty input and, with a quote, two bytes |
| ClientInteger.UnmarshalJson | client/integer.go:17-31 | succeeds exactly when the unquoted text parses as int64, and then holds that value; on failure the receiver keeps its old value |
| ClientInteger.UnmarshalString | client/integer.go:13-31 | String's output, bare or in quotes, reads back as the same value |
| ClientInteger.UnmarshalIgnoresLastByte | client/integer.go:19-21 | a quote, the digits of m and any last byte (a char below 256) read as m: "12x reads as 12 |
| ClientInteger.UnmarshalOutOfRange | client/integer.go:23-28 | a decimal outside the int64 range is a range error and the receiver keeps its value |
| ClientInteger.UnmarshalEmptyString | client/integer.go:23-28 | "" in quotes is a syntax error and the receiver keeps its value |
| ClientOption.WithProjectID | client/option.go:69-71 | the WithHeader option for OK-ACCESS-PROJECT with the given id |
| ClientOption.Allocated | client/option.go:62-64 | the existing header map, or a fresh empty one when it is nil |
| ClientOption.Options.constructor | client/option.go:74-78 | the default endpoint, an empty header map and the default client |
| ClientOption.Options.Apply | client/option.go:38-67 | the record after one option: WithClient and WithEndpoint overwrite their field, WithHeaders replaces the map, WithHeader allocates a nil map and Sets one key |
| ClientOption.NewOptions | client/option.go:73-83 | a fresh record equal to the defaults with every option applied left to right |
| ClientOption.FoldedAppend | client/option.go:79-81 | applying a + b is applying a, then b |
| ClientOption.NoOptions | client/option.go:74-78 | no options leave https://www.okx.com, an empty header map and the default client |
| ClientOption.LastEndpointWins | client/option.go:48-52 | the last WithEndpoint decides the endpoint; other options leave it alone |
| ClientOption.EndpointKept | client/option.go:79-81 | without WithEndpoint the endpoint is the starting one |
| ClientOption.LastClientWins | client/option.go:42-46 | the last WithClient decides the client; other options leave it alone |
| ClientOption.WithHeaderEffect | client/option.go:60-67 | exactly v under k after WithHeader(k, v), also on a nil map; every key with another canonical form unchanged |
| ClientOption.WithHeadersDiscards | client/option.go:54-58 | WithHeaders(h) leaves exactly h, discarding every earlier header |
| ClientOption.WithHeaderAfterNil | client/option.go:62-64 | WithHeader after WithHeaders(nil) gives a fresh map holding just that header |
| ClientOption.ProjectIdHeader | client/option.go:69-71 | WithProjectID(id) is WithHeader("OK-ACCESS-PROJECT", id), and id is what Get returns for that key |
| Client.PrehashLayout | client/client.go:93-107 | each part of the signed message sits at its offset with nothing between; no body signs like an empty body |
| Client.AddAll | client/client.go:121-127 | the keys are the URL's plus the parameters'; each parameter's value is appended once to the URL's values; other keys are unchanged |
| Client.AddAllStep | client/client.go:123-125 | one more q.Add appends that parameter's value under its key |
| Client.AddQuery | client/client.go:121-127 | the loop over params, in any order, gives AddAll of the URL's values and the parameters |
| Client.AddHeaders | client/client.go:136-138 | the loop over the configured headers, in the given order, Adds the first value of each |
| Client.AddFirstValuesKeepsFirst | client/client.go:131-138 | the Adds never change the first value of a header that was already Set |
| Client.AddFirstValuesCopies | client/client.go:136-138 | a configured header not sharing its canonical key is sent with exactly its first value |
| Client.BaseHeaderValues | client/client.go:131-135 | each of the five Set headers holds exactly its own value |
| Client.BaseHeaderOthers | client/client.go:131-135 | the five Sets put nothing under any other key |
| Client.Decode | client/client.go:75-91 | a parse error first; then a non-zero code is New(code, message) with the target unchanged; then present data is exactly the unmarshal outcome; absent data is nil with the target unchanged |
| Client.DecodeCode | client/client.go:77-83 | the returned error carries a code exactly when the envelope parsed with a non-zero code, and it is that code |
| Client.DecodeIgnoresDataOnError | client/client.go:81-83 | with a non-zero code neither the data nor the unmarshaller matter, and the target is untouched |
| Client.Client.NewClient | client/client.go:47-59 | the credentials as given, and endpoint, headers and client as newOptions folds them over the defaults |
| Client.Client.Sign | client/client.go:93-107 | the signature is the HMAC under the secret key of timestamp + method + request URI + body |
| Client.Client.SignRequest | client/client.go:129-140 | the request signed over its final URI and body, with the five headers Set and then the configured first values Added |
| Client.Client.NewRequest | client/client.go:109-141 | the encoding error, the URL error, or the signed request with the query attached only for non-empty params |
| Client.Client.AssembledSigned | client/client.go:129-135 | the timestamp header is the signed ts; the signature covers method, request URI with the query attached and exactly the body sent; credentials and Content-Type keep their values whatever headers are configured |
| Client.Client.AssembledQuery | client/client.go:121-127 | without params the URL's own query is kept; with params the URL's values plus one value per parameter are encoded |
| Client.Client.AssembledCopiesHeader | client/client.go:136-138 | a configured header, unshared and not Set by the client, is sent with only its first value |
| Client.Client.Request | client/client.go:61-73 | a request that cannot be built is never sent and its error returned; otherwise it is sent once and its reply decoded |
| Client.Client.Get | client/client.go:143-145 | as Request, and what is sent is a GET with an empty body |
| Client.Client.Post | client/client.go:147-149 | as Request; an encoding error sends nothing; what is sent is a POST of exactly the encoded body with no parameters added |
| WalletPreTransactions.AddressTypeClassifies | wallet/pre_transactions.go:44-54 | IsInvalidAddress, IsUserAddress and IsContractAddress exclude each other, and some one of them holds exactly for "0", "1" and "2" |
| WalletTransaction.AddressTypeClassifies | wallet/transaction.go:24-34 | IsInvalidAddress, IsUserAddress and IsContractAddress exclude each other, and some one of them holds exactly for "0", "1" and "2" |
| WalletPreTransactions.Trial | wallet/pre_transactions.go:310-317 | a trial succeeds exactly when the document decodes as that struct: null, or an object whose keys are all fields of the struct with values of the right type |
| WalletPreTransactions.FirstDecoding | wallet/pre_transactions.go:319-341 | a winner is in the order and decodes; there is none exactly when no schema of the order decodes |
| WalletPreTransactions.SignInfoResult.constructor | wallet/pre_transactions.go:301-306 | all four pointers start nil |
| WalletPreTransactions.SignInfoResult.UnmarshalJson | wallet/pre_transactions.go:308-344 | the first of EVM, UTXO, Solana, Tron that decodes is stored in its own field and nil is returned; the other fields keep their old values; when none decodes nothing changes and the Tron trial's error is returned |
| WalletPreTransactions.WinnerIsFirst | wallet/pre_transactions.go:319-341 | schema i wins exactly when it decodes and every schema tried before it fails, so later schemas are never tried |
| WalletPreTransactions.UnknownFieldRejects | wallet/pre_transactions.go:313 | an object with a key outside a struct's fields fails that struct's trial |
| WalletPreTransactions.EmptyObjectIsEvm | wallet/pre_transactions.go:224-228 | {} decodes as EVM, the first schema tried |
| WalletPreTransactions.UtxoFieldSkipsEvm | wallet/pre_transactions.go:246-255 | an object holding normalFeeRate that fits the UTXO struct is decoded as UTXO, never as EVM |
| DexSwap.GetSwapTx | dex/swap.go:120-185 | GETs /api/v5/dex/aggregator/swap with exactly the map of GetSwapTxQuery; returns the transport error with a nil result; ErrResultsNotFound for an empty list; otherwise the first result |
| DexSwap.GetSwapTxQuery | dex/swap.go:121-175 | the map holds chainId, amount, fromTokenAddress, toTokenAddress, slippage, userWalletAddress always; referrerAddress, swapReceiverAddress, feePercent, gaslimit, gasLevel, priceImpactProtectionPercentage, callDataMemo, toTokenReferrerAddress, computeUnitPrice, computeUnitLimit, fromTokenReferrerWalletAddress, toTokenReferrerWalletAddress, maxAutoSlippage only when non-empty; dexIds comma-joined, only when the list is non-empty; autoSlippage as "true", only when the flag is set; no other key |
| DexSwap.GetSolSwapInstruction | dex/swap.go:221-260 | GETs /api/v5/dex/aggregator/swap-instruction with exactly the map of GetSolSwapInstructionQuery; returns the transport error with a nil result; otherwise the result decoded straight into the target, with no emptiness check |
| DexSwap.GetSolSwapInstructionQuery | dex/swap.go:222-254 | the map holds chainId, amount, fromTokenAddress, toTokenAddress, slippage, userWalletAddress always; swapReceiverAddress, feePercent, fromTokenReferrerWalletAddress, toTokenReferrerWalletAddress, priceImpactProtectionPercentage, computeUnitPrice, computeUnitLimit only when non-empty; dexIds comma-joined, only when the list is non-empty; no other key |
| DexSwap.SolSwapInstructionOmits | dex/swap.go:222-253 | referrerAddress, gaslimit, gasLevel, callDataMemo and autoSlippage are never in the map, whatever the request holds |
| SwapSwap.Swap | dex/swap/swap.go:112-177 | GETs /api/v5/dex/aggregator/swap with exactly the map of SwapQuery; returns the transport error with a nil result; ErrResultsNotFound for an empty list; otherwise the first result |
| SwapSwap.SwapQuery | dex/swap/swap.go:113-167 | the map holds chainId, amount, fromTokenAddress, toTokenAddress, slippage, userWalletAddress always; referrerAddress, swapReceiverAddress, feePercent, gaslimit, gasLevel, priceImpactProtectionPercentage, callDataMemo, toTokenReferrerAddress, computeUnitPrice, computeUnitLimit, fromTokenReferrerWalletAddress, toTokenReferrerWalletAddress, maxAutoSlippage only when non-empty; dexIds comma-joined, only when the list is non-empty; autoSlippage as "true", only when the flag is set; no other key |
| SwapSwap.SwapMatchesGetSwapTx | dex/swap/swap.go:113-165 | for equal field values Swap sends exactly the map dex.GetSwapTx sends |
| DexQuotes.GetQuotes | dex/quotes.go:95-113 | GETs /api/v5/dex/aggregator/quote with exactly the map of GetQuotesQuery; returns the transport error with a nil result; ErrResultsNotFound for an empty list; otherwise the first result |
| DexQuotes.GetQuotesQuery | dex/quotes.go:96-105 | the map holds chainId, amount, fromTokenAddress, toTokenAddress, priceImpactProtectionPercentage, feePercent always; dexIds comma-joined, always; no other key |
| DexQuotes.GetQuotesSendsEveryKey | dex/quotes.go:96-104 | all seven keys are present on every call |
| DexQuotes.GetQuotesEmptyDexIds | dex/quotes.go:101 | an empty dex id list is sent as "" |
| SwapQuotes.GetQuotes | dex/swap/quotes.go:76-94 | GETs /api/v5/dex/aggregator/quote with exactly the map of GetQuotesQuery; returns the transport error with a nil result; ErrResultsNotFound for an empty list; otherwise the first result |
| SwapQuotes.GetQuotesQuery | dex/swap/quotes.go:77-86 | the map holds chainId, amount, fromTokenAddress, toTokenAddress, priceImpactProtectionPercentage, feePercent always; dexIds comma-joined, always; no other key |
| SwapQuotes.GetQuotesSendsEveryKey | dex/swap/quotes.go:77-85 | all seven keys are present on every call |
| SwapQuotes.GetQuotesEmptyDexIds | dex/swap/quotes.go:82 | an empty dex id list is sent as "" |
| SwapQuotes.GetQuotesMatchesDex | dex/swap/quotes.go:77-85 | for equal requests the map equals the one dex/quotes.go GetQuotes sends |
| DexTransaction.GetTransactionStatus | dex/transaction.go:60-75 | GETs /api/v5/dex/aggregator/history with exactly the map of GetTransactionStatusQuery; returns the transport error with a nil result; otherwise the result decoded straight into the target, with no emptiness check |
| DexTransaction.GetTransactionStatusQuery | dex/transaction.go:61-69 | the map holds chainId, txHash always; isFromMyProject as "true", only when the flag is set; no other key |
| DexApprove.GetApproveTx | dex/approve_transactions.go:53-67 | GETs /api/v5/dex/aggregator/approve-transaction with exactly the map of GetApproveTxQuery; returns the transport error with a nil result; ErrResultsNotFound for an empty list; otherwise the first result |
| DexApprove.GetApproveTxQuery | dex/approve_transactions.go:54-59 | the map holds chainId, tokenContractAddress, approveAmount always; no other key |
| DexApprove.GetApproveTxSendsEveryKey | dex/approve_transactions.go:54-58 | exactly the three keys are present, even with empty values |
| LimitOrder.CreateOrder | dex/limitorder/limitorder.go:86-98 | POSTs /dex/aggregator/limit-order/save-order with the request record, unchanged, as the body; returns the transport error with a nil result; ErrResultsNotFound for an empty list; otherwise the first result |
| LimitOrder.ListOrders | dex/limitorder/limitorder.go:111-147 | GETs /dex/aggregator/limit-order/all with exactly the map of ListOrdersQuery; returns the transport error with a nil list; ErrResultsNotFound for an empty list; otherwise the whole list |
| LimitOrder.ListOrdersQuery | dex/limitorder/limitorder.go:112-136 | the map holds chainId always; page, limit, statuses, takerAsset, makerAsset only when non-empty; no other key |
| LimitOrder.GetOrder | dex/limitorder/limitorder.go:156-173 | GETs /dex/aggregator/limit-order/detail with exactly the map of GetOrderQuery; returns the transport error; (nil, nil) for an empty list, not ErrResultsNotFound; otherwise the first result |
| LimitOrder.GetOrderQuery | dex/limitorder/limitorder.go:157-162 | the map holds chainId, orderHash always; no other key |
| LimitOrder.GetOrderSendsEveryKey | dex/limitorder/limitorder.go:157-160 | exactly chainId and orderHash are present |
| LimitOrder.CancelOrder | dex/limitorder/limitorder.go:181-192 | GETs /dex/aggregator/limit-order/cancel/calldata with exactly the map of CancelOrderQuery; returns "" with the transport error; otherwise the decoded value |
| LimitOrder.CancelOrderQuery | dex/limitorder/limitorder.go:182-185 | the map holds orderHash always; no other key |
| LimitOrder.CancelOrderIgnoresChainId | dex/limitorder/limitorder.go:181-184 | the chainId argument changes nothing: the map is the same for any chainId and its only key is orderHash |
| CrossChainQuote.GetQuote | dex/crosschain/quote.go:102-136 | GETs /api/v5/dex/cross-chain/quote with exactly the map of GetQuoteQuery; returns the transport error with a nil result; ErrResultsNotFound for an empty list; otherwise the first result |
| CrossChainQuote.GetQuoteQuery | dex/crosschain/quote.go:103-127 | the map holds fromChainId, toChainId, fromTokenAddress, toTokenAddress, amount, slippage always; sort in decimal, only when non-zero; feePercent, priceImpactProtectionPercentage only when non-empty; allowBridge, denyBridge comma-joined, only when the list is non-empty; no other key |
| CrossChainTransactions.GetTransactionStatus | dex/crosschain/transactions.go:71-86 | GETs /api/v5/dex/cross-chain/status with exactly the map of GetTransactionStatusQuery; returns the transport error with a nil result; ErrResultsNotFound for an empty list; otherwise the first result |
| CrossChainTransactions.GetTransactionStatusQuery | dex/crosschain/transactions.go:72-78 | the map holds hash always; chainId only when non-empty; no other key |
| WalletAsset.GetTotalValueByAddress | wallet/asset.go:53-71 | GETs /api/v5/wallet/asset/total-value-by-address with exactly the map of GetTotalValueByAddressQuery; returns the transport error with a nil result; ErrResultsNotFound for an empty list; otherwise the first result |
| WalletAsset.GetTotalValueByAddressQuery | wallet/asset.go:54-62 | the map holds address, assetType always; chains comma-joined, always; excludeRiskToken as "true"/"false", only when non-nil; no other key |
| WalletAsset.GetTotalTokenBalancesByAddress | wallet/asset.go:104-119 | GETs /api/v5/wallet/asset/all-token-balances-by-address with exactly the map of GetTotalTokenBalancesByAddressQuery; returns the transport error with a nil result; ErrResultsNotFound for an empty list; otherwise the first result |
| WalletAsset.GetTotalTokenBalancesByAddressQuery | wallet/asset.go:105-110 | the map holds address, filter always; chains comma-joined, always; no other key |
| WalletAsset.GetTotalTokenBalancesByAddressSendsEveryKey | wallet/asset.go:105-109 | exactly address, chains and filter are present on every call |
| WalletAsset.GetTokenBalancesByAddress | wallet/asset.go:139-149 | POSTs /api/v5/wallet/asset/token-balances-by-address with the request record, unchanged, as the body; returns the transport error with a nil result; ErrResultsNotFound for an empty list; otherwise the first result |
| WalletAsset.GetTotalValueByAccount | wallet/asset.go:167-185 | GETs /api/v5/wallet/asset/total-value with exactly the map of GetTotalValueByAccountQuery; returns the transport error with a nil result; ErrResultsNotFound for an empty list; otherwise the first result |
| WalletAsset.GetTotalValueByAccountQuery | wallet/asset.go:168-176 | the map holds accountId, assetType always; chains comma-joined, always; excludeRiskToken as "true"/"false", only when non-nil; no other key |
| WalletAsset.GetTotalTokenBalancesByAccount | wallet/asset.go:200-219 | GETs /api/v5/wallet/asset/wallet-all-token-balances with exactly the map of GetTotalTokenBalancesByAccountQuery; returns the transport error with a nil result; ErrResultsNotFound for an empty list; otherwise the first result |
| WalletAsset.GetTotalTokenBalancesByAccountQuery | wallet/asset.go:201-210 | the map holds accountId always; chains comma-joined, only when the list is non-empty; filter only when non-empty; no other key |
| WalletAsset.GetTokenBalancesByAccount | wallet/asset.go:229-239 | POSTs /api/v5/wallet/asset/token-balances with the request record, unchanged, as the body; returns the transport error with a nil result; ErrResultsNotFound for an empty list; otherwise the first result |
| WalletChains.SupportedChains | wallet/chains.go:37-40 | GETs /api/v5/wallet/chain/supported-chains with a nil parameter map; returns exactly what the transport decoded, error included, with no emptiness check |
| WalletChains.TokenIndexPrice | wallet/chains.go:54-57 | POSTs /api/v5/wallet/token/current-price with the request record, unchanged, as the body; returns exactly what the transport decoded, error included, with no emptiness check |
| WalletChains.RealTimeTokenPrice | wallet/chains.go:65-68 | POSTs /api/v5/wallet/token/real-time-price with the request record, unchanged, as the body; returns exactly what the transport decoded, error included, with no emptiness check |
| WalletChains.HistoricalTokenPrice | wallet/chains.go:106-118 | GETs /api/v5/wallet/token/historical-price with exactly the map of HistoricalTokenPriceQuery; returns exactly what the transport decoded, error included, with no emptiness check |
| WalletChains.HistoricalTokenPriceQuery | wallet/chains.go:107-115 | the map holds chainIndex, tokenAddress, period always; limit, cursor, begin, end in decimal, always; no other key |
| WalletChains.HistoricalTokenPriceSendsEveryKey | wallet/chains.go:107-115 | all seven keys are present on every call |
| WalletChains.HistoricalTokenPriceZero | wallet/chains.go:110-113 | a zero limit is sent as "0" |
| WalletChains.ProjectInformation | wallet/chains.go:149-163 | GETs /api/v5/wallet/token/token-detail with exactly the map of ProjectInformationQuery; returns the transport error with a nil result; ErrResultsNotFound for an empty list; otherwise the first result |
| WalletChains.ProjectInformationQuery | wallet/chains.go:150-154 | the map holds chainIndex, tokenAddress always; no other key |
| WalletChains.ProjectInformationSendsEveryKey | wallet/chains.go:150-153 | exactly chainIndex and tokenAddress are present |
| WalletAccount.CreateAccount | wallet/account.go:41-51 | POSTs /api/v5/wallet/account/create-wallet-account with the request record, unchanged, as the body; returns the transport error with a nil result; ErrResultsNotFound for an empty list; otherwise the first result |
| WalletAccount.DeleteAccount | wallet/account.go:53-56 | POSTs /api/v5/wallet/account/delete-account with exactly the map of DeleteAccountBody; returns only the transport error (the result target is nil) |
| WalletAccount.DeleteAccountBody | wallet/account.go:54 | the map holds accountId always; no other key |
| WalletAccount.DeleteAccountSendsEveryKey | wallet/account.go:54 | the body has the single key accountId |
| WalletAccount.UpdateAccount | wallet/account.go:71-74 | POSTs /api/v5/wallet/account/update-wallet-account with the request record, unchanged, as the body; returns only the transport error (the result target is nil) |
| WalletAccount.GetAccount | wallet/account.go:86-102 | GETs /api/v5/wallet/account/accounts with exactly the map of GetAccountQuery; returns the transport error with a nil result; ErrResultsNotFound for an empty list; otherwise the first result |
| WalletAccount.GetAccountQuery | wallet/account.go:87-93 | the map holds limit always; cursor only when non-empty; no other key |
| WalletAccount.GetAccountFirstCursor | wallet/account.go:90-92 | cursors after the first are ignored |
| WalletAccount.GetAccountNoCursor | wallet/account.go:87-92 | with no cursor or an empty first cursor only limit is sent |
| WalletPostTransaction.GetTransactionOrder | wallet/post_transaction.go:55-87 | GETs /api/v5/wallet/post-transaction/orders with exactly the map of GetTransactionOrderQuery; returns the transport error with a nil list; ErrResultsNotFound for an empty list; otherwise the whole list |
| WalletPostTransaction.GetTransactionOrderQuery | wallet/post_transaction.go:56-78 | the map holds address, accountId, chainIndex, txStatus, orderId, cursor, limit only when non-empty; no other key |
| WalletPostTransaction.GetTransactionOrderSendsNothing | wallet/post_transaction.go:56-77 | an all-empty request sends the empty map |
| WalletPostTransaction.GetTransactionHistoryByAddress | wallet/post_transaction.go:161-195 | GETs /api/v5/wallet/post-transaction/transactions-by-address with exactly the map of GetTransactionHistoryByAddressQuery; returns the transport error with a nil result; ErrResultsNotFound for an empty list; otherwise the first result |
| WalletPostTransaction.GetTransactionHistoryByAddressQuery | wallet/post_transaction.go:162-186 | the map holds address always; chains comma-joined, only when the list is non-empty; tokenAddress, begin, end, cursor, limit only when non-empty; excludeRiskToken as "true"/"false", only when non-nil; no other key |
| WalletPostTransaction.HistoryOmitsChainIndex | wallet/post_transaction.go:94 | the request's chainIndex field is never sent, whatever its value |
| WalletPreTransactions.ValidateAddress | wallet/pre_transactions.go:65-79 | GETs /api/v5/wallet/pre-transaction/validate-address with exactly the map of ValidateAddressQuery; returns the transport error with a nil result; ErrResultsNotFound for an empty list; otherwise the first result |
| WalletPreTransactions.ValidateAddressQuery | wallet/pre_transactions.go:66-70 | the map holds chainIndex, address always; no other key |
| WalletPreTransactions.ValidateAddressSendsEveryKey | wallet/pre_transactions.go:66-69 | exactly chainIndex and address are sent |
| WalletPreTransactions.TransactionBroadcast | wallet/pre_transactions.go:92-102 | POSTs /api/v5/wallet/pre-transaction/broadcast-transaction with the request record, unchanged, as the body; returns the transport error with a nil result; ErrResultsNotFound for an empty list; otherwise the first result |
| WalletPreTransactions.GetNonce | wallet/pre_transactions.go:116-130 | GETs /api/v5/wallet/pre-transaction/nonce with exactly the map of GetNonceQuery; returns the transport error with a nil result; ErrResultsNotFound for an empty list; otherwise the first result |
| WalletPreTransactions.GetNonceQuery | wallet/pre_transactions.go:117-121 | the map holds chainIndex, address always; no other key |
| WalletPreTransactions.GetNonceSendsEveryKey | wallet/pre_transactions.go:117-120 | exactly chainIndex and address are sent |
| WalletPreTransactions.GetSuiObject | wallet/pre_transactions.go:165-186 | GETs /api/v5/wallet/pre-transaction/sui-object with exactly the map of GetSuiObjectQuery; returns the transport error with a nil result; ErrResultsNotFound for an empty list; otherwise the first result |
| WalletPreTransactions.GetSuiObjectQuery | wallet/pre_transactions.go:166-177 | the map holds chainIndex, address, tokenAddress always; limit, cursor only when non-empty; no other key |
| WalletPreTransactions.GetSignInfo | wallet/pre_transactions.go:346-356 | POSTs /api/v5/wallet/pre-transaction/sign-info with the request record, unchanged, as the body; returns the transport error with a nil result; ErrResultsNotFound for an empty list; otherwise the first result |
| WalletTransaction.ValidateAddress | wallet/transaction.go:45-59 | GETs /api/v5/wallet/pre-transaction/validate-address with exactly the map of ValidateAddressQuery; returns the transport error with a nil result; ErrResultsNotFound for an empty list; otherwise the first result |
| WalletTransaction.ValidateAddressQuery | wallet/transaction.go:46-50 | the map holds chainIndex, address always; no other key |
| WalletTransaction.ValidateAddressSendsEveryKey | wallet/transaction.go:46-49 | exactly chainIndex and address are sent |
| WalletTransaction.TransactionBroadcast | wallet/transaction.go:72-83 | POSTs /api/v5/wallet/pre-transaction/broadcast-transaction with exactly the map of TransactionBroadcastBody; returns exactly what the transport decoded, error included, with no emptiness check |
| WalletTransaction.TransactionBroadcastBody | wallet/transaction.go:73-80 | the map holds signedTx, chainIndex, address always; accountId only when non-empty; no other key |
| WalletTransaction.GetTransactionOrder | wallet/transaction.go:110-142 | GETs /api/v5/wallet/post-transaction/orders with exactly the map of GetTransactionOrderQuery; returns the transport error with a nil list; ErrResultsNotFound for an empty list; otherwise the whole list |
| WalletTransaction.GetTransactionOrderQuery | wallet/transaction.go:111-133 | the map holds address, accountId, chainIndex, txStatus, orderId, cursor, limit only when non-empty; no other key |
| WalletTransaction.GetTransactionOrderSendsNothing | wallet/transaction.go:111-132 | an all-empty request sends the empty map |
| WalletTransaction.GetTransactionHistoryByAddress | wallet/transaction.go:216-250 | GETs /api/v5/wallet/post-transaction/transactions-by-address with exactly the map of GetTransactionHistoryByAddressQuery; returns the transport error with a nil result; ErrResultsNotFound for an empty list; otherwise the first result |
| WalletTransaction.GetTransactionHistoryByAddressQuery | wallet/transaction.go:217-241 | the map holds address always; chains comma-joined, only when the list is non-empty; tokenAddress, begin, end, cursor, limit only when non-empty; excludeRiskToken as "true"/"false", only when non-nil; no other key |
| WalletTransaction.HistoryOmitsChainIndex | wallet/transaction.go:149 | the request's chainIndex field is never sent, whatever its value |

## Left out

- **Conditional map inserts.** Each endpoint's chain of `if … { params[k] = v }` statements is a rule table that `Query.Assemble` folds over a value map, one insert per source statement and in source order. The model works on `map` values. It does not model Go's in-place update of one shared map, though no aliasing of it is observable in the source.
- **Request records and results.** The endpoint methods are generic in the result type `R`, and the POST endpoints are generic in the body type `B`. Response field lists are not modelled. A JSON `null` element inside a `[]*T` list is not modelled either.
- **JSON, HTTP and URL libraries.** These are parameters: `json.Encoder.Encode` (its outcome is the `body` argument), `json.Unmarshal` (`unmarshal`), the envelope decoder, `url.Parse`, `URL.Query`, `Values.Encode` and `http.Client.Do`. The path/query split of `URL.RequestURI` is written out, but opaque URLs and `ForceQuery` are not modelled. Closing the response body is not modelled.
- **The HMAC digest.** HMAC-SHA256 (RFC 2104 over FIPS 180-4) in the standard base64 alphabet (section 4 of RFC 4648) is the `hmac` parameter. Only the message it signs is modelled. The `[]byte(secretKey)` conversion is the identity, because Go strings and byte slices are both Dafny strings here.
- **Strings are byte strings.** Every Dafny `string` in the model stands for a Go string or `[]byte` read byte by byte: one `char` is one byte, below 256. Go's UTF-8 decoding of runes is never involved, because the modelled code only indexes and slices bytes.
- ErrCode.FromError: a foreign error is taken to have no `As` method. Another package's error whose `As(any) bool` fills a `**errcode.Error` target would be found by `errors.As` but is not modelled. Chains through `Unwrap() error` and `Unwrap() []error` are modelled, and so is the by-value `errcode.Error` that `errors.As` passes over.
- **The clock.** `time.Now().In(time.UTC).Format(…)` is the `ts` parameter.
- **Map iteration order.** The query loop is proved for every order: the loop picks any remaining key. The header loop takes its order as the `order` parameter. `HeaderOrder` requires every configured header to hold at least one value, because `v[0]` would panic on an empty list.
- **Header keys.** `CanonicalKey` follows the rule `textproto.CanonicalMIMEHeaderKey` documents. A key holding a byte outside the token characters is kept as it is, as the library does. The interning of common header names is not modelled, since it does not change the result.
- **Aliasing of `WithHeaders`.** `WithHeaders(h)` shares the caller's map, so later `WithHeader` calls would write into it. The model copies the map instead. A nil `*http.Client` is not modelled: the client is the default client or a caller-supplied one.
- **Sign-info decoding.** Member values, and whether they fit a field's Go type, are left to the `typed` parameter. Go's case-insensitive matching of JSON keys to fields is not modelled: keys are matched exactly. The decoder reads only the first JSON value, and any trailing data after it is not modelled. `Trial`'s error for a failed struct is the `reject` parameter.
- **Context.** The `ctx` arguments are never used by the client, so there is no cancellation to model. Concurrency does not arise.
- **Constructors and context files.** `NewDexAPI`, `NewSwapAPI`, `NewCrossChainAPI`, `NewLimitOrderAPI` and `NewWalletAPI` only store the transport. The forwarding wrappers in `wallet/webhook.go`, `dex/tokens.go`, `dex/liquidity.go`, `dex/swap/chains.go`, `dex/swap/liquidity.go` and `dex/crosschain/{tokens,bridges,chains}.go` are not part of this model.
- **`Strconv.ParseInt`.** It models `strconv.ParseInt(s, 10, 64)` only: an optional sign, then decimal digits. Other bases, underscores and the `0x`/`0o`/`0b` prefixes are out of scope, because they only apply with base 0.
- **Numeric-looking strings.** Slippage, fee percentages and amounts stay opaque strings.
- **An explicit `"data": null`.** Go's `json.RawMessage` keeps the text `null`, so `decode` passes it to `json.Unmarshal`: the model's `unmarshal` receives it. For `DeleteAccount` and `UpdateAccount`, whose target is nil, that call returns an error. The model follows the code, not the intent of treating `null` as absent data: present data is unmarshalled even with a nil target, and that can fail.
- **Empty lists.** The list endpoints `ListOrders` and `GetTransactionOrder` return `ErrResultsNotFound` for an empty list, not an empty list. The model follows the code.
