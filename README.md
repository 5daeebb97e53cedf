# Settlement backend for an instant-payment rail, in Dafny

This project models the core of a Django backend that settles a Pakistani
instant-payment rail against merchant wallets, and proves properties of that
model. The model covers these parts:

- **The ledger.** It holds rail accounts and rail transactions (`Account`,
  `Transaction`) next to the merchant wallets and their ledger entries
  (`Merchant`, `Actions`). The atomic operations are `Account.credit`,
  `Account.reversal`, `Account.process_withdraw`, `Transaction.create`,
  `Actions.create` and `Merchant.create`. A failing operation leaves every
  table as it was.
- **The three rail views** (title fetch, credit, reversal). Each is an ordered
  ladder of early-return checks mapped to the rail's response codes, ending in
  one ledger call. Reversal idempotence is proved: after one successful
  reversal whose `msgid` is not None, a retry with the same account and
  `msgid` that passes the duplicate and amount checks is answered 011. With
  `msgid` None the retry is answered 021 instead, because the REVERSAL row has
  no payment identifier and so also matches the lookup.
- **The request middleware:**
  - the per-customer lock that serialises requests (whitelist, exemptions,
    lock-key choice, 429 on a held key);
  - the IP allow-list;
  - the secret-key route check.
- **Authentication and permissions:**
  - the bearer-token check (stricter than section 2.1 of RFC 6750);
  - token expiry arithmetic;
  - the `authenticate_user` ladder and token issuing;
  - the merchant-status, API-key and body-credential checks.
- **Encoders:**
  - `generate_unique_id`, which is section 4 base64 of RFC 4648 rewritten to the
    section 5 alphabet with the padding dropped, and proved to round-trip;
  - the leading `-`/`=` stripping loop;
  - the 12-digit credit reference and the till code;
  - the six-character `authIdResponse` of the request-log decorator.
- **Response-code tables and the Redis keys and wallet cache.**

Database tables are sequences held by classes. A row's id is its position
plus one. Instants are integers (microseconds for tokens, milliseconds for the
cache). Helpers the code calls but does not define are parameters of the
operations that call them.

Files:

| file | what it holds |
|---|---|
| `wrappers.dfy` | `Option` and `Result` |
| `text.dfy` | decimal text, `zfill`, substring search |
| `json.dfy` | JSON scalars and documents, with Python's truthiness, `dict.get`, `int()` and `str()` on them |
| `base64.dfy` | standard base64 |
| `merchant_models.dfy` | merchants, actions, `generate_unique_id` |
| `transaction_models.dfy` | the ledger |
| `transaction_views.dfy` | the rail views |
| `middleware.dfy` | the request middleware |
| `core_models.dfy` | token expiry |
| `core_views.dfy` | the response-code table, authentication, tokens |
| `permissions.dfy` | the permission classes |
| `decorators.dfy` | the request-log decorator |
| `core_utils.dfy` | wallet response codes |
| `redis_ops.dfy` | Redis keys and the wallet cache |

## Model

| member | source | states |
|---|---|---|
| Base64.DecodeEncode | drf_api/api/merchant/models.py:19 | standard base64 decoding gives back every byte string that was encoded |
| MerchantModels.UniqueIdIsBody | drf_api/api/merchant/models.py:19-20 | the generated id is the substituted encoding with its `=` padding removed |
| MerchantModels.UrlSafeOfAlphabet | drf_api/api/merchant/models.py:20 | on standard-alphabet text the `+`→`-`, `/`→`_` substitution keeps the length, lands in the base64url alphabet and is undone by the reverse substitution |
| MerchantModels.UniqueIdRoundTrip | drf_api/api/merchant/models.py:16-20 | the id is base64url text of the unpadded length; reversing the substitution and re-padding decodes to the original bytes |
| MerchantModels.UniqueIdShape | drf_api/api/merchant/models.py:16-20 | 16 bytes give a 22-character id in the base64url alphabet with no `+`, `/` or `=` |
| MerchantModels.UniqueIdInjective | drf_api/api/merchant/models.py:16-20 | different byte strings never give the same id |
| MerchantModels.WithoutSignPrefixSpec | drf_api/api/merchant/models.py:375-382 | the stripped id is a suffix of the generated one; every removed character is `-` or `=`; the result does not start with either |
| MerchantModels.StripSignPrefix | drf_api/api/merchant/models.py:376-382 | the `while True` loop terminates and returns the id minus its whole leading run of `-`/`=` |
| MerchantModels.FriendlyIdRule | drf_api/api/merchant/models.py:373-382 | WITHDRAW and SALARY ids never start with `-` or `=` and are the generated id minus its leading run of those characters; other types keep the generated id |
| MerchantModels.DebugBalance | drf_api/api/merchant/models.py:398 | `debug_balance` never exceeds 2^31-1; it equals the balance up to that cap and the cap above it (the code caps it from above only) |
| MerchantModels.PrepareAction | drf_api/api/merchant/models.py:385-410 | a row that `Actions.create` writes has `debug_balance` within the 32-bit range of its column: at most 2^31-1 by the cap, and at least -2^31 because a lower balance makes the insert raise |
| MerchantModels.PrepareActionErrors | drf_api/api/merchant/models.py:359-364 | a missing `asof` fails first; then a DEPOSITED action with reference type None raises; then a balance below -2^31 makes the insert raise; every other call yields a row |
| MerchantModels.PrepareActionDefaults | drf_api/api/merchant/models.py:366-371 | a None reference type becomes NONE; a None reference or comment becomes empty; the id, `created`, `delta` and the capped balance are the ones given |
| MerchantModels.NewMerchant | drf_api/api/merchant/models.py:61-86 | a new merchant has balance 0, status ACTIVE, is not credit-blocked and keeps its username and key; `created` and `modified` are the insert instants, because both fields are `auto_now_add` and Django overwrites the `asof` passed in |
| MerchantModels.MerchantStore.CreateMerchant | drf_api/api/merchant/models.py:124-133 | `Merchant.create` fails and writes nothing exactly when the user already has a merchant profile (`user` is one-to-one); otherwise it appends exactly the new merchant, with the insert instants in place of `asof`, and returns its id; actions are untouched |
| MerchantModels.MerchantStore.InsertAction | drf_api/api/merchant/models.py:223-227 | the unique `user_friendly_id` rejects a duplicate and changes nothing; otherwise exactly the row is appended |
| MerchantModels.MerchantStore.CreateAction | drf_api/api/merchant/models.py:314-415 | `Actions.create` fails without writing on a validation error, a `debug_balance` below -2^31 or a duplicate id; otherwise it appends the prepared row with the sanitised id and the capped balance |
| MerchantModels.MerchantStore.SaveAction | drf_api/api/transaction/models.py:120-121 | `action.save()` replaces exactly that row and keeps the unique-id invariant |
| MerchantModels.MerchantStore.Rollback | drf_api/api/transaction/models.py:200-257 | an exception inside `transaction.atomic()` restores both tables to what they held when the block began |
| TransactionModels.SuccessOf | drf_api/api/transaction/models.py:17 | COMPLETED maps to True, FAILED to False and PENDING to None, each exactly |
| TransactionModels.CreditReferenceReadsBack | drf_api/api/transaction/models.py:118 | the credit reference is all digits, reads back as the action id, and is exactly 12 characters for ids below 10^12 |
| TransactionModels.TillCodeReadsBack | drf_api/api/transaction/models.py:362-363 | a till code ends in the id zero-filled to 5 digits, which reads back as the id; two ids never share a till code |
| TransactionModels.CommentFields | drf_api/api/transaction/models.py:210-213 | a comment that is not JSON reads as `{}`; an object reads as its fields; any other JSON document makes the item assignment fail |
| TransactionModels.RefundCommentKeepsToIban | drf_api/api/transaction/models.py:215-232 | the refund comment records `failed_transaction` as the withdraw action id and keeps the original `to_iban`, which is None for an empty comment |
| TransactionModels.ColumnsFitEach | drf_api/api/transaction/models.py:393-402 | a row's text columns fit exactly when each column, one by one, accepts its value |
| TransactionModels.StorableRefuses | drf_api/api/transaction/models.py:393-403 | a row with no `to_iban` or no `bank_name` (both NOT NULL), a `to_iban` over 50 characters, or an amount above 2^31-1 (a 32-bit `IntegerField`) cannot be stored |
| TransactionModels.ReversalRaisesSpec | drf_api/api/transaction/models.py:200-219 | `reversal` raises when the account or the withdraw transaction on it does not exist, when the withdraw action's comment is JSON but not an object, or when `Merchant.refund` raises |
| TransactionModels.ReversedRowSpec | drf_api/api/transaction/models.py:200-253 | a reversal that goes through had the withdraw on the account, an assignable comment and a refund that wrote; its REVERSAL row is on the account, carries the withdraw's reference, the requested amount, the given `to_iban` and bank, the comment's `to_iban` as sender, and the refund action |
| TransactionModels.ReversedTablesSpec | drf_api/api/transaction/models.py:200-253 | a reversal that goes through fails the withdraw action with "Raast Service Error", appends one action and keeps every other |
| TransactionModels.ReversedMerchantsSpec | drf_api/api/transaction/models.py:200-253 | a reversal that goes through changes only the account merchant's balance, to what the refund left |
| TransactionModels.RefundRecordedSpec | drf_api/api/transaction/models.py:224-253 | the writes after the refund go through exactly when the refund's `user_friendly_id` is free and the REVERSAL row fits the columns; then both actions get the refund id as reference, the withdraw action is failed, every other action and merchant is kept, and the row is the one built |
| TransactionModels.Ledger.CreateTransaction | drf_api/api/transaction/models.py:393-448 | `Transaction.create` appends exactly the row and returns its id. It fails and changes nothing when the action already has a transaction (one-to-one) or when a column refuses the row (a None `to_iban` or `bank_name`, text over its `max_length`, an amount outside 32 bits) |
| TransactionModels.Ledger.Credit | drf_api/api/transaction/models.py:77-183 | success exactly when the account exists, the deposit writes an action with a free `user_friendly_id` and the CREDIT row fits the columns. Then the action gets the 12-digit reference, the merchant gets the deposit's balance, and one CREDIT transaction is appended with that reference, amount, rrn, stan and the action's `created`. A failing notification is swallowed. On failure nothing changes |
| TransactionModels.Ledger.Reversal | drf_api/api/transaction/models.py:186-257 | the outcome and the new tables are those `ReversalEffect` gives for the old tables, whose raising and writing cases are stated by ReversalRaisesSpec, ReversedRowSpec, ReversedTablesSpec and ReversedMerchantsSpec. The answer is the new transaction and the refund action on success, and on failure every table is as it was |
| TransactionModels.Ledger.RecordRefund | drf_api/api/transaction/models.py:224-253 | the saves and the create after `Merchant.refund` leave the tables as `RefundRecorded` gives, and roll every write back when it raises |
| TransactionModels.Ledger.ProcessWithdraw | drf_api/api/transaction/models.py:260-327 | a false status returns FAILED with the helper's refund and adds no transaction. A true status appends one DEBIT transaction from the account's iban carrying the withdraw's reference, unless the row does not fit the columns (no `to_iban` or bank name, text too long, an amount beyond 32 bits). Any failure adds nothing |
| TransactionViews.ReplyBody | drf_api/api/transaction/views.py:149-152 | a rejection's body is its description and code; any other reply carries code 000, and an accepted credit or reversal its `transactionLogId` |
| TransactionViews.FetchedAccount | drf_api/api/transaction/views.py:92-98 | an account the lookup returns is one of the table's accounts |
| TransactionViews.TitleFetch | drf_api/api/transaction/views.py:14-42 | 001 exactly when no account is found; otherwise the account's title and IBAN |
| TransactionViews.CreditGateOrder | drf_api/api/transaction/views.py:65-126 | an unparseable amount gives 010 first; then duplicate 012 → amount 010 → account 001 → limit 007 → inactive 008 → blocked 004 → bank 020, each exactly when the earlier checks pass and its own fails; the credit proceeds exactly when all pass |
| TransactionViews.CreditAmountCheckedFirst | drf_api/api/transaction/views.py:65-71 | an unparseable amount gives 010 whatever the duplicate and other lookups say |
| TransactionViews.CreditLimitInclusive | drf_api/api/transaction/views.py:47-56 | an amount equal to the available limit passes the limit check |
| TransactionViews.CreditPost | drf_api/api/transaction/views.py:58-159 | a rejected credit changes nothing. A credit that proceeds answers 021 when the deposit raises, its `user_friendly_id` is taken or the CREDIT row does not fit the columns. Otherwise it answers 000 with the new transaction's id, appends the CREDIT row with the 12-digit reference and the deposit's action, and sets the merchant's balance; every table is given in full |
| TransactionViews.MatchingIds | drf_api/api/transaction/views.py:166-168 | exactly the ids of the transactions on the account whose `payment_identifier` has the same `CharField` text as the msgid (a None msgid matches NULL), in increasing order |
| TransactionViews.GetWithdrawTransaction | drf_api/api/transaction/views.py:163-172 | no original exactly when no transaction matches; a single original is the only match; several matches are reported as such |
| TransactionViews.ReversalGate | drf_api/api/transaction/views.py:182-241 | a reversal that proceeds names an existing account and an existing withdraw transaction |
| TransactionViews.ReversalGateOrder | drf_api/api/transaction/views.py:187-241 | a non-integer amount gives 021, not 010; then duplicate → amount → account → inactive → blocked → no original 015 → already returned 011, each exactly when the earlier checks pass; the credit limit and bank are not consulted |
| TransactionViews.ReversalIdempotent | drf_api/api/transaction/views.py:174-179 | after a reversal whose `msgid` is not None appends its REVERSAL row with the original's reference, a retry with the same account and `msgid` that passes the duplicate and amount checks is answered 011, whatever its amount |
| TransactionViews.ReversalProceedsFacts | drf_api/api/transaction/views.py:187-241 | a reversal the gate lets through had a parsing, valid amount, a new rrn, an active, unblocked account, exactly one original and no earlier REVERSAL row for it |
| TransactionViews.AlreadyReturnedGate | drf_api/api/transaction/views.py:187-241 | a request that passes every earlier check and whose one original already has a REVERSAL row is answered 011 |
| TransactionViews.ManyOriginalsGate | drf_api/api/transaction/views.py:187-272 | a request that passes every earlier check and whose `msgid` matches several transactions of the account is answered 021 |
| TransactionViews.ReversalRetryWithoutMsgid | drf_api/api/transaction/views.py:163-172 | after a reversal whose `msgid` is None appends its REVERSAL row, which has no payment identifier, a retry with the same account and `msgid` None matches two rows and is answered 021 |
| TransactionViews.ReversalPost | drf_api/api/transaction/views.py:182-272 | a rejection answers the gate's code and changes nothing. A reversal that passes the gate answers 021 exactly when `ReversalEffect` (bank "ucash") raises, and otherwise 000 with the new transaction's id and the tables the effect gives. An accepted reversal appends one REVERSAL row of the named original, adds one action and keeps every merchant's status, block and username |
| TransactionViews.Reverse | drf_api/api/transaction/views.py:242-264 | the call to `Account.reversal` and its answer: 021 with nothing changed when the effect raises, 000 with the effect's tables otherwise, and an accepted reversal appends the REVERSAL row of the original |
| TransactionViews.ReversedStanding | drf_api/api/transaction/models.py:200-253 | a reversal that goes through appends the REVERSAL row of the withdraw it names, adds one action and leaves every merchant's standing as it was |
| TransactionViews.ReversalRetried | drf_api/api/transaction/views.py:237-241 | two reversals for the same original in a row, with the same account and a `msgid` that is not None, the second passing the duplicate and amount checks: if the first is accepted, the second is answered 011 and writes nothing, so the two add one transaction, keeping the earlier ones, and one action |
| TransactionViews.ReversalRetriedWithoutMsgid | drf_api/api/transaction/views.py:228-272 | the same two reversals with `msgid` None: if the first is accepted, the second is answered 021 and writes nothing, so the two add one transaction, keeping the earlier ones, and one action |
| Middleware.WhitelistSpec | drf_api/api/core/middleware.py:219-249 | `bills/billpay/` and `api/sendmoney/v3/` are whitelisted exactly unless the request is a POST to a path containing them; the other entries always are |
| Middleware.WhitelistUrls | drf_api/api/core/middleware.py:233-249 | the set built in place by `update` and `remove` is the whitelist |
| Middleware.IsExempt | drf_api/api/core/middleware.py:264-270 | the loop answers true exactly when some entry's path is in the request path and its method is the request's |
| Middleware.LockData | drf_api/api/core/middleware.py:255-261 | a body that is not JSON reads as `{}` |
| Middleware.LockKey | drf_api/api/core/middleware.py:275-278 | the key is `phone_number` whenever that key is present, even falsy; otherwise the truthy `username` |
| Middleware.LockKeyOfPhoneNumber | drf_api/api/core/middleware.py:274-279 | a body naming its customer by `username` with `"phone_number": null` picks the key None, which `advisory_lock` refuses; a truthy `phone_number` is the lock key |
| Middleware.RouteOf | drf_api/api/core/middleware.py:251-288 | whitelisted paths bypass exactly; a locked request is neither whitelisted nor exempt, and its lock key is never None |
| Middleware.UnlockedRoutes | drf_api/api/core/middleware.py:255-288 | a non-JSON body, or one naming no customer, runs unlocked unless whitelisted |
| Middleware.SyncLock.Begin | drf_api/api/core/middleware.py:218-283 | a locked route answers 429 and leaves the held set alone when its key is held, and otherwise takes the key; a JSON body that is not an object, or a lock key of None, gives a server error and takes nothing; a body that is not JSON, and every other route, runs unlocked |
| Middleware.SyncLock.End | drf_api/api/core/middleware.py:279-284 | leaving the `with` block releases exactly the key taken |
| Middleware.SyncLock.Call | drf_api/api/core/middleware.py:218-288 | 429 exactly when the request's lock key is already held; no lock is left behind |
| Middleware.SyncLock.Overlapping | drf_api/api/core/middleware.py:279-283 | of two overlapping requests for the same customer, the first runs locked and the second gets 429 |
| Middleware.IpGateSpec | drf_api/api/core/middleware.py:170-199 | LOCAL and `/admin/` or `/media/` paths are admitted. Otherwise: 'all' admits a listed IP or a whitelisted merchant's phone; 'kunda' and 'internal_data' admit only listed IPs; 'disabled' admits all; anything else is refused. The hbl list is never consulted |
| Middleware.RouteAuth | drf_api/api/core/middleware.py:85-96 | only a route with `auth` True is checked; it proceeds exactly when the body names a merchant by phone number and secret key |
| Middleware.TransactionRoutesGates | drf_api/api/transaction/urls.py:6-8 | the rail routes are never stopped by route auth and are admitted by the IP gate exactly from a listed IP or for a whitelisted merchant |
| CoreViews.CodeInTable | drf_api/api/core/views.py:43-61 | every named description is in `RESPONSE_CODES` with its code |
| CoreViews.CodeIdentifiesMessage | drf_api/api/core/views.py:43-61 | every code is three characters and identifies its description |
| CoreViews.CodesDistinct | drf_api/api/core/views.py:43-61 | two descriptions share a code exactly when they are the same |
| CoreViews.ResponseCodesCovered | drf_api/api/core/views.py:43-61 | the table holds exactly the 17 named descriptions |
| CoreViews.Rejection | drf_api/api/transaction/views.py:26-29 | a rejection body holds exactly the description and its code |
| CoreViews.AuthenticateUser | drf_api/api/core/views.py:135-163 | every answer carries a boolean `success`; a success holds the user the username's text names; a failure is exactly the table's description and code for the message its code names |
| CoreViews.AuthenticateUserSpec | drf_api/api/core/views.py:135-163 | 049 exactly for a username naming no user (None included), 052 exactly for a known inactive user, 050 exactly for an active user with the wrong password, and success exactly when all three checks pass |
| CoreViews.AuthenticateUserOrder | drf_api/api/core/views.py:138-151 | an unknown username gets 049 and an inactive user the same answer whatever password is sent |
| CoreViews.LatestToken | drf_api/api/core/views.py:70 | none exactly when the user has no token; otherwise a token of the user with no later one |
| CoreViews.LatestTokenAppend | drf_api/api/core/views.py:70-96 | a token just created is its user's latest |
| CoreViews.FreshTokenLifetime | drf_api/api/core/views.py:87-105 | a new token is not expired when issued and `expires_in` equals its lifetime |
| CoreViews.TokenStore.GenerateToken | drf_api/api/core/views.py:67-105 | an unexpired latest token is returned unchanged and nothing is written; otherwise one token issued now + 5h, expiring `seconds` later, is appended and returned with `expires_in == seconds` |
| CoreViews.Post | drf_api/api/core/views.py:107-125 | an auth failure returns the auth answer without `success` and writes nothing; otherwise a token with the default one-year lifetime is issued |
| CoreModels.ExpiresIn | drf_api/api/core/models.py:23-29 | never negative; 0 for an expired token; otherwise the whole seconds left, truncated |
| CoreModels.ExpiryMonotonic | drf_api/api/core/models.py:17-29 | as the clock advances `expires_in` never increases and an expired token stays expired |
| Permissions.Split | drf_api/api/core/permissions.py:25 | `split(" ")` gives at least one part and no part contains the separator |
| Permissions.JoinSplit | drf_api/api/core/permissions.py:25 | joining the parts with the separator gives back the header |
| Permissions.SplitBearer | drf_api/api/core/permissions.py:25-33 | a scheme, one space and a token split into exactly those two parts |
| Permissions.Lower | drf_api/api/core/permissions.py:27 | lower-casing keeps the length |
| Permissions.MissingHeaderRefused | permissions.py:12-18 | a missing or empty header is refused with 053 (the root copy of `IsTokenValid`; drf_api/api/core/permissions.py:17-23 is the same code) |
| Permissions.FormatCheckedFirst | drf_api/api/core/permissions.py:25-31 | a header that is not two space-separated parts starting with "bearer" in any case gets 053 whatever tokens exist |
| Permissions.BearerHeaderParsed | drf_api/api/core/permissions.py:25-33 | a "bearer" scheme in any case, one space and a token without spaces are decided by the token lookup alone |
| Permissions.DoubleSpaceRefused | drf_api/api/core/permissions.py:25-31 | two spaces after the scheme are refused with 053, which is stricter than section 2.1 of RFC 6750 |
| Permissions.TokensNamed | drf_api/api/core/permissions.py:36 | the lookup finds exactly the rows carrying the token, and none exactly when no row does |
| Permissions.CheckToken | drf_api/api/core/permissions.py:33-52 | 054 exactly when no row carries the token; a server error exactly when several rows carry it; a grant is for the user of an unexpired row with that token; 051 only for an expired one |
| Permissions.KnownTokenOutcome | permissions.py:39-47 | with unique tokens, a known token is refused with 051 when expired and otherwise grants its user (the root copy; drf_api/api/core/permissions.py:44-52 is the same code) |
| Permissions.TokensNamedUnique | drf_api/api/core/permissions.py:36 | with unique tokens the lookup finds at most one row |
| Permissions.IsMerchantActive | drf_api/api/core/permissions.py:56-66 | allowed exactly for status ACTIVE; no profile gives "Wallet not found"; another status gives "Wallet not active" |
| Permissions.HasApiKeySpec | drf_api/api/core/permissions.py:73-79 | allowed exactly when the header equals the configured key |
| Permissions.MerchantsWith | drf_api/api/core/permissions.py:95 | exactly the merchants whose username and secret key equal the text Django compares for `phone_number` and `secret_key` (`str` of the value; None matches nothing) |
| Permissions.UserAuthentication | drf_api/api/core/permissions.py:81-100 | a body that is not a JSON object raises; no credentials without a truthy `secret_key`; with one, "User Unauthorized" exactly when no merchant matches, the matching user when exactly one does, and a raise (`MultipleObjectsReturned`) when several do |
| Decorators.AuthIdAsWrittenShort | drf_api/api/core/decorators.py:34 | ids below a million give six digits that read back as the id |
| Decorators.AuthIdAsWrittenLong | drf_api/api/core/decorators.py:35-36 | from a million on, exactly the first digit is dropped; seven-digit ids give six characters |
| Decorators.AuthIdAsWrittenTooLong | drf_api/api/core/decorators.py:34-36 | id 10,000,000 gives a seven-character auth id |
| Decorators.AuthId | drf_api/api/core/decorators.py:34-36 | the corrected auth id is always six digits |
| Decorators.AuthIdMatchesBelowTenMillion | drf_api/api/core/decorators.py:34-36 | the corrected auth id equals the code's for every id below ten million and reads back as the id below a million |
| Decorators.AuthIdInjectiveBelowMillion | drf_api/api/core/decorators.py:34-36 | distinct ids below a million get distinct auth ids |
| Decorators.RequestLogTable.LogRequestResponse | drf_api/api/core/decorators.py:17-47 | an exception in the view or in logging gives "SYSTEM EXCEPTION", 099, status 500 with no row; otherwise one log row is appended, a Response gains `authIdResponse` computed from the new row's id as the code does (`AuthIdAsWritten`), and any other result passes unchanged |
| CoreUtils.WalletCodesTable | drf_api/api/core/utils.py:26-37 | the table holds exactly the ten named descriptions, each with its code |
| CoreUtils.GetResponseCode | drf_api/api/core/utils.py:39-43 | the description is the message; the code is the table's entry or None for an unknown message |
| CoreUtils.FraudAndMissingAccountShareCode | drf_api/api/core/utils.py:26-37 | FRAUDULENT_USER and ACCOUNT_NOT_FOUND both get "14"; only the description tells them apart |
| CoreUtils.WalletCodesOtherwiseDistinct | drf_api/api/core/utils.py:26-37 | apart from that pair, no two descriptions share a code |
| CoreUtils.GetResponseCodeNamed | drf_api/api/core/utils.py:39-43 | a named message gets its own description and its table code |
| RedisOps.KeyNamesDistinct | drf_api/api/core/redis_ops.py:16-21 | within one environment list and head keys identify the customer, and no list key is a head key |
| RedisOps.KeyValueStore.UpdateRedisHead | drf_api/api/core/redis_ops.py:24-29 | the head key is set to the id; a failing write is swallowed and changes nothing |
| RedisOps.CachedValue | drf_api/api/core/redis_ops.py:79-86 | a value exactly for a field that holds a dump, and then that value; None for a missing or emptied field |
| RedisOps.RedisWalletCache.Reset | drf_api/api/core/redis_ops.py:42-55 | all three catalogs get the same timestamp; billers and vouchers are emptied; the telcos entry is untouched |
| RedisOps.RedisWalletCache.SetValue | drf_api/api/core/redis_ops.py:57-62 | telcos is a no-op; any other catalog holds the value |
| RedisOps.RedisWalletCache.ClearValue | drf_api/api/core/redis_ops.py:64-69 | telcos is a no-op; any other catalog is emptied |
| RedisOps.RedisWalletCache.UpdateTimestamp | drf_api/api/core/redis_ops.py:71-73 | only that catalog's timestamp changes |
| RedisOps.RedisWalletCache.ClearAndUpdateTimestamp | drf_api/api/core/redis_ops.py:75-77 | clearing and stamping, with telcos' entry left as it was |
| RedisOps.RedisWalletCache.GetValue | drf_api/api/core/redis_ops.py:79-86 | the read agrees with `CachedValue` |
| RedisOps.RedisWalletCache.SetThenGet | drf_api/api/core/redis_ops.py:57-86 | reading after storing gives the stored value, except for telcos, whose old entry is read |
| RedisOps.RedisWalletCache.ClearThenGet | drf_api/api/core/redis_ops.py:64-86 | reading after emptying gives None, except for telcos |

## Left out

- The database layer, `transaction.atomic` and its isolation are not modelled. Tables are sequences owned by classes. Atomicity is stated as "on failure every table is unchanged".
- Some helpers the code calls are not defined in the repository's files:
  - `Merchant.deposit`, `Merchant.refund`, `Merchant.process_withdraw_v2` and `MerchantLimits`;
  - `AuthView.is_duplicate_transaction`, `amount_valid`, `fetch_account` and `fetch_bank_name`;
  - `record_deposit_to_rnp`.

  They are parameters, as functions from the call made to its outcome. Their own arithmetic, and the "balance equals the sum of deltas" invariant, are not modelled. As the files stand, `AuthView` declares none of the four lookups, so these views would answer 021 once a lookup is called (a credit with an unparseable amount is answered 010 before that). The model assumes they exist.
- TransactionModels.Ledger.ProcessWithdraw: the writes `Merchant.process_withdraw_v2` makes to the withdraw action and the balance are not modelled. Only the transaction row the ledger adds is.
- The business lookup in MongoDB and the deposit notification are one flag, `notifyFails`. Their failure is swallowed, so nothing else depends on them.
- Floating point is not modelled. `current_balance` is a FloatField; the model keeps integer minor units. The `int()` truncation inside `debug_balance` and the PKR conversion (division by 100) are not modelled.
- Randomness is not modelled. `uuid4()` bytes and `secrets.token_urlsafe` tokens are inputs. The default `secret_key` argument of `Merchant.create` is evaluated once, when the class is defined; the model takes the key as an argument.
- Clocks are not modelled; the current instant is an input. CoreViews.TokenStore.GenerateToken: the two clock reads of `generate_token` (the expiry check and the issue time) are one instant. The `strftime` text of the token instants is not modelled; the instants themselves are returned.
- The `except` branch of `TokenGenerationView.post` names `SYSTEM_EXEPTION`, which `AuthView` never defines, so it raises in turn. It is modelled as a server error (`ServerError`), not as a response body.
- `advisory_lock` is a Postgres session lock shared by concurrent workers. Middleware.SyncLock models it as a sequential set of held keys. Requests interleave only as the methods are called.
- `load_ip_list` and `load_white_listed_merchants` read files; the lists are inputs. The IP gate's route setting and `auth` flag come from the URL configuration and are inputs too.
- JSON is modelled as scalars and flat objects. Nested values, floats and `json.dumps` text are not modelled. A stored comment is a `Document`, and `json.dumps(request.data)` is passed as the object itself.
- Python's `int()` on text is modelled for an optional sign followed by ASCII digits. Surrounding whitespace, underscores, non-ASCII digits and floats are not accepted by the model.
- Permissions.Lower: only ASCII letters are lower-cased; Python's `str.lower` also folds other scripts. The only comparison made is with "bearer", which this does not affect.
- Django converts a lookup value for a `CharField` with `str()`, and None becomes SQL NULL. The model applies `str()` to JSON scalars; nested values and floats are not modelled.
- Middleware.SyncLock.Begin: held keys are JSON values. `advisory_lock` turns a text key into a 32-bit lock id by CRC-32, so two customers whose keys collide share a lock, and `True` and `1` name the same lock; the model keeps them apart. An integer key beyond 64 bits fails in Postgres; the model takes it.
- Column constraints: every `Transaction` column is checked (`Storable`), as are the unique `user_friendly_id` of `Actions` (`InsertAction`), the 32-bit range of its `debug_balance` (`PrepareAction`) and the one-to-one `user` of `Merchant` (`CreateMerchant`). The `max_length` of the `Merchant` and `Actions` text columns is not checked.
- Decorators.RequestLogTable.LogRequestResponse: `response.data` is changed in place in the code; the model returns the extended map. The request user is logged as a name; an anonymous `request.user`, which makes the insert raise, is one of the failures `logFails` stands for. The log timestamps are not modelled.
- The `Actions` class as it stands declares no `created` or `delta` field, yet `Actions.create` passes both. The model assumes the two columns exist, as the code that writes them does; as written, Django would reject the two keyword arguments.
- Ids are modelled as a row's position plus one. A Postgres sequence also advances on an insert that is rolled back, so real ids can have gaps; the model has none. This affects the `transactionLogId` a view answers and the log id that `authIdResponse` is built from.
- The commented-out second `process_view` and the file `views/token_generation.py` (a non-importable duplicate of the core views) are not modelled. `drf_api/api/merchant/views.py` and `drf_api/api/core/mongodb.py` are not part of this model.
- The till-code prefix and base number are constants defined outside these files. They are parameters.

## Findings

| source | as written | input that shows it | evidently intended | confidence | as-written member | corrected member |
|---|---|---|---|---|---|---|
| drf_api/api/core/decorators.py:34-36 | `str(id).zfill(6)`, then the first character is dropped once when the text is longer than six | log id 10000000 gives `0000000`, seven characters | a six-character `authIdResponse` for every log id (the last six digits) | medium, not executed | Decorators.AuthIdAsWritten (shown by Decorators.AuthIdAsWrittenTooLong) | Decorators.AuthId (proved in Decorators.AuthIdMatchesBelowTenMillion) |
