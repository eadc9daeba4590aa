# SweetCrust back office: verified models

A bakery's shops, suppliers, customers and staff share a set of small Python services. This
project models the parts of them whose promises only show over whole runs, and proves those
promises for every run:

- **Money and stock**: the shop credit ledger (`Credit`), bulk orders that are committed before
  they are debited (`BulkOrder`), supplier purchases with payables, stock movements and a
  rounded average cost (`Purchases`, `PurchaseAnswers`, `PurchaseLaws`, `CostLaws`), and the profit
  report with its independent group-by loops (`Reports`, `ReportFields`).
- **Timed and two-store protocols**, over one model of the keyed TTL store (`RedisStore`): the
  fixed-window limiter (`RateLimit`), the Redis lock as interleaved steps (`Locks`), token
  revocation (`Blacklist`), refresh rotation (`Sessions`) and one-time codes (`Otp`, with their
  single use in `OtpLaws`, their answers in `OtpAnswers` and their send limit in `OtpLimits`).
- **Derived and bounded state**: product slugs (`Slugs`), the ring buffer of AI runs
  (`RunMonitor`), unread counters under four writers and five readers (`Chat`) and shop hours (`ShopHours`).

Each service is a class whose methods follow the code step by step; their contracts give the
whole new state as a step function on values. The laws are lemmas about that function over all
requests and all runs, and for every operation there is a law that gives its answer and amounts in
the request's and the rows' own fields, without that function's helpers. `Wrappers`, `Money`, `Decimal`, `Text`,
`Sums` and `Sets` hold what they share.

Conventions: money is in whole paise, and `round(x, 2)` is exact rounding, ties to even; only
unit costs and payment inputs may be finer. A request is one atomic step, except in the lock and
between the commit and the debit of a bulk order. Clocks, fresh ids, fresh codes, presence
flags and guardrail answers are parameters. Some states carry history the code does not keep,
for the laws to speak about: `issued`, `madeUp` and `consumed` codes, `exchanges` and `logins`, a
movement's `origin`, a lock caller's `until` and `lapsed`, and the monitor's ghost `log`.

## What the proofs turned up

- A lock caller may delete another's token although no expiry fell between its own check and its
  delete: a third caller's stale delete can free the key under it
  (`Locks.StaleDeleteOfAnotherCaller`). The promise holds when no caller's check is overtaken.
- The limiter's real bound per window length is 2 * limit - 1, and it is reached.
- A revoked token is accepted again for the fraction of a second before `exp` that the truncated
  TTL leaves open; a refresh token can be exchanged twice in that fraction.
- Any client may name the purpose of a code (services/auth_service/app/schemas/auth.py:8-11). The
  purpose "rl" writes the code over the phone's own send counter, and a login with it deletes the
  counter: the send limit then bounds nothing (`OtpLimits`).
- A purpose such as "login:+1111" puts a phone's code where a login of another phone, one with a
  colon, looks for its own; a row is made up and the login goes through (`OtpLaws`).
- A code that repeats while an equal one of the phone waits under another purpose, as the fixed
  development code does, can be used once more than it was sent. A code equal to a used or
  expired one, or to one waiting for the same purpose, does no harm.
- A bulk credit order with a subtotal of zero or less is committed and then refused its debit.
- Goods received onto negative stock can be stored at a cost outside both prices.
- The cart service's message writer takes any role but leaves `unread_admin` alone for the role
  "retailer", where the AI service's writer counts it. Its own routes only pass "customer", so the
  counters agree in all states those routes reach; a caller with the other role would break them.
- The readers of store_ops mark the messages of every other role but clear one counter: after an
  admin has opened a thread there, `unread_customer` is too high by the replies it marked.
- The rider rows of the profit report count items without a cost of their own as costing nothing,
  where the rest of the report takes the product's cost.
- A slug cut at 200 characters may end in a hyphen.
- Overnight hours belong to the calendar day: "Fri, 22:00-06:00" opens Friday's early hours and
  closes at midnight before Saturday.

## Model

| member | source | states |
|---|---|---|
| `RedisStore.Redis.SetEx` | package/redis/client.py:42-51 | SETEX on the keyed store: the whole new store and the boolean result; refused without Redis or with a TTL that is not positive |
| `RedisStore.Redis.Read` | package/redis/client.py:54-62 | a key reads as its value only before its deadline, and as absent without Redis |
| `RedisStore.Redis.Remove` | package/redis/client.py:65-72 | the key is gone and nothing else has changed |
| `RedisStore.Redis.Increment` | package/redis/client.py:92-104 | the count goes up by one from 0 or from the live value, the TTL is set only by the first hit, and a value that is no number gives None |
| `RedisStore.Redis.SetIfAbsent` | package/redis/locks.py:17-21 | SET NX EX succeeds just when no live value is there |
| `RedisStore.SetIsReadableForTtl` | package/redis/client.py:42-62 | a value written with a TTL is readable for exactly that long, and absent from the deadline on |
| `RedisStore.SetAnswer` | package/redis/client.py:42-51 | a SETEX succeeds just with Redis there and a positive TTL, the key then reads as the value, and no other key changes |
| `RedisStore.DeleteAnswer` | package/redis/client.py:65-72 | a deleted key reads as absent and no other key changes |
| `Decimal.ParseNumeral` | package/redis/client.py:98-101 | a counter written as a decimal numeral reads back as itself, which INCR rests on |
| `RateLimit.EnforceRate` | package/common/rate_limit.py:7-22 | one limiter call: the new store, and refused just when there is a count above a positive limit |
| `RateLimit.FailsOpen` | package/common/rate_limit.py:12-19 | without Redis, or with a limit that is not positive, every call is admitted and nothing is counted |
| `RateLimit.RefusedIff` | package/common/rate_limit.py:12-21 | with a readable counter a call is refused exactly when the limit is positive and its running window already has that many |
| `RateLimit.IncrIsNextCounter` | package/redis/client.py:92-101 | a hit opens a window when the last is over and otherwise continues it with the next count |
| `RateLimit.HitKeepsWindowed` | package/common/rate_limit.py:7-22 | every hit keeps the relation between the stored counter and the log of admitted calls, and logs exactly the admitted ones at their time |
| `RateLimit.FixedWindowBound` | package/common/rate_limit.py:12-22 | one fixed window admits at most `limit` calls |
| `RateLimit.SlidingBound` | package/common/rate_limit.py:12-22 | any half-open interval one window long holds at most 2 * limit - 1 admitted calls, one fewer than two full windows |
| `RateLimit.LimiterBounds` | package/common/rate_limit.py:7-22 | both bounds over every run of the store: calls for any keys, foreign writes and deletes, and time |
| `RateLimit.SlidingBoundIsReached` | package/common/rate_limit.py:7-22 | for every limit and window a schedule of calls reaches 2 * limit - 1, so the bound cannot be improved |
| `Locks.LockEntry.Enter` | package/redis/locks.py:13-21 | the acquire step of one caller in a system of many |
| `Locks.LockEntry.CheckToken` | package/redis/locks.py:25-27 | the token check, a step of its own |
| `Locks.LockEntry.Leave` | package/redis/locks.py:27-30 | the delete, decided by the earlier check and not by what the key holds now |
| `Locks.RunIsSane` | package/redis/locks.py:10-30 | in every interleaving tokens are unique and the key never carries an unknown one |
| `Locks.AcquireAnswer` | package/redis/locks.py:13-21 | a caller gets in exactly when Redis is there, the TTL is positive and no live key is; the key is then its own for that long, and nothing else changes |
| `Locks.LeaveAnswer` | package/redis/locks.py:24-30 | a caller whose check found its own token frees the key, any other leaves the store alone, and no other key or caller is touched |
| `Locks.MutualExclusion` | package/redis/locks.py:10-30 | if every holder is out before its own TTL lapses, at most one caller is in the lock, in every interleaving |
| `Locks.DeleteRemovesOwnToken` | package/redis/locks.py:24-30 | if no expiry falls between any caller's check and its delete, each delete removes only that caller's own live token |
| `Locks.DeleteIsOwnIffUndisturbed` | package/redis/locks.py:24-30 | for a single caller: its delete finds its own token exactly when the key has neither expired nor been deleted by another caller since its matching check |
| `Locks.StaleDeleteOfAnotherCaller` | package/redis/locks.py:24-30 | a run of three callers in which one caller's own check and delete see no expiry between them and it still deletes another's token |
| `Blacklist.BlacklistModule.PurgeExpired` | package/common/auth/blacklist.py:19-23 | the loop drops exactly the entries whose time has come |
| `Blacklist.BlacklistModule.Ban` | package/common/auth/blacklist.py:26-33 | a jti goes to Redis, or to the purged memory map when Redis does not store it |
| `Blacklist.BlacklistModule.IsBlacklisted` | package/common/auth/blacklist.py:36-47 | the answer over both stores, and the lapsed memory entry it drops |
| `Blacklist.BlacklistModule.BlacklistToken` | package/common/auth/blacklist.py:50-69 | the new stores and the result, with the TTL truncated to whole seconds |
| `Blacklist.BlacklistModule.DecodeToken` | package/common/auth/jwt.py:32-40 | accepted just when genuine, before `exp` and not revoked |
| `Blacklist.RevokeGuards` | package/common/auth/blacklist.py:50-69 | a revocation that returned True leaves the jti on record past exp - 1, or that moment is over |
| `Blacklist.StepKeepsGuarded` | package/common/auth/blacklist.py:19-69 | no later write, purge, look-up, revocation or passing of time undoes that |
| `Blacklist.RevocationGap` | package/common/auth/blacklist.py:50-69 | over every later run the revoked token is refused, except possibly within the last second before `exp` |
| `Blacklist.ExactGap` | package/common/auth/blacklist.py:65-69 | the gap exactly: the token is accepted again from now + int(exp - now) until `exp` |
| `Blacklist.NoGapIffWholeSeconds` | package/common/auth/blacklist.py:65-69 | there is no gap just when exp - now is a whole number of seconds |
| `Sessions.AuthService.CreateTokenPair` | package/common/auth/jwt.py:16-53 | the two tokens, with expiry in whole seconds |
| `Sessions.AuthService.LogIn` | package/common/auth/jwt.py:43-53 | a login issues exactly one access and one refresh token |
| `Sessions.AuthService.RefreshTokens` | services/auth_service/app/services/auth.py:795-803 | one exchange: a pair comes back just when it succeeds, and it is what the step of the run model issues |
| `Sessions.AuthService.LogOut` | services/auth_service/app/services/auth.py:806-818 | both given tokens are revoked: afterwards each is turned away, but for the last second of its life and for a second token of the same id |
| `Sessions.ExchangeReplaces` | services/auth_service/app/services/auth.py:795-803 | a successful exchange takes a live refresh token that was never exchanged, kills it, and puts exactly one new live one in its place |
| `Sessions.ExchangeAnswer` | services/auth_service/app/services/auth.py:795-803 | an exchange goes through exactly for a live refresh token of an active user; a refused one changes no token and no history |
| `Sessions.PairAnswer` | package/common/auth/jwt.py:16-53 | a login or exchange issues one access and one refresh token of its user, or of the old token's subject, each ending less than a second before its full life from now |
| `Sessions.LogoutTakesTokens` | services/auth_service/app/services/auth.py:806-818 | a logout succeeds and takes exactly the given tokens from the live ones |
| `Sessions.LoggedOutOnlyInLastSecond` | services/auth_service/app/services/auth.py:806-818 | over every run on any clock, a token handed in at a logout is accepted later only while exp - 1 < now < exp |
| `Sessions.LoggedOutIsRefused` | services/auth_service/app/services/auth.py:795-818 | over every run on a whole-second clock, it is never accepted again, and its exchange is refused |
| `Sessions.RevokeKeepsInv` | package/common/auth/blacklist.py:50-69 | revoking an issued token removes exactly it from the live refresh tokens |
| `Sessions.RotationSafety` | services/auth_service/app/services/auth.py:795-818 | on a whole-second clock, over any run of logins, refreshes, logouts and waits: no refresh token is exchanged twice, and live refresh tokens never exceed the logins |
| `Sessions.ExchangedAgainOnlyInLastSecond` | services/auth_service/app/services/auth.py:795-803 | over every run on any clock, a token already exchanged goes through again only while exp - 1 < now < exp |
| `Sessions.SecondExchangeIff` | services/auth_service/app/services/auth.py:795-803 | exactly when a second exchange goes through, dt after the first: int(exp - now) <= dt < exp - now |
| `Sessions.DoubleExchangeBetweenSeconds` | services/auth_service/app/services/auth.py:795-803 | with readings between seconds one token is exchanged twice, in the last second of its life |
| `Otp.OtpService.StoreCode` | services/auth_service/app/services/auth.py:290-294 | the row, the history entry and the cached code of one new code; the same three lines as 74-81 and 332-336 |
| `Otp.OtpService.SendOtp` | services/auth_service/app/services/auth.py:68-81 | refused past five sends in the window, with the hit counted; otherwise the code is stored |
| `Otp.OtpService.CheckOtp` | services/auth_service/app/services/auth.py:115-142 | which row a check selects, including the row it makes up on a cache hit without one |
| `Otp.OtpService.LoginWithCode` | services/auth_service/app/services/auth.py:145-181 | a login that looks at the user after the code: the row used, both cache keys deleted, the deletions kept when the user check refuses, and the retailer gate after the commit; it answers success only when neither refuses, and only an unrefused user's code is used up |
| `Otp.OtpService.CheckedLoginWithCode` | services/auth_service/app/services/auth.py:371-383 | a login that looks at the user first: nothing changes when that refuses; the same in 717-743 with its gate, and 754-778 |
| `Otp.OtpService.ResetPassword` | services/auth_service/app/services/auth.py:781-792 | a reset; an unknown user is refused before anything is deleted |
| `Otp.OtpService.ConfirmEmail` | services/auth_service/app/services/auth.py:307-321 | an e-mail confirmation consumes a code of its own purpose |
| `Otp.KeysMeetIff` | services/auth_service/app/services/auth.py:81 | exactly when two cache keys are one: same purpose and phone, or the sent purpose continues the other past a colon and takes the front of its phone |
| `Otp.ColonFreePhoneKeys` | services/auth_service/app/services/auth.py:81 | for a phone without a colon no other purpose or phone shares its keys, whatever purposes clients send |
| `Otp.CacheKeyIsNoCounter` | services/auth_service/app/services/auth.py:71-81 | no flow reads or deletes a send counter by its own name |
| `OtpLaws.UsesBalance` | services/auth_service/app/services/auth.py:68-181 | conservation over every run, whatever the codes, purposes and phones: uses of a pair + its unused rows = codes sent + rows made up |
| `OtpLaws.MadeUpIff` | services/auth_service/app/services/auth.py:115-134 | over every run, a check makes up a row exactly when the cache holds the code and every row of that phone and code is used; the cached entry then came from another phone's send or from a row some other flow used up |
| `OtpLaws.OverusedIff` | services/auth_service/app/services/auth.py:115-142 | exactly when a committed use exceeds the codes sent, as a condition on the state before it |
| `OtpLaws.HitFindsItsRow` | services/auth_service/app/services/auth.py:115-134 | when waiting codes repeat for their own purpose only and keys are not shared, the branch that makes up a row cannot be reached: a cache hit finds the row that was cached or a later one sent like it, unused and unexpired |
| `OtpLaws.CheckSelects` | services/auth_service/app/services/auth.py:115-142 | what a passed check guarantees of its row: right phone and code, unused, not past its expiry, and of the flow's purpose |
| `OtpLaws.CodesAreSingleUse` | services/auth_service/app/services/auth.py:68-181 | in every interleaving of sends, expiries and checks of all flows and purposes, when a new code differs from the phone's waiting ones for other purposes and no check reads a key another phone's waiting row shares: no row is made up, and no code is used more often than it was sent |
| `OtpLaws.SingleUseForColonFreePhones` | services/auth_service/app/services/auth.py:68-181 | the same for every client purpose, when checks are for phones without a colon |
| `OtpLaws.CachedCodesHaveRows` | services/auth_service/app/services/auth.py:115-134 | in every reachable state a live cached code has a matching unused row with the same end of life |
| `OtpLaws.UsesAreTimely` | services/auth_service/app/services/auth.py:115-181 | a committed use marks exactly one row, unused until then, not expired, and of the right purpose for resets and confirmations |
| `OtpLaws.SharedKeyIff` | services/auth_service/app/services/auth.py:81 | exactly which purposes put one phone's code where a flow looks for another's |
| `OtpLaws.AstrayCodeIsMadeUp` | services/auth_service/app/services/auth.py:68-134 | from any state a code sent that way is used for the other phone at once, by a row made up for a code never sent to it |
| `OtpLaws.AstrayLogin` | services/auth_service/app/services/auth.py:68-134 | an instance with the purpose "login:+1111" |
| `OtpLaws.RepeatedCodeIsMadeUp` | services/auth_service/app/services/auth.py:115-134 | from any state in which a reset code waits in the cache, sending the same code to log in gives a made-up row and a use too many |
| `OtpLaws.FixedCodeIsUsedThreeTimes` | services/auth_service/app/services/auth.py:115-134 | with one fixed code, the two sends of a new phone give three committed uses |
| `OtpLimits.SendIsLoggedIffAccepted` | services/auth_service/app/services/auth.py:71-73 | the log the bound counts holds exactly the accepted sends, at their times |
| `OtpLimits.OverwritesIff` | services/auth_service/app/services/auth.py:71-81 | exactly which sends write to a phone's counter: purpose "rl" to the phone itself, or "rl:x" to the part of it after "x:" |
| `OtpLimits.SendBound` | services/auth_service/app/services/auth.py:71-73 | over every run, repeated codes included, a phone whose counter no accepted send writes to is sent at most 5 codes per window and 9 in any ten minutes |
| `OtpLimits.OverwrittenCounterBoundsNothing` | services/auth_service/app/services/auth.py:71-81 | conversely, from any state an accepted send that writes to the counter has, for every n, a continuation with n more sends at that one moment |
| `OtpAnswers.ConsumeAnswer` | services/auth_service/app/services/auth.py:115-181 | every answer of every flow in any state: a refused user is told so, before the code check or after a passed one, with nothing used up; a code neither cached nor the newest usable running row is a bad request that changes nothing; otherwise exactly this phone and code is used up, and only the retailer gate can still refuse |
| `OtpAnswers.DoneIff` | services/auth_service/app/services/auth.py:115-181 | exactly when the answer is success, as a condition on rows, cache, clock, user and gate |
| `OtpAnswers.KeysAfterConsume` | services/auth_service/app/services/auth.py:145-181 | which cache keys a passed check deletes, and that it changes no other |
| `OtpAnswers.AcceptedIffWaiting` | services/auth_service/app/services/auth.py:115-181 | in every reachable state within the limits of single use, a code is accepted exactly while it waits: sent to the phone, not used, not expired, and for the flow's purpose if it has one |
| `OtpAnswers.SuccessesNeverExceedSends` | services/auth_service/app/services/auth.py:68-181 | over every such run, the answers of success for a phone and code are at most the codes sent to it |
| `OtpAnswers.SuccessesBalance` | services/auth_service/app/services/auth.py:68-181 | over any run at all, they are at most the codes sent and the rows made up, less the unused rows |
| `OtpAnswers.SendAnswer` | services/auth_service/app/services/auth.py:68-81 | a send answers success or the rate limit; a refused one adds nothing, an accepted one adds exactly one row with the right expiry and caches the code, and without Redis every send is accepted |
| `OtpAnswers.SendRefusedIff` | services/auth_service/app/services/auth.py:71-73 | a send is refused exactly when its phone's window of ten minutes runs and has five or more |
| `OtpAnswers.SentCodeIsAccepted` | services/auth_service/app/services/auth.py:68-181 | a code just sent is accepted by its own flow at any moment up to the end of its minutes |
| `Credit.CreditDesk.Debit` | services/admin_service/app/services/credit.py:22-58 | the whole new book and outcome of a debit, every refusal included |
| `Credit.CreditDesk.Collect` | services/admin_service/app/services/credit.py:61-91 | the whole new book and outcome of a collection, clamped at zero |
| `Credit.CreditDesk.Approve` | services/admin_service/app/services/shops.py:96-109 | approval unblocks, and sets permission and limit only when given |
| `Credit.CreditDesk.Patch` | services/admin_service/app/services/shops.py:122-134 | the credit fields of a patch: absent ones stay, a null is refused with all of them, the rest are set |
| `Credit.DebitAnswer` | services/admin_service/app/services/credit.py:22-58 | exactly when a debit is accepted and what each refusal says; an accepted one raises the balance by its amount and writes that entry for its order |
| `Credit.CollectionAnswer` | services/admin_service/app/services/credit.py:61-91 | a collection is accepted just when positive and the shop known, above the balance too; it lowers the balance by its amount, at most to zero |
| `Credit.ApproveAnswer` | services/admin_service/app/services/shops.py:96-109 | approval answers success for every known shop, and what is not given stays |
| `Credit.PatchAnswer` | services/admin_service/app/services/shops.py:122-134 | a patch is refused just for an unknown shop or a null, and then changes nothing |
| `Credit.ReplayIsReflectedWalk` | services/admin_service/app/services/credit.py:74-75 | clamping after every entry is the free walk of signed amounts reflected at its lowest point |
| `Credit.LowestIsMinimum` | services/admin_service/app/services/credit.py:74-75 | that lowest point is the minimum of 0 and all prefix sums: a bound that is reached |
| `Credit.OutstandingIsReflectedWalk` | services/admin_service/app/services/credit.py:38-91 | over every run of all shops' debits, collections and profile changes, outstanding = S_n - min(0, min over k of S_k) of the shop's own entries |
| `Credit.LedgerReplays` | services/admin_service/app/services/credit.py:45-91 | the entries alone reproduce every balance_after, and the last is the outstanding balance |
| `Credit.WithinLimitOfLastDebit` | services/admin_service/app/services/credit.py:38-44 | outstanding is never negative and never above the limit in force at the last accepted debit, however limits move |
| `Credit.ShopsAreSeparate` | services/admin_service/app/services/credit.py:33-91 | nothing done for one shop touches another's profile or entries |
| `BulkOrder.RetailerDesk.BuildCart` | services/admin_service/app/services/retailer_bff.py:176-189 | the loop over the lines: an orderable item per line, priced from the product's own fields, and their subtotal, or the first line's error |
| `BulkOrder.RetailerDesk.CreateBulkOrder` | services/admin_service/app/services/retailer_bff.py:154-306 | the whole new state and outcome, pre-check, commit and debit in the code's order |
| `BulkOrder.CartAddsUp` | services/admin_service/app/services/retailer_bff.py:176-189 | every line names a product on sale in its minimum quantity, 1 where that is 0; its item costs the shop price when there is one, else the customer price, else the selling price, times the pieces (38-43); the items sum to the subtotal |
| `BulkOrder.CartBuiltIff` | services/admin_service/app/services/retailer_bff.py:176-189 | a cart is built exactly when every line can be ordered; otherwise the first line that cannot names the error |
| `BulkOrder.ShopPricesDecide` | services/admin_service/app/services/retailer_bff.py:38-43 | where every product has a shop price, no change of customer or selling prices changes any cart |
| `BulkOrder.AcceptedIff` | services/admin_service/app/services/retailer_bff.py:161-215 | exactly which orders pass every check, in the numbers of shop and cart |
| `BulkOrder.RefusalIs` | services/admin_service/app/services/retailer_bff.py:161-215 | what a refused order is told, check by check |
| `BulkOrder.CommittedOrder` | services/admin_service/app/services/retailer_bff.py:191-280 | what is committed: one priced item per line, tax within half a paisa of 5% of their sum, the total of both, and a payment of that total in the given mode |
| `BulkOrder.GstIsFivePercent` | services/admin_service/app/services/retailer_bff.py:191-192 | GST is within half a paisa of 5%, a tie going to the even side, and the total is positive just when the subtotal is |
| `BulkOrder.StrandedIffNotPositive` | services/admin_service/app/services/retailer_bff.py:193-301 | a committed order is refused its debit exactly when it is a credit order whose subtotal is not positive |
| `BulkOrder.CreditOrderIsDebitedInFull` | services/admin_service/app/services/retailer_bff.py:193-301 | with a positive subtotal the debit cannot refuse: order total, payment, ledger amount and the rise of the balance are one amount, within the limit |
| `BulkOrder.FreeOrderIsStranded` | services/admin_service/app/services/retailer_bff.py:193-301 | three products at price zero on credit are such an order |
| `BulkOrder.InterveningStepsStrand` | services/admin_service/app/services/retailer_bff.py:272-301 | commit and debit are two transactions: whatever credit requests come in between, the order is stranded exactly when the account they leave no longer admits it |
| `BulkOrder.HarmlessStepsDoNotStrand` | services/admin_service/app/services/retailer_bff.py:272-301 | as long as only other shops' requests and collections come in between, the debit cannot refuse |
| `BulkOrder.OrdersMatchLedger` | services/admin_service/app/services/retailer_bff.py:217-301 | over any run of orders and credit requests every order has its own payment of its own total, and the ledger exactly one debit of it for each positive credit order and none for any other |
| `Money.RoundHalfEven` | services/admin_service/app/services/purchases.py:127 | rounding to whole paise is within half a paisa, a tie going to the even side |
| `Money.RoundUnique` | services/admin_service/app/services/purchases.py:127 | those two facts determine the rounded value |
| `Purchases.PurchaseDesk.ApplyReceive` | services/admin_service/app/services/purchases.py:50-100 | stock, cost, flag, movement, row and payable of one receipt, or nothing when the product is gone |
| `Purchases.PurchaseDesk.NewPurchase` | services/admin_service/app/services/purchases.py:103-159 | the whole new state and outcome of a new purchase, received or paid at once if asked; its total is within half a paisa of unit cost times quantity |
| `Purchases.PurchaseDesk.AcceptOrder` | services/admin_service/app/services/purchases.py:162-174 | accepting: only the supplier's own pending purchase |
| `Purchases.PurchaseDesk.RejectOrder` | services/admin_service/app/services/purchases.py:177-190 | rejecting: only the supplier's own pending purchase, and nothing but its status changes |
| `Purchases.PurchaseDesk.PayOrder` | services/admin_service/app/services/purchases.py:193-229 | the whole new state and outcome of a payment, the payable clamped at zero |
| `Purchases.PurchaseDesk.SetStock` | services/admin_service/app/services/products.py:115-127 | stock, flag and movement of an adjustment |
| `PurchaseAnswers.TotalsPriceAllUnits` | services/admin_service/app/services/purchases.py:127 | in every row of every run the total is unit cost times quantity to the nearest paisa, a tie to the even side, and exactly that at a whole-paise unit cost |
| `PurchaseAnswers.PayableIsWorth` | services/admin_service/app/services/purchases.py:89-97 | over all runs the payable balance is unit cost times quantity of the accepted purchases less what was paid, up to half a paisa for each of them and one paisa for each overpaid one |
| `PurchaseAnswers.CreateAnswer` | services/admin_service/app/services/purchases.py:114-159 | exactly which new purchases are taken on, and what each refusal says |
| `PurchaseAnswers.CreatedRow` | services/admin_service/app/services/purchases.py:127-143 | the new row has the request's supplier, product, quantity and unit cost, priced for all units |
| `PurchaseAnswers.AcceptAnswer` | services/admin_service/app/services/purchases.py:162-174 | exactly when an accept goes through; the row is then received and the payable up by its total |
| `PurchaseAnswers.RejectAnswer` | services/admin_service/app/services/purchases.py:177-190 | exactly when a rejection goes through, which moves no goods and no money |
| `PurchaseAnswers.PayAnswer` | services/admin_service/app/services/purchases.py:193-229 | an accepted payment raises the paid amount and lowers only that supplier's payable by the same, at most to zero; a refused one changes nothing |
| `PurchaseAnswers.UpdateStockAnswer` | services/admin_service/app/services/products.py:115-127 | an adjustment sets the stock it is given and keeps the cost, with a movement by the difference |
| `PurchaseAnswers.FlagAfterReceipt` | services/admin_service/app/services/purchases.py:75-77 | after a receipt a product is low from 1 to its own threshold |
| `PurchaseAnswers.FlagAfterUpdate` | services/admin_service/app/services/products.py:115-127 | after an adjustment it is low from 1 to 5, whatever its threshold |
| `PurchaseLaws.StepFollowsLifecycle` | services/admin_service/app/services/purchases.py:162-229 | no request loses a row, changes who, what or how much, lowers what was paid, or moves a status off pending -> received/paid/rejected, received -> partial/paid, partial -> paid |
| `PurchaseLaws.RunFollowsLifecycle` | services/admin_service/app/services/purchases.py:103-229 | the same between any two moments of a run |
| `PurchaseLaws.RowsAreBorn` | services/admin_service/app/services/purchases.py:103-229 | every row of a run was created by one of its requests, paid, received or pending as that asked, and has moved along the lifecycle only since |
| `PurchaseLaws.PaidBounds` | services/admin_service/app/services/purchases.py:205-217 | in every reachable state 0 <= paid <= total + 1 paisa, partial means strictly between, and paid means at least the total |
| `PurchaseLaws.PaymentLowersDue` | services/admin_service/app/services/purchases.py:205-217 | exactly when a payment is accepted; it then strictly lowers the due, and the row is paid just when nothing is left |
| `PurchaseLaws.PayableSandwich` | services/admin_service/app/services/purchases.py:89-97 | over all runs the payable balance lies between the due of accepted purchases with and without overpayments, which differ by one paisa per overpaid purchase; payments are 205-225 |
| `PurchaseLaws.StockIsStartPlusMovements` | services/admin_service/app/services/purchases.py:68-87 | over all runs of purchases and stock updates, stock = starting stock + sum of movements |
| `PurchaseLaws.StockStatusAfterWrite` | package/common/utils/helpers.py:44-49 | after every write a product is flagged out of stock just at zero or below, under either threshold |
| `PurchaseLaws.OneMovementPerAcceptedPurchase` | services/admin_service/app/services/purchases.py:79-87 | over all runs a purchase has exactly one stock movement, its own product and quantity, iff it is neither pending nor rejected |
| `CostLaws.ReceiptError` | services/admin_service/app/services/purchases.py:68-74 | one receipt is off by at most half a paisa per unit then in stock |
| `CostLaws.AverageWithin` | services/admin_service/app/services/purchases.py:71-74 | from stock that is not negative the new cost stays between whole-paise bounds of the old cost and the price |
| `CostLaws.StaysBetweenPricesIff` | services/admin_service/app/services/purchases.py:71-74 | for any stock, also negative, the exact condition under which the new cost lies between the two prices |
| `CostLaws.ShortageOvershoots` | services/admin_service/app/services/purchases.py:71-72 | one unit short at 100 paise and two bought at 200 give a stored cost of 300 |
| `CostLaws.ValueAfterEmptyReceipt` | services/admin_service/app/services/purchases.py:71-74 | a receipt that leaves no stock shifts the value by the shortage times the change of price, exactly |
| `CostLaws.CostDrift` | services/admin_service/app/services/purchases.py:68-75 | over every run of receipts and adjustments: stored cost x stock differs from the money put in, plus those shifts, by at most half a paisa times the sum of the running quantities |
| `CostLaws.CostDriftBound` | services/admin_service/app/services/purchases.py:68-75 | so with receipts that each leave stock, also onto shortages, the drift is at most half a paisa times the sum of the running quantities |
| `CostLaws.CostStaysWithin` | services/admin_service/app/services/purchases.py:68-75 | in any run without receipts onto a shortage the stored cost never leaves the range of the starting cost and the prices paid |
| `Reports.GroupItems` | services/admin_service/app/services/misc.py:148-152 | items_by_order gives each order its own items, in order |
| `Reports.SelectPaid` | services/admin_service/app/services/misc.py:154-159 | exactly the orders with payment status paid and the delivered shop orders, in order |
| `Reports.Totals` | services/admin_service/app/services/misc.py:160-176 | sales, delivery, cost and margin are the sums over paid orders and their items |
| `Reports.RiderLoop` | services/admin_service/app/services/misc.py:178-206 | rider cost and rider buckets of all delivered orders with a rider |
| `Reports.CustomerLoop` | services/admin_service/app/services/misc.py:208-231 | customer and retailer buckets of the paid orders |
| `Reports.MakeReport` | services/admin_service/app/services/misc.py:139-279 | the loops together compute the report that the laws below are about |
| `ReportFields.SalesAre` | services/admin_service/app/services/misc.py:154-161 | sales are the amounts of orders with payment status paid plus those of delivered shop orders with another; delivery revenue has the fees of the same orders |
| `ReportFields.DeliveryCounts` | services/admin_service/app/services/misc.py:154-231 | delivering one unpaid shop order raises sales by its amount and its shop's row by one order and that amount; delivering a paid one changes neither, and no other shop's row moves |
| `ReportFields.RiderCostIs` | services/admin_service/app/services/misc.py:178-206 | rider cost is each delivered order's rider rate, 40 rupees for a rider not on file, and nothing without a rider |
| `ReportFields.ProfitIs` | services/admin_service/app/services/misc.py:253-254 | gross profit is item margin and fees, net profit that less the riders |
| `ReportFields.ItemFigures` | services/admin_service/app/services/misc.py:163-174 | an item's cost is its own unit cost if positive, else the product's, else nothing; the rider rows take its own only |
| `ReportFields.RetailerRow` | services/admin_service/app/services/misc.py:208-231 | a shop's row has number, amounts and margin of exactly its counted orders of a type that starts with b2b, and is there when it has one |
| `ReportFields.CustomerRow` | services/admin_service/app/services/misc.py:208-231 | the same for customers and all other types, before the cut |
| `ReportFields.RiderRow` | services/admin_service/app/services/misc.py:178-206 | a rider's row has exactly its deliveries, their pay and their amounts |
| `ReportFields.RowsDescend` | services/admin_service/app/services/misc.py:276-278 | shops are listed by margin and riders by contribution, highest first |
| `Reports.BucketsGroup` | services/admin_service/app/services/misc.py:180-231 | each group-by loop ends with one bucket per key, holding exactly the count and amounts of its own orders |
| `Reports.BucketTotals` | services/admin_service/app/services/misc.py:180-231 | the buckets' totals are the totals of the orders the loop takes: none lost, none counted twice |
| `Reports.ReportConserves` | services/admin_service/app/services/misc.py:163-254 | cogs + item margin = paid line totals; net profit is what is left; customer buckets before the cut and retailer buckets sum to paid orders, sales_total and item_margin |
| `Reports.RidersConserve` | services/admin_service/app/services/misc.py:178-206 | the rider buckets sum to all trips, rider_cost, and their orders' revenue and margin |
| `Reports.RiderMarginGap` | services/admin_service/app/services/misc.py:201-203 | the rider buckets ignore the product's cost: over the same trips their margin is higher by exactly that cost of items without one of their own |
| `Reports.CutKeepsTheBest` | services/admin_service/app/services/misc.py:278 | the cut keeps at most forty customers, drops none needlessly, and no kept one has less margin than a dropped one |
| `Reports.SortDownSorts` | services/admin_service/app/services/misc.py:276-278 | sorting is descending and a permutation |
| `Reports.SortDownIsStable` | services/admin_service/app/services/misc.py:276-278 | entries with equal keys keep their order, as reversed sorts in Python do |
| `Slugs.SlugifyForm` | package/common/utils/helpers.py:10-14 | a slug has at most 200 lower-case letters, digits and single hyphens, and does not start with a hyphen |
| `Slugs.SlugifyJoinsWords` | package/common/utils/helpers.py:10-14 | a slug is the text's words joined by single hyphens, cut at 200: no letter or digit lost before the cut |
| `Slugs.CharacterClasses` | package/common/utils/helpers.py:10-14 | which characters part words, which are kept, and that all others vanish |
| `Slugs.SlugOfExample` | package/common/utils/helpers.py:10-14 | "A_ b!" becomes "a-b" |
| `Slugs.BaseIs` | services/admin_service/app/services/products.py:26 | the search starts from the name's own slug, and from "product" when that is empty |
| `Slugs.SlugifyAgainIff` | package/common/utils/helpers.py:10-14 | slugify leaves a slug alone exactly when the cut did not leave a hyphen at its end |
| `Slugs.CutLeavesHyphen` | package/common/utils/helpers.py:10-14 | a 201-character name whose slug ends in a hyphen and is changed by a second pass |
| `Slugs.CandidateInjective` | services/admin_service/app/services/products.py:28-31 | no two numbers give the same candidate slug |
| `Slugs.Pigeonhole` | services/admin_service/app/services/products.py:28-31 | k taken candidates need k taken slugs |
| `Slugs.SearchSlug` | services/admin_service/app/services/products.py:28-31 | the loop ends within one probe more than there are products, at the first free name of base, base-1, base-2, ... |
| `Slugs.ProductTable.CreateProduct` | services/admin_service/app/services/products.py:25-65 | the new row has that slug, nothing else changes, and distinct slugs stay distinct |
| `Slugs.ProductTable.DuplicateProduct` | services/admin_service/app/services/products.py:94-112 | a copy gets the first free slug of its own name; an unknown product changes nothing |
| `Slugs.StepIsDetermined` | services/admin_service/app/services/products.py:25-112 | the old table and the request determine the new table: there is only one first free name |
| `Slugs.SlugsStayDistinct` | services/admin_service/app/services/products.py:25-112 | slugs stay pairwise distinct over any sequence of creates and duplicates |
| `RunMonitor.Monitor.StartRun` | services/ai_service/app/brain/monitor.py:44-71 | the new run heads the full log, and the buffer is its newest 200 |
| `RunMonitor.Monitor.NoteTools` | services/ai_service/app/brain/monitor.py:74-80 | the loop with its break edits the newest run of that id in log and buffer alike, or nothing |
| `RunMonitor.Monitor.FinishRun` | services/ai_service/app/brain/monitor.py:83-100 | the same for a finish: status, cut reply, error, provider and duration |
| `RunMonitor.Monitor.RecentRuns` | services/ai_service/app/brain/monitor.py:103-114 | the newest runs of the full log, at most 200 and at most the limit read as a Python slice, each with its start time blanked |
| `RunMonitor.Monitor.MonitorStatus` | services/ai_service/app/brain/monitor.py:117-128 | the three numbers count the newest 200 runs of the full log, and ok + errors <= buffered <= 200 |
| `RunMonitor.BufferRefinesLog` | services/ai_service/app/brain/monitor.py:15-100 | after any events, whatever the ids, the buffer equals the newest 200 entries of the full log under the same updates |
| `RunMonitor.StartedRun` | services/ai_service/app/brain/monitor.py:44-71 | a started run field by field: running, without results, its message cut at 300 characters |
| `RunMonitor.FinishedRun` | services/ai_service/app/brain/monitor.py:83-100 | a finished run field by field: failed with an error that is not empty, else blocked when blocked, else ok; reply cut at 240; whole milliseconds; an empty provider keeps the old one |
| `RunMonitor.BufferIsNewest` | services/ai_service/app/brain/monitor.py:15-100 | the buffer entry by entry: the 200 newest of the log |
| `RunMonitor.EvictedRunsStayInvisible` | services/ai_service/app/brain/monitor.py:74-100 | notes and finishes of a run that fell out change nothing in the buffer |
| `RunMonitor.LogTellsHistories` | services/ai_service/app/brain/monitor.py:44-100 | with unique ids every entry is its own run's start with its own later notes and finishes applied |
| `RunMonitor.StatusNumbersFit` | services/ai_service/app/brain/monitor.py:117-128 | ok + errors <= runs_buffered <= 200 in every reachable state |
| `Chat.ChatService.Open` | services/ai_service/app/services/chat.py:16-35 | a new conversation starts with no messages and counters that agree |
| `Chat.ChatService.AiSendMessage` | services/ai_service/app/services/chat.py:120-209 | the whole new conversation and outcome: gate, delivery by the recipient's presence, counter |
| `Chat.ChatService.CartSendMessage` | services/cart_service/app/services/chats.py:85-156 | the cart writer, for which only customers write to the admin |
| `Chat.ChatService.SendChat` | services/admin_service/app/services/misc.py:324-340 | the admin writer: undelivered, handed over |
| `Chat.ChatService.ShopSendMessage` | services/admin_service/app/services/retailer_bff.py:384-427 | the shop writer: undelivered, only for the conversation's owner |
| `Chat.ChatService.MarkSeen` | services/ai_service/app/services/chat.py:270-289 | the reading loop delivers and reads exactly the messages for the viewer's side |
| `Chat.ChatService.AiListMessages` | services/ai_service/app/services/chat.py:260-291 | a reading by admin or owner, after which that side has no unread message |
| `Chat.ChatService.CartListMessages` | services/cart_service/app/services/chats.py:173-196 | the owner's reading in the cart service |
| `Chat.ChatService.ShopListMessages` | services/admin_service/app/services/retailer_bff.py:371-381 | the shop app's list marks nothing |
| `Chat.ChatService.HandoverToAdmin` | services/ai_service/app/services/chat.py:310-338 | hand-over is the field changes followed by the AI writer's own system message |
| `Chat.AllSeenCounts` | services/ai_service/app/services/chat.py:270-289 | a reading clears the reader's side and leaves the other side's unread messages |
| `Chat.AiSendAnswer` | services/ai_service/app/services/chat.py:120-209 | the AI writer: only the guardrails refuse, and only a text of customer or shop; one message, delivered exactly when its recipient is online: the admin for those two roles, the peer for all others |
| `Chat.ScreenedText` | services/ai_service/app/services/chat.py:135-160 | what the guardrails make of a text: the cleaned text or the own one of a user, the cleaned reply of the AI, anything else as it is |
| `Chat.CartSendAnswer` | services/cart_service/app/services/chats.py:85-156 | the cart writer: refused just when a customer sends nothing; delivered by the admin's presence for customers and the peer's for all others |
| `Chat.PlainSendAnswers` | services/admin_service/app/services/misc.py:324-340 | the admin writer always succeeds and hands over, the shop writer serves the owner only; both messages are undelivered |
| `Chat.HandoverAnswer` | services/ai_service/app/services/chat.py:310-338 | the hand-over ends the AI's part, takes the first admin if there is one, and writes the system message |
| `Chat.ReadAnswers` | services/ai_service/app/services/chat.py:260-291 | exactly which readers are refused, and that a refused one and the shop app's list change nothing |
| `Chat.ReaderMarks` | services/ai_service/app/services/chat.py:270-290 | an AI or cart service reader clears its own side's counter and delivers and reads exactly the messages of the roles that write to it |
| `Chat.OpsReaderMarks` | services/store_ops_service/app/services/misc.py:323-361 | a store_ops reader clears its own counter and marks exactly the unread messages of every role but its own |
| `Chat.ChatService.MarkSkimmed` | services/store_ops_service/app/services/misc.py:333-347 | the loop of both store_ops readers marks exactly the unread messages of every other role |
| `Chat.ChatService.OpsAdminMessages` | services/store_ops_service/app/services/misc.py:323-361 | store_ops: an admin opening a thread clears one counter and marks messages of both sides |
| `Chat.ChatService.OpsShopMessages` | services/store_ops_service/app/services/retailer_bff.py:327-361 | store_ops: the shop opening its thread does the same from its side |
| `Chat.StepCounts` | services/ai_service/app/services/chat.py:187-209 | how far each request of any writer or reader moves a side's unread messages ahead of its counter |
| `Chat.AgreementKeptIff` | services/cart_service/app/services/chats.py:126-140 | from an agreeing state every request keeps both counters exact, except exactly the cart writer posting as a retailer and a store_ops reader that marks unread messages of the other side |
| `Chat.CountersOverRuns` | services/ai_service/app/services/chat.py:120-338 | over every run of all writers and readers every read message is delivered, and each side's unread messages are its counter plus exactly what it misses: messages overlooked, less messages the other side's store_ops reader marked, since the side's own last reading |
| `Chat.CountersAgree` | services/ai_service/app/services/chat.py:163-290 | unread_admin and unread_customer equal the unread messages of their sides and read messages are delivered, in every state reached without a cart-service message of role retailer and without the store_ops readers |
| `Chat.FirstRetailerMessageIsOverlooked` | services/cart_service/app/services/chats.py:126-140 | a conversation whose first message comes that way disagrees at once |
| `Chat.UnreadReplyIsSkimmed` | services/store_ops_service/app/services/misc.py:327-347 | an admin opening a thread in store_ops with an AI reply unread leaves unread_customer at 1 for no message |
| `Chat.ReadingTwice` | services/cart_service/app/services/chats.py:173-196 | reading twice is reading once, and both services' owner views do the same |
| `Chat.MessagesAreKept` | services/ai_service/app/services/chat.py:260-291 | over every run no message is lost, changed, or marked unread or undelivered again |
| `ShopHours.TimeReadsBack` | package/common/shop_hours.py:31-43 | every time of day written HH:MM or HH.MM is read back, whatever the default |
| `ShopHours.RangeText` | package/common/shop_hours.py:46-62 | a range text of two day names, in any case and spacing, allows exactly the days from the first to the second |
| `ShopHours.ListText` | package/common/shop_hours.py:63-67 | a list of day names, parted by commas or slashes, allows exactly the days it names |
| `ShopHours.DayTable` | package/common/shop_hours.py:10-28 | every day name and short form has its number, Monday being 0 |
| `ShopHours.EveryDayAllowed` | package/common/shop_hours.py:46-53 | no text, an empty one and each of the words for all days allow every day |
| `ShopHours.UnknownDaysAllowAll` | package/common/shop_hours.py:63-66 | a list that names no day allows every day |
| `ShopHours.DefaultTimes` | package/common/shop_hours.py:85-86 | without stored times a shop is open from 9:00 to 21:00 |
| `ShopHours.OddTimes` | package/common/shop_hours.py:31-43 | a time that is no time of day counts as not stored, and an hour alone is the full hour |
| `ShopHours.DayRangeIsCyclic` | package/common/shop_hours.py:60-62 | membership in a day range is a comparison of distances around the week |
| `ShopHours.DayRangeSize` | package/common/shop_hours.py:60-62 | a range a-b allows ((b - a) mod 7) + 1 weekdays |
| `ShopHours.WithinByMinute` | package/common/shop_hours.py:85-93 | only the whole minute decides: the closing minute is already closed |
| `ShopHours.WindowIsCyclic` | package/common/shop_hours.py:88-93 | membership in the daily window is a comparison of distances around the day |
| `ShopHours.SwappedIsComplement` | package/common/shop_hours.py:88-93 | swapping two different times gives exactly the complement |
| `ShopHours.OpenMinutesAre` | package/common/shop_hours.py:88-93 | open minutes of an allowed day: (close - open) mod 1440, or 1440 when equal |
| `ShopHours.WeeklyMinutes` | package/common/shop_hours.py:83-93 | open minutes over any number of days are the daily minutes times the allowed days |
| `ShopHours.OvernightStopsAtMidnight` | package/common/shop_hours.py:83-93 | an overnight window does not run into a day that is not allowed; the allowed day has the early hours instead |
| `ShopHours.FridayNight` | package/common/shop_hours.py:46-93 | the texts "Fri", "22:00" and "06:00" are such a case |
| `ShopHours.OpenAfterChecksIff` | package/common/shop_hours.py:105-112 | checks never open a shop, and it stays open just when all fell within hours |
| `ShopHours.ShopProfile.EnforceAutoClose` | package/common/shop_hours.py:105-112 | the new flag, and True just when it changed |
| `ShopHours.ShopProfile.EnforceTwice` | package/common/shop_hours.py:105-112 | a second check at the same time changes nothing |

## Left out

- Credit.CreditDesk.Debit: amounts are whole paise, so the rounding of a debit or collection finer than a paisa is not modelled; the ledger row would round on its own there.
- Credit.CreditDesk.Patch: only the blocked, permission and limit fields are modelled.
- Purchases.PurchaseDesk.PayOrder: payment method, notes and dates are not modelled.
- Blacklist.RevocationGap: takes the acceptance test of section 4.1.4 of RFC 7519 with no leeway; the JWT library's own comparison is not modelled, nor a process restart that loses the memory map.
- Blacklist.RevocationGap: other uses of the store are assumed to keep off the token's key, and one jti to name one token.
- Sessions.RotationSafety: assumes fresh jtis and a clock read in whole seconds; without the latter it fails exactly in the last second, as shown.
- OtpLaws.CodesAreSingleUse: what it assumes of new codes and of keys is stated on the state before each request; the converses are AstrayCodeIsMadeUp and RepeatedCodeIsMadeUp, and MadeUpIff has no assumption.
- Otp.OtpService.ConfirmEmail: an address already confirmed, which is answered without a check, is not modelled.
- Otp.OtpService.SendOtp: phone normalisation and the sending of messages are not modelled.
- RedisStore.Redis.Increment: INCR and EXPIRE are one step; a crash between them, which would leave a counter without deadline, is not modelled.
- Redis failing or coming back during a run: it is there for the whole run or not at all. Only the lock's exit code may meet an error.
- Concurrent requests on the same rows: each request is one step, so lost updates between two sessions are not modelled.
- Locks.LockEntry.Leave: the exception raised inside the guarded block is not modelled; the exit code runs all the same.
- BulkOrder.RetailerDesk.CreateBulkOrder: order numbers, addresses, catalogue texts and the payment gateway's calls are not modelled; `approval` and `products` do not change during a run, and the two commits before the debit are one.
- Reports.MakeReport: the sums of collections, purchases, tax and product sales are left out, being single sums; missing amounts count as zero beforehand.
- Slugs.SlugifyForm: ASCII texts only; letters of other scripts, which the regular expressions keep, are not modelled, nor the database's collation.
- Slugs.ProductTable.CreateProduct: a product row is its name and slug; no product is deleted from the table, as in the code, which only disables them.
- RunMonitor.Monitor.StartRun: the random id and the clock are parameters, and tracing set-up is not modelled; the bounded deque is a sequence that drops its last entry.
- Chat.ChatService.AiSendMessage: sender ids, message types, media, notifications and broadcasts are not modelled; the guardrails' answer is a parameter.
- ShopHours.TimeReadsBack: ASCII digits only; conversion of the clock to IST is not modelled, a moment being given as weekday and time of day.
- ShopHours.ShopProfile.EnforceAutoClose: the profile's texts are fixed for the object; time stands still between two checks unless the caller moves it.
- HTTP routing, authentication dependencies, sockets, mail, SMS, payment and language-model providers, and database details (column lengths, flushes, isolation).
- store_ops_service, the newer name of admin_service, has grown beyond the files modelled here: collections that pay off orders, payment rules and supplier brands. Of it only the two chat readers are modelled.
- The copies of these services in analytics_service and elsewhere beyond that, the dashboards and list endpoints, the catalogue and banner editors, refunds and order status changes.
- BulkOrder.OrdersMatchLedger: debits from elsewhere are assumed to name no order, as in the code, where only the bulk order passes one.
- `update_product`, which writes stock without a movement, so the stock law does not hold across it.
