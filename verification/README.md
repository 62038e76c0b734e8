# A model of the truck parts shop's backend

The backend of a truck parts shop: customers fill a cart, check out, pay cash or online, and the
owner fulfils, cancels and refunds orders; a spreadsheet refreshes the catalogue; sessions are kept
by rotating tokens. This project models the parts in which state is shared and easily corrupted, and
proves what they keep. `dafny verify dfyconfig.toml` checks all of it.

**Orders, stock, coupons, payments** (`OrderStatus`, `Reservation`, `Tables`, `Protocol`,
`ProtocolShape` and the files built on them). Checkouts, webhooks, order-page polls, the expiry job
and admin clicks act on the same rows at once. `Protocol` is a labelled transition system: a state is
the rows plus every call in flight, and each call remembers what it read. The read of a status, the
commit of a status change, the separate claim of a success and the one retry of `applyResult` are
different steps, so anything may happen between them. A transaction's writes are one step that
commits as a whole or changes nothing. Beside the rows the state keeps each order's trail of
statuses, each attempt's claim counter and the cart rows each order came from; whether an order's
units and its coupon use are outstanding is a function of its trail, not of its status. The main
results are about every run of that system: stock conservation, coupon accounting,
linearizability, every sale backed by money and no stray money, exactly-once payments, one retry is
enough and exactly when it is not, and cart rows sold once. `Shop` (module `ShopServices`) has the same services as methods that change fields
statement by statement, with rollback, and a call `Others` wherever a method waits between
statements; `Reports` says what handling a report comes to, `SoloRuns` that undisturbed calls of the
two models agree, and `Expiry` has the sweep.

**Product import** (`ImportCells`, `ImportRecords`, `ImportParser`, `ImportTypes`, `ImportPlan`, `ImportApply`,
`ImportTables`, `ImportTheorems`, `ImportResult`, `ImportNotes`, `ImportAgain`). From split records to the written
catalogue: which files the parser accepts, when a commit succeeds, that it is an upsert, what the
products say afterwards, and exactly when importing the same file twice is importing it once.
`Slugs` has `slugify` and `uniqueSlug`, `Price` the price parser and the printer it undoes.

**Sessions** (`Sessions`): login, refresh with rotation, logout, password change and reset, one
request after the other, and properties of whole chains of tokens.

Assumptions throughout: a conditional update is atomic on its row, transactions commit or roll back
as a whole, tokens are fresh, and money is exact. Rows that are never deleted are positions in a
sequence. Where the code and its documentation disagree the model follows the code: the comments on
the session model and above `createSession` say that nothing rotates a session token, but
`touchSession` rotates it on every success; and the price parser accepts amounts of up to twelve
digits although the price column holds ten, so a commit with such an amount fails as a whole. A condition
or status cell that says "constructor" passes the parser, because the lookup finds what every
JavaScript object has under that name, and then fails the commit.

The failure write at `apps/backend/src/orders/order-payments.service.ts:84` marks an attempt failed
whatever its status is, so it can hit a success that was recorded in the meantime. `Claims.Hits`
counts such hits on one attempt, and the payment properties are about one order or one attempt that
was not hit (`Money.Spared`). `Money.SafeExactly` says exactly which states keep an order backed in
every continuation, and `FailureWrite.CrashLosesBacking` exactly when the write leaves such a state:
when the attempt is all that backs its order, or its order is dead, is about to be flagged for the
owner and has no other success. `Witnesses.PaidWithoutPayment` and
`Witnesses.DisputedWithoutPayment` are runs of the two kinds.

## Model

| member | source | states |
|---|---|---|
| `OrderStatus.StepFlags` | apps/backend/src/orders/order-status.ts:56-69 | how one legal step changes the two outstanding flags (units deducted, coupon use held) of a trail |
| `OrderStatus.StepMovesUnits` | apps/backend/src/orders/order-status.ts:56-63 | a legal step releases stock exactly when the units stop being deducted, and reserves it exactly when they start to be again |
| `OrderStatus.SystemMoves` | apps/backend/src/orders/order-status.ts:18-36 | exactly which status changes the system makes: paid, expired or failed out of waiting, revived when expired, disputed when dead; the admin never makes an order PAID |
| `OrderStatus.AdminMoves` | apps/backend/src/orders/order-status.ts:18-36 | exactly which ones the admin makes: a cancellation before payment, any number of stages forward, a refund or dispute at each stage, a partial refund after delivery, and the ways out of a dispute |
| `OrderStatus.HeldExactly` | apps/backend/src/orders/order-status.ts:38-63 | along every path the units are back exactly when the order ended unpaid and was not revived, or was refunded out of PAID or PROCESSING; a refund after SHIPPED, DELIVERED, DISPUTED or PARTIALLY_REFUNDED moves none |
| `OrderStatus.CouponHeldExactly` | apps/backend/src/orders/order-status.ts:65-69 | along every path the coupon use is given back exactly when the order ended unpaid, revived or not |
| `OrderStatus.ReservationDiscipline` | apps/backend/src/orders/order-status.ts:18-63 | along every path PAYMENT_PENDING, PAID and PROCESSING have their units deducted, EXPIRED, CANCELLED and PAYMENT_FAILED do not, and the stock effects are a prefix of release, reserve, release |
| `OrderStatus.HeldIsNotAStatus` | apps/backend/src/orders/order-status.ts:32-34 | for DELIVERED, DISPUTED, PARTIALLY_REFUNDED and REFUNDED there are trails with the units deducted and trails without |
| `OrderStatus.NoReentry` | apps/backend/src/orders/order-status.ts:18-36 | PAYMENT_PENDING and EXPIRED are never entered again, PAID at most once, and nothing follows REFUNDED |
| `Reservation.ReserveExactly` | apps/backend/src/orders/orders.service.ts:118-126 | the conditional decrements go through exactly when each product covers the total demand of all lines, then take exactly that, and no quantity becomes negative |
| `Reservation.ReserveAnyOrder` | apps/backend/src/orders/orders.service.ts:218-231 | the order of the lines does not matter |
| `Reservation.RestockExactly` | apps/backend/src/orders/orders.service.ts:112-116 | a release adds each product's total demand and nothing else |
| `Reservation.ReleaseUndoesReserve` | apps/backend/src/orders/orders.service.ts:112-126 | releasing a reservation restores the stock |
| `Reservation.ReserveUndoesRelease` | apps/backend/src/orders/orders.service.ts:112-126 | a reservation of what was just released succeeds and restores the stock |
| `Reservation.SubtotalWithLine` | apps/backend/src/orders/orders.service.ts:216-231 | a line adds its price times its quantity to what the lines come to, wherever it stands |
| `Reservation.SubtotalAnyOrder` | apps/backend/src/orders/orders.service.ts:216-231 | the order of the lines does not change what they come to |
| `Reservation.SubtotalAtOnePrice` | apps/backend/src/orders/orders.service.ts:216-231 | lines of one price come to that price times the number of all their units |
| `StatusChange.ChangesExactly` | apps/backend/src/orders/orders.service.ts:98-149 | a status change goes through exactly when the order exists, the actor may make it, a revival finds its units and the extra write finds its attempt; otherwise nothing changes |
| `StatusChange.ChangeEffect` | apps/backend/src/orders/orders.service.ts:109-147 | what it changes, row by row: one order's status, the refunds of its successful attempts or the failures of its pending ones, the extra attempt, and one use of its coupon exactly when it ends unpaid |
| `StatusChange.ChangeMovesDemand` | apps/backend/src/orders/orders.service.ts:112-126 | each product's quantity moves by the order's total demand exactly when the order's units stop or start being deducted |
| `StatusChange.StockMovesExactly` | apps/backend/src/orders/orders.service.ts:112-126 | in statuses: the demand comes back when an order ends unpaid or is refunded out of PAID or PROCESSING, is taken when an expired order is paid, and no other change touches the stock |
| `ProtocolShape.CommitIsAtomic` | apps/backend/src/orders/orders.service.ts:98-149 | a commit after a stale read changes nothing, or has the effect and the outcome of the whole status change at the instant of the commit |
| `ProtocolShape.ExecIsAtomic` | apps/backend/src/orders/orders.service.ts:97-149 | every step of every call does one atomic operation to the rows, under a guard the calls establish |
| `ProtocolShape.RunSound` | apps/backend/src/orders/orders.service.ts:97-149 | in every reachable state each order's status ends a legal trail, references exist, stock is not negative, and what each waiting call remembers still fits |
| `Linearizability.Linearizable` | apps/backend/src/orders/orders.service.ts:98-148 | every interleaving equals running the operations that changed something, in commit order, where a status change reads and writes at once |
| `Linearizability.LosersLeaveNoTrace` | apps/backend/src/orders/orders.service.ts:109-110 | a commit whose order moved on changes nothing, even when a status recurs |
| `StockConservation.StockIsConserved` | apps/backend/src/orders/orders.service.ts:97-149 | in every reachable state quantity plus the units of orders with an outstanding reservation equals the starting quantity plus explicit edits |
| `StockConservation.ReviveExactly` | apps/backend/src/orders/orders.service.ts:118-126 | a late payment revives an expired order exactly when the stock covers all its lines and the payment can be recorded; otherwise nothing changes |
| `CouponAccounting.CouponUsesAreCounted` | apps/backend/src/coupons/coupons.service.ts:64-78 | in every reachable state a coupon's counter is the number of its orders that never gave their use back, and it never exceeds the limit |
| `CouponAccounting.ReleaseFindsAUse` | apps/backend/src/orders/orders.service.ts:128-133 | the guard on the decrement always holds where it is reached |
| `CouponAccounting.DiscountExactly` | apps/backend/src/coupons/coupons.service.ts:80-104 | exactly which coupons are good, and the discount: the share or the amount, never more than the subtotal |
| `Money.EverySaleIsBacked` | apps/backend/src/orders/order-payments.service.ts:167-210 | in every state any interleaving reaches, an order in a paid status has a successful payment and a refunded one a refunded payment, unless a failure write hit a recorded success of this very order |
| `Money.SafeExactly` | apps/backend/src/orders/order-payments.service.ts:175-206 | exactly the safe states keep an order backed in every continuation that spares it: it is backed now, and if it is dead and about to be flagged it has a success |
| `Claims.ClaimsAreCounted` | apps/backend/src/orders/order-payments.service.ts:164-173 | along every run the success of an attempt was claimed as often as it is recorded, plus once for the one failure write that may hit it: at most twice, and twice only after a hit |
| `Claims.PaidAtMostOnce` | apps/backend/src/orders/order-payments.service.ts:175-184 | along every run an order enters PAID at most once |
| `Deliveries.ReplayIsSilent` | apps/backend/src/orders/order-payments.service.ts:175-200 | while a success stays recorded, no step of a call that handles it again changes anything, whatever else goes on |
| `Claims.CashIsFresh` | apps/backend/src/orders/orders.service.ts:300-311 | the cash attempt that a confirmation updates by id alone was not confirmed before |
| `FailureWrite.CrashLosesBacking` | apps/backend/src/orders/order-payments.service.ts:81-84 | after any run that spared the order, the failure write followed by every continuation that spares it keeps the order backed if and only if the attempt is another order's or does no damage: it is not all that backs the order, nor all that will back it once it is flagged |
| `FailureWrite.CrashLosesSales` | apps/backend/src/orders/order-payments.service.ts:81-84 | the same for all sales at once, later orders included |
| `StrayMoney.NoStrayMoney` | apps/backend/src/orders/order-payments.service.ts:186-206 | in every state any run reaches a successful payment belongs to a paid or refunded order, or a call is about to flag its dead order |
| `Witnesses.PaidWithoutPayment` | apps/backend/src/orders/order-payments.service.ts:67-89 | a legal run from the empty shop that ends with a PAID order and no successful payment |
| `Witnesses.DisputedWithoutPayment` | apps/backend/src/orders/order-payments.service.ts:67-89 | a legal run in which the write does no harm at its instant and the order is DISPUTED without a successful payment two steps later |
| `Retry.OneRetryIsEnough` | apps/backend/src/orders/order-payments.service.ts:161-210 | when the handling of a fitting success that no failure write hit has returned, the attempt is pending or failed only if others expired the order and moved it on to PAID or DISPUTED meanwhile |
| `Retry.UnrecordedExactly` | apps/backend/src/orders/order-payments.service.ts:175-198 | for an attempt no failure write hit, a step returns from the handling with the success unrecorded if and only if it is the read or the commit of the second try, the order is neither waiting nor expired at that step, and nobody recorded the success |
| `Witnesses.SuccessUnrecorded` | apps/backend/src/orders/order-payments.service.ts:194-197 | a legal run in which exactly that happens and the success stays unrecorded |
| `CartClaims.CheckoutExactly` | apps/backend/src/orders/orders.service.ts:198-265 | a checkout goes through exactly when it read some rows, all are still there, the stock covers all lines, the coupon can be used and the amounts fit their columns; otherwise nothing changes |
| `CartClaims.RefusalsExactly` | apps/backend/src/orders/orders.service.ts:203-245 | why a checkout is refused: an empty cart, rows that are gone, missing units, a coupon that is not good or used up, amounts too large, in this order |
| `CartClaims.CheckoutEffect` | apps/backend/src/orders/orders.service.ts:206-264 | what it leaves: one order with the lines read and their sum, the rows gone, the demand taken, one coupon use taken, payments untouched |
| `CartClaims.CheckoutSellsTheCart` | apps/backend/src/orders/orders.service.ts:198-262 | a checkout without interference sells every row of its cart with its quantity and present price, and leaves all other carts alone |
| `CartClaims.OneRowCosts` | apps/backend/src/orders/orders.service.ts:216-245 | a cart of one row costs its price times its quantity, minus the discount |
| `CartClaims.OneMoreRowCosts` | apps/backend/src/orders/orders.service.ts:216-231 | one more row adds its price times its quantity to the subtotal |
| `CartClaims.RowsAreSoldOnce` | apps/backend/src/orders/orders.service.ts:206-214 | under any interleaving with additions and edits each cart row ends in at most one order, at most once |
| `CartClaims.OrdersContainWhatWasRead` | apps/backend/src/orders/orders.service.ts:198-262 | every order contains exactly the lines one read of its cart returned, and its subtotal is their sum |
| `ShopServices.Shop.ReleaseUnits` | apps/backend/src/orders/orders.service.ts:112-116 | the loop of increments computes `Restock` |
| `ShopServices.Shop.TakeUnits` | apps/backend/src/orders/orders.service.ts:216-231 | the loop of conditional decrements computes `Reserve` and `Subtotal`, whose laws are in `Reservation`, or reports a missing unit |
| `ShopServices.Shop.WriteStatus` | apps/backend/src/orders/orders.service.ts:109-149 | the statements of a status change commit as a whole or roll back as a whole |
| `ShopServices.Shop.CommitAfterRead` | apps/backend/src/orders/orders.service.ts:109-149 | after a stale read: nothing, or the atomic status change at this instant |
| `ShopServices.Shop.Transition` | apps/backend/src/orders/orders.service.ts:97-153 | alone it is the atomic status change, with its errors; with others it keeps what they rely on, the order has the new status and the extra attempt is successful when it changed, and it says why nothing changed |
| `ShopServices.Shop.CancelOrder` | apps/backend/src/orders/orders.service.ts:316-325 | alone it cancels an order that waits for payment and refunds any other |
| `ShopServices.Shop.UpdateStatus` | apps/backend/src/orders/orders.service.ts:327-331 | alone it is the admin's atomic status change |
| `ShopServices.Shop.ReadCart` | apps/backend/src/orders/orders.service.ts:199-202 | returns every row of the cart once, with the product's present price |
| `ShopServices.Shop.ApplyCoupon` | apps/backend/src/coupons/coupons.service.ts:64-104 | takes one use if the coupon that was read is valid and its limit is not reached now; otherwise leaves the coupons alone |
| `ShopServices.Shop.WriteCheckout` | apps/backend/src/orders/orders.service.ts:204-265 | the statements of a checkout place the order or roll back as a whole with the right refusal |
| `ShopServices.Shop.Checkout` | apps/backend/src/orders/orders.service.ts:194-276 | with any interference it commits exactly the rows and prices its own read of the cart returned, with the coupon as it read it, in the world of its commit; alone that is the cart as it stands |
| `ShopServices.Shop.ApplyResult` | apps/backend/src/orders/order-payments.service.ts:143-210 | with any interference in between, a fitting success is recorded on return unless the order expired and was moved on, and when this call recorded it the order is paid, flagged or refunded; alone it does what one atomic handling does, and records exactly a fitting success that was not recorded |
| `ShopServices.Shop.PayOpenOrder` | apps/backend/src/orders/order-payments.service.ts:175-198 | pays an open order, disputes it when the units are gone, or looks once more |
| `ShopServices.Shop.ClaimAndDispute` | apps/backend/src/orders/order-payments.service.ts:200-206 | records a success that cannot make its order PAID, and when this call recorded it the order ends disputed or had been paid, whatever others do |
| `ShopServices.Shop.FlagOrder` | apps/backend/src/orders/order-payments.service.ts:189-204 | a dead order is disputed unless it was paid meanwhile; either way it is not dead afterwards |
| `ShopServices.Shop.ReconcilePending` | apps/backend/src/orders/order-payments.service.ts:118-140 | applies the provider's answers about the pending attempts one after the other |
| `ShopServices.Shop.SelectCashPayment` | apps/backend/src/orders/orders.service.ts:281-296 | refuses an order that does not wait for payment; alone, a second click adds no second attempt |
| `ShopServices.Shop.StartOnlinePayment` | apps/backend/src/orders/order-payments.service.ts:46-90 | adds a pending attempt, then notes the provider's reference or marks the attempt failed, and says which; other successes stay recorded |
| `ShopServices.Shop.ConfirmCashPayment` | apps/backend/src/orders/orders.service.ts:300-312 | alone, the order becomes PAID and one pending cash attempt successful together, or neither, and the result says which |
| `ShopServices.OthersAreSteps` | apps/backend/src/orders/orders.service.ts:97-149 | whatever steps other calls take, they only let the rows grow and take no recorded success back unless a failure write hits it |
| `ShopServices.SecondDeliveryIsSilent` | apps/backend/src/orders/order-payments.service.ts:143-210 | delivering the same success twice is delivering it once |
| `Reports.SuccessAlone` | apps/backend/src/orders/order-payments.service.ts:156-209 | what a reported success does, in rows: nothing when its amount does not fit or it was recorded before; otherwise the attempt succeeds, a waiting order and an expired one whose units are there become PAID, an expired one without them, a cancelled and a failed one DISPUTED, any other stays; the units of a revived order are taken, nothing else moves |
| `Reports.MoneyIsNotLost` | apps/backend/src/orders/order-payments.service.ts:175-209 | after a fitting success is recorded its order is in a paid status, disputed or refunded |
| `Reports.FailureAlone` | apps/backend/src/orders/order-payments.service.ts:144-153 | a failure report fails the attempt exactly when it is pending; a pending report and everything else change nothing |
| `Reports.AmountMatchesExactly` | apps/backend/src/orders/order-payments.service.ts:156-160 | an amount fits an attempt for n francs exactly from n - 0.5 up to, not including, n + 0.5; one that is a franc short never fits |
| `Reports.UnderpaymentIsIgnored` | apps/backend/src/orders/order-payments.service.ts:155-160 | in every state any run reaches, a reported success of at least a franc less than the order costs changes nothing at all |
| `SoloRuns.ReportAlone` | apps/backend/src/orders/order-payments.service.ts:143-210 | from any state, the steps of one undisturbed handling in the transition system end in what the service does alone |
| `SoloRuns.RequestAlone` | apps/backend/src/orders/orders.service.ts:97-149 | so do those of a status request |
| `SoloRuns.CheckoutAlone` | apps/backend/src/orders/orders.service.ts:194-276 | and those of a checkout, with the coupon its code stands for |
| `ShopServices.PendingExactly` | apps/backend/src/orders/order-payments.service.ts:118-130 | a reconciliation asks about exactly the pending online attempts with a provider reference of an order that waits, each once |
| `Expiry.ReconcileExactly` | apps/backend/src/orders/order-payments.service.ts:118-140 | every attempt asked about takes its answer, the order becomes PAID exactly when one of them is reported successful for its amount, and nothing else changes |
| `Expiry.ActivityExactly` | apps/backend/src/orders/order-expiry.service.ts:51 | the last activity is the latest of the order and its own attempts |
| `Expiry.LimitExactly` | apps/backend/src/orders/order-expiry.service.ts:50-52 | the cash limit applies exactly to orders with a pending cash attempt |
| `Expiry.ExpireOrder` | apps/backend/src/orders/order-expiry.service.ts:54-58 | the order is PAID if the provider reports one of its pending attempts successful, otherwise EXPIRED with its units back and its pending attempts failed; touches that order only |
| `Expiry.ExpireStaleOrders` | apps/backend/src/orders/order-expiry.service.ts:34-68 | the sweep expires, or finds paid, only orders idle for at least their own limit, and which of the two exactly as the provider says; it returns the number of expired ones, and with fewer than 100 candidates leaves no order waiting that is idle for longer than its limit |
| `Expiry.SweepIsSound` | apps/backend/src/orders/order-expiry.service.ts:50-58 | an order that stopped waiting was a candidate and idle for at least its own limit, cash or online |
| `Expiry.SweepIsComplete` | apps/backend/src/orders/order-expiry.service.ts:38-52 | an order that still waits is idle for at most its limit, unless the batch was full of orders no younger |
| `Sessions.AuthService.CreateSession` | apps/backend/src/auth/auth.service.ts:86-103 | the new token is the user's and accepted exactly within the hour and the 30 days; no existing session changes |
| `Sessions.AuthService.TouchSession` | apps/backend/src/auth/auth.service.ts:126-180 | the rows and the answer in each case: unknown or past its end, ended within ten seconds, ended earlier (all live sessions of the user end now), idle over an hour (the token ends now), accepted (the token ends now and a new one is issued) |
| `Sessions.AuthService.Logout` | apps/backend/src/auth/auth.service.ts:182-188 | a live token ends now and is never accepted afterwards; every other session is as before |
| `Sessions.AuthService.ChangePassword` | apps/backend/src/auth/auth.service.ts:239-245 | no session of the user but the kept one is accepted afterwards; the kept one, other users' and already revoked ones are as before |
| `Sessions.AuthService.ResetPassword` | apps/backend/src/auth/auth.service.ts:260-267 | no session of the user is accepted afterwards; other users' and already revoked ones are as before |
| `Sessions.Chains` | apps/backend/src/auth/auth.service.ts:86-167 | after any run all sessions of one chain share expiry login + 30 days, at most one is live, and each token was issued for the one before it within an hour and before the expiry |
| `Sessions.AcceptedInTime` | apps/backend/src/auth/auth.service.ts:126-149 | an accepted refresh is of the chain's newest token, no later than the expiry and at most one hour after it was issued |
| `Sessions.AcceptedAtMostOnce` | apps/backend/src/auth/auth.service.ts:157-167 | a token is accepted at most once in any continuation |
| `Sessions.LateReuseEndsEverything` | apps/backend/src/auth/auth.service.ts:131-144 | after a late reuse no token issued to that user up to then is ever accepted again |
| `Sessions.PasswordChangeSignsOut` | apps/backend/src/auth/auth.service.ts:239-267 | nor after a password reset, nor, except for the session kept, after a password change |
| `Sessions.OnlyTheUserIsConcerned` | apps/backend/src/auth/auth.service.ts:133-143 | no request changes or starts a session of another user, and a token that ended within the last ten seconds changes nothing |
| `Sessions.NewTokenIsGood` | apps/backend/src/auth/auth.service.ts:93-100 | a token just issued is accepted within the hour exactly until its chain's end |
| `Sessions.EndsExactly` | apps/backend/src/auth/auth.service.ts:131-188 | a token is marked as ended by exactly the refreshes, logouts, password changes, resets and late reuses that concern it, with the time of the request |
| `Sessions.PresentedAgain` | apps/backend/src/auth/auth.service.ts:131-144 | a token that a request at one time ended and that is presented at a later time, whatever was served in between, changes nothing within ten seconds or after its absolute end, and otherwise signs out every session of its user and of nobody else |
| `Sessions.SecondTab` | apps/backend/src/auth/auth.service.ts:131-167 | for a token replaced by a refresh: within ten seconds presenting it is harmless, later no session of the user is good |
| `Sessions.GoodUntilEnded` | apps/backend/src/auth/auth.service.ts:126-149 | as long as no request ends it a token is accepted exactly within the hour and before its absolute end, whatever else is served |
| `Slugs.SlugifyNormalises` | apps/backend/src/common/utils/slugify.ts:1-7 | the result is words of a-z and 0-9 joined by single dashes, and such a text is left as it is |
| `Slugs.SlugifyByWords` | apps/backend/src/common/utils/slugify.ts:1-7 | word by word: what stands before the first word does not matter, a word is written in lower case, a gap becomes one dash if another word follows |
| `Slugs.TwoWords` | apps/backend/src/common/utils/unique-slug.ts:3-16 | a two-word name gets the words joined by a dash, and that with -1 when it is taken |
| `Slugs.Pigeonhole` | apps/backend/src/common/utils/unique-slug.ts:14-16 | the first n candidates cannot all be taken when fewer than n slugs are |
| `Slugs.FreshSlug` | apps/backend/src/common/utils/unique-slug.ts:7-19 | a slug that is not taken: the base, or the base with the least free suffix |
| `Slugs.Reserved.UniqueSlug` | apps/backend/src/common/utils/unique-slug.ts:7-19 | the loop ends with the base (the slug, or "item" when it is empty), or the base with the least number that is neither taken nor reserved, and reserves it |
| `Slugs.BatchIsFresh` | apps/backend/src/common/utils/unique-slug.ts:5-17 | a batch that shares its reserved slugs gets pairwise different slugs, none of them taken |
| `Slugs.NameBatch` | apps/backend/src/common/utils/unique-slug.ts:5-17 | the same for the loop that hands them out |
| `Price.ParsePrice` | apps/backend/src/products/import/product-import.parser.ts:128-135 | what was printed, or grouped by thousands, is read back; real decimals give none; an amount has at most twelve digits |
| `Price.PriceRoundTrip` | apps/backend/src/common/utils/money.ts:3-6 | the parser applied to the printed amount gives the amount exactly below 10^12, and none from there on |
| `Price.GroupedParses` | apps/backend/src/products/import/product-import.parser.ts:126-135 | the same for amounts grouped by thousands with a space, dot, comma or apostrophe |
| `Price.WrittenFormsParse` | apps/backend/src/products/import/product-import.parser.ts:126-135 | and with zero cents, and with FCFA, XAF, CFA or F in any case behind, close by or after a space |
| `Price.OtherCharactersAreRefused` | apps/backend/src/products/import/product-import.parser.ts:129-134 | a sign, or a letter that is in no currency, makes it no price |
| `Price.RealDecimalsAreRefused` | apps/backend/src/products/import/product-import.parser.ts:130-131 | an amount ending in a point and one or two digits that are not all zero is no price, whatever stands before |
| `ImportCells.CollectExactly` | apps/backend/src/products/import/product-import.parser.ts:153-155 | a list cell yields its trimmed non-empty values, each once |
| `ImportCells.VehicleRoundTrip` | apps/backend/src/products/import/product-import.parser.ts:137-151 | a truck written in the documented form is read back as it is, and refused when its years are the wrong way round |
| `ImportCells.YearsAreRead` | apps/backend/src/products/import/product-import.parser.ts:144-149 | white space around the dash and the long dash make no difference |
| `ImportCells.CollectKeepsOrder` | apps/backend/src/products/import/product-import.parser.ts:153-155 | values keep the order of their first appearance |
| `ImportCells.SplitExactly` | apps/backend/src/products/import/product-import.parser.ts:153-155 | splitting loses nothing but the separators |
| `ImportCells.QuantityRoundTrip` | apps/backend/src/products/import/product-import.parser.ts:229-231 | a whole number is read back exactly when it has at most seven digits |
| `ImportCells.QuantityIgnoresSpaces` | apps/backend/src/products/import/product-import.parser.ts:229-231 | white space in it does not matter |
| `ImportCells.QuantityRefuses` | apps/backend/src/products/import/product-import.parser.ts:229-231 | any other character makes it no quantity |
| `ImportCells.WordsAreRead` | apps/backend/src/products/import/product-import.parser.ts:75-99 | the words for each condition and status, whatever their case |
| `Text.TrimExactly` | apps/backend/src/products/import/product-import.parser.ts:203-206 | trimming takes white space away from both ends, all of it and nothing else |
| `Text.KeyAdds` | apps/backend/src/products/import/product-import.parser.ts:101-107 | keys are made character by character |
| `ImportRecords.CellIssuesExactly` | apps/backend/src/products/import/product-import.parser.ts:211-255 | the checks of one row report exactly its bad cells, and none exactly when the row is valid |
| `ImportRecords.PartKeysExactly` | apps/backend/src/products/import/product-import.parser.ts:258-259 | the joined key is the same exactly when part number and brand are |
| `ImportParser.ParseProductCsv` | apps/backend/src/products/import/product-import.parser.ts:198-296 | its rows and errors are exactly those of `FileExactly` |
| `ImportRecords.FileExactly` | apps/backend/src/products/import/product-import.parser.ts:175-296 | for every file, over the records themselves: an issue for each bad cell and each repeated part of a record that is not blank, with its line and field, and one row for every other such record, which says column by column what the trimmed cells say; no error exactly when there are 1 to 5000 records, not all blank, and all others are good |
| `ImportRecords.BlankExactly` | apps/backend/src/products/import/product-import.parser.ts:207 | a record is skipped exactly when all its cells, of known columns or not, are white space |
| `ImportParser.CommitFile` | apps/backend/src/products/import/product-import.service.ts:56-68 | a file with errors changes nothing; otherwise the import commits as a whole or not at all |
| `ImportParser.ProductsSayTheirRecords` | apps/backend/src/products/import/product-import.service.ts:56-68 | from cells to products: after a commit every record that is not blank has its own product with its name, price, quantity, condition, part number, texts, category and brand |
| `ImportTypes.BrandKeysInvert` | apps/backend/src/products/import/product-import.service.ts:86 | what is found under a key has that key |
| `ImportNotes.BrandLookup` | apps/backend/src/products/import/product-import.service.ts:86 | a brand is found exactly when one has that key, of several the last |
| `ImportNotes.CategoryLookup` | apps/backend/src/products/import/product-import.service.ts:81-85 | a category is found under its name and its French name, of several the last |
| `ImportNotes.TruckLookup` | apps/backend/src/products/import/product-import.service.ts:87 | a truck is found exactly when make, model and engine have the same letters and digits and the years are equal |
| `ImportNotes.FitsExactly` | apps/backend/src/products/import/product-import.service.ts:103-106 | a row is about a product exactly when the part numbers have the same letters and digits and the brand is the last one of that name, or none |
| `ImportPlan.MatchesExactly` | apps/backend/src/products/import/product-import.service.ts:104-106 | the matches of a row are exactly the products with its part number and brand |
| `ImportPlan.ActionExactly` | apps/backend/src/products/import/product-import.service.ts:103-126 | a row updates a product exactly when it fits that one only, and creates one exactly when it fits none |
| `ImportNotes.AmbiguousLines` | apps/backend/src/products/import/product-import.service.ts:107-114 | the errors of a plan are the lines of exactly the rows that fit two products |
| `ImportApply.ProductImportService.FindByPartNumbers` | apps/backend/src/products/import/product-import.service.ts:159-170 | finds all products with each part number of the file |
| `ImportApply.ProductImportService.Plan` | apps/backend/src/products/import/product-import.service.ts:70-155 | the loop computes `PlanRows`; changes nothing |
| `ImportApply.ProductImportService.WriteRow` | apps/backend/src/products/import/product-import.service.ts:196-247 | one row's update or creation, with a slug free among written and reserved ones |
| `ImportApply.ProductImportService.Apply` | apps/backend/src/products/import/product-import.service.ts:172-248 | the loops write the missing tables and then the rows, in order |
| `ImportApply.ProductImportService.Commit` | apps/backend/src/products/import/product-import.service.ts:56-68 | every row is written, or the catalogue is as before |
| `ImportTables.PlanNotes` | apps/backend/src/products/import/product-import.service.ts:96-101 | the plan notes only categories, brands and trucks that are missing, once each, and misses none |
| `ImportNotes.NewCategoriesExactly` | apps/backend/src/products/import/product-import.service.ts:97-98 | a category is added exactly when some row has it and no row of the table, spelled as in the last such row |
| `ImportNotes.NewBrandsExactly` | apps/backend/src/products/import/product-import.service.ts:99-100 | the same for brands with a letter or digit |
| `ImportNotes.NewTrucksExactly` | apps/backend/src/products/import/product-import.service.ts:101 | and for trucks |
| `ImportNotes.NotedInOrder` | apps/backend/src/products/import/product-import.service.ts:91-101 | they are added in the order in which the file first needs them |
| `ImportNotes.TablesGrow` | apps/backend/src/products/import/product-import.service.ts:181-191 | a commit keeps every category, brand and truck and adds the noted ones behind them, with slugs made of their names |
| `ImportTables.EveryLookupSucceeds` | apps/backend/src/products/import/product-import.service.ts:181-200 | once they are created, every category, keyed brand and truck a row looks up is found |
| `ImportTables.BrandIdsKept` | apps/backend/src/products/import/product-import.service.ts:185-188 | known brands keep their ids under their keys, and new ones get ids nobody has |
| `ImportTheorems.RowFindsItsPlan` | apps/backend/src/products/import/product-import.service.ts:193-197 | every row finds its own planned entry by its line |
| `ImportTheorems.TargetsDiffer` | apps/backend/src/products/import/product-import.service.ts:196-247 | different rows end up in different products |
| `ImportTheorems.CommitSucceeds` | apps/backend/src/products/import/product-import.service.ts:56-68 | a commit succeeds if and only if no row fits two products, no row lists a truck twice and every row's price, condition and status fit their columns |
| `ImportTheorems.ImportIsAnUpsert` | apps/backend/src/products/import/product-import.service.ts:96-149 | each row's product is as updated or created, the catalogue grows by the count of creations, unmatched products and all old slugs stay |
| `ImportResult.ProductsSayTheirRows` | apps/backend/src/products/import/product-import.service.ts:196-247 | after a commit each row's product says what the row says, through the names of its category, brand and trucks; an updated one keeps what the row leaves empty, a new one starts with the documented defaults and a slug made of its name |
| `ImportTheorems.UniquenessIsKept` | apps/backend/src/products/import/product-import.service.ts:181-247 | slugs, category names and brand names stay unique |
| `ImportAgain.SecondAction` | apps/backend/src/products/import/product-import.service.ts:103-126 | after an import each row that can be matched again fits exactly its own product, and every other row fits none |
| `ImportAgain.ImportTwice` | apps/backend/src/products/import/product-import.service.ts:43-46 | a second import of the same file goes through, needs no new table rows, updates each row's own product, and changes nothing if and only if every row has a part number and a brand that is keyed or not found |

## Left out

- Others: has no fixed behaviour; it stands for the interference between two statements, and callers use its contract only.
- ShopServices.OthersAreSteps: the contracts in `Shop` rely on recorded successes staying recorded while a method waits, which failure writes of other calls can break; the properties of the transition system say what then holds.
- Expiry.ExpireStaleOrders: the sweep runs alone and every statement succeeds; the job's catch and concurrent sweeps are not modelled there (the transition system covers concurrent expiry steps).
- Expiry.SweepIsComplete: with a full batch it only says that the remaining orders are no older than the batch.
- Sessions.Chains: requests are served one after the other; two truly simultaneous refreshes of one token can both succeed in the code.
- Sessions: deletion of users and sessions, and sweeps of old rows, are not modelled; tokens are positions, so hashing is the identity.
- Slugs.SlugifyNormalises: lower-casing covers ASCII letters; the Kelvin sign and the dotted capital I, whose lower case begins with an ASCII letter, are not modelled.
- Price.PriceRoundTrip: the printer is the French grouping with a narrow no-break space; the locale library behind `toLocaleString` is not modelled.
- ImportRecords.FileExactly: decoding, separators, quoting, column titles, accents and warnings come before or beside the model; keys are ASCII.
- ImportPlan: the order in which the database returns rows is the order of their ids, so "the last row with a key wins" is about ids; truck keys are tuples, which the joined strings are equivalent to because normalised parts contain no bar.
- ImportApply: the time limit of the transaction, and concurrent catalogue edits during it.
- CouponAccounting: coupon deletion and edits of the usage limit; an admin edit keeps the counter and the limit, and a new coupon starts unused. A coupon's code is its id.
- Protocol: cart checks of stock and publication when a row is added, addresses, order numbers, ownership checks and shipping; customers' and products' deletion; lookup of a payment by its references.
- Protocol: `cancelOrder` reads the order once more before its transition; in the transition system it is an admin's request for CANCELLED or REFUNDED, in `Shop` it has both reads.
- Errors are outcomes and refusals without texts; mails, owner alerts, logs and Sentry are not modelled.
- The provider's HTTP and signatures: a report is any pending, failed or successful result with or without an amount.
- Deadlocks, isolation anomalies other than stale reads, and numeric rounding of money in floating point.
- Search, images, reviews, insights, user administration, plain CRUD and the whole frontend.
