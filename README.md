# Festeve backend: wallet ledger, referral settlement and the smaller services around them

This project models, in Dafny, the business rules of the Festeve backend services. The core is
the wallet and the referral programme. Around it sit the orders, cart, delivery-slot, vendor,
payment-record, gateway-guard and user-account services.

- **Wallet** (`Wallet`, over the store of `Ledger`). Each user holds two balances, `rewardWallet`
  (money) and `coinWallet` (coins). The wallet transaction collection is an append-only ledger.
  - `addCredit` and `debitAmount` append one ledger entry and move one balance field. The debit
    is a guarded decrement: it applies only when the balance covers the amount.
  - Each runs in one of three modes: inside the caller's session; inside its own transaction;
    or, when the store reports that it has no transactions, as the same writes one by one.
  - The store is the class `Ledger.Database`. Each wallet method is proved equal to a spec
    function over the value `Ledger.State`, and the service's promises are lemmas about those
    functions.
  - Store faults are an input, `Ledger.Env`. It says whether the store supports transactions
    and which writes it refuses.
  - A transaction takes a snapshot and restores it on failure.
- **Referrals** (`Referrals`). `applyReferral` and `applyReferralOnSignup` check the referee
  and the code. They then create one referral record, set the referee's `referredBy` and credit
  both parties the 50-coin bonus through the wallet. `applyReferral` does all of this in a
  transaction; `applyReferralOnSignup` falls back to sequential writes on a store without
  transactions.
- **Orders** (`Orders`): the owner-filtered lookup, the status whitelist, payment-status
  derivation from payment records, the cancellation rules and the statistics.
- **Carts** (`Carts`): merging a line (at most 50 per line), setting a quantity, removing or
  clearing lines, and the item count.
- **Delivery slots** (`SlotRules`, `DeliverySlots`, `BookingSlots`). The monolith and the
  booking service use the same slot schema and the same store rules; each connects to the
  store its own `MONGODB_URI` names, so whether they share one collection is a matter of
  deployment. Reserving and releasing keep
  `0 <= currentOrders <= maxOrders`. The offer is a filter and a sort; the monolith adds a
  90-minute window for hot items, and the booking service has none.
- **Vendors** (`Vendors`):
  - the unique name;
  - one rating per user;
  - `$addToSet` / `$pull` updates of the product list, each batch validated before any change.
- **Payment records** (`PaymentRecords`): the `paidAt` stamping rule, lookup and the status
  statistics.
- **Gateway guard** (`AuthGuard`): `Bearer` token extraction and the `canActivate` decision.
  The user service's answer about the token is an input.
- **User accounts** (`AuthService`): the 8-character referral code, the fields `createUser`
  forces, and lookup by id. The random draws are an input.

Store collections are `map`s (keyed by document id) or `seq`s (in insertion order).
`findById` on a sequence is the first match. Amounts and times are integers, with times in
milliseconds. `now` is a parameter wherever the source reads the clock.

## Model

| member | source | states |
|---|---|---|
| Ledger.RunWrite | src/wallet/wallet.service.ts:90-107 | a write the store refuses fails with a store error and changes nothing; any other write has exactly the effect `Apply` gives it and reports whether it matched a document |
| Ledger.Apply | src/wallet/wallet.service.ts:90-107 | an update that matches nothing changes nothing; no write adds or removes a user; only an entry insert changes the ledger, by appending that entry, and only a referral insert changes the referral records, by appending that record |
| Ledger.InTransaction | src/wallet/wallet.service.ts:109-136 | on a store without transactions it fails with the recognised error before any write; otherwise it fails exactly when the callback does, with the callback's error and the state it started from, and commits the callback's run when that succeeds |
| Ledger.Conclude | src/wallet/wallet.service.ts:162-163 | a run ends in the call's return value exactly when no step failed, and otherwise throws the step's error; the state is the run's |
| Ledger.WithFallback | src/wallet/wallet.service.ts:109-160 | without a caller session: on a store without transactions (or the recognised error) the writes run one by one; otherwise a successful transaction commits and returns the value, and any other error is rethrown with the store as it was |
| Ledger.Database.Execute | src/wallet/wallet.service.ts:90-107 | sending one write changes the three collections exactly as the write's effect says and reports its error and whether it matched a document |
| Ledger.Database.StartTransaction | src/wallet/wallet.service.ts:109-116 | a transaction fails to start exactly on a store without transactions, with the recognised error, and remembers the state to return to |
| Ledger.Database.Abort | src/wallet/wallet.service.ts:131-136 | aborting restores the state the transaction started from |
| Wallet.GetBalance | src/wallet/wallet.service.ts:21-32 | succeeds exactly for an existing user and reports its money and coin balances and id; otherwise NotFound "User not found" |
| Wallet.GetMoneyBalance | src/wallet/wallet.service.ts:331-337 | fails exactly when getBalance fails, with its error; otherwise the money balance |
| Wallet.GetCoinBalance | src/wallet/wallet.service.ts:339-345 | fails exactly when getBalance fails, with its error; otherwise the coin balance |
| Wallet.CeilDiv | src/wallet/wallet.service.ts:70 | the least number of pages of the given size that hold the total |
| Wallet.Window | src/wallet/wallet.service.ts:54-62 | skip then limit: at most `limit` entries, the slice starting at `skip`, empty past the end |
| Wallet.GetTransactions | src/wallet/wallet.service.ts:34-73 | page defaults to 1 and limit to 20; the total counts the user's entries passing the optional type and currency filters; pages is the ceiling of total over limit; the page is the window at (page-1)*limit of the matching entries newest first, each of which passes the filters |
| Wallet.WriteCredit | src/wallet/wallet.service.ts:90-107 | the credit's writes in order: the entry, then the `$inc` of the balance, stopping at the first failure |
| Wallet.WriteDebit | src/wallet/wallet.service.ts:192-218 | the debit's writes in order: the entry, then the guarded decrement; a decrement that matches nothing makes the run fail as insufficient balance |
| Wallet.CreditBody | src/wallet/wallet.service.ts:90-107 | the credit's two writes go through exactly when the store takes both; a failure is the store's error; the referral records are never touched |
| Wallet.DebitBody | src/wallet/wallet.service.ts:192-218 | the debit's writes fail only with the store's error or as insufficient balance; the referral records are never touched |
| Wallet.CreditOutcome | src/wallet/wallet.service.ts:76-164 | an amount <= 0 is refused with the state unchanged; a success returns the amount and the currency (its effect in each mode: CreditEffect, OwnTransactionIsAtomic, StandaloneStoreRunsWritesInOrder) |
| Wallet.DebitOutcome | src/wallet/wallet.service.ts:167-286 | an amount <= 0, a missing user and a balance below the amount are refused, in that order, with the state unchanged; a success returns the amount and the currency (its effect: DebitEffect) |
| Wallet.AddCredit | src/wallet/wallet.service.ts:76-164 | the store and the result are those of the credit outcome: amount check, then the writes inside the caller's session, inside an own transaction, or one by one after the recognised error |
| Wallet.DebitAmount | src/wallet/wallet.service.ts:167-286 | the store and the result are those of the debit outcome: amount, user and balance checks before any write, then the same three modes |
| Wallet.AddMoney | src/wallet/wallet.service.ts:289-297 | a credit in money |
| Wallet.DebitMoney | src/wallet/wallet.service.ts:299-307 | a debit in money |
| Wallet.AddCoins | src/wallet/wallet.service.ts:310-318 | a credit in coins |
| Wallet.DebitCoins | src/wallet/wallet.service.ts:320-328 | a debit in coins |
| Wallet.NonPositiveAmountRejected | src/wallet/wallet.service.ts:84-86 | a credit or debit of an amount <= 0 fails BadRequest "Amount must be positive" with the state unchanged, in every mode (debit: lines 175-177) |
| Wallet.CreditEffect | src/wallet/wallet.service.ts:88-107 | a credit succeeds exactly when the store takes both writes; it then appends exactly the entry with the given type, amount, currency, source and meta, raises only the balance field the currency selects, and leaves referrals and every other user alone |
| Wallet.DebitEffect | src/wallet/wallet.service.ts:192-212 | a debit that passes its checks succeeds exactly when the store takes both writes; it then appends exactly its entry and lowers only the selected balance by the amount |
| Wallet.DebitRejected | src/wallet/wallet.service.ts:180-190 | a debit for a missing user fails NotFound and one above the balance fails "Insufficient <currency> balance"; neither writes anything |
| Wallet.GuardedDecrementReportsInsufficient | src/wallet/wallet.service.ts:204-218 | when the guarded decrement matches nothing, the debit reports insufficient balance, not success, and no balance changes |
| Wallet.OwnTransactionIsAtomic | src/wallet/wallet.service.ts:113-136 | without a caller session on a store with transactions, a failed credit or debit leaves the store exactly as it was (debit: lines 221-251) |
| Wallet.StandaloneStoreRunsWritesInOrder | src/wallet/wallet.service.ts:137-160 | on a store without transactions, the credit and the debit are their writes run one after another (debit: lines 252-282) |
| Wallet.FallbackLeavesEntryWithoutBalance | src/wallet/wallet.service.ts:141-156 | in the fallback, a balance update that fails after the entry was written leaves the entry and the old balance and rethrows the error |
| Wallet.UnsupportedSignalNeverLeaks | src/wallet/wallet.service.ts:137-160 | no credit or debit throws the "transactions unsupported" error, in any mode (debit: lines 252-282) |
| Wallet.StoreFaultRethrown | src/wallet/wallet.service.ts:137-160 | any other store error is rethrown: a credit, or a debit past its checks, whose writes the store refuses fails with that store error in every mode, and in its own transaction leaves the store as it was (debit: lines 252-282) |
| Wallet.BalancesStayNonNegative | src/wallet/wallet.service.ts:204-218 | from non-negative balances, no credit or debit, in any mode and whatever fails, makes a balance negative |
| Wallet.LedgerStaysConsistent | src/wallet/wallet.service.ts:88-136 | if every balance equals its ledger credits minus debits before, this still holds after a credit or debit that succeeds or that ran in an own transaction |
| Wallet.MoveKeepsConsistent | src/wallet/wallet.service.ts:92-106 | appending an entry and moving its user's balance by the entry's signed amount keeps balances equal to credits minus debits |
| Wallet.CreditThenDebitRestoresBalance | src/wallet/wallet.service.ts:104 | crediting then debiting the same amount in the same currency gives back every balance, with exactly the two entries added (debit: line 209) |
| Wallet.MutatorFrame | src/wallet/wallet.service.ts:76-286 | no credit or debit touches referral records, adds or removes a user, or changes a referral code or `referredBy` |
| Wallet.BodyFrame | src/wallet/wallet.service.ts:90-107 | an entry insert followed by a balance update keeps the referral records and each user's links |
| Referrals.FindReferrer | services/identity-service/src/referral/referral.service.ts:161-165 | finds a user exactly when one holds the code, and the user found holds it |
| Referrals.GetReferralCode | services/identity-service/src/referral/referral.service.ts:24-34 | succeeds exactly for an existing user with its code and the number of records naming it as referrer; otherwise NotFound |
| Referrals.Settle | services/identity-service/src/referral/referral.service.ts:186-217 | a failure of the record or of the link stops the settlement before any bonus (its full effect: SettleEffect, SettleFrame) |
| Referrals.ApplyOutcome | services/identity-service/src/referral/referral.service.ts:150-227 | a success reports the 50-coin bonus; on a store without transactions it always fails and writes nothing (its checks and effect: ApplyChecks, ApplyEffect) |
| Referrals.SignupOutcome | services/identity-service/src/referral/referral.service.ts:36-148 | a success reports the 50-coin bonus; an unknown code is refused with nothing written (its checks and effect: SignupChecks, SignupEffect) |
| Referrals.RunSettle | services/identity-service/src/referral/referral.service.ts:186-217 | the four settlement writes in order (record, `referredBy`, referrer bonus, referee bonus), each only if the ones before succeeded |
| Referrals.ApplyReferral | services/identity-service/src/referral/referral.service.ts:150-227 | the store and the result are those of the applyReferral outcome: five checks, then the settlement inside a transaction |
| Referrals.ApplyReferralOnSignup | services/identity-service/src/referral/referral.service.ts:36-148 | the store and the result are those of the signup outcome: three checks, then the settlement in a transaction or, on the recognised error, one write after another |
| Referrals.SettleEffect | services/identity-service/src/referral/referral.service.ts:186-217 | the four steps succeed exactly when the store takes all their writes; they then add exactly one record with bonus 50, link the referee and pay both parties 50 coins with source `referral` |
| Referrals.SettleFrame | services/identity-service/src/referral/referral.service.ts:186-217 | whatever fails, a settlement keeps the set of users, their codes and every link except the referee's |
| Referrals.ApplyChecks | services/identity-service/src/referral/referral.service.ts:152-180 | rejections in order: missing user NotFound, `referredBy` set Conflict, unknown code BadRequest, self-referral BadRequest, a record for this referee and code Conflict; a rejection writes nothing |
| Referrals.ApplyEffect | services/identity-service/src/referral/referral.service.ts:183-226 | an accepted applyReferral succeeds exactly when the store has transactions and takes every write; it reports 50 coins and leaves the settled state; on a store without transactions it fails with the store's error and writes nothing |
| Referrals.SettledRefereeIsRejected | services/identity-service/src/referral/referral.service.ts:157-159 | a referee with a record and `referredBy` set is refused by both entry points, with nothing written (signup: lines 51-56) |
| Referrals.SecondApplyFails | services/identity-service/src/referral/referral.service.ts:157-159 | after a successful applyReferral, any further applyReferral for the same referee fails and writes nothing |
| Referrals.ApplyCountsOneReferral | services/identity-service/src/referral/referral.service.ts:186-191 | a successful applyReferral raises the referrer's referral count by one and no other user's |
| Referrals.SignupChecks | services/identity-service/src/referral/referral.service.ts:39-56 | rejections in order: unknown code, self-referral, any existing record for the referee; a rejection writes nothing |
| Referrals.SignupEffect | services/identity-service/src/referral/referral.service.ts:58-144 | an accepted signup referral succeeds, on either kind of store, exactly when the store takes every write, reports 50 coins and leaves the settled state; with transactions a failure leaves nothing |
| Referrals.SignupFallbackLeavesRecordWithoutBonus | services/identity-service/src/referral/referral.service.ts:101-139 | in the fallback, when linking fails after the record was written, the record stays, no bonus is paid and the error is rethrown |
| Referrals.SignupNeverLeaksUnsupported | services/identity-service/src/referral/referral.service.ts:101-139 | applyReferralOnSignup never throws the "transactions unsupported" error |
| Referrals.SettleNeverLeaksUnsupported | services/identity-service/src/referral/referral.service.ts:58-139 | outside a session the settlement's wallet calls never report the "transactions unsupported" error |
| Referrals.ReferralInvariantsPreserved | services/identity-service/src/referral/referral.service.ts:36-227 | from a state where every referee named in a record is linked: both entry points keep at most one record per referee; `applyReferral` keeps every such referee linked, and `applyReferralOnSignup` does when it succeeds or the store has transactions (a failed fallback can leave a record whose referee is unlinked: SignupFallbackLeavesRecordWithoutBonus) |
| Referrals.AppendKeepsInvariants | services/identity-service/src/referral/referral.service.ts:186-200 | a complete settlement for an unrecorded referee keeps both referral invariants |
| Referrals.SettleKeepsLedger | services/identity-service/src/referral/referral.service.ts:201-217 | a settlement keeps balances non-negative whatever fails, and balances equal to ledger credits minus debits when it completes |
| Referrals.ReferralsKeepLedger | services/identity-service/src/referral/referral.service.ts:36-227 | both entry points keep balances non-negative, and the ledger consistent when they succeed or run in a transaction |
| Orders.Locate | src/orders/orders.service.ts:38-45 | the first order the `{ _id, userId? }` query selects, or none |
| Orders.FindOne | src/orders/orders.service.ts:38-54 | succeeds exactly when an order with the id (and, when a user id is given, that owner) exists; otherwise NotFound "Order with ID .. not found" |
| Orders.WithPayment | src/orders/orders.service.ts:82-86 | the payment status replaced; with a paid amount given, paid plus due equals the total; without one the amounts are unchanged; nothing else changes |
| Orders.Populate | src/orders/orders.service.ts:126-129 | the ids that have a record, in the order of the ids, each replaced by the first record with that id; ids without a record are dropped |
| Orders.PaymentStatusFor | src/orders/orders.service.ts:144-150 | pending exactly when nothing is paid, paid exactly when something is and it covers the total, partially paid otherwise |
| Orders.Recalculate | src/orders/orders.service.ts:136-150 | paid amount is the sum over paid records, paid plus due equals the total; the status is pending when nothing is paid, paid when the total is covered, partially paid otherwise; nothing else changes |
| Orders.RecalculateIdempotent | src/orders/orders.service.ts:125-153 | recalculating twice against the same records is recalculating once |
| Orders.RecalculateWithNonNegativeAmounts | src/orders/orders.service.ts:136-150 | with non-negative record amounts the paid amount is non-negative and an order with something due is never paid |
| Orders.CancelOrder | src/orders/orders.service.ts:165-174 | delivered and cancelled orders are refused, then shipped and out-for-delivery ones, each with its message; any other becomes cancelled with nothing else changed |
| Orders.CancelIsFinal | src/orders/orders.service.ts:165-167 | a cancelled order cannot be cancelled again |
| Orders.GetStats | src/orders/orders.service.ts:177-199 | total is the number of orders; placed, shipped, delivered and cancelled each equal the number of orders with that status (summing to at most the total); revenue is the sum of totals over paid orders, 0 for none and non-negative with non-negative totals |
| Orders.OrderCountsPartition | src/orders/orders.service.ts:178-184 | every order falls under exactly one of the four counted statuses or under none of them |
| Orders.RevenueNonNegative | src/orders/orders.service.ts:186-197 | with non-negative totals the revenue is non-negative |
| Orders.CancelMovesCount | src/orders/orders.service.ts:155-175 | cancelling an order adds one to the cancelled count and leaves the revenue alone |
| Orders.OrderCollection.UpdateStatus | src/orders/orders.service.ts:56-73 | a status outside the five accepted ones is refused before the lookup with nothing changed; an unknown id gives NotFound; otherwise only that order's status is replaced, keeping every status valid |
| Orders.OrderCollection.UpdatePaymentStatus | src/orders/orders.service.ts:75-89 | an unknown id gives NotFound with nothing changed; otherwise only that order is changed, as WithPayment says |
| Orders.OrderCollection.CalculatePaymentStatus | src/orders/orders.service.ts:125-153 | an unknown id gives NotFound with nothing changed; otherwise only that order is recalculated against its populated records |
| Orders.OrderCollection.Cancel | src/orders/orders.service.ts:155-175 | the order must be found, among the user's own when a user id is given, and be cancellable; a refusal changes nothing |
| Carts.LineIndex | services/e-commerce-service/src/cart/cart.service.ts:45-49 | the first line of the (productId, variantId) pair, or -1 exactly when there is none |
| Carts.AddLine | services/e-commerce-service/src/cart/cart.service.ts:45-65 | an existing line grows by the quantity unless that exceeds 50 (BadRequest); a new pair is appended with no cap check |
| Carts.SetQuantity | services/e-commerce-service/src/cart/cart.service.ts:78-88 | NotFound "Item not found in cart" exactly when the pair has no line; otherwise that line takes the new quantity |
| Carts.RemoveLine | services/e-commerce-service/src/cart/cart.service.ts:101-105 | no line of the pair remains; every other line stays, as often as it occurred, and nothing is added |
| Carts.RemoveLineAppend | services/e-commerce-service/src/cart/cart.service.ts:101-105 | removal works line by line over any cart, so the kept lines keep their order |
| Carts.AddKeepsLinesUnique | services/e-commerce-service/src/cart/cart.service.ts:45-65 | a successful add keeps at most one line per pair |
| Carts.SetKeepsLinesUnique | services/e-commerce-service/src/cart/cart.service.ts:78-88 | setting a quantity keeps at most one line per pair |
| Carts.AddedCartHasUniqueLines | services/e-commerce-service/src/cart/cart.service.ts:45-65 | a cart built by any sequence of adds from a cart with unique pairs still has one line per pair |
| Carts.AddRaisesCount | services/e-commerce-service/src/cart/cart.service.ts:51-65 | a successful add raises the item count by exactly the quantity added |
| Carts.AddThenRemoveRestores | services/e-commerce-service/src/cart/cart.service.ts:58-65 | adding a new pair and removing it gives back the lines as they were |
| Carts.RemoveLowersCount | services/e-commerce-service/src/cart/cart.service.ts:101-105 | with unique pairs, removing lowers the item count by the removed line's quantity, or not at all for an absent pair |
| Carts.RemoveOnlyLine | services/e-commerce-service/src/cart/cart.service.ts:101-105 | with unique pairs, removing a present pair cuts out exactly its line and keeps the others in order |
| Carts.CartCollection.GetCart | services/e-commerce-service/src/cart/cart.service.ts:18-33 | the user's lines; a user without a cart gets an empty one, saved |
| Carts.CartCollection.AddToCart | services/e-commerce-service/src/cart/cart.service.ts:35-69 | the result is AddLine on the user's lines (empty without a cart), saved only on success |
| Carts.CartCollection.UpdateCartItem | services/e-commerce-service/src/cart/cart.service.ts:71-92 | NotFound "Cart not found" without a cart; otherwise SetQuantity, saved only on success |
| Carts.CartCollection.RemoveFromCart | services/e-commerce-service/src/cart/cart.service.ts:94-109 | NotFound without a cart; otherwise RemoveLine, saved; an absent pair is not an error |
| Carts.CartCollection.ClearCart | services/e-commerce-service/src/cart/cart.service.ts:111-122 | the user's cart is empty afterwards, created if absent |
| Carts.GetCartItemCount | services/e-commerce-service/src/cart/cart.service.ts:124-129 | 0 without a cart, otherwise the item count of the user's lines, non-negative when the quantities are |
| Carts.ItemCount | services/e-commerce-service/src/cart/cart.service.ts:124-128 | the sum of the quantities: 0 for no lines and non-negative when the quantities are; how adding and removing move it: AddRaisesCount, RemoveLowersCount |
| Carts.ClearedCartCountsZero | services/e-commerce-service/src/cart/cart.service.ts:111-129 | the item count after clearing is 0 |
| SlotRules.Available | src/delivery/delivery-slot.service.ts:28-44 | exactly the active slots with room, not yet started and within the cutoff if one is given, each as often as it is stored, earliest start first (booking service: lines 27-43) |
| SlotRules.CutoffNarrowsOffer | src/delivery/delivery-slot.service.ts:36-39 | a cutoff never offers a slot more often than no cutoff does |
| SlotRules.CutoffNarrows | src/delivery/delivery-slot.service.ts:36-39 | the offer with a cutoff is the offer without it restricted to slots starting by the cutoff, and no longer |
| SlotRules.ReserveIndex | src/delivery/delivery-slot.service.ts:80-84 | the first slot of the id that is active and below capacity, or -1 exactly when there is none |
| SlotRules.ReleaseIndex | src/delivery/delivery-slot.service.ts:99-103 | the first slot of the id with an order, or -1 exactly when there is none |
| SlotRules.IdIndex | src/delivery/delivery-slot.service.ts:58-76 | the first slot with the id, or -1 exactly when there is none |
| SlotRules.Reserved | src/delivery/delivery-slot.service.ts:78-96 | exactly the matched slot gains one order, every other field of it kept, staying within capacity; without a match nothing changes (booking service: lines 75-93) |
| SlotRules.Released | src/delivery/delivery-slot.service.ts:98-112 | exactly the matched slot loses one order, every other field of it kept, never below 0; without a match nothing changes (booking service: lines 95-109) |
| SlotRules.Patched | services/booking-service/src/delivery/delivery-slot.service.ts:55-65 | each field the update gives is replaced, every other one kept |
| SlotRules.Deleted | src/delivery/delivery-slot.service.ts:70-76 | the first slot of the id is cut out and the others keep their order; without one nothing changes (booking service: lines 67-73) |
| SlotRules.Updated | services/booking-service/src/delivery/delivery-slot.service.ts:55-65 | the first slot of the id becomes its patched version; without one nothing changes |
| SlotRules.ReserveThenReleaseRestores | src/delivery/delivery-slot.service.ts:78-112 | with unique ids and counts in bounds, a successful reserve followed by a release gives back the same slots |
| SlotRules.DeleteRemovesExactly | src/delivery/delivery-slot.service.ts:70-76 | with unique ids, deleting removes exactly the slot of the id and at most one slot |
| SlotRules.DeleteKeepsInvariants | src/delivery/delivery-slot.service.ts:70-76 | deleting adds no slot and keeps the capacity bounds and unique ids |
| SlotRules.UpdateEffect | services/booking-service/src/delivery/delivery-slot.service.ts:55-65 | an update changes only the slot of its id, repeating it changes nothing more, and an empty update changes nothing |
| SlotRules.SlotCollection.ReserveSlot | src/delivery/delivery-slot.service.ts:78-96 | the collection becomes Reserved; the result is the incremented slot, or BadRequest "Slot not available or fully booked" when no slot matched; bounds kept (booking service: lines 75-93) |
| SlotRules.SlotCollection.ReleaseSlot | src/delivery/delivery-slot.service.ts:98-112 | the collection becomes Released; the result is the decremented slot, or NotFound when no slot matched; bounds kept (booking service: lines 95-109) |
| SlotRules.SlotCollection.UpdateSlot | services/booking-service/src/delivery/delivery-slot.service.ts:55-65 | the slot of the id is patched and returned, or NotFound "Delivery slot with ID .. not found" |
| SlotRules.SlotCollection.DeleteSlot | src/delivery/delivery-slot.service.ts:70-76 | the slot of the id goes; NotFound exactly when there was none; unique ids kept (booking service: lines 67-73) |
| DeliverySlots.GetAvailableSlots | src/delivery/delivery-slot.service.ts:18-47 | a malformed id gives BadRequest, an unknown product NotFound; otherwise the bookable slots, each as often as it is stored, earliest first, limited for a hot item to those starting within 90 minutes |
| DeliverySlots.HotItemOfferIsWindowOfOrdinaryOffer | src/delivery/delivery-slot.service.ts:36-39 | a hot item is offered exactly the ordinary offer's slots that start within the window, and no more of them |
| BookingSlots.GetAvailableSlots | services/booking-service/src/delivery/delivery-slot.service.ts:19-44 | BadRequest exactly for a malformed id; otherwise every bookable slot, each as often as it is stored, earliest first, whatever the product |
| BookingSlots.OfferMatchesMonolithForOrdinaryItems | services/booking-service/src/delivery/delivery-slot.service.ts:19-44 | the same offer as the monolith for an ordinary product, at least as large for a hot one, and an offer even for an id with no product |
| Vendors.AddToSet | src/vendors/vendors.service.ts:131-135 | `$addToSet`: the element added unless present, the list kept as a prefix, no duplicate introduced, idempotent |
| Vendors.AddEachToSet | src/vendors/vendors.service.ts:181 | set union: the old list as a prefix, then only ids of the batch not already there, no duplicate introduced |
| Vendors.Pull | src/vendors/vendors.service.ts:151-156 | every occurrence of the id removed, every other id kept as often as it occurred |
| Vendors.PullEach | src/vendors/vendors.service.ts:208 | set difference: exactly the entries not in the batch remain, each as often as it occurred |
| Vendors.PullUndoesAddToSet | src/vendors/vendors.service.ts:125-165 | pulling an id just added gives back the list |
| Vendors.PullEachUndoesAddEach | src/vendors/vendors.service.ts:167-219 | pulling a batch just added gives back the list |
| Vendors.Rate | src/vendors/vendors.service.ts:96-109 | refused exactly when the user has rated; otherwise exactly one rating appended, earlier ones kept, one rating per user kept |
| Vendors.SecondRatingRefused | src/vendors/vendors.service.ts:96-101 | once a user's rating is in, every further one from that user is refused |
| Vendors.FindOne | src/vendors/vendors.service.ts:38-53 | a malformed id gives BadRequest, an unknown one NotFound; otherwise the vendor |
| Vendors.FirstInvalid | src/vendors/vendors.service.ts:172-176 | none exactly when every id is well formed; otherwise a malformed id of the list |
| Vendors.CheckProductIds | src/vendors/vendors.service.ts:172-176 | succeeds exactly when every id is well formed, otherwise BadRequest naming the first malformed one |
| Vendors.VendorCollection.Create | src/vendors/vendors.service.ts:19-29 | a taken name (or id) gives BadRequest with nothing saved; otherwise the vendor is saved with no ratings; unique names kept |
| Vendors.VendorCollection.AddRating | src/vendors/vendors.service.ts:84-112 | the vendor lookup's error, or Rate's outcome, saved only on success |
| Vendors.VendorCollection.UpdateProducts | src/vendors/vendors.service.ts:137-143 | NotFound for an unknown vendor; otherwise only its product list is updated and the vendor returned |
| Vendors.VendorCollection.AddProductToVendor | src/vendors/vendors.service.ts:125-144 | malformed ids are refused before any change, an unknown vendor gives NotFound, and otherwise the call succeeds with `$addToSet` applied to that vendor only |
| Vendors.VendorCollection.RemoveProductFromVendor | src/vendors/vendors.service.ts:146-165 | malformed ids are refused before any change, an unknown vendor gives NotFound, and otherwise the call succeeds with `$pull` applied to that vendor only |
| Vendors.VendorCollection.AddProducts | src/vendors/vendors.service.ts:167-192 | the vendor id, then every product id, checked before any change, then NotFound for an unknown vendor; otherwise the call succeeds with the set union applied to that vendor only |
| Vendors.VendorCollection.RemoveProducts | src/vendors/vendors.service.ts:194-219 | the vendor id, then every product id, checked before any change, then NotFound for an unknown vendor; otherwise the call succeeds with the set difference applied to that vendor only |
| Vendors.VendorCollection.Remove | src/vendors/vendors.service.ts:72-82 | a malformed id gives BadRequest, an unknown one NotFound; otherwise exactly that vendor is removed |
| PaymentRecords.IndexOf | services/payment-service/src/payment-records/payment-records.service.ts:78-79 | the first record with the id, or -1 exactly when there is none |
| PaymentRecords.FindOne | services/payment-service/src/payment-records/payment-records.service.ts:48-60 | the record with the id, or NotFound "Payment record with ID .. not found" exactly when there is none |
| PaymentRecords.StampPaidAt | services/payment-service/src/payment-records/payment-records.service.ts:71-76 | paid with no time given stamps now; a given time is stored whatever the status; otherwise `paidAt` is untouched; a paid record always has a time |
| PaymentRecords.WithStatus | services/payment-service/src/payment-records/payment-records.service.ts:71-79 | only the status and `paidAt` change |
| PaymentRecords.Updated | services/payment-service/src/payment-records/payment-records.service.ts:78-81 | the record of the id becomes its status update and every other record is kept; an unknown id changes nothing |
| PaymentRecords.GetStats | services/payment-service/src/payment-records/payment-records.service.ts:105-127 | the total, each of the four status counts exactly (summing to at most the total), and the sum of paid amounts (0 for none, non-negative with non-negative amounts) |
| PaymentRecords.StatusCountsPartition | services/payment-service/src/payment-records/payment-records.service.ts:106-112 | every record is counted under exactly one of the four statuses or under none |
| PaymentRecords.PaidTotalNonNegative | services/payment-service/src/payment-records/payment-records.service.ts:114-125 | with non-negative amounts the paid total is non-negative |
| PaymentRecords.UpdateMovesPaidTotal | services/payment-service/src/payment-records/payment-records.service.ts:70-85 | marking an unpaid record paid adds its amount to the paid total; marking a paid one otherwise takes it away |
| PaymentRecords.PaymentRecordCollection.UpdateStatus | services/payment-service/src/payment-records/payment-records.service.ts:70-95 | NotFound for an unknown id; otherwise the updated record; every paid record keeps a payment time |
| AuthGuard.SpaceIndex | microservices/api-gateway/src/common/guards/auth.guard.ts:44 | the first space, or -1 exactly when there is none |
| AuthGuard.Split | microservices/api-gateway/src/common/guards/auth.guard.ts:44 | `split(' ')`: at least one field, none holding a space |
| AuthGuard.JoinSplit | microservices/api-gateway/src/common/guards/auth.guard.ts:44 | joining the fields of a split with spaces gives back the header |
| AuthGuard.SplitJoin | microservices/api-gateway/src/common/guards/auth.guard.ts:44 | splitting space-free fields joined by spaces gives back the fields |
| AuthGuard.ExtractTokenFromHeader | microservices/api-gateway/src/common/guards/auth.guard.ts:43-46 | no token for a missing header; a token never holds a space |
| AuthGuard.BearerHeaderYieldsToken | microservices/api-gateway/src/common/guards/auth.guard.ts:43-46 | a header whose fields are `Bearer`, a token and anything more yields exactly that token |
| AuthGuard.TokenComesFromBearerHeader | microservices/api-gateway/src/common/guards/auth.guard.ts:44-45 | a token is only ever extracted from a header that starts with `Bearer `, the token, then nothing or a space |
| AuthGuard.Decide | microservices/api-gateway/src/common/guards/auth.guard.ts:19-41 | "Token not found" exactly with no or an empty token; access exactly when the reply is valid and names a user, who is granted; every other outcome "Authentication failed" |
| AuthGuard.Request.CanActivate | microservices/api-gateway/src/common/guards/auth.guard.ts:19-41 | true with `request.user` set to the granted user, or the Unauthorized error with the request untouched |
| AuthService.CodeOf | microservices/user-service/src/auth/auth.service.ts:48-52 | one character per draw, each the alphabet symbol at its draw, and so in the alphabet |
| AuthService.AlphabetDistinct | microservices/user-service/src/auth/auth.service.ts:48 | the 36 symbols of the alphabet are distinct |
| AuthService.CodeDeterminesDraws | microservices/user-service/src/auth/auth.service.ts:48-52 | different draws spell different codes |
| AuthService.GenerateReferralCode | microservices/user-service/src/auth/auth.service.ts:47-54 | exactly 8 characters, each the alphabet symbol at its draw |
| AuthService.NewUser | microservices/user-service/src/auth/auth.service.ts:35-42 | role `user` and the generated code, every other input field copied |
| AuthService.InputCodeIgnored | microservices/user-service/src/auth/auth.service.ts:38-42 | a referral code in the input never reaches the saved user |
| AuthService.UserCollection.CreateUser | microservices/user-service/src/auth/auth.service.ts:34-45 | the saved and returned user is NewUser with the code the draws spell |
| AuthService.UserCollection.GetUserById | microservices/user-service/src/auth/auth.service.ts:30-32 | nothing exactly for an unknown id, otherwise that user |

## Left out

- MongoDB I/O. `find`/`populate` projections, `countDocuments`, `aggregate`, `save` and the
  session calls are modelled by their effect on in-memory collections. A transaction is a
  snapshot restored on failure; the retries of `withTransaction` are not modelled.
- Concurrency. One call runs at a time, so the races the guarded `$inc` arbitrates, and the gap
  between the referral checks and the insert, are outside the model.
- The eager `Model.create` in the wallet's `operations` arrays
  (src/wallet/wallet.service.ts:90-107, 192-212). In Mongoose the insert starts when the array
  is built, so the no-session path may write an entry twice. The model has the single entry
  the code evidently intends. The order inside `Promise.all` is modelled as sequential.
- Error-text matching. "Transaction numbers are only allowed" / "replica set" is the
  `TransactionsUnsupported` fault; any other store failure is `OtherFault`.
- Clock and randomness. `new Date()` / `Date.now()` are the parameter `now`, and both reads in
  one call are taken to be the same instant. The `Math.random` indices of
  `generateReferralCode` are the `draws` input.
- JWT verification (`validateToken`, microservices/user-service/src/auth/auth.service.ts:15-28)
  and the RPC call of `canActivate`. The user service's answer is the `validate` input, and a
  failed call is `CallFailed`.
- Controllers, modules, DTO validation (class-validator) and configuration.
- Floating-point amounts. Amounts are integers, and `Math.ceil(total / limit)` is integer
  ceiling division.
- Operations outside the core:
  - orders `create`, `findAll`, `addPaymentRecord`, `removePaymentRecord`;
  - slots `getAllSlots`, `createSlot`;
  - vendors `update`, `findAll`, `findByProduct`, `getProducts`;
  - payment records `create`, `findAll`, `findByReference`, `findByTransactionId`.
- Mongoose casting. A malformed id passed to `findById` (a CastError) is treated as an unknown
  id. Ids are compared as exact strings, so hex case is not normalised.
- Validation errors `save()` would raise from the schemas: ratings outside 1-5, quantities below
  1, and `runValidators` in `updateSlot`. The schemas are not part of this model.
- Sort ties. `Available` sorts stably by start time; MongoDB leaves the order of equal start
  times unspecified, so SlotRules.Available, DeliverySlots.GetAvailableSlots and
  BookingSlots.GetAvailableSlots state only sortedness and how often each slot is offered.
- Common.IsValidObjectId accepts exactly 24 hexadecimal characters. `Types.ObjectId.isValid` also
  accepts any 12-character string; the model does not.
- Wallet.GetTransactions requires page and limit to be at least 1 when given. With 0 or a
  negative value the source computes a negative skip or a zero divisor, and the model does
  not cover that.
- Referrals.FindReferrer, Referrals.ApplyOutcome, Referrals.SignupOutcome,
  Referrals.ApplyReferral and Referrals.ApplyReferralOnSignup require referral codes to be
  unique among users. No schema in this model declares a unique index on the code. The
  service looks the referrer up with `findOne({ referralCode })`
  (services/identity-service/src/referral/referral.service.ts:39, 162) and treats the match as
  the code's only owner; without uniqueness that lookup would not be deterministic.
- Referrals.ReferralInvariantsPreserved and Referrals.ApplyKeepsInvariants prove that
  `applyReferral` keeps one record per referee only from states where every referee named in
  a record is linked (`Linked`). `applyReferral` checks the referee's `referredBy`, not the
  referral records, so from a state with an unlinked record it would add a second one.
- Wallet.GetTransactions orders the entries newest first as the reverse of insertion order. The
  source sorts by `createdAt` descending (src/wallet/wallet.service.ts:57), and leaves the order
  of entries with equal `createdAt` to the store; the model fixes it as reverse insertion order.
- Wallet.DebitAmount and Wallet.DebitOutcome check the user and the balance against the state of
  the call, which inside a caller's session includes that session's uncommitted writes. The
  source reads the user with `findById` without the session (src/wallet/wallet.service.ts:180),
  so it sees only committed data; the model does not distinguish the two.
- AuthService.UserCollection.CreateUser requires the draws to be eight indices below 36
  (`Math.random` cannot produce anything else). It also requires `id` not to name a stored
  user: the id stands for the ObjectId that `new this.userModel(...)` generates, which the
  caller never supplies, so the duplicate-key error a clashing id would raise is not modelled.
  It does not model a duplicate-key error when a generated code collides with an existing one.
- Vendors.VendorCollection.Create reports a clash of the fresh id like a clash of the name,
  since both are duplicate-key error 11000.

## Behaviour that differs from the service's own description

These follow the code:

- `addCredit` does not check that the user exists. For an unknown user it appends the entry,
  the `$inc` matches nothing, and the call succeeds.
- `applyReferral` has no fallback. On a store without transactions it fails, throwing the
  store's "transactions unsupported" error (`Referrals.ApplyEffect` states this).
- `applyReferralOnSignup` never looks the referee up, and it refuses a referee with any
  existing record, whatever the code.
- The referral bonus is the fixed constant 50.
