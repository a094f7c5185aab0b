# Postpilot: a model of billing settlement, and of some clip and service algorithms

The main part models how Postpilot takes and gives back money. Orders are kept in a journal
(pending, applied, failed, in review) and settled against a payment provider whose answers can be
lost after they took effect. Requests, the provider's webhook, the billing pass and the refund review
all act on the same rows. A writer transaction is atomic; between two of them anyone may act, and
whoever acts may do so on an answer or a row read arbitrarily long ago.

How the billing modules build on one another:

- `Calendar` and `Pricing`: the anchored month grid, terms, the fixed prices and proration, in exact
  integers (nanoseconds, won).
- `Ledger`: the rows, and each writer transaction as a function from rows to rows or a refusal.
- `Protocol`: the world (rows, the provider's captures and cancels, everything that was ever read or
  sent, the clock), every action with the condition under which it may happen, and runs of actions.
- `Journal`, `Money`, `Books`, `Rows`, `Renewals`, `Tiers`, `Quotes`, `Refunds`, `Funding`: one family
  of invariants each, and what every action keeps of it.
- `Runs`: every reachable state keeps all of them, and the theorems about whole runs that follow.
- `Subscriber`, and on it `LateLapse`, `LateCancel` and `LateRefund`: runs that reach the three defects
  the theorems leave room for.
- `Stores`: the class `Store`, whose methods carry the transactions out statement by statement, in the
  source's order, with its rollbacks.
- `Services`: the class `Service`, whose methods are the flows around the transactions, with anyone
  else's actions between any two steps. The steps a flow takes are appended to a log, and that log is
  always a run of the protocol, so every theorem about runs is one about what the flows do.

What is assumed of the provider is exactly what enables its actions in `Protocol`: an order is captured
at most once and a decline is final; a cancel takes effect at most once under an idempotency key, and
only one that was asked for; a balance is the captured amount less the done cancels, and cancel
transactions have keys of their own. Cancels that nobody here asked for may happen too (`Elsewhere`).

The other modules stand alone: `CaptionSpace` (where a caption may stand and what it must avoid),
`Observations` (chunk grids, merged analyses, expected copies), `Timeline` (reading extensions and
resolved intervals), `CaptionWords` (dividing wording), `CaptureNeighbors` (photos next to a video),
`Throttle` (fixed windows and their sweep), `Authoring` (completion cap and history budget), `PngRows`
(section 6 of RFC 2083) and `FontCoverage` (code point ranges). `Basics` holds what several modules
share.

Three things the proofs show about the code as it is:

- `lapseCancelled` writes back the row its pass read, with no version check
  (`backend/internal/billing/subscription.go:146-151`). If the row was resumed and renewed since, the
  paid term is dropped. `LateLapse.ALapseCanDropAPaidTerm` is such a run, and
  `Runs.StaleLapseDropsALaterTerm` says when it happens: exactly when the row's term end is no longer
  the one that was read. `Runs.StaleLapseUndoesChanges` says what else it undoes, a resume for one.
- `CancelSubscription` writes back the row it read under a version check that an advance of the benefit
  boundary does not trip (`backend/internal/billing/change.go:77-93`), so the boundary may go back.
  `LateCancel.ACancelCanTakeBackAnAdvance` is such a run, and `Runs.StaleCancelTakesBackOnlyAdvances`
  says that it happens exactly when the boundary was advanced since the read, that nothing else is taken
  back, and that the row stays on its grid. This is why no theorem claims that the boundary only grows.
- The comment at `backend/internal/billing/refunds.go:459-460` says that a newer renewal never lets the
  refund of an older charge end the row. The worker reads its instant before its transaction
  (`backend/internal/billing/refunds.go:348`), so a renewal applied between the two can be ended by it:
  `LateRefund.ARefundCanEndALaterTerm` is such a run. `Runs.RefundEndsTheTermItPaidFor` says that the
  comment is right exactly where the row's term had started at that instant.

`dafny verify dfyconfig.toml` checks the project.

## Model

| member | source | states |
|---|---|---|
| Calendar.BoundaryFallsInItsMonth | backend/internal/plan/period.go:12-18 | The boundary numbered k falls in the month k after the anchor's, on the anchor's own day or that month's last, at the anchor's time of day; number 0 is the anchor itself. |
| Calendar.BoundariesIncrease | backend/internal/plan/period.go:12-18 | The boundaries form a strictly increasing grid: i < j if and only if boundary i is before boundary j. |
| Calendar.WindowIndex | backend/internal/plan/period.go:21-30 | One correction of the month difference finds the window that holds the instant, before or after the anchor. |
| Calendar.WindowIsUnique | backend/internal/plan/period.go:21-30 | No other window of the grid holds the instant. |
| Calendar.TermFromBoundary | backend/internal/plan/period.go:46-54 | From a grid point a term ends one or twelve boundaries on and the benefit month one boundary on, both on the grid and in that order. |
| Calendar.NextBoundaryStaysWithin | backend/internal/plan/period.go:21-30 | Advancing one benefit window from a grid point never passes a later grid point. |
| Calendar.ReanchoringLosesDays | backend/internal/plan/period.go:12-18 | Counting on from a clamped boundary gives the same date as counting from the anchor if and only if the clamped day is no shorter than the one the later month allows. |
| Pricing.CeilDivUnique | backend/internal/plan/period.go:67-84 | Rounding up is the only integer whose multiple reaches the amount while the one below does not. |
| Pricing.ProrationFalls | backend/internal/plan/period.go:67-84 | The part of an amount for the time left is the whole at the start, nothing only at the end, and never grows as time passes. |
| Pricing.UpgradeCharges | backend/internal/plan/period.go:94-117 | An upgrade has a quote exactly for a paid, lower tier inside both periods, and before the term's end it costs more than nothing and at most the price difference. |
| Pricing.UpgradesTelescope | backend/internal/plan/period.go:94-117 | Two upgrades at one instant cost what the direct one costs, up to one won of rounding. |
| Stores.Store.MarkIntent | backend/internal/billing/store/intents.go:118-128 | Leaves pending once: it takes effect if and only if the order is pending, and writes the status, key and instant alone. |
| Stores.Store.FailReviewIntent | backend/internal/billing/store/intents.go:130-140 | Leaves review once, to failed. |
| Stores.Store.InsertOrder | backend/internal/billing/store/intents.go:65-80 | The order id is the key and the amount is positive: otherwise nothing is written. |
| Stores.Store.AdvanceNextGrant | backend/internal/billing/store/store.go:145-153 | Moves the benefit boundary alone, conditional on the value the caller read, and leaves the version stamp as it was. |
| Stores.Store.SetPaidTier | backend/internal/auth/service.go:763-765 | A master account is left on master; any other is put on the tier. |
| Stores.Store.ReassignTier | backend/internal/auth/store/store.go:227-242 | The one tier write that moves a master account; it is refused, and nothing written, exactly where it would demote the only master. |
| Stores.Store.QuoteChange | backend/internal/billing/change.go:19-38 | Carries out the quoting transaction, all or nothing: refusal and error, or the quote priced from the row that was read. |
| Stores.Store.Subscribe | backend/internal/billing/fixed_checkout.go:163-221 | All or nothing: each refusal in order and nothing written, or one pending order at the fixed price. |
| Stores.Store.PurchasePack | backend/internal/billing/fixed_checkout.go:313-360 | All or nothing: each refusal in order and nothing written, or one pending order for the credit pack. |
| Stores.Store.FixedQuoteInTx | backend/internal/billing/fixed_checkout.go:41-70 | Gives the row and the quote if and only if the quote is for this request, unexpired, on the row's version, in its term and (for an upgrade) in its benefit month. |
| Stores.Store.ChangeSubscriptionQuoted | backend/internal/billing/fixed_checkout.go:74-143 | All or nothing: a scheduled change is written to the row, an upgrade becomes one pending order at the quoted amount. |
| Stores.Store.Renew | backend/internal/billing/fixed_checkout.go:228-300 | All or nothing: a pending order under the account's and term's own id, or, without a payment method, the row lapsed. |
| Stores.Store.FailRenewalInTx | backend/internal/billing/fixed_settlement.go:481-499 | The row ends, the account falls to its support tier or to free, and one event says so. |
| Stores.Store.ReviewFixedIntent | backend/internal/billing/fixed_settlement.go:123-137 | A pending order is marked for review; any other is left alone. |
| Stores.Store.ApplyFixedPayment | backend/internal/billing/fixed_settlement.go:158-234 | All or nothing, with its one exception: a payment that no longer fits commits the review mark and nothing else. |
| Stores.Store.ApplyFixedEntitlement | backend/internal/billing/fixed_settlement.go:236-271 | Refuses exactly the unapplicable payments, before any write; otherwise writes the entitlement of the order's kind. |
| Stores.Store.ApplyFixedSubscription | backend/internal/billing/fixed_settlement.go:273-301 | The first term's row, charge, tier and grant, and the end of support coverage. |
| Stores.Store.ApplyFixedRenewal | backend/internal/billing/fixed_settlement.go:303-349 | The next term's row and charge; tier and grant only without support coverage. |
| Stores.Store.ApplyFixedUpgrade | backend/internal/billing/fixed_settlement.go:351-395 | Refuses before any write if and only if the upgrade no longer fits the row; otherwise row, charge, tier and grant. |
| Stores.Store.ApplyFixedPack | backend/internal/billing/fixed_settlement.go:397-414 | Refuses a price that changed before any write; a second purchase under one order fails after the credit lot was opened. |
| Stores.Store.FailFixedIntent | backend/internal/billing/fixed_settlement.go:429-479 | A pending order fails; a renewal's also ends the row if it is still on that term. |
| Stores.Store.CompleteUnappliedRefund | backend/internal/billing/unapplied_captures.go:89-127 | An order in review fails once, and a renewal's ends the row if it is still on that term. |
| Stores.Store.GrantAnnualWindow | backend/internal/billing/subscription.go:118-142 | The transaction of the step: the boundary one window on, from the value that was read or not at all. |
| Stores.Store.LapseCancelled | backend/internal/billing/subscription.go:146-172 | Writes back the row the pass read, ended, whatever the row has become, with the tier that leaves. |
| Stores.Store.CancelSubscription | backend/internal/billing/change.go:67-99 | Under the version check, the row that was read without renewal and schedule. |
| Stores.Store.ResumeSubscription | backend/internal/billing/change.go:101-126 | Under the version check, the row of now, renewing. |
| Stores.Store.CancelScheduledChange | backend/internal/billing/change.go:40-65 | Under the version check, the row of now without its schedule. |
| Stores.Store.AssignSupportTier | backend/internal/billing/support.go:14-91 | Support coverage entered or left, with the tier it gives or uncovers, all or nothing: the last master is not demoted. |
| Stores.Store.RequestRefund | backend/internal/billing/refunds.go:16-56 | All or nothing: one open request an order, for an applied order of the account. |
| Stores.Store.ReviewRefund | backend/internal/billing/refunds.go:139-260 | All or nothing: rejected, or approved within the balance and the rules of use, with the funding frozen. |
| Stores.Store.RecordRefundProviderAttempt | backend/internal/billing/store/refunds.go:236-247 | A request keeps the one transaction it was recorded with, and no transaction serves two requests. |
| Stores.Store.ReleaseAndFailRefund | backend/internal/billing/refunds.go:305-320 | The funding is given back before the request fails; a request settled meanwhile rolls that back. |
| Stores.Store.SettleRefund | backend/internal/billing/refunds.go:351-387 | The funding is voided and the entitlement reversed before the outcome is recorded; the request is completed on its recorded transaction or nothing changes. |
| Stores.Store.ReverseRefundedEntitlements | backend/internal/billing/refunds.go:418-467 | Ends, or puts back on its prior tier, the row the refunded order still funds; marks a purchase refunded. |
| Journal.CheckoutGrows | backend/internal/billing/fixed_checkout.go:362-371 | No checkout touches an order that exists; what it adds is one pending order of an account with none pending or in review, at its price. |
| Journal.SettlementMoves | backend/internal/billing/fixed_settlement.go:158-211 | A settlement moves at most its own order: pending to applied, failed or review, or review to failed, and never rewrites what was ordered. |
| Journal.ApplyOutcome | backend/internal/billing/fixed_settlement.go:158-211 | Applying a payment comes to the order's entitlement and mark, its review mark alone, or nothing. |
| Journal.ReviewCommitsTheMarkAlone | backend/internal/billing/fixed_settlement.go:167-200 | A commit that marks an order for review changes nothing but that order's row. |
| Money.BalanceFalls | backend/internal/billing/ports.go:75-87 | Money that went back stays back: a captured balance never grows. |
| Money.EnvKeepsMoney | backend/internal/billing/provider_refusals.go:70-85 | Nothing the provider does or answers breaks the agreement of statuses, captures and answers read. |
| Money.SettlementKeepsMoney | backend/internal/billing/fixed_settlement.go:58-211 | Each settlement is justified by the answer it was made on, however old. |
| Money.CanceledIsEmpty | backend/internal/billing/unapplied_captures.go:76-80 | An answer that shows a payment cancelled, or an empty balance with cancels, means it is empty now. |
| Money.MoneyIsSafe | backend/internal/billing/fixed_settlement.go:58-211 | Where the agreement holds, an order whose payment still holds a balance is open or applied, a failed order's payment holds nothing, and an applied one captured its own amount. |
| Books.NoChargeAdded | backend/internal/billing/fixed_settlement.go:416-427 | Writes that log no charge leave every order's number of charges as it was. |
| Books.QuietTxKeepsBooks | backend/internal/billing/fixed_settlement.go:158-211 | A transaction that applies no order and logs no charge keeps the books. |
| Books.EntitlementWrites | backend/internal/billing/fixed_settlement.go:273-414 | Every apply path logs the order's one charge under the payment's key, and its purchase if it is a pack; it grants the order its entitlement if and only if it is no renewal of an account under support coverage. |
| Books.SettlementKeepsBooks | backend/internal/billing/fixed_settlement.go:158-211 | After every settlement an order has one charge exactly if it is applied, and purchases to match; an applied order that is no renewal has its one grant. |
| Books.SettlementKeepsGrants | backend/internal/billing/fixed_settlement.go:303-349 | And every applied renewal of an account no operator reassigned has its one grant. |
| Books.AppliedIsCharged | backend/internal/billing/fixed_settlement.go:416-427 | The one charge of an applied order names its account, its price and its payment. |
| Rows.StepKeepsRows | backend/internal/billing/store/store.go:129-143 | A write that ends or carries on a row keeps versions, grid and every answer still in flight. |
| Rows.NewRowIsOnGrid | backend/internal/billing/fixed_settlement.go:273-301 | A first term is anchored at its own start, on its own grid. |
| Rows.RenewedRowCarriesOn | backend/internal/billing/fixed_settlement.go:303-349 | A renewal starts at the old term's end, stays on the anchor's grid and ends later. |
| Rows.CancelSteps | backend/internal/billing/change.go:67-99 | A cancel that writes back the row it read is still a step of the current row. |
| Rows.CurrentReadIsActive | backend/internal/billing/change.go:67-126 | A row of the version that was read is the row that was read, but for the benefit boundary. |
| Rows.AdvanceStaysOnGrid | backend/internal/billing/subscription.go:118-142 | A stale pass may advance only the boundary it read, and only to the next grid point inside the term of now. |
| Rows.SettlementKeepsRows | backend/internal/billing/fixed_settlement.go:236-395 | Settlements keep every active row on its grid, with its dates in order. |
| Rows.CheckoutKeepsWaiting | backend/internal/billing/fixed_checkout.go:163-221 | While a first charge is pending the account has no active row, and nobody read one since. |
| Renewals.AppliedRenewalIsBehind | backend/internal/billing/fixed_settlement.go:303-349 | Applying a renewal moves the term past the one it was for. |
| Renewals.SettledRenewalIsBehind | backend/internal/billing/fixed_settlement.go:429-479 | However it is settled, a renewal ends up behind every active row of its account. |
| Renewals.FirstRowIsAhead | backend/internal/billing/fixed_settlement.go:273-301 | A first term starts after every renewal the account ever had. |
| Renewals.RenewalIdIsFree | backend/internal/billing/fixed_checkout.go:223-300 | A renewal that passes its guards never meets an order of its own id. |
| Renewals.RenewalsAreOncePerTerm | backend/internal/billing/fixed_checkout.go:223-226 | One renewal per account and term end; a settled one is strictly behind the account's active term. |
| Tiers.SettlementTiers | backend/internal/billing/fixed_settlement.go:273-399 | No settlement breaks an account's agreement of tier and row, or moves a master. |
| Tiers.AccountTiers | backend/internal/billing/subscription.go:146-163 | Neither does a cancel, resume, lapse or grant. |
| Tiers.RefundTiers | backend/internal/billing/refunds.go:418-467 | Neither does a refund. |
| Tiers.SupportKeepsTiers | backend/internal/billing/support.go:14-91 | The operator's step leaves every other account as it was. |
| Quotes.ClassificationsAgree | backend/internal/billing/fixed_checkout.go:145-159 | A change is classified at its confirmation as it was at its quote. |
| Quotes.VersionPricesAlike | backend/internal/billing/change.go:166-184 | A version of the row prices an upgrade like the row it was read as, though the benefit boundary moved. |
| Quotes.QuoteIsHonoured | backend/internal/billing/fixed_settlement.go:351-367 | At settlement an upgrade is refused exactly when the row changed, the term ended or the benefit month moved on; its recomputed amount is always its own. |
| Quotes.LiveQuoteConfirms | backend/internal/billing/fixed_checkout.go:74-143 | A confirmation of a live quote meets the kind of change that was quoted, and an upgrade with a positive amount: two refusals are unreachable. |
| Quotes.RenewalBuysWhatWasScheduled | backend/internal/billing/fixed_settlement.go:303-349 | A renewal taking effect buys the tier and term scheduled on its version at their fixed price, from the old term's end, on the same anchor and coverage, and uses the schedule up. |
| Quotes.UpgradeTakesEffect | backend/internal/billing/fixed_settlement.go:351-395 | An upgrade taking effect changes the tier and nothing of the term, and drops a schedule. |
| Quotes.SubscriptionTakesEffect | backend/internal/billing/fixed_settlement.go:273-301 | A first charge opens an anchored, renewing subscription under a coverage of its own. |
| Refunds.ConfirmedWithinCancels | backend/internal/billing/refunds.go:270-397 | Requests backed by distinct done cancels never confirm more than the cancels sum to. |
| Refunds.ShownCancelStands | backend/internal/billing/refunds.go:399-416 | The transaction found in an answer is a done cancel of exactly the reviewed amount, still there. |
| Refunds.UntouchedBalanceIsRefused | backend/internal/billing/provider_refusals.go:70-85 | A definitive refusal whose read-back shows the balance of the review is final: no money moved or ever will under that key. |
| Refunds.EnvKeepsRefunds | backend/internal/billing/refunds.go:270-397 | Nothing the provider does breaks the agreement of requests, keys, balances and answers. |
| Refunds.RefundingKeepsRefunds | backend/internal/billing/refunds.go:16-56 | Nor does any transaction on requests. |
| Refunds.RefundsAreConserved | backend/internal/billing/refunds.go:139-241 | Confirmed refunds are within what was given back, which is within the captured amount. |
| Refunds.RequestsAreSettledOnce | backend/internal/billing/refunds.go:270-397 | A completed request has its own done cancel of the reviewed amount; a failed one's was refused for good; its funding was frozen once and settled once. |
| Refunds.RefundReversesWhatItFunded | backend/internal/billing/refunds.go:418-467 | Completing a refund of a base charge that still funds the row ends it there and then, of an upgrade puts the row back on its prior tier unless it was upgraded again, of a credit purchase marks it, and of a charge that funds nothing any more leaves rows and tiers alone; a master stays one. |
| Funding.StepKeepsFunding | backend/internal/billing/subscription.go:118-172 | A write that ends or carries on a row leaves it on a term that some applied charge paid for, and no charge under its coverage for a later one. |
| Funding.SettlementKeepsFunding | backend/internal/billing/fixed_settlement.go:273-349 | So does every settlement: the order that takes effect pays for the term the row is on now. |
| Funding.FundsItsOwnTerm | backend/internal/billing/refunds.go:436-466 | Where that holds, a base charge that still funds the row at an instant pays for the row's own term if and only if that term had started by then. |
| Runs.StepKeepsInv | backend/internal/billing/fixed_settlement.go:58-211 | Every step anyone can take from a state that keeps all of this leads to one that does. |
| Runs.EveryRunKeepsInv | backend/internal/billing/fixed_settlement.go:58-211 | Every state that any interleaving reaches keeps all of this. |
| Runs.MoneyIsSafeOnEveryRun | backend/internal/billing/unapplied_captures.go:41-115 | Money safety on every run: a payment that holds a balance belongs to an open or applied order; a failed order's payment holds nothing; an applied order captured exactly its own amount. |
| Runs.SettlementIsExactlyOnce | backend/internal/billing/fixed_settlement.go:158-211 | On every run an account has at most one open order; an order has one charge if it is applied and none otherwise; it is granted its entitlement at most once and only if applied, and exactly once if applied, unless it is a renewal of an account that an operator reassigned. |
| Runs.RunsOnlyMoveOn | backend/internal/billing/ports.go:40-50 | From any point of a run on, applied and failed orders never change, one in review can only fail, reviewed terms stay and settled requests are final. |
| Runs.RenewalsNeverCollide | backend/internal/billing/fixed_checkout.go:223-300 | On every run one renewal per account and term end, settled ones strictly behind the active term, and the id of the next one free. |
| Runs.ActiveRowsStayOnTheGrid | backend/internal/billing/subscription.go:58-172 | On every run an active row keeps AnchorAt <= TermStart < NextGrantAt <= TermEnd on the anchored grid, on a tier that is sold. |
| Runs.TierIsPaidForOnEveryRun | backend/internal/billing/fixed_settlement.go:273-399 | On every run a non-master account no operator reassigned is on its active row's tier, or free. |
| Runs.OnlyTheOperatorMovesMasters | backend/internal/auth/service.go:763-786 | No step but the operator's on that account moves it onto or off master. |
| Runs.SomeMasterRemains | backend/internal/auth/store/store.go:227-242 | Where there is a master, every step anyone can take leaves one. |
| Runs.QuotesAreHonouredOnEveryRun | backend/internal/billing/fixed_settlement.go:351-367 | Quote fidelity on every run: the mismatch refusal is unreachable. |
| Runs.UpgradesAreChargedAsQuoted | backend/internal/billing/fixed_settlement.go:351-427 | On every run the amount an applied upgrade was quoted, the amount ordered, the amount captured and the amount of its one charge are equal, under one payment key. |
| Runs.RefundsAreConservedOnEveryRun | backend/internal/billing/refunds.go:139-241 | Refund conservation on every run. |
| Runs.RequestsAreSettledOnceOnEveryRun | backend/internal/billing/refunds.go:270-397 | On every run: one waiting request an order, each completed one backed by its own done cancel, each funding guard held once and confirmed or released once. |
| Runs.StaleLapseDropsALaterTerm | backend/internal/billing/subscription.go:146-172 | A lapse written from a stale read takes the account back to the term that was read: it drops a later term if and only if there is one. |
| Runs.StaleLapseUndoesChanges | backend/internal/billing/subscription.go:146-172 | On the same term such a lapse undoes exactly what was changed since of the tier, the renewal, the schedule and the boundary: the written row is the row of now ended if and only if none of these differ from what was read. |
| Runs.StaleCancelTakesBackOnlyAdvances | backend/internal/billing/change.go:77-93 | A cancel written from a stale read changes what it means to and nothing else but the benefit boundary, which never moves on, stays on the grid, and goes back if and only if it was advanced since the read. |
| Runs.RefundedChargeFundsItsOwnTerm | backend/internal/billing/refunds.go:436-466 | On every run a base charge that still funds the row funds the very term the row is on, if and only if that term had started at the instant the worker read. |
| Runs.RefundEndsTheTermItPaidFor | backend/internal/billing/refunds.go:418-467 | So completing the refund of a base charge ends no row, or the row on the term that charge paid for if and only if the worker did not read its instant before the row's term started. |
| LateLapse.ALapseCanDropAPaidTerm | backend/internal/billing/subscription.go:95-172 | A concrete run leads to where a lapse of a cancelled row drops the term its applied renewal just paid for. |
| LateCancel.ACancelCanTakeBackAnAdvance | backend/internal/billing/change.go:67-99 | A concrete run leads to where a cancel puts the benefit boundary back to one that has been granted. |
| LateRefund.ARefundCanEndALaterTerm | backend/internal/billing/refunds.go:348-466 | A concrete run leads to where completing the refund of the first charge ends the term its applied renewal paid for. |
| Services.MatchingCancelTransaction | backend/internal/billing/refunds.go:399-407 | The last done cancel of the amount that has a key; the empty key if and only if there is none. |
| Services.ConfirmedCancelHasKey | backend/internal/billing/refunds.go:409-416 | True exactly if the transaction is a done cancel of the amount. |
| Services.FailureSeenMeansNothingHeld | backend/internal/billing/fixed_checkout.go:373-375 | A failure the provider reported, however long ago, means the order's payment holds no money. |
| Services.Service.CancelOrReadBack | backend/internal/billing/provider_refusals.go:70-85 | Only an answer that was read counts, and a definitive refusal counts only with the payment read back after it under the same key. |
| Services.Service.ApplyFixedPayment | backend/internal/billing/fixed_settlement.go:158-234 | Success means the order is applied; with no other writer the outcome is exactly that of the transaction. |
| Services.Service.ReviewFixedIntent | backend/internal/billing/fixed_settlement.go:123-137 | A payment that does not match keeps the order unresolved, in review. |
| Services.Service.FailFixedIntent | backend/internal/billing/fixed_settlement.go:429-479 | An order is failed only where the provider holds no money of it. |
| Services.Service.ReconcileFixedPayment | backend/internal/billing/fixed_settlement.go:104-121 | Success only for an applied order, a declined charge only where no money is held; anything else stays open. |
| Services.Service.ProcessFixedIntent | backend/internal/billing/fixed_settlement.go:58-95 | The same, with the charge and both reads, whatever interleaves and whatever answer is lost. |
| Services.Service.ReconcileOrder | backend/internal/billing/fixed_settlement.go:40-56 | The webhook reports success only once the order is no longer pending. |
| Services.Service.RefundUnapplied | backend/internal/billing/unapplied_captures.go:41-71 | An order in review is failed only when its whole capture went back. |
| Services.Service.ReturnedInFull | backend/internal/billing/unapplied_captures.go:76-80 | True exactly for the captured payment with an empty balance and a done cancel of the whole amount. |
| Services.Service.ReturnedMeansNothingHeld | backend/internal/billing/unapplied_captures.go:76-80 | Then, on every run, the payment holds nothing. |
| Services.Service.CompleteUnappliedRefund | backend/internal/billing/unapplied_captures.go:89-127 | Success means the order is failed and its payment empty. |
| Services.Service.ReviewRefund | backend/internal/billing/refunds.go:139-260 | Success means the request is rejected, or approved and never undone. |
| Services.Service.ReconcileRefund | backend/internal/billing/refunds.go:270-397 | Success only for a completed request; declined only where the provider refused its cancel for good. |
| Services.Service.CancelReviewed | backend/internal/billing/refunds.go:291-337 | Gives the one recorded transaction of the request, or why there is none yet. |
| Services.Service.ReleaseRefused | backend/internal/billing/refunds.go:305-320 | The funding is given back only where the cancel was refused for good. |
| Services.Service.SettleRefund | backend/internal/billing/refunds.go:348-390 | Success means the request is completed. |
| Services.Service.GrantAnnualWindow | backend/internal/billing/subscription.go:118-142 | With no other writer the boundary always moves on or a storage failure is reported, so the loop's guard against standing still is not reached. |
| Services.Service.LapseCancelled | backend/internal/billing/subscription.go:146-172 | The row is ended, or a storage failure is reported and nothing touched; nothing of any other account changes. |
| Services.Service.Renew | backend/internal/billing/fixed_checkout.go:228-300 | With no other writer the account is renewed past the old boundary, lapsed, or blocked by an open order: never refused as stale, unsold or already ordered. |
| Services.Service.CatchUp | backend/internal/billing/subscription.go:78-92 | The catch-up loop ends, and leaves the account lapsed, covered past now, blocked by an open order, or reported. |
| Services.Service.RunDue | backend/internal/billing/subscription.go:58-93 | With no other writer every due account ends up resolved in one of those four ways. |
| Throttle.Throttle.Allow | backend/internal/auth/throttle.go:68-92 | The windows and the answer are those of one attempt of the specification, refusals included. |
| Throttle.Throttle.Sweep | backend/internal/auth/throttle.go:95-103 | Exactly the windows that are over are dropped. |
| Throttle.SweepsChangeNothing | backend/internal/auth/throttle.go:68-103 | For times that do not go back, sweeps put anywhere into a run change no answer. |
| Throttle.WindowsAreBounded | backend/internal/auth/throttle.go:68-92 | Each window of a class and address admits at most max attempts, whatever is swept. |
| Throttle.IntervalsAreBounded | backend/internal/auth/throttle.go:68-92 | Any interval one window long, both ends included, admits at most twice max attempts. |
| Throttle.RetryAtAdmits | backend/internal/auth/throttle.go:64-92 | A refusal names the first instant at which the next attempt is admitted. |
| Throttle.UnknownIsRefused | backend/internal/auth/throttle.go:64-75 | An unknown class is always refused and never recorded. |
| PngRows.PaethBreaksTiesInOrder | scripts/browser-analysis-native-check.py:53-55 | The source's choice by index of the least distance is that of section 6.6 of RFC 2083, ties in the order left, above, upper left. |
| PngRows.UnfilterRow | scripts/browser-analysis-native-check.py:56-61 | The row rewritten in place is the reconstruction of the encoded row; an unknown filter is refused. |
| PngRows.RowRoundTrip | scripts/browser-analysis-native-check.py:58-61 | Reconstructing any prefix of a filtered row gives that prefix of the raw row. |
| PngRows.ImageRoundTrip | scripts/browser-analysis-native-check.py:52-65 | For every image and any choice of filter for each row, reconstruction gives the rows back. |
| PngRows.PngRgb | scripts/browser-analysis-native-check.py:51-66 | The result is the colours of the reconstructed rows in order, or the refusal of an unknown filter. |
| Authoring.CompletionCap | backend/internal/authoring/run.go:190-223 | The cap is the most that the policy and the known context both allow, and is refused exactly where that is too little for the request; a large batch never runs short of its plan. |
| Authoring.CapLeavesRoomForTheOwner | backend/internal/authoring/run.go:206-215 | The room set aside is enough: while the owner's words stay within twice their limit and 256 runes, a request is never refused for its context, only for the model's own bound. |
| Authoring.RecentHistory | backend/internal/authoring/run.go:152-176 | The history is the longest recent run of done turns, in order, every step of which stays within both limits, while one more would not. |
| Authoring.FreezeInput | backend/internal/authoring/run.go:139-189 | Refused exactly for a long document, no budget, or a prompt that does not fit by itself; otherwise the prompt is within its bound, with a known context prompt and completion fit it together, and the history is the longest that fits. |
| CaptionSpace.CropCovers | backend/internal/clip/caption_safe.go:42-47 | The scaled source covers the whole canvas. |
| CaptionSpace.IntersectCaptionSpace | backend/internal/clip/caption_safe.go:61-65 | A point is in the intersection if and only if it is in both boxes. |
| CaptionSpace.SharedSafe | backend/internal/clip/caption_safe.go:15-41 | The boxes kept cover exactly the source points that every touched scene keeps empty, and nothing when no scene is touched. |
| CaptionSpace.CutCaptionSafe | backend/internal/clip/caption_safe.go:11-59 | The boxes never cover an unsafe canvas point, and on validated segments they cover every safe one. |
| CaptionSpace.CaptionAvoid | backend/internal/clip/analysis.go:413-437 | The least region of the unit frame that contains every visible subject of the cut, or the empty one. |
| Observations.ValidateSegments | backend/internal/clip/analysis.go:294-364 | Accepts exactly the segments that keep every rule of a record and tile their span, or for a legacy record are in order inside it; otherwise it names the first segment out of place or the first rule that the first bad record breaks. |
| Observations.CheckRecord | backend/internal/clip/analysis.go:317-358 | Passes exactly a record that keeps all eight rules on status, focal point, boxes, texts and subjects; otherwise it names the first one broken. |
| Observations.EveryMillisecondOnce | backend/internal/clip/analysis.go:294-364 | Of segments that tile a span, exactly one holds each of its milliseconds. |
| Observations.ValidateAnalysisSources | backend/internal/clip/analysis.go:250-266 | Accepts exactly the sources within every limit, though the sum is cut short before it can overflow. |
| Observations.InGrid | backend/internal/clip/analysis.go:267-276 | A cell is in a source's grid exactly if the source starts a chunk at its index and the cell is that chunk. |
| Observations.GridTilesSource | backend/internal/clip/analysis.go:267-276 | The cells of a source follow one another and end with it. |
| Observations.ValidateChunkInput | backend/internal/clip/analysis.go:267-276 | Accepts exactly the cells of a valid source's grid. |
| Observations.MergeSource | backend/internal/clip/analysis.go:375-392 | Accepts exactly one source's whole grid from the cursor on, and its segments joined tile the source. |
| Observations.MergeAnalyses | backend/internal/clip/analysis.go:368-396 | Accepts exactly the ordered grid of all sources; the result is the same segments in the same order, tiling each source. |
| Observations.MergedCoversSource | backend/internal/clip/analysis.go:368-396 | Every millisecond of a merged source is in exactly one segment. |
| Observations.ExpectedAnalysisCopies | backend/internal/clip/analysis_preparation.go:158-176 | Exactly the cells that are not reused, in order, or the refusal of too many. |
| Observations.ExpectedCopiesAreBounded | backend/internal/clip/analysis_preparation.go:158-176 | They are at most (total + n(C - 1)) / C for n sources and chunk length C. |
| Timeline.TransformedIsNearest | backend/internal/clip/rate.go:30-35 | The length at a rate is within half a millisecond of the exact one, and at 1x it is the span. |
| Timeline.ReadingNeed | backend/internal/clip/composition_exposure.go:24-38 | The time the first two texts a cut has to be read by need, each at its shortest wording. |
| Timeline.FurthestEnd | backend/internal/clip/composition_exposure.go:43-72 | The end found is the specified one, inside one observed scene and off every later range and owner association. |
| Timeline.ExtendReadingWindows | backend/internal/clip/composition_exposure.go:12-81 | In order of the cuts, each gains exactly the reading time it lacks, from its own scene and no one else's footage, if and only if it lacks some and what is unused of the target and what there is around it suffice; the whole never passes the target. |
| Timeline.SameFurthest | backend/internal/clip/composition_exposure.go:60-64 | How far a cut may reach does not depend on how far the cuts before it were extended. |
| Timeline.ExtensionKeepsDisjoint | backend/internal/clip/composition_exposure.go:60-64 | Cuts of one source that shared no footage still share none. |
| Timeline.ExtendedCutReads | backend/internal/clip/composition_exposure.go:39-42 | At 1x an extended cut shows for exactly the time its texts need. |
| Timeline.ExtensionKeepsDuration | backend/internal/clip/composition_exposure.go:73-75 | At 1x the time spent is exactly what the output grows by. |
| Timeline.ResolveInterval | backend/internal/clip/composition/interval.go:5-47 | The result is the one span that the declaration names on its basis, inside the output and inside the cut, and there is none exactly where no such span exists: nothing is clamped. |
| Timeline.ValidateNarrationIntervals | backend/internal/clip/portable_plan.go:242-270 | Accepts exactly the narration whose windows are well shaped, inside the output and pairwise apart, though only neighbours in order of start are compared. |
| Timeline.NeighboursAreEnough | backend/internal/clip/portable_plan.go:258-268 | For sorted windows that are not empty, no two overlap if and only if no neighbours do. |
| Timeline.ValidateOwnerCaptionRegions | backend/internal/clip/caption_regions.go:23-37 | Accepts exactly the plans in which no owner-timed caption reaches into an opening or closing region. |
| Timeline.ResolvePortableIntervals | backend/internal/clip/composition_render.go:65-134 | The loops compute the specified plan, or refuse exactly where it does not exist. |
| Timeline.ResolvedOnceIsResolved | backend/internal/clip/composition_render.go:65-134 | Resolving a resolved plan changes nothing. |
| Timeline.ResolvedTimeline | backend/internal/clip/composition_render.go:78-97 | The duration is the sum of the lengths less the transitions; each cut begins where the one before it ends less its own transition, and ends inside the output. |
| Timeline.DurationIsTheSum | backend/internal/clip/composition_render.go:79-94 | The running duration is the sum of the lengths less the sum of the transitions. |
| Timeline.ExtendedPlanLasts | backend/internal/clip/composition_exposure.go:76-81 | An extension at 1x resolves to exactly the duration it was extended to. |
| CaptionWords.CaptionWords | backend/internal/clip/caption_refresh.go:12-36 | The loop computes the specified division; none for no pieces. |
| CaptionWords.SlicesAreTheText | backend/internal/clip/caption_refresh.go:12-36 | For every text and count the contiguous slices together are the whole text. |
| CaptionWords.BoundariesAreAtSpaces | backend/internal/clip/caption_refresh.go:17-33 | A boundary is at a space, closes an empty piece, or stands where no space follows. |
| CaptionWords.WordsKeepTheText | backend/internal/clip/caption_refresh.go:12-36 | The non-space runes of the pieces are those of the text, in order. |
| CaptionWords.NestingKeepsTheText | backend/internal/clip/caption_refresh.go:40-65 | So are those of the division again over each caption's phrases. |
| CaptionWords.RefreshSegment | backend/internal/clip/caption_refresh.go:40-65 | A caption gets its piece exactly if it is refreshable, and no other id is in the result. |
| CaptionWords.RefreshPhrasesEqual | backend/internal/clip/caption_refresh.go:89-100 | Accepts exactly unchanged times under the wording's own division. |
| CaptionWords.RefreshedWordingIsAccepted | backend/internal/clip/caption_refresh.go:67-100 | Wording a refresh returns, over unchanged times, is accepted and leaves no phrase empty. |
| CaptureNeighbors.LexicographicIsNumeric | backend/internal/clip/capture_neighbors.go:16-84 | For digit strings of one length, of any length, the lexicographic order used is the numeric one. |
| CaptureNeighbors.Nearest | backend/internal/clip/capture_neighbors.go:66-74 | The last of the latest photos not after the video and the first of the earliest not before it. |
| CaptureNeighbors.NeighboursOf | backend/internal/clip/capture_neighbors.go:26-81 | A source's candidates are the sections of those two among the photos in the order of the sections, by instants where it and some photo have them and otherwise in its camera sequence; so a tie before goes to the last section and a tie after to the first. |
| CaptureNeighbors.PlacesAreInOrder | backend/internal/clip/capture_neighbors.go:26-65 | The photos compared are in the order of their sections. |
| CaptureNeighbors.CaptureNeighbors | backend/internal/clip/capture_neighbors.go:16-84 | Every source has its candidates, sorted and distinct; of several under one id the last stands. |
| FontCoverage.Font.Draws | scripts/build-clip-ink-fonts.py:37-43 | The memoised recursion ends on acyclic component graphs and agrees with the plain one. |
| FontCoverage.DrawnIgnoresRanks | scripts/build-clip-ink-fonts.py:37-43 | The answer does not depend on the ranks that show the graph acyclic. |
| FontCoverage.Coverage | scripts/build-clip-ink-fonts.py:34-54 | The ranges are sorted, disjoint and not adjacent, and hold exactly the code points that are blank or drawn. |
| FontCoverage.CanonicalIsUnique | scripts/build-clip-ink-fonts.py:34-54 | Two such lists of the same code points are the same list. |

## Left out

Billing:

- Mail, logging and provider notifications; they write no row of the model.
- SQL: tables are maps and sequences. A request's id is its position, an event is what it says, without its time.
- `ReconcilePending`, `RefundUnappliedCaptures` and `ReconcilePendingRefunds` are loops over the flows that are modelled, each over a list of orders or requests it read; the order and limit of those lists are not modelled.
- Services.Service.RunDue: stated for a pass with no other writer (`alone`), and for the list of due rows it read; the flows under it are also proved with interference, except `Renew` and the loop, whose outcome another writer can change. A master account that is due is lapsed, as any account whose row may lapse.
- Protocol.Enabled is wider than the code in places: a row may be lapsed or renewed whatever its renewal flag says. The theorems about runs hold for the wider set; the run of `LateLapse` also respects the flag and the read-before-end rule of the code.
- Refunds.RefundReversesWhatItFunded: what one completion writes; that what it ends is the term the charge paid for is `Runs.RefundEndsTheTermItPaidFor`.
- That an account exists is not modelled: an account without a row of its own is one on free.
- Credit amounts and lots: a grant is the order it was made for. How usage reads them is not part of this model.
- The tier an upgrade is reversed to comes from the transition history; it is the parameter `prior`, any sold tier or none.
- Funding rows from before funding ends were recorded (a zero end) are not modelled.
- A renewal's order id is a hash of account and term end; it is the pair, so hash collisions are not modelled.
- `UpdatedAt` is a stamp that is new on every upsert; two upserts of one row at the same instant would share one in the code.
- Answers of the provider that name fields the flows do not read (status texts, receipts) are not modelled. That a provider forgets an idempotency key after some days is not modelled either.
- `errUnknownIntentKind` cannot occur: the table's CHECK and the type `Kind` rule it out.
- `QuoteChange` also refuses a master account in a read of its own before the transaction; only the transaction is modelled.
- Stores.Store.RecordRefundProviderAttempt: that no transaction serves two requests is the UNIQUE column of the table, modelled as a refusal.
- Stores.Store.AssignSupportTier: tiers and support coverage only; credits and transitions are left out.
- Integer widths: won, stamps and instants are unbounded; the source's products in proration stay within 64 bits for its own price table. `DailyWindow` is not modelled.

Elsewhere:

- CaptionSpace.CutCaptionSafe: exact reals where the code computes in floating point; the code drops a shared box that is not a valid region, which never happens on validated segments, so only there do the boxes cover every safe point.
- Observations.ValidateSegments: a text is its runes and whether its bytes are well-formed, and numbers are exact reals, so no coordinate is infinite or not a number; the details a violation carries besides its name and segment are left out.
- Timeline.ExtendReadingWindows: the result before the final `ResolvePortableIntervals`, which `ExtendedPlanLasts` and `ResolvedOnceIsResolved` then speak of; the exposure a text needs is a number of the text.
- Timeline.ResolvePortableIntervals: ids are numbers and the shape of a text is a flag; drawing, layout and snapshots of a plan are left out.
- Timeline.ResolveInterval: a refusal carries no reason.
- CaptionWords.RefreshSegment: captions come sorted by start, as the caller in the code sorts them; one segment at a time.
- CaptureNeighbors.CaptureNeighbors: an instant that is the zero time is none; names are sequences of characters.
- Authoring.FreezeInput: what a prompt measures is an abstract function of the history it carries, and the completion policy one of the document's size; what else a frozen input holds, and sessions and their storage, are left out.
- PngRows.PngRgb: from the decompressed bytes on; the container and zlib are left out, and a width of zero, which section 4.1.1 of RFC 2083 rules out.
- FontCoverage.Coverage: whether a code point is a space or a format character is a flag of the entry; the component graph is acyclic, which is what the recursion of the code relies on.
- Throttle.Throttle.Allow: one attempt at a time, as under the mutex.
- SQL stores, HTTP handlers, the provider's HTTP client, password and token handling, browser and media workers: plumbing, I/O and library calls.
