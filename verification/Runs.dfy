/** Whole runs of the settlement protocol: every reachable state keeps every invariant. */
module Runs {
  import opened Basics
  import opened Calendar
  import opened Pricing
  import opened Ledger
  import opened Protocol
  import opened Journal
  import opened Money
  import opened Books
  import opened Rows
  import opened Renewals
  import opened Tiers
  import opened Quotes
  import opened Refunds
  import opened Funding

  ghost predicate JournalOk(w: World) {
    && MoneyOk(w.db.intents, w.provider, w.heard) && OrdersOk(w.db.intents) && OneOpen(w.db.intents) && BooksOk(w.db)
  }

  ghost predicate CoverageOk(w: World) {
    && RowsOkIn(w) && WaitingOk(w.db.intents, w.db.subs, w.heard) && RenewalsOk(w.db.intents, w.db.subs, w.clock)
    && TiersOk(w.db, w.operated) && SupportOk(w.db) && QuotesOk(w.db.quotes, w.db.intents, w.db.history)
  }

  ghost predicate FundsOk(w: World) {
    RenewalsGranted(w.db, w.operated) && FundingOk(w.db.intents, w.db.subs, w.clock)
  }

  ghost predicate Inv(w: World) { JournalOk(w) && CoverageOk(w) && FundsOk(w) && RefundsOkIn(w) }

  // ---- one step ----------------------------------------------------------------------------

  lemma LaterKeepsRenewals(orders: Orders, subs: Subs, clock: Time, later: Time)
    requires RenewalsOk(orders, subs, clock) && clock <= later
    ensures RenewalsOk(orders, subs, later)
  {
    hide RenewalOk, Before;
  }

  lemma SupportStaysOk(d: Database, e: Database)
    requires SupportOk(d) && e.support == d.support
    ensures SupportOk(e)
  {}

  lemma EnvKeepsInv(w: World, a: EnvAction)
    requires EnvEnabled(w, a) && Inv(w)
    ensures Inv(Do(w, Env(a)))
  {
    hide MoneyOk, OrdersOk, OneOpen, BooksOk, RowsOk, WaitingOk, RenewalsOk, TiersOk, SupportOk, QuotesOk, RefundsOk, RenewalsGranted, FundingOk;
    hide NextProvider, NextCancels, News;
    EnvKeepsMoney(w, a);
    EnvKeepsRows(w, a);
    EnvKeepsWaiting(w, a);
    EnvKeepsRefunds(w, a);
    LaterKeepsRenewals(w.db.intents, w.db.subs, w.clock, Do(w, Env(a)).clock);
    LaterKeepsFunding(w.db.intents, w.db.subs, w.clock, Do(w, Env(a)).clock);
  }

  lemma CheckoutKeepsJournal(w: World, a: CheckoutAction)
    requires CheckoutEnabled(w, a) && JournalOk(w)
    ensures JournalOk(Do(w, Checkout(a)))
  {
    hide SubscribeTx, PurchasePackTx, QuoteChangeTx, ChangeQuotedTx, RenewTx, Grows, CheckoutEnabled;
    hide MoneyOk, OrdersOk, OneOpen, BooksOk, ChargesOk, GrantsOk;
    CheckoutGrows(w, a);
    var e := Commit(w.db, CheckoutTx(w, a));
    GrowthKeepsMoney(w.db, w.clock, e.intents, w.provider, w.heard);
    GrowthKeepsOrders(w.db, w.clock, e.intents);
    GrowthKeepsOneOpen(w.db, w.clock, e.intents);
    GrowthAppliesNothing(w.db, w.clock, e.intents);
    QuietTxKeepsBooks(w.db, e);
  }

  lemma CheckoutKeepsCoverage(w: World, a: CheckoutAction)
    requires CheckoutEnabled(w, a) && CoverageOk(w)
    ensures CoverageOk(Do(w, Checkout(a)))
  {
    hide SubscribeTx, PurchasePackTx, QuoteChangeTx, ChangeQuotedTx, RenewTx, CheckoutEnabled;
    hide RowsOk, WaitingOk, RenewalsOk, TiersOk, QuotesOk, SupportOk, RowStep, TierStep;
    var e := Commit(w.db, CheckoutTx(w, a));
    CheckoutSteps(w, a);
    StepKeepsRows(w.db, e, w.heard, w.clock);
    CheckoutKeepsWaiting(w, a);
    CheckoutKeepsRenewals(w, a);
    CheckoutTiers(w, a);
    StepKeepsTiers(w.db, e, w.operated);
    SupportStaysOk(w.db, e);
    CheckoutKeepsQuotes(w, a);
  }

  lemma CheckoutKeepsRefunds(w: World, a: CheckoutAction)
    requires CheckoutEnabled(w, a) && RefundsOkIn(w)
    ensures RefundsOkIn(Do(w, Checkout(a)))
  {
    hide SubscribeTx, PurchasePackTx, QuoteChangeTx, ChangeQuotedTx, RenewTx, CheckoutEnabled, Grows, RefundsOk;
    var e := Commit(w.db, CheckoutTx(w, a));
    CheckoutGrows(w, a);
    GrowthAppliesNothing(w.db, w.clock, e.intents);
    OrdersKeepRefunds(w, e.intents);
  }

  lemma MovesLeaveApplied(a: SettleAction, before: Orders, after: Orders)
    requires Moves(a, before, after)
    ensures forall o | o in before && before[o].status.Applied? :: o in after && after[o] == before[o]
  {}

  lemma SettlementKeepsJournal(w: World, a: SettleAction)
    requires SettleEnabled(w, a) && JournalOk(w)
    ensures JournalOk(Do(w, Settle(a)))
  {
    hide ApplyTx, FailTx, CompleteUnappliedTx, ReviewTx, Moves, SettleEnabled, MoneyOk, OneOpen, BooksOk, OrderOk;
    var e := Commit(w.db, SettleTx(w, a));
    SettlementMoves(w, a);
    SettlementKeepsMoney(w, a, e.intents);
    SettlementKeepsOrders(a, w.db.intents, e.intents);
    SettlementKeepsOneOpen(a, w.db.intents, e.intents);
    SettlementKeepsBooks(w, a);
  }

  lemma SettlementKeepsCoverage(w: World, a: SettleAction)
    requires SettleEnabled(w, a) && JournalOk(w) && CoverageOk(w)
    ensures CoverageOk(Do(w, Settle(a)))
  {
    hide ApplyTx, FailTx, CompleteUnappliedTx, ReviewTx, SettleEnabled;
    hide MoneyOk, OneOpen, OrdersOk, BooksOk, RowsOk, WaitingOk, RenewalsOk, TiersOk, QuotesOk, SupportOk, RowStep, TierStep;
    var e := Commit(w.db, SettleTx(w, a));
    SettlementKeepsRows(w, a);
    SettlementKeepsWaiting(w, a);
    SettlementKeepsRenewals(w, a);
    SettlementTiers(w, a);
    StepKeepsTiers(w.db, e, w.operated);
    SettlementSupport(w, a);
    SettlementKeepsQuotes(w, a);
  }

  lemma SettlementSupport(w: World, a: SettleAction)
    requires SupportOk(w.db)
    ensures SupportOk(Commit(w.db, SettleTx(w, a)))
  {
    hide ApplyTx, FailTx, CompleteUnappliedTx, ReviewTx;
  }

  lemma SettlementKeepsRefunds(w: World, a: SettleAction)
    requires RefundsOkIn(w) && SettleEnabled(w, a)
    ensures RefundsOkIn(Do(w, Settle(a)))
  {
    hide ApplyTx, FailTx, CompleteUnappliedTx, ReviewTx, SettleEnabled, Moves, RefundsOk;
    var e := Commit(w.db, SettleTx(w, a));
    SettlementMoves(w, a);
    MovesLeaveApplied(a, w.db.intents, e.intents);
    OrdersKeepRefunds(w, e.intents);
  }

  lemma AccountKeepsQuotes(w: World, a: AccountAction)
    requires AccountEnabled(w, a) && RowsOkIn(w) && QuotesOk(w.db.quotes, w.db.intents, w.db.history)
    ensures var e := Commit(w.db, AccountTx(w, a)); QuotesOk(e.quotes, w.db.intents, e.history)
  {
    hide LapseTx, CancelTx, ResumeTx, CancelScheduledTx, RemoveMethodTx, AssignSupportTx;
    hide RowsOk, RowStep, QuoteOk, OrderPriced, AccountEnabled;
    var e := Commit(w.db, AccountTx(w, a));
    if !a.Advancing? {
      AccountSteps(w, a);
      StepExtendsHistory(w.db, e, w.heard, w.clock);
      HistoryKeepsQuotes(w.db.quotes, w.db.intents, w.db.history, e.history);
    }
  }

  lemma AdvancingKeepsWaiting(d: Database, s: Subscription, heard: set<Message>)
    requires WaitingOk(d.intents, d.subs, heard)
    ensures WaitingOk(d.intents, Commit(d, AdvanceGrantTx(d, s)).subs, heard)
  {
    hide WindowEnd;
    forall o | o in d.intents ensures WaitsFor(d.intents[o], Commit(d, AdvanceGrantTx(d, s)).subs, heard) {
      assert WaitsFor(d.intents[o], d.subs, heard);
    }
  }

  lemma AccountKeepsTiers(w: World, a: AccountAction)
    requires AccountEnabled(w, a) && CoverageOk(w)
    ensures TiersOk(Do(w, Account(a)).db, Do(w, Account(a)).operated) && SupportOk(Do(w, Account(a)).db)
  {
    hide LapseTx, CancelTx, ResumeTx, CancelScheduledTx, RemoveMethodTx, AssignSupportTx, AccountEnabled;
    hide RowsOk, WaitingOk, RenewalsOk, TiersOk, QuotesOk, SupportOk, RowStep, TierStep;
    var e := Commit(w.db, AccountTx(w, a));
    if a.Supporting? {
      SupportKeepsTiers(w.db, w.operated, a.u, a.target, a.now);
    } else {
      AccountTiers(w, a);
      StepKeepsTiers(w.db, e, w.operated);
      SupportStaysOk(w.db, e);
    }
  }

  lemma AccountKeepsCoverage(w: World, a: AccountAction)
    requires AccountEnabled(w, a) && CoverageOk(w)
    ensures CoverageOk(Do(w, Account(a)))
  {
    hide LapseTx, CancelTx, ResumeTx, CancelScheduledTx, RemoveMethodTx, AssignSupportTx, AccountEnabled;
    hide RowsOk, WaitingOk, RenewalsOk, TiersOk, QuotesOk, SupportOk, RowStep;
    var e := Commit(w.db, AccountTx(w, a));
    AccountKeepsRows(w, a);
    AccountKeepsQuotes(w, a);
    AccountKeepsTiers(w, a);
    if a.Advancing? {
      AdvancingKeepsRenewals(w.db, a.row, w.clock);
      AdvancingKeepsWaiting(w.db, a.row, w.heard);
    } else {
      AccountSteps(w, a);
      StepKeepsRenewals(w.db, e, w.clock);
      StepKeepsWaiting(w.db, e, w.heard);
    }
  }

  lemma AccountKeepsJournal(w: World, a: AccountAction)
    requires AccountEnabled(w, a) && JournalOk(w)
    ensures JournalOk(Do(w, Account(a)))
    ensures RefundsOkIn(w) ==> RefundsOkIn(Do(w, Account(a)))
  {
    hide LapseTx, CancelTx, ResumeTx, CancelScheduledTx, RemoveMethodTx, AssignSupportTx, AdvanceGrantTx, AccountEnabled;
    hide MoneyOk, OrdersOk, OneOpen, BooksOk, RefundsOk;
    QuietTxKeepsBooks(w.db, Commit(w.db, AccountTx(w, a)));
  }

  /** Refunds read nothing new from the provider and no row. */
  lemma AttemptsAreNoNews(w: World, heard: set<Message>)
    requires MoneyOk(w.db.intents, w.provider, w.heard) && RowsOkIn(w) && WaitingOk(w.db.intents, w.db.subs, w.heard)
    requires w.heard <= heard && forall m | m in heard :: m in w.heard || m.AttemptRecorded?
    ensures MoneyOk(w.db.intents, w.provider, heard) && WaitingOk(w.db.intents, w.db.subs, heard)
    ensures RowsFit(w.db, heard, w.clock)
  {
    hide Backed, Sound, RowOk, IsVersion, Descends;
    forall m | m in heard ensures StillTrue(w.provider, m) { assert m in w.heard || m.AttemptRecorded?; }
    forall o | o in w.db.intents ensures WaitsFor(w.db.intents[o], w.db.subs, heard) {
      assert WaitsFor(w.db.intents[o], w.db.subs, w.heard);
    }
  }

  lemma RefundingKeepsBooks(w: World, a: RefundAction)
    requires RefundEnabled(w, a) && BooksOk(w.db)
    ensures BooksOk(Do(w, Refunding(a)).db) && Do(w, Refunding(a)).db.intents == w.db.intents
  {
    hide RequestRefundTx, ReviewRefundTx, RecordAttemptTx, FailRefundTx, CompleteRefundTx, RefundEnabled, BooksOk;
    QuietTxKeepsBooks(w.db, Commit(w.db, RefundTx(w, a)));
  }

  lemma RefundingKeepsCoverage(w: World, a: RefundAction)
    requires RefundEnabled(w, a) && CoverageOk(w) && MoneyOk(w.db.intents, w.provider, w.heard)
    ensures CoverageOk(Do(w, Refunding(a)).(heard := w.heard))
  {
    hide RequestRefundTx, ReviewRefundTx, RecordAttemptTx, FailRefundTx, CompleteRefundTx, RefundEnabled;
    hide MoneyOk, RowsOk, WaitingOk, RenewalsOk, TiersOk, SupportOk, QuotesOk, RowStep, TierStep, Extends;
    var e := Commit(w.db, RefundTx(w, a));
    RefundSteps(w, a);
    RefundTiers(w, a);
    StepKeepsRows(w.db, e, w.heard, w.clock);
    StepKeepsRenewals(w.db, e, w.clock);
    StepKeepsWaiting(w.db, e, w.heard);
    StepKeepsTiers(w.db, e, w.operated);
    SupportStaysOk(w.db, e);
    StepExtendsHistory(w.db, e, w.heard, w.clock);
    HistoryKeepsQuotes(w.db.quotes, w.db.intents, w.db.history, e.history);
  }

  lemma RefundingKeepsInv(w: World, a: RefundAction)
    requires Enabled(w, Refunding(a)) && Inv(w)
    ensures Inv(Do(w, Refunding(a)))
  {
    hide RefundTx, RefundEnabled;
    hide MoneyOk, OrdersOk, OneOpen, BooksOk, RowsOk, WaitingOk, RenewalsOk, TiersOk, SupportOk, QuotesOk, RefundsOk, RenewalsGranted, FundingOk;
    RefundingKeepsRefunds(w, a);
    RefundingKeepsBooks(w, a);
    RefundingKeepsCoverage(w, a);
    RefundingKeepsFunds(w, a);
    AttemptsAreNoNews(Do(w, Refunding(a)).(heard := w.heard), Do(w, Refunding(a)).heard);
  }

  // ---- what was paid for what --------------------------------------------------------------

  lemma OnlyTheOperatorSupports(w: World)
    requires TiersOk(w.db, w.operated)
    ensures forall u | u in w.db.support :: u in w.operated
  {
    forall u | u in w.db.support ensures u in w.operated { assert u in w.operated || Agrees(w.db, u); }
  }

  lemma CheckoutKeepsFunds(w: World, a: CheckoutAction)
    requires CheckoutEnabled(w, a) && RowsOkIn(w) && FundsOk(w)
    ensures FundsOk(Do(w, Checkout(a)))
  {
    hide SubscribeTx, PurchasePackTx, QuoteChangeTx, ChangeQuotedTx, RenewTx, CheckoutEnabled, Grows, RowsOk, FundingOk, RenewalsGranted;
    var e := Commit(w.db, CheckoutTx(w, a));
    CheckoutGrows(w, a);
    GrowthAppliesNothing(w.db, w.clock, e.intents);
    CheckoutKeepsFunding(w, a);
    QuietTxKeepsGrants(w.db, e, w.operated, w.operated);
  }

  lemma SettlementKeepsFunds(w: World, a: SettleAction)
    requires SettleEnabled(w, a) && JournalOk(w) && CoverageOk(w) && FundsOk(w)
    ensures FundsOk(Do(w, Settle(a)))
  {
    hide SettleTx, SettleEnabled, MoneyOk, OneOpen, BooksOk, RowsOk, WaitingOk, RenewalsOk, TiersOk, QuotesOk, SupportOk, FundingOk, RenewalsGranted, OrderOk;
    OnlyTheOperatorSupports(w);
    SettlementKeepsFunding(w, a);
    SettlementKeepsGrants(w, a);
  }

  lemma AccountKeepsFunds(w: World, a: AccountAction)
    requires AccountEnabled(w, a) && RowsOkIn(w) && FundsOk(w)
    ensures FundsOk(Do(w, Account(a)))
  {
    hide LapseTx, CancelTx, ResumeTx, CancelScheduledTx, RemoveMethodTx, AssignSupportTx, AdvanceGrantTx, AccountEnabled, RowsOk, FundingOk, RenewalsGranted;
    var e := Commit(w.db, AccountTx(w, a));
    AccountKeepsOrders(w, a);
    QuietTxKeepsGrants(w.db, e, w.operated, Do(w, Account(a)).operated);
    if a.Advancing? {
      AdvancingKeepsFunding(w.db, a.row, w.clock);
    } else {
      AccountSteps(w, a);
      RowsAreWellDated(w);
      hide AccountTx, RowStep;
      StepKeepsFunding(w.db, e, w.clock);
    }
  }

  lemma RefundingKeepsFunds(w: World, a: RefundAction)
    requires RefundEnabled(w, a) && RowsOkIn(w) && FundsOk(w)
    ensures FundsOk(Do(w, Refunding(a)))
  {
    hide RequestRefundTx, ReviewRefundTx, RecordAttemptTx, FailRefundTx, CompleteRefundTx, RefundEnabled, RowsOk, FundingOk, RenewalsGranted;
    var e := Commit(w.db, RefundTx(w, a));
    RefundingKeepsOrders(w, a);
    QuietTxKeepsGrants(w.db, e, w.operated, w.operated);
    RefundSteps(w, a);
    RowsAreWellDated(w);
    hide RefundTx, RowStep;
    StepKeepsFunding(w.db, e, w.clock);
  }

  lemma StepKeepsInv(w: World, a: Action)
    requires Enabled(w, a) && Inv(w)
    ensures Inv(Do(w, a))
  {
    hide JournalOk, FundsOk, RefundsOkIn, RowsOk, WaitingOk, RenewalsOk, TiersOk, SupportOk, QuotesOk, Do, EnvEnabled, CheckoutEnabled, SettleEnabled, AccountEnabled, RefundEnabled;
    match a
    case Env(e) => EnvKeepsInv(w, e);
    case Checkout(c) => CheckoutKeepsJournal(w, c); CheckoutKeepsCoverage(w, c); CheckoutKeepsFunds(w, c); CheckoutKeepsRefunds(w, c);
    case Settle(s) => SettlementKeepsJournal(w, s); SettlementKeepsCoverage(w, s); SettlementKeepsFunds(w, s); SettlementKeepsRefunds(w, s);
    case Account(s) => AccountKeepsJournal(w, s); AccountKeepsCoverage(w, s); AccountKeepsFunds(w, s);
    case Refunding(f) => RefundingKeepsInv(w, f);
  }

  lemma StartIsOk()
    ensures Inv(START)
  {}

  /** Every state any run reaches. */
  lemma {:induction false} EveryRunKeepsInv(run: seq<Action>)
    requires IsRun(run)
    ensures Inv(After(run))
    decreases |run|
  {
    hide Inv, Do, Enabled;
    if run == [] {
      StartIsOk();
    } else {
      RunEndsWithAStep(run);
      EveryRunKeepsInv(run[..|run| - 1]);
      StepKeepsInv(After(run[..|run| - 1]), run[|run| - 1]);
    }
  }

  // ---- what holds on every run -------------------------------------------------------------

  /** Money safety, with any interleaving and any answers lost after taking effect. */
  lemma MoneyIsSafeOnEveryRun(run: seq<Action>, w: World, o: OrderId)
    requires Reaches(run, w)
    ensures o in w.provider && w.provider[o].Captured? && Balance(w.provider[o]) > 0
            ==> o in w.db.intents && (w.db.intents[o].status.Open() || w.db.intents[o].status.Applied?)
    ensures o in w.db.intents && w.db.intents[o].status.Failed?
            ==> o in w.provider && (w.provider[o].Declined? || (w.provider[o].Captured? && Balance(w.provider[o]) == 0))
    ensures o in w.db.intents && w.db.intents[o].status.Applied?
            ==> o in w.provider && w.provider[o].Captured? && w.provider[o].amount == w.db.intents[o].krw && w.provider[o].won
  {
    hide Backed, Sound, MoneyOk, CoverageOk, FundsOk, RefundsOk, After, Balance;
    EveryRunKeepsInv(run);
    MoneyIsSafe(w.db.intents, w.provider, w.heard, o);
  }

  /** Exactly-once settlement: one open order an account, one charge for an applied order and none
      for any other, and entitlements granted at most once and only for an applied order: exactly once
      unless it is a renewal of an account that an operator reassigned. */
  lemma SettlementIsExactlyOnce(run: seq<Action>, w: World, o: OrderId, p: OrderId)
    requires Reaches(run, w) && o in w.db.intents
    ensures var d := w.db;
            && (p in d.intents && d.intents[p].user == d.intents[o].user && d.intents[o].status.Open() && d.intents[p].status.Open() ==> o == p)
            && ChargesOf(d.events, o) == (if d.intents[o].status.Applied? then 1 else 0)
            && multiset(d.grants)[o] <= (if d.intents[o].status.Applied? then 1 else 0)
            && (d.intents[o].status.Applied? && (!d.intents[o].kind.Renew? || d.intents[o].user !in w.operated)
                ==> multiset(d.grants)[o] == 1)
            && (o in d.purchases <==> d.intents[o].status.Applied? && d.intents[o].kind.Pack?)
  {
    hide MoneyOk, OrdersOk, CoverageOk, FundingOk, RefundsOk, After, ChargesOf;
    EveryRunKeepsInv(run);
    assert IsApplied(w.db.intents, o) <==> w.db.intents[o].status.Applied?;
  }

  /** The moves of an order: out of pending once, out of review once, and no other. */
  ghost predicate MovesOn(i: Intent, j: Intent) {
    && SameOrder(i, j)
    && match i.status
       case Pending => true
       case Review => j.status.Review? || j.status.Failed?
       case _ => j == i
  }

  lemma GrowthMovesOn(d: Database, clock: Time, after: Orders, o: OrderId)
    requires Grows(d, clock, after) && o in d.intents
    ensures o in after && MovesOn(d.intents[o], after[o])
  {
    hide FitsWhenAdded, NoneOpen;
  }

  lemma SettlingMovesOn(a: SettleAction, before: Orders, after: Orders, o: OrderId)
    requires Moves(a, before, after) && o in before
    ensures o in after && MovesOn(before[o], after[o])
  {}

  lemma AccountKeepsOrders(w: World, a: AccountAction)
    ensures Commit(w.db, AccountTx(w, a)).intents == w.db.intents
  {
    hide LapseTx, CancelTx, ResumeTx, CancelScheduledTx, RemoveMethodTx, AssignSupportTx, AdvanceGrantTx;
  }

  lemma RefundingKeepsOrders(w: World, a: RefundAction)
    ensures Commit(w.db, RefundTx(w, a)).intents == w.db.intents
  {
    hide RequestRefundTx, ReviewRefundTx, RecordAttemptTx, FailRefundTx, CompleteRefundTx;
  }

  lemma StepMovesOrdersOn(w: World, a: Action, o: OrderId)
    requires Enabled(w, a) && o in w.db.intents
    ensures o in Do(w, a).db.intents && MovesOn(w.db.intents[o], Do(w, a).db.intents[o])
  {
    hide Grows, Moves, CheckoutTx, SettleTx, AccountTx, RefundTx;
    hide EnvEnabled, CheckoutEnabled, SettleEnabled, AccountEnabled, RefundEnabled, NextProvider, NextCancels, News;
    match a
    case Env(_) =>
    case Checkout(c) => CheckoutGrows(w, c); GrowthMovesOn(w.db, w.clock, Do(w, a).db.intents, o);
    case Settle(s) => SettlementMoves(w, s); SettlingMovesOn(s, w.db.intents, Do(w, a).db.intents, o);
    case Account(s) => AccountKeepsOrders(w, s);
    case Refunding(f) => RefundingKeepsOrders(w, f);
  }

  lemma {:induction false} PrefixIsRun(run: seq<Action>, n: nat)
    requires IsRun(run) && n <= |run|
    ensures IsRun(run[..n])
    decreases |run|
  {
    if n < |run| {
      RunEndsWithAStep(run);
      PrefixIsRun(run[..|run| - 1], n);
      assert run[..|run| - 1][..n] == run[..n];
    } else {
      assert run[..n] == run;
    }
  }

  /** Nothing that was read or recorded is ever taken back. */
  ghost predicate Later(v: World, w: World) {
    && v.heard <= w.heard && v.clock <= w.clock
    && (forall o | o in v.db.intents :: o in w.db.intents && MovesOn(v.db.intents[o], w.db.intents[o]))
    && RequestsMoveOn(v.db.refunds, w.db.refunds)
  }

  lemma CheckoutKeepsRequests(w: World, a: CheckoutAction)
    ensures Commit(w.db, CheckoutTx(w, a)).refunds == w.db.refunds
  {
    hide SubscribeTx, PurchasePackTx, QuoteChangeTx, ChangeQuotedTx, RenewTx;
  }

  lemma SettlementKeepsRequests(w: World, a: SettleAction)
    ensures Commit(w.db, SettleTx(w, a)).refunds == w.db.refunds
  {
    hide ApplyTx, FailTx, CompleteUnappliedTx, ReviewTx;
  }

  lemma AccountKeepsRequests(w: World, a: AccountAction)
    ensures Commit(w.db, AccountTx(w, a)).refunds == w.db.refunds
  {
    hide LapseTx, CancelTx, ResumeTx, CancelScheduledTx, RemoveMethodTx, AssignSupportTx, AdvanceGrantTx;
  }

  lemma StepMovesRequestsOn(w: World, a: Action)
    requires Enabled(w, a) && RefundsOkIn(w) && MoneyOk(w.db.intents, w.provider, w.heard)
    ensures RequestsMoveOn(w.db.refunds, Do(w, a).db.refunds)
  {
    hide CheckoutTx, SettleTx, AccountTx, RefundTx, RefundsOk, MoneyOk, RequestMovesOn, NextProvider, NextCancels, News;
    hide EnvEnabled, CheckoutEnabled, SettleEnabled, AccountEnabled, RefundEnabled;
    assert forall r | 0 <= r < |w.db.refunds| :: RequestMovesOn(w.db.refunds[r], w.db.refunds[r]) by {
      forall r | 0 <= r < |w.db.refunds| ensures RequestMovesOn(w.db.refunds[r], w.db.refunds[r]) {
        RequestStaysPut(w.db.refunds[r]);
      }
    }
    match a
    case Env(_) =>
    case Checkout(c) => CheckoutKeepsRequests(w, c);
    case Settle(s) => SettlementKeepsRequests(w, s);
    case Account(s) => AccountKeepsRequests(w, s);
    case Refunding(f) => RefundingMovesOn(w, f);
  }

  lemma StepIsLater(w: World, a: Action)
    requires Enabled(w, a) && Inv(w)
    ensures Later(w, Do(w, a))
  {
    hide MoneyOk, OrdersOk, OneOpen, BooksOk, CoverageOk, FundsOk, RefundsOk, MovesOn, RequestsMoveOn;
    StepMovesRequestsOn(w, a);
    forall o | o in w.db.intents ensures o in Do(w, a).db.intents && MovesOn(w.db.intents[o], Do(w, a).db.intents[o]) {
      StepMovesOrdersOn(w, a, o);
    }
    hide CheckoutTx, SettleTx, AccountTx, RefundTx, NextProvider, NextCancels, CheckoutEnabled, SettleEnabled, AccountEnabled, RefundEnabled;
  }

  lemma LaterIsReflexive(w: World)
    ensures Later(w, w)
  {}

  lemma LaterIsTransitive(u: World, v: World, w: World)
    requires Later(u, v) && Later(v, w)
    ensures Later(u, w)
  {}

  /** On every run, and from any point of it on: an order once applied or failed never changes again,
      one in review can only fail, and a request keeps its terms and its outcome. */
  lemma {:induction false} RunsOnlyMoveOn(run: seq<Action>, n: nat)
    requires IsRun(run) && n <= |run| && IsRun(run[..n])
    ensures Later(After(run[..n]), After(run))
    decreases |run|
  {
    hide Do, Enabled, Inv, MovesOn, RequestMovesOn;
    if n < |run| {
      var init := run[..|run| - 1];
      assert init[..n] == run[..n];
      RunEndsWithAStep(run);
      RunsOnlyMoveOn(init, n);
      EveryRunKeepsInv(init);
      StepIsLater(After(init), run[|run| - 1]);
      hide Later;
      LaterIsTransitive(After(run[..n]), After(init), After(run));
    } else {
      assert run[..n] == run;
      LaterIsReflexive(After(run));
    }
  }

  /** One renewal order per account and term end, settled ones strictly behind the active term, and
      a renewal about to be recorded never meets an order of its id. */
  lemma RenewalsNeverCollide(run: seq<Action>, w: World, o: OrderId, p: OrderId, s: Subscription)
    requires Reaches(run, w)
    ensures var d := w.db;
            && (o in d.intents && p in d.intents && d.intents[o].kind.Renew? && d.intents[p].kind.Renew? ==>
                  d.intents[o].user == d.intents[p].user && d.intents[o].effectiveAt == d.intents[p].effectiveAt ==> o == p)
            && (o in d.intents && d.intents[o].kind.Renew? && (d.intents[o].status.Applied? || d.intents[o].status.Failed?)
                && d.intents[o].user in d.subs && d.subs[d.intents[o].user].active
                ==> d.intents[o].effectiveAt < d.subs[d.intents[o].user].termEnd)
            && (s.user in d.subs && d.subs[s.user].active && !HasOpenOrder(d, s.user)
                ==> Renewal(s.user, d.subs[s.user].termEnd) !in d.intents)
  {
    hide MoneyOk, BooksOk, OneOpen, WaitingOk, TiersOk, SupportOk, QuotesOk, FundsOk, RefundsOk, After, RowsOk, RenewalsOk, OrdersOk, HasOpenOrder;
    EveryRunKeepsInv(run);
    if o in w.db.intents && p in w.db.intents && w.db.intents[o].kind.Renew? && w.db.intents[p].kind.Renew? {
      RenewalsAreOncePerTerm(w.db.intents, w.db.subs, w.clock, o, p);
    }
    if o in w.db.intents && w.db.intents[o].kind.Renew? {
      RenewalsAreOncePerTerm(w.db.intents, w.db.subs, w.clock, o, o);
    }
    if s.user in w.db.subs && w.db.subs[s.user].active && !HasOpenOrder(w.db, s.user) { RenewalIdIsFree(w, s); }
  }

  /** Every active row keeps its dates in order and on the anchored grid. */
  lemma ActiveRowsStayOnTheGrid(run: seq<Action>, w: World, u: User)
    requires Reaches(run, w) && u in w.db.subs && w.db.subs[u].active
    ensures var s := w.db.subs[u];
            && s.anchor <= s.termStart < s.nextGrant <= s.termEnd
            && OnGrid(s.anchor, s.termStart) && OnGrid(s.anchor, s.nextGrant) && OnGrid(s.anchor, s.termEnd)
            && Billable(s.tier)
  {
    hide JournalOk, WaitingOk, RenewalsOk, TiersOk, QuotesOk, FundsOk, RefundsOk, After, OnGrid, IsVersion, ReadOk;
    EveryRunKeepsInv(run);
    assert RowOk(w.db.subs[u]);
  }

  /** An account no operator reassigned, and not a master, is on the tier its active subscription
      pays for, or free. */
  lemma TierIsPaidForOnEveryRun(run: seq<Action>, w: World, u: User)
    requires Reaches(run, w) && u !in w.operated && !TierOf(w.db, u).Master?
    ensures var d := w.db; TierOf(d, u) == if u in d.subs && d.subs[u].active then d.subs[u].tier else Free
  {
    hide JournalOk, RowsOk, WaitingOk, RenewalsOk, TiersOk, QuotesOk, FundsOk, RefundsOk, After, TierOf;
    EveryRunKeepsInv(run);
    TierIsWhatIsPaidFor(w.db, w.operated, u);
  }

  /** Only the operator's step moves an account onto or off master. */
  lemma OnlyTheOperatorMovesMasters(run: seq<Action>, w: World, a: Action, u: User)
    requires Reaches(run, w) && Enabled(w, a) && !(a.Account? && a.account.Supporting? && a.account.u == u)
    ensures TierOf(Do(w, a).db, u).Master? <==> TierOf(w.db, u).Master?
  {
    hide IsRun, After, Inv, Do, Enabled, TierOf, TierStep;
    EveryRunKeepsInv(run);
    if a.Account? && a.account.Supporting? {
      SupportStepMovesOne(w, a.account, u);
    } else {
      StepIsATierStep(w, a);
      NoMasterMoves(w.db, Do(w, a).db, u);
    }
  }

  lemma StepIsATierStep(w: World, a: Action)
    requires Inv(w) && Enabled(w, a) && !(a.Account? && a.account.Supporting?)
    ensures TierStep(w.db, Do(w, a).db)
  {
    hide MoneyOk, OneOpen, BooksOk, RowsOk, WaitingOk, RenewalsOk, TiersOk, QuotesOk, FundsOk, RefundsOk, SupportOk, OrdersOk, TierStep;
    hide CheckoutTx, SettleTx, AccountTx, RefundTx, EnvEnabled, CheckoutEnabled, SettleEnabled, AccountEnabled, RefundEnabled;
    match a
    case Env(_) => KeptTiersAreAStep(w.db, Do(w, a).db);
    case Checkout(c) => CheckoutTiers(w, c);
    case Settle(s) => SettlementTiers(w, s);
    case Account(s) => AccountTiers(w, s);
    case Refunding(f) => RefundTiers(w, f);
  }

  lemma SupportStepMovesOne(w: World, a: AccountAction, u: User)
    requires a.Supporting? && Enabled(w, Account(a)) && a.u != u
    ensures TierOf(Do(w, Account(a)).db, u) == TierOf(w.db, u)
  {
    hide AssignSupportTx, TierOf;
    SupportMovesOne(w.db, a.u, a.target, a.now, u);
  }

  lemma NoMasterMoves(d: Database, e: Database, u: User)
    requires TierStep(d, e)
    ensures TierOf(e, u).Master? <==> TierOf(d, u).Master?
  {
    hide Agrees, TierOf;
  }

  /** Once there is a master there is always one: the operator's step refuses to demote the last, and no
      other step demotes any. */
  lemma SomeMasterRemains(run: seq<Action>, w: World, a: Action, u: User)
    requires Reaches(run, w) && Enabled(w, a) && u in w.db.tiers && w.db.tiers[u].Master?
    ensures exists v :: v in Do(w, a).db.tiers && Do(w, a).db.tiers[v].Master?
  {
    hide Do, Enabled, IsRun, After, Reaches;
    if a.Account? && a.account.Supporting? && a.account.u == u {
      SupportLeavesAMaster(w, a.account);
    } else {
      OnlyTheOperatorMovesMasters(run, w, a, u);
    }
  }

  lemma SupportLeavesAMaster(w: World, a: AccountAction)
    requires a.Supporting? && Enabled(w, Account(a)) && a.u in w.db.tiers && w.db.tiers[a.u].Master?
    ensures exists v :: v in Do(w, Account(a)).db.tiers && Do(w, Account(a)).db.tiers[v].Master?
  {
    var e := Do(w, Account(a)).db;
    if !OnlyMaster(w.db.tiers, a.u) {
      var v :| v in w.db.tiers && w.db.tiers[v].Master? && v != a.u;
      assert v in e.tiers && e.tiers[v].Master?;
    } else {
      assert a.u in e.tiers && e.tiers[a.u].Master?;
    }
  }

  lemma SupportMovesOne(d: Database, u: User, target: Plan, now: Time, v: User)
    requires v != u
    ensures TierOf(Commit(d, AssignSupportTx(d, u, target, now)), v) == TierOf(d, v)
  {}

  /** Quote fidelity: on the version it was ordered on, an upgrade's recomputed amount is its own,
      so settlement never refuses it for the amount. */
  lemma QuotesAreHonouredOnEveryRun(run: seq<Action>, w: World, o: OrderId, now: Time, packs: Catalog)
    requires Reaches(run, w) && o in w.db.intents && w.db.intents[o].kind.Upgrade?
    ensures var d := w.db; var i := d.intents[o];
            && (Unapplicable(d, i, now, packs) <==>
                  || !Unchanged(d, i) || d.subs[i.user].termEnd <= now
                  || WindowStart(d.subs[i.user].anchor, i.quotedAt) != WindowStart(d.subs[i.user].anchor, now))
            && (Unchanged(d, i) ==> UpgradeQuoteAt(d.subs[i.user], i.tier, i.quotedAt).Some?
                                    && UpgradeQuoteAt(d.subs[i.user], i.tier, i.quotedAt).value.chargeKRW == i.krw)
  {
    hide JournalOk, WaitingOk, RenewalsOk, TiersOk, FundsOk, RefundsOk, After, RowsOk, QuotesOk, Unapplicable, UpgradeQuoteAt, WindowStart;
    EveryRunKeepsInv(run);
    QuoteIsHonoured(w, o, now, packs);
  }

  /** One amount all the way: what an upgrade was quoted from its version of the row is what was ordered,
      what the provider captured, and what its one charge in the ledger says, under the payment's key. */
  lemma UpgradesAreChargedAsQuoted(run: seq<Action>, w: World, o: OrderId)
    requires Reaches(run, w) && o in w.db.intents && w.db.intents[o].kind.Upgrade? && w.db.intents[o].status.Applied?
    ensures var d := w.db; var i := d.intents[o];
            && i.subStamp in d.history && d.history[i.subStamp].user == i.user
            && UpgradeQuoteAt(d.history[i.subStamp], i.tier, i.quotedAt).Some?
            && UpgradeQuoteAt(d.history[i.subStamp], i.tier, i.quotedAt).value.chargeKRW == i.krw
            && (forall q | q in d.quotes && d.quotes[q].appliedNow && d.quotes[q].tier == i.tier
                           && d.quotes[q].subStamp == i.subStamp && d.quotes[q].quotedAt == i.quotedAt :: d.quotes[q].krw == i.krw)
            && o in w.provider && w.provider[o].Captured? && w.provider[o].amount == i.krw && w.provider[o].key == i.paymentKey
            && ChargesOf(d.events, o) == 1 && Charge(i.user, o, i.krw, i.paymentKey) in d.events
  {
    hide OneOpen, OrdersOk, GrantsOk, RowsOk, WaitingOk, RenewalsOk, TiersOk, SupportOk, FundsOk, RefundsOk, IsRun, After;
    EveryRunKeepsInv(run);
    var d := w.db;
    hide UpgradeQuoteAt, ClassifyConfirmed;
    assert OrderPriced(d.history, d.intents[o]);
    forall q | q in d.quotes && d.quotes[q].appliedNow && d.quotes[q].tier == d.intents[o].tier
               && d.quotes[q].subStamp == d.intents[o].subStamp && d.quotes[q].quotedAt == d.intents[o].quotedAt
      ensures d.quotes[q].krw == d.intents[o].krw
    {
      assert QuoteOk(d.history, d.quotes[q]);
    }
    OrdersAreKeyed(w, o);
    AppliedIsCharged(d, o);
    assert Backed(w.provider, d.intents[o]);
  }

  lemma OrdersAreKeyed(w: World, o: OrderId)
    requires JournalOk(w) && o in w.db.intents
    ensures w.db.intents[o].order == o
  {
    hide MoneyOk, OneOpen, BooksOk, OrderOk;
  }

  /** Refund conservation. */
  lemma RefundsAreConservedOnEveryRun(run: seq<Action>, w: World, o: OrderId)
    requires Reaches(run, w)
    ensures o in w.db.intents && w.db.intents[o].status.Applied? ==>
              && o in w.provider && w.provider[o].Captured?
              && ConfirmedTotal(w.db.refunds, o) <= SumDone(w.provider[o].cancels) <= w.db.intents[o].krw
  {
    hide MoneyOk, OrdersOk, OneOpen, BooksOk, CoverageOk, FundsOk, RefundsOk, After;
    EveryRunKeepsInv(run);
    if o in w.db.intents && w.db.intents[o].status.Applied? { RefundsAreConserved(w, o); }
  }

  lemma RequestsAreSettledOnceOnEveryRun(run: seq<Action>, w: World, r: nat, t: nat)
    requires Reaches(run, w) && r < |w.db.refunds| && t < |w.db.refunds|
    ensures var request, other := w.db.refunds[r], w.db.refunds[t];
            && (request.status.Completed? ==>
                  && request.confirmed == request.amount > 0
                  && request.order in w.provider && w.provider[request.order].Captured?
                  && HasCancel(w.provider[request.order].cancels, request.transaction, request.amount)
                  && (other.transaction == request.transaction ==> t == r))
            && (request.status.RefundFailed? ==> ForRequest(r) in w.cancels && w.cancels[ForRequest(r)].RefusedForGood?)
            && (r in w.db.guards <==> Reviewed(request))
            && (r in w.db.guards ==> w.db.guards[r] == Guard(1, if request.status.Completed? then 1 else 0,
                                                            if request.status.RefundFailed? then 1 else 0))
            && (request.order == other.order && Waiting(request) && Waiting(other) ==> r == t)
  {
    hide MoneyOk, OrdersOk, OneOpen, BooksOk, CoverageOk, FundsOk, RefundsOk, After, HasCancel;
    EveryRunKeepsInv(run);
    RequestsAreSettledOnce(w, r, t);
  }

  /** The one write that does not look at the row again: a lapse takes the account back to the term
      its pass read, and so drops a later term exactly when there is one. */
  lemma StaleLapseDropsALaterTerm(run: seq<Action>, w: World, s: Subscription, at: Time)
    requires Reaches(run, w) && RowRead(s, at) in w.heard && s.active && s.termEnd <= at
    requires s.user in w.db.subs && w.db.subs[s.user].active
    ensures var d := w.db; var e := Commit(d, LapseTx(d, s));
            && e.subs[s.user].termEnd <= d.subs[s.user].termEnd && !e.subs[s.user].active
            && (e.subs[s.user].termEnd < d.subs[s.user].termEnd <==> d.subs[s.user].termEnd != s.termEnd)
  {
    hide JournalOk, WaitingOk, RenewalsOk, TiersOk, QuotesOk, FundsOk, RefundsOk, After, OnGrid, IsVersion;
    EveryRunKeepsInv(run);
    assert ReadOk(w.db.subs, w.db.history, w.clock, RowRead(s, at)) && RowOk(w.db.subs[s.user]);
  }

  /** What else such a lapse undoes: on the same term, exactly what was changed since of the tier, the
      renewal and the schedule, so a resume made in the meantime is lost if and only if the row that was
      read did not renew. */
  lemma StaleLapseUndoesChanges(run: seq<Action>, w: World, s: Subscription, at: Time)
    requires Reaches(run, w) && RowRead(s, at) in w.heard && s.active && s.termEnd <= at
    requires s.user in w.db.subs && w.db.subs[s.user].active
    ensures var row, ended := w.db.subs[s.user], Commit(w.db, LapseTx(w.db, s)).subs[s.user];
            && ended.autoRenew == s.autoRenew
            && (row.termEnd == s.termEnd ==>
                  ended == row.(active := false, updatedAt := w.db.nextStamp, tier := s.tier, term := s.term, termStart := s.termStart,
                                nextGrant := s.nextGrant, autoRenew := s.autoRenew, scheduledTier := s.scheduledTier,
                                scheduledTerm := s.scheduledTerm))
            && (ended == row.(active := false, updatedAt := w.db.nextStamp) <==>
                  && row.termEnd == s.termEnd && row.tier == s.tier && row.term == s.term && row.termStart == s.termStart
                  && row.nextGrant == s.nextGrant && row.autoRenew == s.autoRenew
                  && row.scheduledTier == s.scheduledTier && row.scheduledTerm == s.scheduledTerm)
  {
    hide JournalOk, WaitingOk, RenewalsOk, TiersOk, QuotesOk, FundsOk, RefundsOk, IsRun, After, OnGrid, IsVersion;
    EveryRunKeepsInv(run);
    assert ReadOk(w.db.subs, w.db.history, w.clock, RowRead(s, at)) && RowOk(w.db.subs[s.user]);
  }

  /** The other write of a row read before its transaction: a cancel goes through on the version it
      read alone, so it changes what it means to and takes back nothing but the advances of the benefit
      boundary made since, which are no change of version: the boundary goes back if and only if it has
      moved since the read. */
  lemma StaleCancelTakesBackOnlyAdvances(run: seq<Action>, w: World, s: Subscription, at: Time)
    requires Reaches(run, w) && RowRead(s, at) in w.heard && CancelTx(w.db, s).Committed?
    ensures s.user in w.db.subs
    ensures var row, e := w.db.subs[s.user], Commit(w.db, CancelTx(w.db, s));
            && e.subs[s.user] == row.(autoRenew := false, scheduledTier := None, scheduledTerm := None,
                                      updatedAt := w.db.nextStamp, nextGrant := s.nextGrant)
            && e.subs[s.user].nextGrant <= row.nextGrant
            && (e.subs[s.user].nextGrant < row.nextGrant <==> row.nextGrant != s.nextGrant)
            && (row.active ==> OnGrid(row.anchor, s.nextGrant) && row.termStart < s.nextGrant <= row.termEnd)
  {
    hide JournalOk, WaitingOk, RenewalsOk, TiersOk, QuotesOk, FundsOk, RefundsOk, IsRun, After, OnGrid, HasOpenOrder;
    EveryRunKeepsInv(run);
    assert ReadOk(w.db.subs, w.db.history, w.clock, RowRead(s, at)) && IsVersion(w.db.history, w.db.subs[s.user]);
  }

  /** A refund of a base charge that still funds the row funds the very term the row is on, if and only if
      that term had started at the instant the worker read. */
  lemma RefundedChargeFundsItsOwnTerm(run: seq<Action>, w: World, o: OrderId, at: Time)
    requires Reaches(run, w) && PaysForTerm(w.db.intents, o) && Funds(w.db, w.db.intents[o], at)
    ensures var i, row := w.db.intents[o], w.db.subs[w.db.intents[o].user];
            && (row.termStart <= at ==> FundingStart(i) == row.termStart)
            && (i.appliedAt <= at ==> (FundingStart(i) == row.termStart <==> row.termStart <= at))
  {
    hide MoneyOk, OneOpen, BooksOk, RowsOk, WaitingOk, RenewalOk, Before, TiersOk, SupportOk, QuotesOk, RenewalsGranted, FundingOk, RefundsOk;
    hide IsRun, After, Funds, OrdersOk;
    EveryRunKeepsInv(run);
    RowsAreWellDated(w);
    FundsItsOwnTerm(w.db, o, at, w.clock);
  }

  /** So what completing the refund of a base charge ends is the term that charge paid for, or nothing,
      unless the worker read its instant before a later term began: then that later term ends. */
  lemma RefundEndsTheTermItPaidFor(run: seq<Action>, w: World, a: RefundAction)
    requires Reaches(run, w) && a.Completing? && RefundEnabled(w, a) && RefundTx(w, a).Committed?
    requires w.db.refunds[a.r].status.Processing? && PaysForTerm(w.db.intents, w.db.refunds[a.r].order)
    ensures var d, e := w.db, RefundTx(w, a).db;
            var i := d.intents[d.refunds[a.r].order];
            var u := i.user;
            && (RowsKept(d, e) || (u in d.subs && d.subs[u].active && u in e.subs && !e.subs[u].active && e.subs[u].termEnd == a.now))
            && (!RowsKept(d, e) ==> (FundingStart(i) == d.subs[u].termStart <==> d.subs[u].termStart <= a.now))
  {
    hide MoneyOk, OneOpen, BooksOk, RowsOk, WaitingOk, RenewalsOk, TiersOk, SupportOk, QuotesOk, FundsOk, RefundsOk;
    hide IsRun, After, Inv, RowOk, OrdersOk, CompleteRefundTx, ShowsRefund, BeforeFundingEnd, Upsert, RowsKept;
    EveryRunKeepsInv(run);
    RowsOfRun(w);
    var o := w.db.refunds[a.r].order;
    RefundReversesWhatItFunded(w.db, a.r, a.transaction, a.prior, a.now);
    if Funds(w.db, w.db.intents[o], a.now) { RefundedChargeFundsItsOwnTerm(run, w, o, a.now); }
  }

  lemma RowsOfRun(w: World)
    requires Inv(w)
    ensures forall u | u in w.db.subs :: w.db.subs[u].user == u && RowOk(w.db.subs[u])
  {
    hide JournalOk, WaitingOk, RenewalsOk, TiersOk, SupportOk, QuotesOk, FundsOk, RefundsOkIn, RowsOk, RowOk;
    RowsAreWellDated(w);
  }
}
