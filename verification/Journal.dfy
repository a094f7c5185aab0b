/** What happens to orders: the moves of a journal row, and what one account may have open. */
module Journal {
  import opened Calendar
  import opened Pricing
  import opened Ledger
  import opened Protocol

  type Orders = map<OrderId, Intent>

  /** The fields of an order no transaction ever rewrites. */
  ghost predicate SameOrder(i: Intent, j: Intent) {
    j == i.(status := j.status, paymentKey := j.paymentKey, appliedAt := j.appliedAt,
            coverage := j.coverage, fundingEnd := j.fundingEnd)
  }

  /** The one status change a settlement can make to the order it is about. */
  ghost predicate Settles(a: SettleAction, i: Intent, j: Intent) {
    match a
    case Applying(_, p, now, _) =>
      i.status.Pending? && (j.status.Applied? || j.status.Review?) && j.paymentKey == p.key && j.appliedAt == now
    case Reviewing(_, p, _) => i.status.Pending? && j.status.Review? && j.paymentKey == p.key
    case Failing(_, _, _) => i.status.Pending? && j.status.Failed?
    case Returning(_, _, _) => i.status.Review? && j.status.Failed? && j.paymentKey == i.paymentKey
  }

  ghost predicate NoneOpen(orders: Orders, u: User) {
    forall o | o in orders :: orders[o].user == u ==> !orders[o].status.Open()
  }

  /** The order ids: a renewal's names its account and the term end it extends. */
  ghost predicate OrderOk(i: Intent) {
    && i.krw > 0 && (i.kind.Pack? || Billable(i.tier))
    && (if i.kind.Renew? then i.order == Renewal(i.user, i.effectiveAt) else i.order.Issued?)
  }

  ghost predicate OrdersOk(orders: Orders) {
    forall o | o in orders :: orders[o].order == o && OrderOk(orders[o])
  }

  /** What an order says about the account when it is recorded. */
  ghost predicate FitsWhenAdded(d: Database, clock: Time, i: Intent) {
    && i.insertedAt == clock && (i.kind.Pack? || Billable(i.tier))
    && match i.kind
       case Subscribe =>
         i.order.Issued? && (i.user in d.subs ==> !d.subs[i.user].active) && i.krw == OfferPrice(i.tier, i.term)
       case Pack => i.order.Issued?
       case Renew =>
         && i.order == Renewal(i.user, i.effectiveAt) && OnTermOf(d, i) && i.effectiveAt <= clock
         && Unchanged(d, i) && i.tier == NextTier(d.subs[i.user]) && i.term == NextTerm(d.subs[i.user])
         && i.krw == OfferPrice(i.tier, i.term)
       case Upgrade =>
         && i.order.Issued? && Unchanged(d, i)
         && exists q | q in d.quotes :: QuotedAs(d.quotes[q], i)
  }

  ghost predicate QuotedAs(q: Quote, i: Intent) {
    && q.appliedNow && q.user == i.user && q.tier == i.tier && q.term == i.term && q.krw == i.krw
    && q.subStamp == i.subStamp && q.quotedAt == i.quotedAt
  }

  /** At most one order is added: a pending one, of an account with none open, that fits. */
  ghost predicate Grows(d: Database, clock: Time, after: Orders) {
    after == d.intents || exists o :: Adds(d, clock, after, o)
  }

  ghost predicate Adds(d: Database, clock: Time, after: Orders, o: OrderId) {
    && o !in d.intents && o in after && after == d.intents[o := after[o]]
    && after[o].order == o && after[o].status.Pending? && after[o].krw > 0
    && NoneOpen(d.intents, after[o].user) && FitsWhenAdded(d, clock, after[o])
  }

  /** At most one order moves, and only its status and settlement fields. */
  ghost predicate Moves(a: SettleAction, before: Orders, after: Orders) {
    || after == before
    || (a.o in before && a.o in after && after == before[a.o := after[a.o]]
        && SameOrder(before[a.o], after[a.o]) && Settles(a, before[a.o], after[a.o]))
  }

  lemma InsertGrows(d: Database, clock: Time, i: Intent)
    requires i.status.Pending? && !HasOpenOrder(d, i.user) && FitsWhenAdded(d, clock, i)
    ensures Grows(d, clock, Commit(d, InsertIntent(d, i)).intents)
  {
    hide FitsWhenAdded;
    if InsertIntent(d, i).Committed? {
      assert Adds(d, clock, Commit(d, InsertIntent(d, i)).intents, i.order);
    }
  }

  lemma SubscribeGrows(d: Database, u: User, tier: Plan, term: Term, id: nat, now: Time, clock: Time)
    ensures Grows(d, clock, Commit(d, SubscribeTx(d, u, tier, term, id, now, clock)).intents)
  {
    hide OfferPrice, InsertIntent, Grows;
    Unmoved(d, clock);
    if SubscribeTx(d, u, tier, term, id, now, clock).Committed? {
      var stamp := if u in d.subs then d.subs[u].updatedAt else 0;
      InsertGrows(d, clock, NewIntent(Issued(id), u, Subscribe, tier, term, 0, OfferPrice(tier, term), stamp, now, 0, clock));
    }
  }

  lemma PurchaseGrows(d: Database, u: User, pack: PackId, packs: Catalog, id: nat, now: Time, clock: Time)
    ensures Grows(d, clock, Commit(d, PurchasePackTx(d, u, pack, packs, id, now, clock)).intents)
  {
    hide InsertIntent, Grows;
    Unmoved(d, clock);
    if PurchasePackTx(d, u, pack, packs, id, now, clock).Committed? {
      InsertGrows(d, clock, NewIntent(Issued(id), u, Pack, Free, Monthly, pack, packs[pack], d.subs[u].updatedAt, now, 0, clock));
    }
  }

  lemma ChangeGrows(d: Database, u: User, tier: Plan, term: Term, q: QuoteId, id: nat, now: Time, clock: Time)
    ensures Grows(d, clock, Commit(d, ChangeQuotedTx(d, u, tier, term, q, id, now, clock)).intents)
  {
    hide InsertIntent, Grows, ClassifyConfirmed;
    Unmoved(d, clock);
    var tx := ChangeQuotedTx(d, u, tier, term, q, id, now, clock);
    if tx.Committed? && tx.db.intents != d.intents {
      var quote := d.quotes[q];
      assert QuotedAs(quote, NewIntent(Issued(id), u, Upgrade, tier, term, 0, quote.krw, d.subs[u].updatedAt,
                                       quote.quotedAt, quote.effectiveAt, clock));
      InsertGrows(d, clock, NewIntent(Issued(id), u, Upgrade, tier, term, 0, quote.krw, d.subs[u].updatedAt,
                               quote.quotedAt, quote.effectiveAt, clock));
    }
  }

  lemma RenewGrows(d: Database, s: Subscription, now: Time, clock: Time)
    requires s.active && s.termEnd <= clock
    ensures Grows(d, clock, Commit(d, RenewTx(d, s, now, clock)).intents)
  {
    hide InsertIntent, Grows, OfferPrice, FailRenewal;
    Unmoved(d, clock);
    var tx := RenewTx(d, s, now, clock);
    if tx.Committed? && tx.db.intents != d.intents {
      var current := d.subs[s.user];
      var tier, term := NextTier(current), NextTerm(current);
      InsertGrows(d, clock, NewIntent(Renewal(s.user, current.termEnd), s.user, Renew, tier, term, 0,
                                      OfferPrice(tier, term), current.updatedAt, now, current.termEnd, clock));
    }
  }

  /** No checkout touches an order that exists, and what it adds is one pending order of an account
      with none pending or in review. */
  lemma CheckoutGrows(w: World, a: CheckoutAction)
    requires CheckoutEnabled(w, a)
    ensures Grows(w.db, w.clock, Commit(w.db, CheckoutTx(w, a)).intents)
  {
    hide SubscribeTx, PurchasePackTx, QuoteChangeTx, ChangeQuotedTx, RenewTx;
    match a
    case Subscribing(u, tier, term, id, now) => SubscribeGrows(w.db, u, tier, term, id, now, w.clock);
    case Purchasing(u, pack, packs, id, now) => PurchaseGrows(w.db, u, pack, packs, id, now, w.clock);
    case Quoting(_, _, _, _, _, _) =>
    case Changing(u, tier, term, q, id, now) => ChangeGrows(w.db, u, tier, term, q, id, now, w.clock);
    case Renewing(row, _, now) => RenewGrows(w.db, row, now, w.clock);
  }

  lemma Unmoved(d: Database, clock: Time)
    ensures Grows(d, clock, d.intents)
  {}

  lemma ApplyMoves(d: Database, a: SettleAction)
    requires a.Applying?
    ensures Moves(a, d.intents, Commit(d, ApplyTx(d, a.o, a.p.key, a.now, a.packs)).intents)
  {
    hide Entitled, Unapplicable;
  }

  lemma FailMoves(d: Database, a: SettleAction)
    requires a.Failing?
    ensures Moves(a, d.intents, Commit(d, FailTx(d, a.o, a.now)).intents)
  {
    hide FailRenewal;
  }

  lemma ReturnMoves(d: Database, a: SettleAction)
    requires a.Returning?
    ensures Moves(a, d.intents, Commit(d, CompleteUnappliedTx(d, a.o, a.observed.key, a.captured.amount)).intents)
  {
    hide FailRenewal, LogsNoCharge;
    var e := Commit(d, CompleteUnappliedTx(d, a.o, a.observed.key, a.captured.amount));
    if a.o in d.intents && d.intents[a.o].status.Review? {
      assert e.intents == d.intents[a.o := d.intents[a.o].(status := Failed)];
    }
  }

  /** A settlement moves at most the order it is about: pending to applied, failed or review, or
      review to failed. */
  lemma SettlementMoves(w: World, a: SettleAction)
    ensures Moves(a, w.db.intents, Commit(w.db, SettleTx(w, a)).intents)
  {
    hide ApplyTx, FailTx, CompleteUnappliedTx;
    match a
    case Applying(_, _, _, _) => ApplyMoves(w.db, a);
    case Reviewing(_, _, _) =>
    case Failing(_, _, _) => FailMoves(w.db, a);
    case Returning(_, _, _) => ReturnMoves(w.db, a);
  }

  /** What applying a payment comes to: the order's entitlement and mark, its review mark alone, or
      nothing. */
  lemma ApplyOutcome(d: Database, o: OrderId, key: Key, now: Time, packs: Catalog)
    requires o in d.intents
    ensures var i, e := d.intents[o], Commit(d, ApplyTx(d, o, key, now, packs));
            && o in e.intents
            && (i.status.Pending? && e.intents[o].status.Applied? ==>
                  && !Unapplicable(d, i, now, packs) && (i.kind.Renew? || i.kind.Upgrade? ==> Unchanged(d, i))
                  && e == MarkApplied(Entitled(d, i, key, now), o, key, now) && RowsEntitled(d, i, now, e))
            && (!(i.status.Pending? && e.intents[o].status.Applied?) ==> e == d.(intents := e.intents))
  {
    hide Entitled, Unapplicable, UpgradeStillFits, NewSubscription, RenewedSubscription;
    if !Unapplicable(d, d.intents[o], now, packs) { ApplicableIsUnchanged(d, d.intents[o], now, packs); }
  }

  lemma ApplicableIsUnchanged(d: Database, i: Intent, now: Time, packs: Catalog)
    requires !Unapplicable(d, i, now, packs)
    ensures i.kind.Renew? || i.kind.Upgrade? ==> Unchanged(d, i)
  {
    hide UpgradeStillFits;
  }

  lemma GrowthKeepsOrders(d: Database, clock: Time, after: Orders)
    requires OrdersOk(d.intents) && Grows(d, clock, after)
    ensures OrdersOk(after)
  {}

  lemma SettlementKeepsOrders(a: SettleAction, before: Orders, after: Orders)
    requires OrdersOk(before) && Moves(a, before, after)
    ensures OrdersOk(after)
  {}

  /** A commit that marks an order for review changes nothing but that order's row. */
  lemma ReviewCommitsTheMarkAlone(w: World, a: SettleAction)
    requires a.o in w.db.intents && !w.db.intents[a.o].status.Review?
    ensures var e := Commit(w.db, SettleTx(w, a));
            e.intents[a.o].status.Review? ==> e == w.db.(intents := w.db.intents[a.o := e.intents[a.o]])
  {
    hide Entitled, Unapplicable, FailRenewal;
  }
}
