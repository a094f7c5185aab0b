/** Quote fidelity: what an upgrade was quoted at is what it is ordered, charged and checked at. */
module Quotes {
  import opened Calendar
  import opened Pricing
  import opened Ledger
  import opened Protocol
  import opened Journal
  import opened Rows

  /** The amount is the proration of the row version the quote was taken from. */
  ghost predicate PricedFrom(history: History, stamp: Stamp, u: User, tier: Plan, term: Term, krw: int, quotedAt: Time) {
    && stamp in history && history[stamp].user == u && history[stamp].active
    && history[stamp].term == term && Rank(history[stamp].tier) < Rank(tier)
    && UpgradeQuoteAt(history[stamp], tier, quotedAt).Some?
    && UpgradeQuoteAt(history[stamp], tier, quotedAt).value.chargeKRW == krw
  }

  /** A quote knows the version it was taken from and what kind of change it would be there. */
  ghost predicate QuoteOk(history: History, q: Quote) {
    && q.subStamp in history && history[q.subStamp].user == q.user
    && ClassifyConfirmed(history[q.subStamp], q.tier, q.term) == (if q.appliedNow then UpgradeNow else Scheduled)
    && (q.appliedNow ==> PricedFrom(history, q.subStamp, q.user, q.tier, q.term, q.krw, q.quotedAt))
  }

  /** A renewal is for what its row version had scheduled, at the fixed price of that. */
  ghost predicate RenewsFrom(history: History, i: Intent) {
    && i.subStamp in history && history[i.subStamp].user == i.user && history[i.subStamp].termEnd == i.effectiveAt
    && i.tier == NextTier(history[i.subStamp]) && i.term == NextTerm(history[i.subStamp])
    && Billable(i.tier) && i.krw == OfferPrice(i.tier, i.term)
  }

  ghost predicate OrderPriced(history: History, i: Intent) {
    match i.kind
    case Subscribe => Billable(i.tier) && i.krw == OfferPrice(i.tier, i.term)
    case Renew => RenewsFrom(history, i)
    case Upgrade => PricedFrom(history, i.subStamp, i.user, i.tier, i.term, i.krw, i.quotedAt)
    case Pack => true
  }

  ghost predicate QuotesOk(quotes: map<QuoteId, Quote>, orders: Orders, history: History) {
    && (forall q | q in quotes :: QuoteOk(history, quotes[q]))
    && (forall o | o in orders :: OrderPriced(history, orders[o]))
  }

  ghost predicate Extends(before: History, after: History) {
    forall k | k in before :: k in after && after[k] == before[k]
  }

  lemma StepExtendsHistory(d: Database, e: Database, heard: set<Message>, clock: Time)
    requires RowsFit(d, heard, clock) && RowStep(d, e)
    ensures Extends(d.history, e.history)
  {
    hide RowOk;
  }

  lemma HistoryKeepsQuotes(quotes: map<QuoteId, Quote>, orders: Orders, before: History, after: History)
    requires QuotesOk(quotes, orders, before) && Extends(before, after)
    ensures QuotesOk(quotes, orders, after)
  {
    hide UpgradeQuoteAt;
    forall q | q in quotes ensures QuoteOk(after, quotes[q]) { assert QuoteOk(before, quotes[q]); }
    forall o | o in orders ensures OrderPriced(after, orders[o]) { assert OrderPriced(before, orders[o]); }
  }

  /** The two classifications of a change, before the quote and at its confirmation, agree. */
  lemma ClassificationsAgree(s: Subscription, tier: Plan, term: Term)
    ensures ClassifyQuoted(s, tier, term) == ClassifyConfirmed(s, tier, term)
  {
    RankIsInjective(s.tier, tier);
  }

  lemma RankIsInjective(p: Plan, q: Plan)
    ensures Rank(p) == Rank(q) ==> p == q
  {}

  /** Proration does not read the benefit boundary, so a version prices like the row it was read as. */
  lemma VersionPricesAlike(history: History, s: Subscription, tier: Plan, at: Time)
    requires IsVersion(history, s)
    ensures UpgradeQuoteAt(history[s.updatedAt], tier, at) == UpgradeQuoteAt(s, tier, at)
  {}

  /** The quote a change is given knows the version it was taken from. */
  lemma QuoteTakenIsOk(history: History, s: Subscription, tier: Plan, term: Term, now: Time)
    requires IsVersion(history, s) && s.active && Billable(tier)
    ensures QuoteOf(s, tier, term, now).Quoted? ==> QuoteOk(history, QuoteOf(s, tier, term, now).quote)
  {
    hide UpgradeQuoteAt, OfferPrice;
    VersionPricesAlike(history, s, tier, now);
    ClassificationsAgree(s, tier, term);
  }

  lemma QuotingKeepsQuotes(d: Database, s: Subscription, tier: Plan, term: Term, q: QuoteId, now: Time)
    requires QuotesOk(d.quotes, d.intents, d.history) && IsVersion(d.history, s)
    ensures QuotesOk(Commit(d, QuoteChangeTx(d, s, tier, term, q, now)).quotes, d.intents, d.history)
  {
    hide OrderPriced, QuoteOk, QuoteOf, IsVersion;
    if Billable(tier) && s.active { QuoteTakenIsOk(d.history, s, tier, term, now); }
  }

  lemma AddedOrderIsPriced(d: Database, heard: set<Message>, clock: Time, after: Orders, o: OrderId)
    requires QuotesOk(d.quotes, d.intents, d.history) && Adds(d, clock, after, o) && RowsFit(d, heard, clock)
    ensures QuotesOk(d.quotes, after, d.history)
  {
    hide PricedFrom, ClassifyConfirmed, OfferPrice, RowOk, ReadOk;
    var i := after[o];
    if i.kind.Upgrade? {
      var q :| q in d.quotes && QuotedAs(d.quotes[q], i);
      assert QuoteOk(d.history, d.quotes[q]);
    }
    if i.kind.Renew? { assert IsVersion(d.history, d.subs[i.user]); }
  }

  lemma CheckoutKeepsQuotes(w: World, a: CheckoutAction)
    requires CheckoutEnabled(w, a) && RowsOkIn(w) && QuotesOk(w.db.quotes, w.db.intents, w.db.history)
    ensures var e := Commit(w.db, CheckoutTx(w, a)); QuotesOk(e.quotes, e.intents, e.history)
  {
    CheckoutGrows(w, a);
    CheckoutSteps(w, a);
    hide SubscribeTx, PurchasePackTx, QuoteChangeTx, ChangeQuotedTx, RenewTx, RowStep, RowOk, Adds, QuotesOk;
    var d, e := w.db, Commit(w.db, CheckoutTx(w, a));
    if a.Quoting? {
      assert ReadOk(d.subs, d.history, w.clock, RowRead(a.row, a.at));
      QuotingKeepsQuotes(d, a.row, a.tier, a.term, a.q, a.now);
    } else {
      StepExtendsHistory(d, e, w.heard, w.clock);
      if e.intents != d.intents {
        var o :| Adds(d, w.clock, e.intents, o);
        AddedOrderIsPriced(d, w.heard, w.clock, e.intents, o);
      }
      HistoryKeepsQuotes(d.quotes, e.intents, d.history, e.history);
    }
  }

  lemma SettlementKeepsQuotes(w: World, a: SettleAction)
    requires SettleEnabled(w, a) && RowsOkIn(w) && OrdersOk(w.db.intents) && QuotesOk(w.db.quotes, w.db.intents, w.db.history)
    ensures var e := Commit(w.db, SettleTx(w, a)); QuotesOk(e.quotes, e.intents, e.history)
  {
    SettlementMoves(w, a);
    var d, e := w.db, Commit(w.db, SettleTx(w, a));
    hide ApplyTx, FailTx, CompleteUnappliedTx, ReviewTx, RowStep, RowOk, PricedFrom, ClassifyConfirmed, NewSubscription;
    if a.Applying? && BuysFirst(d, e, a.o) {
      FirstRow(d, a.o, a.p.key, a.now, a.packs);
    } else {
      SettlementSteps(w, a);
      StepExtendsHistory(d, e, w.heard, w.clock);
    }
    HistoryKeepsQuotes(d.quotes, d.intents, d.history, e.history);
    forall o | o in e.intents ensures OrderPriced(e.history, e.intents[o]) { assert OrderPriced(e.history, d.intents[o]); }
  }

  /** Quote fidelity. While the row is the version an upgrade was ordered on, computing the amount
      again at the quoted instant gives the ordered amount: the order is refused at settlement
      exactly when the row changed, the term ended or the benefit month moved on, never for its
      amount. */
  lemma QuoteIsHonoured(w: World, o: OrderId, now: Time, packs: Catalog)
    requires RowsOkIn(w) && QuotesOk(w.db.quotes, w.db.intents, w.db.history)
    requires o in w.db.intents && w.db.intents[o].kind.Upgrade?
    ensures var i := w.db.intents[o];
            Unapplicable(w.db, i, now, packs) <==>
              || !Unchanged(w.db, i) || w.db.subs[i.user].termEnd <= now
              || WindowStart(w.db.subs[i.user].anchor, i.quotedAt) != WindowStart(w.db.subs[i.user].anchor, now)
    ensures var i := w.db.intents[o];
            Unchanged(w.db, i) ==> UpgradeQuoteAt(w.db.subs[i.user], i.tier, i.quotedAt).Some?
                                   && UpgradeQuoteAt(w.db.subs[i.user], i.tier, i.quotedAt).value.chargeKRW == i.krw
  {
    hide UpgradeQuoteAt, RowOk, ReadOk, WindowStart;
    var i := w.db.intents[o];
    assert OrderPriced(w.db.history, i);
    if Unchanged(w.db, i) {
      assert IsVersion(w.db.history, w.db.subs[i.user]);
      VersionPricesAlike(w.db.history, w.db.subs[i.user], i.tier, i.quotedAt);
    }
  }

  /** What a renewal comes to. While the row is the version it was ordered on, it is for the tier and
      term scheduled there at their fixed price; taking effect it starts where the old term ends, on
      the same anchor and coverage, and the schedule is used up. */
  lemma RenewalBuysWhatWasScheduled(w: World, o: OrderId, key: Key, now: Time, packs: Catalog)
    requires RowsOkIn(w) && QuotesOk(w.db.quotes, w.db.intents, w.db.history)
    requires o in w.db.intents && w.db.intents[o].kind.Renew? && w.db.intents[o].status.Pending?
    requires var e := Commit(w.db, ApplyTx(w.db, o, key, now, packs)); o in e.intents && e.intents[o].status.Applied?
    ensures var u, e := w.db.intents[o].user, Commit(w.db, ApplyTx(w.db, o, key, now, packs));
            && u in w.db.subs && u in e.subs
            && (var s, next := w.db.subs[u], e.subs[u];
                && next.tier == (if s.scheduledTier.Some? then s.scheduledTier.value else s.tier)
                && next.term == (if s.scheduledTerm.Some? then s.scheduledTerm.value else s.term)
                && next.scheduledTier.None? && next.scheduledTerm.None?
                && next.termStart == s.termEnd && next.anchor == s.anchor && next.coverage == s.coverage
                && next.active && next.autoRenew == s.autoRenew
                && Billable(next.tier) && w.db.intents[o].krw == OfferPrice(next.tier, next.term))
  {
    ApplyOutcome(w.db, o, key, now, packs);
    hide ApplyTx, Entitled, Unapplicable, MarkApplied, RowOk, ReadOk, OfferPrice, CoverageEnd, WindowEnd, PricedFrom;
    var i := w.db.intents[o];
    assert OrderPriced(w.db.history, i) && IsVersion(w.db.history, w.db.subs[i.user]);
  }

  /** An upgrade taking effect changes the tier and nothing of the term, and drops a schedule. */
  lemma UpgradeTakesEffect(w: World, o: OrderId, key: Key, now: Time, packs: Catalog)
    requires RowsOkIn(w) && o in w.db.intents && w.db.intents[o].status.Pending? && w.db.intents[o].kind.Upgrade?
    requires var e := Commit(w.db, ApplyTx(w.db, o, key, now, packs)); o in e.intents && e.intents[o].status.Applied?
    ensures var i, e := w.db.intents[o], Commit(w.db, ApplyTx(w.db, o, key, now, packs));
            && i.user in w.db.subs && i.user in e.subs
            && (var s, next := w.db.subs[i.user], e.subs[i.user];
                && next.tier == i.tier && next.active && next.scheduledTier.None? && next.scheduledTerm.None?
                && next.termStart == s.termStart && next.termEnd == s.termEnd && next.nextGrant == s.nextGrant
                && next.anchor == s.anchor && next.coverage == s.coverage && next.term == s.term && next.autoRenew == s.autoRenew)
  {
    ApplyOutcome(w.db, o, key, now, packs);
    hide ApplyTx, Entitled, Unapplicable, MarkApplied, RowOk, ReadOk, OnlyEntitles, CoverageEnd, WindowEnd;
    assert w.db.subs[w.db.intents[o].user].user == w.db.intents[o].user;
  }

  /** A first charge opens an anchored, renewing subscription under a coverage of its own. */
  lemma SubscriptionTakesEffect(d: Database, o: OrderId, key: Key, now: Time, packs: Catalog)
    requires o in d.intents && d.intents[o].status.Pending? && d.intents[o].kind.Subscribe?
    requires var e := Commit(d, ApplyTx(d, o, key, now, packs)); o in e.intents && e.intents[o].status.Applied?
    ensures var i, e := d.intents[o], Commit(d, ApplyTx(d, o, key, now, packs));
            && i.user in e.subs
            && (var next := e.subs[i.user];
                && next.tier == i.tier && next.term == i.term && next.active && next.autoRenew
                && next.scheduledTier.None? && next.scheduledTerm.None?
                && next.anchor == now && next.termStart == now && next.coverage == Paid(i.user, now))
  {
    ApplyOutcome(d, o, key, now, packs);
    hide ApplyTx, Entitled, Unapplicable, MarkApplied, CoverageEnd, WindowEnd, OnlyEntitles;
  }

  /** A confirmation that names a live quote meets the kind of change that was quoted, and an upgrade
      of it always costs something: two of the refusals are never reached. */
  lemma LiveQuoteConfirms(w: World, u: User, tier: Plan, term: Term, q: QuoteId, now: Time)
    requires RowsOkIn(w) && QuotesOk(w.db.quotes, w.db.intents, w.db.history) && QuoteHolds(w.db, u, tier, term, q, now)
    ensures ClassifyConfirmed(w.db.subs[u], tier, term) == if w.db.quotes[q].appliedNow then UpgradeNow else Scheduled
    ensures w.db.quotes[q].appliedNow && w.db.quotes[q].quotedAt < w.db.subs[u].termEnd ==> w.db.quotes[q].krw > 0
  {
    hide RowOk, ReadOk, WindowStart, WindowEnd;
    var s, quote := w.db.subs[u], w.db.quotes[q];
    assert QuoteOk(w.db.history, quote) && IsVersion(w.db.history, s);
    VersionPricesAlike(w.db.history, s, tier, quote.quotedAt);
    UpgradeCharges(s.tier, tier, s.term.Annual?, s.termStart, s.termEnd, WindowStart(s.anchor, quote.quotedAt),
                   WindowEnd(s.anchor, quote.quotedAt), quote.quotedAt);
  }
}
