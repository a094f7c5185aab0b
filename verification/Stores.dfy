/** The billing store's tables, the statements over them, and the writer transactions in the order
    they make those statements. An error returned after a write rolls the transaction back. */
module Stores {
  import opened Basics
  import opened Calendar
  import opened Pricing
  import opened Ledger
  import opened Protocol
  import opened Journal

  /** The transaction `tx` was carried out: its rows and no error, or its error and the old rows. */
  ghost predicate Carried(before: Database, after: Database, error: Option<Error>, tx: Tx) {
    match tx
    case Committed(e) => after == e && error.None?
    case Refused(why) => after == before && error == Some(why)
  }

  /** fixed_settlement.go: unapplicable. */
  predicate NoRetryHelps(e: Error) { e.StaleQuote? || e.InvalidPack? || e.InvalidProration? }

  class Store {
    var intents: map<OrderId, Intent>
    var subs: map<User, Subscription>
    var tiers: map<User, Plan>
    var support: map<User, Plan>
    var methods: set<User>
    var quotes: map<QuoteId, Quote>
    var purchases: map<OrderId, Purchase>
    var refunds: seq<Refund>
    var events: seq<Event>
    var grants: seq<OrderId>
    var guards: map<nat, Guard>
    var history: map<Stamp, Subscription>
    var nextStamp: Stamp

    function Db(): Database
      reads this
    {
      Database(intents, subs, tiers, support, methods, quotes, purchases, refunds, events, grants, guards, history, nextStamp)
    }

    constructor ()
      ensures Db() == EMPTY_DATABASE
    {
      intents, subs, tiers, support, methods, quotes := map[], map[], map[], map[], {}, map[];
      purchases, refunds, events, grants, guards, history, nextStamp := map[], [], [], [], map[], map[], 1;
    }

    /** What rolling a transaction back comes to. */
    method Restore(d: Database)
      modifies this
      ensures Db() == d
    {
      RestoreAccounts(d);
      intents, quotes, purchases, refunds, events := d.intents, d.quotes, d.purchases, d.refunds, d.events;
      grants, guards := d.grants, d.guards;
    }

    method RestoreAccounts(d: Database)
      modifies this`subs, this`tiers, this`support, this`methods, this`history, this`nextStamp
      ensures subs == d.subs && tiers == d.tiers && support == d.support && methods == d.methods
      ensures history == d.history && nextStamp == d.nextStamp
    {
      subs, tiers, support, methods := d.subs, d.tiers, d.support, d.methods;
      history, nextStamp := d.history, d.nextStamp;
    }

    // ---- statements ------------------------------------------------------------------------

    method UpsertSubscription(s: Subscription)
      modifies this
      ensures Db() == Upsert(old(Db()), s)
    {
      var row := s.(updatedAt := nextStamp);
      subs := subs[s.user := row];
      history := history[nextStamp := row];
      nextStamp := nextStamp + 1;
    }

    method InsertEvent(e: Event)
      modifies this
      ensures Db() == Log(old(Db()), e)
    {
      events := events + [e];
    }

    method OpenCredits(o: OrderId)
      modifies this
      ensures Db() == Granted(old(Db()), o)
    {
      grants := grants + [o];
    }

    /** auth/service.go: assignTier, without `moveMaster`. */
    method SetPaidTier(u: User, target: Plan)
      modifies this
      ensures Db() == AssignTier(old(Db()), u, target)
    {
      var current := if u in tiers then tiers[u] else Free;
      if current.Master? { return; }
      tiers := tiers[u := target];
    }

    /** assignTier with `moveMaster`, and the guard of the statement behind it: the last master stays. */
    method ReassignTier(u: User, target: Plan) returns (e: Option<Error>)
      modifies this
      ensures e == if !target.Master? && OnlyMaster(old(tiers), u) then Some(LastMaster) else None
      ensures e.Some? ==> Db() == old(Db())
      ensures e.None? ==> TierOf(Db(), u) == target && Db() == old(Db()).(tiers := tiers)
      ensures e.None? ==> tiers == if TierOf(old(Db()), u) == target then old(tiers) else old(tiers)[u := target]
    {
      var current := TierOf(Db(), u);
      if current == target { return None; }
      if OnlyMaster(tiers, u) { return Some(LastMaster); }
      tiers := tiers[u := target];
      return None;
    }

    method UpsertSupportCoverage(u: User, target: Plan)
      modifies this
      ensures Db() == old(Db()).(support := old(support)[u := target])
    {
      support := support[u := target];
    }

    method DeleteSupportCoverage(u: User)
      modifies this
      ensures Db() == old(Db()).(support := old(support) - {u})
    {
      support := support - {u};
    }

    /** Leaves pending once. */
    method MarkIntent(o: OrderId, status: Status, key: Key, at: Time) returns (marked: bool)
      modifies this
      ensures marked <==> o in old(intents) && old(intents[o].status.Pending?)
      ensures Db() == if marked then SetStatus(old(Db()), o, status, key, at) else old(Db())
    {
      marked := o in intents && intents[o].status.Pending?;
      if marked {
        intents := intents[o := intents[o].(status := status, paymentKey := key, appliedAt := at)];
      }
    }

    /** Leaves review once. */
    method FailReviewIntent(o: OrderId) returns (failed: bool)
      modifies this
      ensures failed <==> o in old(intents) && old(intents[o].status.Review?)
      ensures Db() == if failed then old(Db()).(intents := old(intents)[o := old(intents)[o].(status := Failed)]) else old(Db())
    {
      failed := o in intents && intents[o].status.Review?;
      if failed {
        intents := intents[o := intents[o].(status := Failed)];
      }
    }

    method InsertOrder(i: Intent) returns (e: Option<Error>)
      modifies this
      ensures Carried(old(Db()), Db(), e, InsertIntent(old(Db()), i))
    {
      if i.order in intents || i.krw <= 0 { return Some(Storage); }
      intents := intents[i.order := i];
      return None;
    }

    method SetIntentFunding(o: OrderId, coverage: Coverage, end: Time)
      requires o in intents
      modifies this
      ensures Db() == old(Db()).(intents := old(intents)[o := old(intents)[o].(coverage := coverage, fundingEnd := end)])
    {
      intents := intents[o := intents[o].(coverage := coverage, fundingEnd := end)];
    }

    /** Conditional on the boundary the caller read. */
    method AdvanceNextGrant(u: User, from: Time, to: Time) returns (advanced: bool)
      modifies this
      ensures advanced <==> u in old(subs) && old(subs[u].nextGrant) == from
      ensures Db() == if advanced then old(Db()).(subs := old(subs)[u := old(subs)[u].(nextGrant := to)]) else old(Db())
    {
      advanced := u in subs && subs[u].nextGrant == from;
      if advanced {
        subs := subs[u := subs[u].(nextGrant := to)];
      }
    }

    // ---- change.go: quotes -----------------------------------------------------------------

    /** QuoteChange, from the row its caller read. */
    method QuoteChange(s: Subscription, tier: Plan, term: Term, q: QuoteId, now: Time) returns (e: Option<Error>)
      modifies this
      ensures Carried(old(Db()), Db(), e, QuoteChangeTx(old(Db()), s, tier, term, q, now))
    {
      hide UpgradeQuoteAt, OfferPrice;
      if !Billable(tier) { return Some(TierNotSubscribable); }
      if !s.active || s.termEnd <= now { return Some(SubscriptionRequired); }
      if q in quotes { return Some(Storage); }
      var quote := Quote(s.user, tier, term, OfferPrice(tier, term), false, s.termEnd, s.updatedAt, now, now + QUOTE_LIFETIME);
      var change := ClassifyQuoted(s, tier, term);
      if change.NoneNeeded? { return Some(NoChange); }
      if change.UpgradeNow? {
        var amounts := UpgradeQuoteAt(s, tier, now);
        if amounts.None? { return Some(InvalidProration); }
        quote := quote.(krw := amounts.value.chargeKRW, appliedNow := true, effectiveAt := now);
      }
      quotes := quotes[q := quote];
      return None;
    }

    // ---- fixed_checkout.go -----------------------------------------------------------------

    method Subscribe(u: User, tier: Plan, term: Term, id: nat, now: Time, clock: Time) returns (e: Option<Error>)
      modifies this
      ensures Carried(old(Db()), Db(), e, SubscribeTx(old(Db()), u, tier, term, id, now, clock))
    {
      hide InsertIntent, HasOpenOrder;
      if !Billable(tier) { return Some(TierNotSubscribable); }
      var intent := NewIntent(Issued(id), u, Kind.Subscribe, tier, term, 0, OfferPrice(tier, term), 0, now, 0, clock);
      if TierOf(Db(), u).Master? { return Some(MasterAccount); }
      if HasOpenOrder(Db(), u) { return Some(PaymentPending); }
      if u in subs {
        if subs[u].active { return Some(SubscriptionExists); }
        intent := intent.(subStamp := subs[u].updatedAt);
      }
      if u !in methods { return Some(PaymentMethodRequired); }
      e := InsertOrder(intent);
    }

    method PurchasePack(u: User, pack: PackId, packs: Catalog, id: nat, now: Time, clock: Time) returns (e: Option<Error>)
      modifies this
      ensures Carried(old(Db()), Db(), e, PurchasePackTx(old(Db()), u, pack, packs, id, now, clock))
    {
      hide InsertIntent, HasOpenOrder;
      if pack !in packs { return Some(InvalidPack); }
      var intent := NewIntent(Issued(id), u, Pack, Free, Monthly, pack, packs[pack], 0, now, 0, clock);
      if TierOf(Db(), u).Master? { return Some(MasterAccount); }
      if HasOpenOrder(Db(), u) { return Some(PaymentPending); }
      if u !in subs || !subs[u].active || subs[u].termEnd <= now { return Some(SubscriptionRequired); }
      intent := intent.(subStamp := subs[u].updatedAt);
      if u !in methods { return Some(PaymentMethodRequired); }
      e := InsertOrder(intent);
    }

    method ChangeSubscriptionQuoted(u: User, tier: Plan, term: Term, q: QuoteId, id: nat, now: Time, clock: Time)
      returns (e: Option<Error>)
      modifies this
      ensures Carried(old(Db()), Db(), e, ChangeQuotedTx(old(Db()), u, tier, term, q, id, now, clock))
    {
      hide InsertIntent, HasOpenOrder, QuoteHolds, ClassifyConfirmed;
      if TierOf(Db(), u).Master? { return Some(MasterAccount); }
      var subscription, quote;
      subscription, quote, e := FixedQuoteInTx(u, tier, term, q, now);
      if e.Some? { return; }
      if HasOpenOrder(Db(), u) { return Some(PaymentPending); }
      if !Billable(tier) { return Some(TierNotSubscribable); }
      var change := ClassifyConfirmed(subscription.value, tier, term);
      if change.NoneNeeded? { return Some(NoChange); }
      if change.UpgradeNow? != quote.value.appliedNow { return Some(StaleQuote); }
      if change.Scheduled? {
        UpsertSubscription(subscription.value.(scheduledTier := Some(tier), scheduledTerm := Some(term), autoRenew := true));
        InsertEvent(ChangeScheduled(u, tier, term));
        return None;
      }
      if u !in methods { return Some(PaymentMethodRequired); }
      var intent := NewIntent(Issued(id), u, Upgrade, tier, term, 0, quote.value.krw, subscription.value.updatedAt,
                              quote.value.quotedAt, quote.value.effectiveAt, clock);
      if intent.krw <= 0 { return Some(StaleQuote); }
      e := InsertOrder(intent);
    }

    method FixedQuoteInTx(u: User, tier: Plan, term: Term, q: QuoteId, now: Time)
      returns (subscription: Option<Subscription>, quote: Option<Quote>, e: Option<Error>)
      ensures if QuoteHolds(Db(), u, tier, term, q, now)
              then e.None? && subscription == Some(subs[u]) && quote == Some(quotes[q])
              else e == Some(StaleQuote)
    {
      hide WindowStart;
      subscription, quote := None, None;
      if q !in quotes { return None, None, Some(StaleQuote); }
      var found := quotes[q];
      if found.user != u || found.tier != tier || found.term != term || now < found.quotedAt || found.expiresAt <= now {
        return None, None, Some(StaleQuote);
      }
      if u !in subs || !subs[u].active || subs[u].termEnd <= now || subs[u].updatedAt != found.subStamp {
        return None, None, Some(StaleQuote);
      }
      if found.appliedNow {
        if WindowStart(subs[u].anchor, found.quotedAt) != WindowStart(subs[u].anchor, now) {
          return None, None, Some(StaleQuote);
        }
      }
      return Some(subs[u]), Some(found), None;
    }

    /** renew's transaction; `order` is the order it recorded, if any. */
    method Renew(s: Subscription, now: Time, clock: Time) returns (e: Option<Error>, order: Option<OrderId>)
      requires forall u | u in subs :: subs[u].user == u
      modifies this
      ensures Carried(old(Db()), Db(), e, RenewTx(old(Db()), s, now, clock))
      ensures e.None? && order.None? ==> s.user in subs && !subs[s.user].active
      ensures e.None? && order.Some? ==> order.value !in old(intents) && order.value in intents
                                         && intents[order.value].user == s.user && intents[order.value].kind.Renew?
                                         && intents[order.value].status.Pending? && intents[order.value].insertedAt == clock
                                         && subs == old(subs) && OnTermOf(Db(), intents[order.value])
    {
      hide InsertIntent, HasOpenOrder, OfferPrice, FailRenewal;
      order := None;
      if HasOpenOrder(Db(), s.user) { return Some(PaymentPending), None; }
      if s.user !in subs { return Some(StaleQuote), None; }
      var current := subs[s.user];
      if !current.active || current.termEnd != s.termEnd || current.updatedAt != s.updatedAt { return Some(StaleQuote), None; }
      var tier := if current.scheduledTier.Some? then current.scheduledTier.value else current.tier;
      var term := if current.scheduledTerm.Some? then current.scheduledTerm.value else current.term;
      if !Billable(tier) { return Some(TierNotSubscribable), None; }
      if s.user !in methods {
        FailRenewalInTx(current, tier, term, OfferPrice(tier, term));
        return None, None;
      }
      e, order := InsertRenewal(current, tier, term, now, clock);
    }

    method InsertRenewal(current: Subscription, tier: Plan, term: Term, now: Time, clock: Time)
      returns (e: Option<Error>, order: Option<OrderId>)
      requires current.user in subs && subs[current.user] == current && Billable(tier)
      modifies this
      ensures var intent := NewIntent(Renewal(current.user, current.termEnd), current.user, Kind.Renew, tier, term, 0,
                                      OfferPrice(tier, term), current.updatedAt, now, current.termEnd, clock);
              && Carried(old(Db()), Db(), e, InsertIntent(old(Db()), intent)) && subs == old(subs)
              && (e.None? ==> order == Some(intent.order) && intent.order !in old(intents)
                              && intent.order in intents && intents[intent.order] == intent)
    {
      hide OfferPrice;
      var intent := NewIntent(Renewal(current.user, current.termEnd), current.user, Kind.Renew, tier, term, 0,
                              OfferPrice(tier, term), current.updatedAt, now, current.termEnd, clock);
      e := InsertOrder(intent);
      InsertAdds(old(Db()), intent);
      order := if e.None? then Some(intent.order) else None;
    }

    static lemma InsertAdds(d: Database, i: Intent)
      ensures InsertIntent(d, i).Committed? ==>
                i.order !in d.intents && InsertIntent(d, i).db == d.(intents := d.intents[i.order := i])
    {}

    /** fixed_settlement.go: failRenewalInTx. */
    method FailRenewalInTx(s: Subscription, tier: Plan, term: Term, krw: int)
      modifies this
      ensures Db() == FailRenewal(old(Db()), s, tier, term, krw)
      ensures s.user in subs && !subs[s.user].active
    {
      UpsertSubscription(s.(active := false));
      if s.user in support {
        SetPaidTier(s.user, support[s.user]);
      } else {
        SetPaidTier(s.user, Free);
      }
      InsertEvent(RenewalFailed(s.user, tier, term, krw));
    }

    // ---- fixed_settlement.go ---------------------------------------------------------------

    method ReviewFixedIntent(o: OrderId, key: Key, now: Time) returns (marked: bool)
      modifies this
      ensures Db() == Commit(old(Db()), ReviewTx(old(Db()), o, key, now))
    {
      marked := MarkIntent(o, Review, key, now);
    }

    /** An unapplicable payment goes to review in the same transaction and without a rollback: that
        commits the mark alone, because every such refusal comes before the apply path writes. */
    method ApplyFixedPayment(o: OrderId, key: Key, now: Time, packs: Catalog) returns (e: Option<Error>, reviewed: bool)
      requires o in intents ==> intents[o].order == o
      modifies this
      ensures Carried(old(Db()), Db(), e, ApplyTx(old(Db()), o, key, now, packs))
      ensures e.None? && !reviewed ==> o in intents && intents[o].status.Applied?
      ensures e.Some? ==> e.value.PaymentPending? || e.value.Storage?
      ensures reviewed <==> o in old(intents) && old(intents[o].status.Pending?) && Unapplicable(old(Db()), old(intents)[o], now, packs)
    {
      hide Entitled, Unapplicable, MarkApplied, SetStatus, OnlyEntitles, RowsEntitled, KeepsQuotes, KeepsRefunds;
      var before := Db();
      reviewed := false;
      if o !in intents { return Some(PaymentPending), false; }
      var current := intents[o];
      if current.status.Applied? { return None, false; }
      if !current.status.Pending? { return Some(PaymentPending), false; }
      e := ApplyFixedEntitlement(current, key, now, packs);
      if e.Some? {
        if NoRetryHelps(e.value) {
          var _ := MarkIntent(o, Review, key, now);
          return None, true;
        }
        Restore(before);
        return;
      }
      EntitledKeepsOrders(before, current, key, now);
      EntitledCoverage(before, current, key, now);
      if !current.kind.Pack? && (current.user !in subs || subs[current.user].coverage.NoCoverage?) {
        Restore(before);
        return Some(PaymentPending), false;
      }
      FundAndMark(o, key, now);
      return None, false;
    }

    method FundAndMark(o: OrderId, key: Key, now: Time)
      requires o in intents && intents[o].status.Pending? && (intents[o].kind.Pack? || intents[o].user in subs)
      modifies this
      ensures Db() == MarkApplied(old(Db()), o, key, now) && o in intents && intents[o].status.Applied?
    {
      FundThenMark(Db(), o, key, now);
      var current := intents[o];
      if !current.kind.Pack? {
        SetIntentFunding(o, subs[current.user].coverage, subs[current.user].termEnd);
      }
      // The order was pending when the transaction read it, so the mark is never refused.
      var marked := MarkIntent(o, Applied, key, now);
      assert marked;
    }

    static lemma EntitledKeepsOrders(d: Database, i: Intent, key: Key, now: Time)
      requires i.kind.Renew? || i.kind.Upgrade? ==> i.user in d.subs
      ensures Entitled(d, i, key, now).intents == d.intents
    {
      hide Entitled;
    }

    static lemma EntitledCoverage(d: Database, i: Intent, key: Key, now: Time)
      requires i.kind.Renew? || i.kind.Upgrade? ==> i.user in d.subs
      ensures var e := Entitled(d, i, key, now);
              !i.kind.Pack? ==>
                && i.user in e.subs
                && e.subs[i.user].coverage == if i.kind.Subscribe? then Paid(i.user, now) else d.subs[i.user].coverage
    {
      hide Entitled, CoverageEnd, WindowEnd;
    }

    static lemma FundThenMark(d: Database, o: OrderId, key: Key, now: Time)
      requires o in d.intents && (d.intents[o].kind.Pack? || d.intents[o].user in d.subs)
      ensures var i := d.intents[o];
              var funded := if i.kind.Pack? then d
                            else d.(intents := d.intents[o := i.(coverage := d.subs[i.user].coverage, fundingEnd := d.subs[i.user].termEnd)]);
              MarkApplied(d, o, key, now) == SetStatus(funded, o, Applied, key, now)
      ensures o in MarkApplied(d, o, key, now).intents && MarkApplied(d, o, key, now).intents[o].status.Applied?
    {
      var i := d.intents[o];
      if !i.kind.Pack? {
        var funded := i.(coverage := d.subs[i.user].coverage, fundingEnd := d.subs[i.user].termEnd);
        var marked := funded.(status := Applied, paymentKey := key, appliedAt := now);
        assert d.intents[o := funded][o := marked] == d.intents[o := marked];
      }
    }

    method ApplyFixedEntitlement(i: Intent, key: Key, now: Time, packs: Catalog) returns (e: Option<Error>)
      modifies this
      ensures Unapplicable(old(Db()), i, now, packs) <==> e.Some? && NoRetryHelps(e.value)
      ensures e.Some? && NoRetryHelps(e.value) ==> Db() == old(Db())
      ensures !Unapplicable(old(Db()), i, now, packs) ==>
                if i.kind.Pack? && i.order in old(purchases) then e == Some(Storage)
                else e.None? && Db() == Entitled(old(Db()), i, key, now)
    {
      hide ApplySubscription, ApplyRenewal, ApplyUpgrade, ApplyPack, UpgradeStillFits;
      if !i.kind.Pack? {
        if i.kind.Subscribe? {
          if i.user in subs && (subs[i.user].active || subs[i.user].updatedAt != i.subStamp) { return Some(StaleQuote); }
        } else if i.user !in subs || !subs[i.user].active || subs[i.user].updatedAt != i.subStamp {
          return Some(StaleQuote);
        }
      }
      match i.kind {
        case Subscribe =>
          ApplyFixedSubscription(i, key, now);
          return None;
        case Renew =>
          if subs[i.user].termEnd != i.effectiveAt { return Some(StaleQuote); }
          ApplyFixedRenewal(subs[i.user], i, key);
          return None;
        case Upgrade =>
          e := ApplyFixedUpgrade(subs[i.user], i, key, now);
        case Pack =>
          e := ApplyFixedPack(i, key, packs);
      }
    }

    method ApplyFixedSubscription(i: Intent, key: Key, now: Time)
      modifies this
      ensures Db() == ApplySubscription(old(Db()), i, key, now)
    {
      hide WindowEnd, CoverageEnd;
      var next := WindowEnd(now, now);
      UpsertSubscription(Subscription(i.user, Paid(i.user, now), i.tier, i.term, now, now,
                                      CoverageEnd(now, now, i.term.Annual?), next, true, None, None, true, 0));
      InsertEvent(ChargeOf(i, key));
      InsertEvent(TierChange(i.user, i.tier, i.term));
      SetPaidTier(i.user, i.tier);
      DeleteSupportCoverage(i.user);
      OpenCredits(i.order);
    }

    method ApplyFixedRenewal(s: Subscription, i: Intent, key: Key)
      modifies this
      ensures Db() == ApplyRenewal(old(Db()), s, i, key)
    {
      hide WindowEnd, CoverageEnd;
      var start := s.termEnd;
      var updated := s.(tier := i.tier, term := i.term, termStart := start);
      updated := updated.(termEnd := CoverageEnd(s.anchor, start, i.term.Annual?));
      updated := updated.(nextGrant := WindowEnd(s.anchor, start));
      updated := updated.(scheduledTier := None, scheduledTerm := None);
      UpsertSubscription(updated);
      InsertEvent(ChargeOf(i, key));
      var supported := i.user in support;
      if i.tier != s.tier {
        InsertEvent(TierChange(i.user, i.tier, i.term));
        if !supported {
          SetPaidTier(i.user, i.tier);
        }
      }
      if supported { return; }
      OpenCredits(i.order);
    }

    method ApplyFixedUpgrade(s: Subscription, i: Intent, key: Key, now: Time) returns (e: Option<Error>)
      modifies this
      ensures !UpgradeStillFits(s, i, now) <==> e.Some?
      ensures e.Some? ==> NoRetryHelps(e.value) && Db() == old(Db())
      ensures e.None? ==> Db() == ApplyUpgrade(old(Db()), s, i, key)
    {
      hide WindowStart, UpgradeQuoteAt;
      if s.termEnd <= now || Rank(s.tier) >= Rank(i.tier) || s.term != i.term { return Some(StaleQuote); }
      if WindowStart(s.anchor, i.quotedAt) != WindowStart(s.anchor, now) { return Some(StaleQuote); }
      var amounts := UpgradeQuoteAt(s, i.tier, i.quotedAt);
      if amounts.None? { return Some(InvalidProration); }
      if amounts.value.chargeKRW != i.krw { return Some(StaleQuote); }
      UpsertSubscription(s.(tier := i.tier, scheduledTier := None, scheduledTerm := None));
      InsertEvent(ChargeOf(i, key));
      InsertEvent(TierChange(i.user, i.tier, i.term));
      SetPaidTier(i.user, i.tier);
      OpenCredits(i.order);
      return None;
    }

    /** The purchase row's key is the order: a second one fails after the credit lot was opened. */
    method ApplyFixedPack(i: Intent, key: Key, packs: Catalog) returns (e: Option<Error>)
      modifies this
      ensures i.pack !in packs || packs[i.pack] != i.krw ==> e == Some(InvalidPack) && Db() == old(Db())
      ensures i.pack in packs && packs[i.pack] == i.krw ==>
                if i.order in old(purchases) then e == Some(Storage) else e.None? && Db() == ApplyPack(old(Db()), i, key)
    {
      if i.pack !in packs || packs[i.pack] != i.krw { return Some(InvalidPack); }
      OpenCredits(i.order);
      if i.order in purchases { return Some(Storage); }
      purchases := purchases[i.order := Purchase(i.user, i.pack, i.krw, key, false)];
      InsertEvent(ChargeOf(i, key));
      return None;
    }

    method FailFixedIntent(o: OrderId, now: Time) returns (lapsed: bool)
      modifies this
      ensures Db() == Commit(old(Db()), FailTx(old(Db()), o, now))
      ensures lapsed ==> o in old(intents) && OnTermOf(old(Db()), old(intents)[o])
    {
      hide FailRenewal;
      if o !in intents || !intents[o].status.Pending? { return false; }
      var current := intents[o];
      lapsed := false;
      if current.kind.Renew? {
        if current.user in subs && subs[current.user].active && subs[current.user].termEnd == current.effectiveAt {
          FailRenewalInTx(subs[current.user], current.tier, current.term, current.krw);
          lapsed := true;
        } else {
          InsertEvent(ChargeFailed(current.user, o));
        }
      } else {
        InsertEvent(ChargeFailed(current.user, o));
      }
      var _ := MarkIntent(o, Failed, 0, now);
    }

    // ---- unapplied_captures.go -------------------------------------------------------------

    /** `i` is the order as the pass read it. */
    method CompleteUnappliedRefund(i: Intent, key: Key, amount: int) returns (refunded: bool)
      requires i.order in intents ==> SameOrder(intents[i.order], i)
      modifies this
      ensures Db() == Commit(old(Db()), CompleteUnappliedTx(old(Db()), i.order, key, amount))
      ensures refunded <==> i.order in old(intents) && old(intents)[i.order].status.Review?
    {
      hide FailRenewal;
      refunded := FailReviewIntent(i.order);
      if !refunded { return; }
      InsertEvent(Refunded(i.user, OfOrder(i.order), amount, key));
      if !i.kind.Renew? { return; }
      if i.user !in subs || !subs[i.user].active || subs[i.user].termEnd != i.effectiveAt { return; }
      FailRenewalInTx(subs[i.user], i.tier, i.term, i.krw);
    }

    // ---- subscription.go and change.go -----------------------------------------------------

    method GrantAnnualWindow(s: Subscription) returns (advanced: bool)
      modifies this
      ensures Db() == Commit(old(Db()), AdvanceGrantTx(old(Db()), s))
      ensures advanced <==> s.user in old(subs) && old(subs)[s.user].nextGrant == s.nextGrant
    {
      hide WindowEnd;
      var end := WindowEnd(s.anchor, s.nextGrant);
      advanced := AdvanceNextGrant(s.user, s.nextGrant, end);
    }

    method LapseCancelled(s: Subscription)
      modifies this
      ensures Db() == Commit(old(Db()), LapseTx(old(Db()), s))
    {
      UpsertSubscription(s.(active := false));
      if s.user in support {
        SetPaidTier(s.user, support[s.user]);
      } else {
        SetPaidTier(s.user, Free);
      }
      InsertEvent(Cancelled(s.user, s.tier, s.term));
    }

    method CancelSubscription(read: Subscription) returns (e: Option<Error>)
      modifies this
      ensures Carried(old(Db()), Db(), e, CancelTx(old(Db()), read))
    {
      hide HasOpenOrder;
      if !read.autoRenew { return Some(NoChange); }
      var stopped := read.(autoRenew := false, scheduledTier := None, scheduledTerm := None);
      if HasOpenOrder(Db(), read.user) { return Some(PaymentPending); }
      if read.user !in subs || subs[read.user].updatedAt != read.updatedAt { return Some(StaleQuote); }
      UpsertSubscription(stopped);
      InsertEvent(CancelScheduled(read.user, stopped.tier, stopped.term));
      return None;
    }

    method ResumeSubscription(read: Subscription) returns (e: Option<Error>)
      modifies this
      ensures Carried(old(Db()), Db(), e, ResumeTx(old(Db()), read))
    {
      hide HasOpenOrder;
      if read.autoRenew { return Some(NoChange); }
      if HasOpenOrder(Db(), read.user) { return Some(PaymentPending); }
      if read.user !in subs || subs[read.user].updatedAt != read.updatedAt { return Some(StaleQuote); }
      UpsertSubscription(subs[read.user].(autoRenew := true));
      return None;
    }

    method CancelScheduledChange(read: Subscription) returns (e: Option<Error>)
      modifies this
      ensures Carried(old(Db()), Db(), e, CancelScheduledTx(old(Db()), read))
    {
      hide HasOpenOrder;
      if read.scheduledTier.None? && read.scheduledTerm.None? { return Some(NoScheduledChange); }
      if HasOpenOrder(Db(), read.user) { return Some(PaymentPending); }
      if read.user !in subs || subs[read.user].updatedAt != read.updatedAt { return Some(StaleQuote); }
      UpsertSubscription(subs[read.user].(scheduledTier := None, scheduledTerm := None));
      return None;
    }

    /** support.go: AssignSupportTier; ReassignTier is the tier write without the master hold. */
    method AssignSupportTier(u: User, target: Plan, now: Time) returns (e: Option<Error>)
      modifies this
      ensures Carried(old(Db()), Db(), e, AssignSupportTx(old(Db()), u, target, now))
    {
      hide ActiveNow;
      var current := TierOf(Db(), u);
      if target.Free? || target.Master? {
        if current == target { return None; }
        e := LeaveSupport(u, target);
      } else {
        if current == target && (u in support || ActiveNow(Db(), u, now)) { return None; }
        e := EnterSupport(u, target);
      }
    }

    method LeaveSupport(u: User, target: Plan) returns (e: Option<Error>)
      requires TierOf(Db(), u) != target
      modifies this
      ensures e == if !target.Master? && OnlyMaster(old(tiers), u) then Some(LastMaster) else None
      ensures Db() == if e.Some? then old(Db()) else old(Db()).(tiers := old(tiers)[u := target], support := old(support) - {u})
    {
      e := ReassignTier(u, target);
      if e.Some? { return; }
      DeleteSupportCoverage(u);
    }

    method EnterSupport(u: User, target: Plan) returns (e: Option<Error>)
      requires !target.Free? && !target.Master?
      modifies this
      ensures e == if OnlyMaster(old(tiers), u) then Some(LastMaster) else None
      ensures Db() == if e.Some? then old(Db()) else old(Db()).(tiers := old(tiers)[u := target], support := old(support)[u := target])
    {
      e := ReassignTier(u, target);
      if e.Some? { return; }
      assert tiers == old(tiers)[u := target];
      UpsertSupportCoverage(u, target);
    }

    // ---- refunds.go ------------------------------------------------------------------------

    method RequestRefund(u: User, o: OrderId) returns (e: Option<Error>)
      modifies this
      ensures Carried(old(Db()), Db(), e, RequestRefundTx(old(Db()), u, o))
    {
      hide OpenRequest, ConfirmedTotal;
      if !(o in intents && intents[o].user == u && intents[o].status.Applied?) { return Some(RefundNotFound); }
      if OpenRequest(Db(), o) { return Some(RefundConflict); }
      var prior := ConfirmedTotal(refunds, o);
      if prior >= intents[o].krw { return Some(RefundAmount); }
      refunds := refunds + [Refund(u, o, Requested, 0, 0, 0, 0, 0)];
      return None;
    }

    method ReviewRefund(r: nat, approve: bool, amount: int, p: Payment, evidence: Evidence, now: Time) returns (e: Option<Error>)
      modifies this
      ensures Carried(old(Db()), Db(), e, ReviewRefundTx(old(Db()), r, approve, amount, p, evidence, now))
    {
      hide HasDependentUpgrade;
      if r >= |refunds| || !refunds[r].status.Requested? { return Some(RefundConflict); }
      var request := refunds[r];
      if !Refundable(Db(), request.user, request.order) { return Some(RefundNotFound); }
      var payment := intents[request.order];
      if !approve {
        if amount != 0 { return Some(RefundAmount); }
        refunds := refunds[r := request.(status := Rejected, reviewedAt := now)];
        return None;
      }
      if evidence.reserved { return Some(RefundActiveUse); }
      if HasDependentUpgrade(Db(), payment) { return Some(RefundDependentPayment); }
      if p.order != payment.order || p.key != payment.paymentKey || p.amount != payment.krw || !p.won
         || amount <= 0 || amount > p.balance { return Some(RefundAmount); }
      if now < payment.appliedAt + REFUND_WINDOW && evidence.unused && amount != p.balance { return Some(RefundAmount); }
      request := request.(balanceBefore := p.balance);
      HoldFunding(r);
      refunds := refunds[r := request.(status := Processing, amount := amount, reviewedAt := now)];
      return None;
    }

    method HoldFunding(r: nat)
      modifies this
      ensures Db() == old(Db()).(guards := old(guards)[r := GuardOf(old(Db()), r).(held := GuardOf(old(Db()), r).held + 1)])
    {
      var guard := GuardOf(Db(), r);
      guards := guards[r := guard.(held := guard.held + 1)];
    }

    method RecordRefundProviderAttempt(r: nat, transaction: Key) returns (e: Option<Error>)
      modifies this
      ensures Carried(old(Db()), Db(), e, RecordAttemptTx(old(Db()), r, transaction))
    {
      hide TransactionFree;
      if r >= |refunds| || !refunds[r].status.Processing?
         || (refunds[r].transaction != 0 && refunds[r].transaction != transaction) { return Some(RefundConflict); }
      if !TransactionFree(Db(), r, transaction) { return Some(Storage); }
      refunds := refunds[r := refunds[r].(transaction := transaction)];
      return None;
    }

    /** The funding is given back before the request is failed: a request already settled by another
        worker rolls that back. */
    method ReleaseAndFailRefund(r: nat) returns (e: Option<Error>)
      modifies this
      ensures Carried(old(Db()), Db(), e, FailRefundTx(old(Db()), r))
    {
      var before := Db();
      var guard := GuardOf(Db(), r);
      guards := guards[r := guard.(released := guard.released + 1)];
      if r >= |refunds| || !refunds[r].status.Processing? {
        Restore(before);
        return Some(RefundConflict);
      }
      refunds := refunds[r := refunds[r].(status := RefundFailed)];
      return None;
    }

    /** The settling transaction of ReconcileRefund: the funding is voided and the entitlement
        reversed before the outcome is recorded. */
    method SettleRefund(r: nat, transaction: Key, prior: Option<Plan>, at: Time) returns (e: Option<Error>)
      modifies this
      ensures Carried(old(Db()), Db(), e, CompleteRefundTx(old(Db()), r, transaction, prior, at))
    {
      hide Reverse, TransactionFree;
      var before := Db();
      if r >= |refunds| { return Some(RefundNotFound); }
      var request := refunds[r];
      if request.status.Completed? { return None; }
      if !request.status.Processing? { return Some(RefundConflict); }
      if !Refundable(Db(), request.user, request.order) { return Some(RefundNotFound); }
      var payment := intents[request.order];
      var guard := GuardOf(Db(), r);
      guards := guards[r := guard.(confirmed := guard.confirmed + 1)];
      e := ReverseRefundedEntitlements(payment, prior, at);
      if e.Some? {
        Restore(before);
        return;
      }
      if !TransactionFree(Db(), r, transaction) {
        Restore(before);
        return Some(Storage);
      }
      refunds := refunds[r := request.(status := Completed, transaction := transaction, confirmed := request.amount)];
      InsertEvent(Refunded(payment.user, OfRequest(r), request.amount, payment.paymentKey));
      return None;
    }

    method ReverseRefundedEntitlements(i: Intent, prior: Option<Plan>, at: Time) returns (e: Option<Error>)
      modifies this
      ensures Carried(old(Db()), Db(), e, Reverse(old(Db()), i, prior, at))
    {
      hide BeforeFundingEnd;
      if i.kind.Pack? {
        if i.order !in purchases { return Some(RefundConflict); }
        purchases := purchases[i.order := purchases[i.order].(refunded := true)];
        return None;
      }
      if i.user !in subs { return None; }
      var s := subs[i.user];
      if s.coverage != i.coverage || !BeforeFundingEnd(Db(), i, at) || !s.active { return None; }
      if i.kind.Upgrade? {
        if s.tier != i.tier || prior.None? { return None; }
        s := s.(tier := prior.value);
        UpsertSubscription(s);
        SetPaidTier(i.user, prior.value);
        return None;
      }
      s := s.(active := false, autoRenew := false);
      s := s.(termEnd := at, nextGrant := at);
      UpsertSubscription(s);
      SetPaidTier(i.user, Free);
      return None;
    }
  }
}
