/** The account's tier against its subscription, and the hold on master accounts. */
module Tiers {
  import opened Basics
  import opened Calendar
  import opened Pricing
  import opened Ledger
  import opened Protocol
  import opened Journal
  import opened Rows

  function PaidTier(d: Database, u: User): Plan {
    if u in d.subs && d.subs[u].active then d.subs[u].tier else Free
  }

  ghost predicate Agrees(d: Database, u: User) {
    u !in d.support && (TierOf(d, u).Master? || TierOf(d, u) == PaidTier(d, u))
  }

  ghost predicate TiersOk(d: Database, operated: set<User>) {
    forall u: User :: u in operated || Agrees(d, u)
  }

  /** What every transaction but the operator's does to tiers: an account that agreed still does, no
      master leaves master and nobody becomes one. */
  ghost predicate TierStep(d: Database, e: Database) {
    forall u: User :: (Agrees(d, u) ==> Agrees(e, u)) && (TierOf(d, u).Master? <==> TierOf(e, u).Master?)
  }

  ghost predicate TiersKept(d: Database, e: Database) {
    e.subs == d.subs && e.tiers == d.tiers && e.support == d.support
  }

  lemma KeptTiersAreAStep(d: Database, e: Database)
    requires TiersKept(d, e)
    ensures TierStep(d, e)
  {}

  function Pays(s: Subscription): Plan { if s.active then s.tier else Free }

  /** A row written with the account's tier: an account without support coverage ends on the tier the
      row pays for. */
  lemma RewritingIsATierStep(d: Database, e: Database, s: Subscription, tier: Plan)
    requires e.subs == Upsert(d, s).subs && e.tiers == Assigned(d.tiers, s.user, tier)
    requires e.support == d.support || e.support == d.support - {s.user}
    requires !tier.Master? && (s.user in d.support || tier == Pays(s))
    ensures TierStep(d, e)
  {
    forall v: User ensures (Agrees(d, v) ==> Agrees(e, v)) && (TierOf(d, v).Master? <==> TierOf(e, v).Master?) {
      if v == s.user { RewrittenAgrees(d, e, s, tier); } else { OthersAgree(d, e, s, tier, v); }
    }
  }

  lemma RewrittenAgrees(d: Database, e: Database, s: Subscription, tier: Plan)
    requires e.subs == Upsert(d, s).subs && e.tiers == Assigned(d.tiers, s.user, tier)
    requires e.support == d.support || e.support == d.support - {s.user}
    requires !tier.Master? && (s.user in d.support || tier == Pays(s))
    ensures (Agrees(d, s.user) ==> Agrees(e, s.user)) && (TierOf(d, s.user).Master? <==> TierOf(e, s.user).Master?)
  {}

  lemma OthersAgree(d: Database, e: Database, s: Subscription, tier: Plan, v: User)
    requires e.subs == Upsert(d, s).subs && e.tiers == Assigned(d.tiers, s.user, tier) && v != s.user
    requires e.support == d.support || e.support == d.support - {s.user}
    ensures (Agrees(d, v) ==> Agrees(e, v)) && (TierOf(d, v).Master? <==> TierOf(e, v).Master?)
  {}

  /** A row written alone: it pays for what the one before it did, or support coverage stands. */
  lemma TouchingIsATierStep(d: Database, e: Database, u: User)
    requires e.tiers == d.tiers && e.support == d.support && u in d.subs && u in e.subs && e.subs == d.subs[u := e.subs[u]]
    requires u in d.support || Pays(e.subs[u]) == Pays(d.subs[u])
    ensures TierStep(d, e)
  {}

  ghost predicate SupportOk(d: Database) { forall u | u in d.support :: !d.support[u].Master? }

  lemma FailRenewalTiers(d: Database, s: Subscription, tier: Plan, term: Term, krw: int)
    requires SupportOk(d)
    ensures TierStep(d, FailRenewal(d, s, tier, term, krw))
  {
    hide TierStep;
    RewritingIsATierStep(d, FailRenewal(d, s, tier, term, krw), s.(active := false), FreeOrSupport(d, s.user));
  }

  lemma ChangeTiers(d: Database, u: User, tier: Plan, term: Term, q: QuoteId, id: nat, now: Time, clock: Time)
    requires u in d.subs ==> d.subs[u].user == u
    ensures TierStep(d, Commit(d, ChangeQuotedTx(d, u, tier, term, q, id, now, clock)))
  {
    hide HasOpenOrder, ClassifyConfirmed, InsertIntent, TierStep;
    var e := Commit(d, ChangeQuotedTx(d, u, tier, term, q, id, now, clock));
    InsertKeepsTiers(d);
    if TiersKept(d, e) { KeptTiersAreAStep(d, e); } else { TouchingIsATierStep(d, e, u); }
  }

  lemma RenewTiers(d: Database, s: Subscription, now: Time, clock: Time)
    requires SupportOk(d)
    ensures TierStep(d, Commit(d, RenewTx(d, s, now, clock)))
  {
    hide HasOpenOrder, OfferPrice, FailRenewal, TierStep, InsertIntent;
    var e := Commit(d, RenewTx(d, s, now, clock));
    InsertKeepsTiers(d);
    if TiersKept(d, e) {
      KeptTiersAreAStep(d, e);
    } else {
      var row := d.subs[s.user];
      FailRenewalTiers(d, row, NextTier(row), NextTerm(row), OfferPrice(NextTier(row), NextTerm(row)));
    }
  }

  lemma InsertKeepsTiers(d: Database)
    ensures forall i :: TiersKept(d, Commit(d, InsertIntent(d, i)))
  {}

  lemma CheckoutTiers(w: World, a: CheckoutAction)
    requires RowsOkIn(w) && SupportOk(w.db)
    ensures TierStep(w.db, Commit(w.db, CheckoutTx(w, a)))
  {
    hide SubscribeTx, PurchasePackTx, QuoteChangeTx, ChangeQuotedTx, RenewTx, TierStep, RowOk, ReadOk, IsVersion;
    match a
    case Changing(u, tier, term, q, id, now) => ChangeTiers(w.db, u, tier, term, q, id, now, w.clock);
    case Renewing(row, _, now) => RenewTiers(w.db, row, now, w.clock);
    case _ => KeptTiersAreAStep(w.db, Commit(w.db, CheckoutTx(w, a)));
  }

  // ---- settlement --------------------------------------------------------------------------

  lemma SubscriptionTiers(d: Database, i: Intent, key: Key, now: Time)
    requires !i.tier.Master?
    ensures TierStep(d, ApplySubscription(d, i, key, now))
  {
    hide CoverageEnd, WindowEnd, TierStep, LogsNoCharge;
    RewritingIsATierStep(d, ApplySubscription(d, i, key, now), NewSubscription(i, now), i.tier);
  }

  lemma RenewalTiers(d: Database, i: Intent, key: Key)
    requires !i.tier.Master? && i.user in d.subs && d.subs[i.user].user == i.user && d.subs[i.user].active
    ensures TierStep(d, ApplyRenewal(d, d.subs[i.user], i, key))
  {
    hide CoverageEnd, WindowEnd, TierStep, LogsNoCharge;
    var s := d.subs[i.user];
    var e := ApplyRenewal(d, s, i, key);
    if i.user in d.support || i.tier == s.tier {
      TouchingIsATierStep(d, e, i.user);
    } else {
      RewritingIsATierStep(d, e, RenewedSubscription(s, i), i.tier);
    }
  }

  lemma UpgradeTiers(d: Database, i: Intent, key: Key)
    requires !i.tier.Master? && i.user in d.subs && d.subs[i.user].user == i.user && d.subs[i.user].active
    ensures TierStep(d, ApplyUpgrade(d, d.subs[i.user], i, key))
  {
    hide TierStep, LogsNoCharge;
    RewritingIsATierStep(d, ApplyUpgrade(d, d.subs[i.user], i, key),
                         d.subs[i.user].(tier := i.tier, scheduledTier := None, scheduledTerm := None), i.tier);
  }

  lemma EntitledTiers(d: Database, i: Intent, key: Key, now: Time)
    requires OrderOk(i) && (forall u | u in d.subs :: d.subs[u].user == u)
    requires i.kind.Renew? || i.kind.Upgrade? ==> Unchanged(d, i)
    ensures TierStep(d, Entitled(d, i, key, now))
  {
    hide ApplySubscription, ApplyRenewal, ApplyUpgrade, TierStep;
    match i.kind
    case Subscribe => SubscriptionTiers(d, i, key, now);
    case Renew => RenewalTiers(d, i, key);
    case Upgrade => UpgradeTiers(d, i, key);
    case Pack => KeptTiersAreAStep(d, ApplyPack(d, i, key));
  }

  lemma SameTierStep(d: Database, e: Database, d1: Database, e1: Database)
    requires TierStep(d, e) && TiersKept(d, d1) && TiersKept(e, e1)
    ensures TierStep(d1, e1)
  {
    forall u: User ensures (Agrees(d1, u) ==> Agrees(e1, u)) && (TierOf(d1, u).Master? <==> TierOf(e1, u).Master?) {
      assert (Agrees(d, u) ==> Agrees(e, u)) && (TierOf(d, u).Master? <==> TierOf(e, u).Master?);
    }
  }

  lemma ApplyTiers(d: Database, o: OrderId, key: Key, now: Time, packs: Catalog)
    requires o in d.intents && OrderOk(d.intents[o]) && (forall u | u in d.subs :: d.subs[u].user == u)
    ensures TierStep(d, Commit(d, ApplyTx(d, o, key, now, packs)))
  {
    ApplyOutcome(d, o, key, now, packs);
    hide ApplyTx, Entitled, Unapplicable, TierStep;
    var i, e := d.intents[o], Commit(d, ApplyTx(d, o, key, now, packs));
    if i.status.Pending? && e.intents[o].status.Applied? {
      EntitledTiers(d, i, key, now);
      SameTierStep(d, Entitled(d, i, key, now), d, e);
    } else {
      KeptTiersAreAStep(d, e);
    }
  }

  lemma FailTiers(d: Database, o: OrderId, now: Time)
    requires SupportOk(d)
    ensures TierStep(d, Commit(d, FailTx(d, o, now)))
  {
    hide FailRenewal, TierStep;
    var e := Commit(d, FailTx(d, o, now));
    if o in d.intents && d.intents[o].status.Pending? && d.intents[o].kind.Renew? && OnTermOf(d, d.intents[o]) {
      var i := d.intents[o];
      FailRenewalTiers(d, d.subs[i.user], i.tier, i.term, i.krw);
      SameTierStep(d, FailRenewal(d, d.subs[i.user], i.tier, i.term, i.krw), d, e);
    } else {
      KeptTiersAreAStep(d, e);
    }
  }

  lemma ReturnTiers(d: Database, o: OrderId, key: Key, amount: int)
    requires SupportOk(d)
    ensures TierStep(d, Commit(d, CompleteUnappliedTx(d, o, key, amount)))
  {
    hide FailRenewal, TierStep;
    var e := Commit(d, CompleteUnappliedTx(d, o, key, amount));
    if o in d.intents && d.intents[o].status.Review? && d.intents[o].kind.Renew? && OnTermOf(d, d.intents[o]) {
      var i := d.intents[o];
      var failed := Log(d.(intents := d.intents[o := i.(status := Failed)]), Refunded(i.user, OfOrder(o), amount, key));
      FailRenewalTiers(failed, d.subs[i.user], i.tier, i.term, i.krw);
      SameTierStep(failed, e, d, e);
    } else {
      KeptTiersAreAStep(d, e);
    }
  }

  lemma SettlementTiers(w: World, a: SettleAction)
    requires SettleEnabled(w, a) && RowsOkIn(w) && OrdersOk(w.db.intents) && SupportOk(w.db)
    ensures TierStep(w.db, Commit(w.db, SettleTx(w, a)))
  {
    hide ApplyTx, FailTx, CompleteUnappliedTx, TierStep, RowOk, ReadOk, IsVersion;
    match a
    case Applying(o, p, now, packs) => ApplyTiers(w.db, o, p.key, now, packs);
    case Reviewing(_, _, _) => KeptTiersAreAStep(w.db, Commit(w.db, SettleTx(w, a)));
    case Failing(o, _, now) => FailTiers(w.db, o, now);
    case Returning(o, observed, captured) => ReturnTiers(w.db, o, observed.key, captured.amount);
  }

  // ---- the account's own writes, and the operator's ----------------------------------------

  lemma LapseTiers(d: Database, s: Subscription)
    requires SupportOk(d)
    ensures TierStep(d, Commit(d, LapseTx(d, s)))
  {
    hide TierStep, LogsNoCharge, Rewritten, Assigned;
    RewritingIsATierStep(d, Commit(d, LapseTx(d, s)), s.(active := false), FreeOrSupport(d, s.user));
  }

  lemma CancelTiers(w: World, s: Subscription, at: Time)
    requires RowsOkIn(w) && RowRead(s, at) in w.heard
    ensures TierStep(w.db, Commit(w.db, CancelTx(w.db, s)))
  {
    hide HasOpenOrder, RowOk, ReadOk, IsVersion, TierStep, LogsNoCharge;
    var d, e := w.db, Commit(w.db, CancelTx(w.db, s));
    if CancelTx(d, s).Committed? {
      CurrentReadIsActive(w, s, at);
      hide RowsOk;
      TouchingIsATierStep(d, e, s.user);
    } else {
      KeptTiersAreAStep(d, e);
    }
  }

  lemma ResumeTiers(d: Database, s: Subscription)
    requires forall u | u in d.subs :: d.subs[u].user == u
    ensures TierStep(d, Commit(d, ResumeTx(d, s)))
  {
    hide HasOpenOrder, TierStep;
    var e := Commit(d, ResumeTx(d, s));
    if ResumeTx(d, s).Committed? { TouchingIsATierStep(d, e, s.user); } else { KeptTiersAreAStep(d, e); }
  }

  lemma UnscheduleTiers(d: Database, s: Subscription)
    requires forall u | u in d.subs :: d.subs[u].user == u
    ensures TierStep(d, Commit(d, CancelScheduledTx(d, s)))
  {
    hide HasOpenOrder, TierStep;
    var e := Commit(d, CancelScheduledTx(d, s));
    if CancelScheduledTx(d, s).Committed? { TouchingIsATierStep(d, e, s.user); } else { KeptTiersAreAStep(d, e); }
  }

  lemma AdvanceTiers(d: Database, s: Subscription)
    ensures TierStep(d, Commit(d, AdvanceGrantTx(d, s)))
  {
    hide WindowEnd, TierStep;
    var e := Commit(d, AdvanceGrantTx(d, s));
    if s.user in d.subs { TouchingIsATierStep(d, e, s.user); } else { KeptTiersAreAStep(d, e); }
  }

  lemma AccountTiers(w: World, a: AccountAction)
    requires AccountEnabled(w, a) && RowsOkIn(w) && SupportOk(w.db) && !a.Supporting?
    ensures TierStep(w.db, Commit(w.db, AccountTx(w, a)))
  {
    hide LapseTx, CancelTx, ResumeTx, CancelScheduledTx, RemoveMethodTx, AssignSupportTx, AdvanceGrantTx;
    hide TierStep, RowOk, ReadOk, IsVersion;
    match a
    case Lapsing(row, _, _) => LapseTiers(w.db, row);
    case Cancelling(row, at) => CancelTiers(w, row, at);
    case Resuming(row, _) => ResumeTiers(w.db, row);
    case Unscheduling(row, _) => UnscheduleTiers(w.db, row);
    case Advancing(row, _, _) => AdvanceTiers(w.db, row);
    case _ => KeptTiersAreAStep(w.db, Commit(w.db, AccountTx(w, a)));
  }

  /** The operator's step leaves every other account as it was. */
  lemma SupportKeepsTiers(d: Database, operated: set<User>, u: User, target: Plan, now: Time)
    requires TiersOk(d, operated) && SupportOk(d)
    ensures var e := Commit(d, AssignSupportTx(d, u, target, now)); TiersOk(e, operated + {u}) && SupportOk(e)
  {
    var e := Commit(d, AssignSupportTx(d, u, target, now));
    forall v: User ensures v in operated + {u} || Agrees(e, v) {
      assert v in operated || Agrees(d, v);
    }
  }

  // ---- reviewed refunds --------------------------------------------------------------------

  lemma ReverseTiers(d: Database, i: Intent, prior: Option<Plan>, at: Time)
    requires (forall u | u in d.subs :: d.subs[u].user == u) && (prior.Some? ==> !prior.value.Master?)
    ensures TierStep(d, Commit(d, Reverse(d, i, prior, at)))
  {
    hide BeforeFundingEnd, TierStep, Rewritten, ReversalOf, Assigned, LogsNoCharge;
    var e := Commit(d, Reverse(d, i, prior, at));
    if TiersKept(d, e) {
      KeptTiersAreAStep(d, e);
    } else {
      var reversal := ReversalOf(d.subs[i.user], i, prior, at);
      ReversalPays(d.subs[i.user], i, prior, at);
      RewritingIsATierStep(d, e, reversal.row, reversal.tier);
    }
  }

  lemma ReversalPays(s: Subscription, i: Intent, prior: Option<Plan>, at: Time)
    requires s.active && (prior.Some? ==> !prior.value.Master?)
    ensures var reversal := ReversalOf(s, i, prior, at);
            reversal.Rewrites? ==> reversal.row.user == s.user && reversal.tier == Pays(reversal.row) && !reversal.tier.Master?
  {}

  lemma CompletingTiers(d: Database, r: nat, transaction: Key, prior: Option<Plan>, now: Time)
    requires KnownRequest(d, r) && (prior.Some? ==> Billable(prior.value)) && forall u | u in d.subs :: d.subs[u].user == u
    ensures TierStep(d, Commit(d, CompleteRefundTx(d, r, transaction, prior, now)))
  {
    hide Reverse, TransactionFree, TierStep, LogsNoCharge, Refundable;
    var e := Commit(d, CompleteRefundTx(d, r, transaction, prior, now));
    var i := d.intents[d.refunds[r].order];
    var guarded := d.(guards := d.guards[r := GuardOf(d, r).(confirmed := GuardOf(d, r).confirmed + 1)]);
    ReverseTiers(guarded, i, prior, now);
    if TiersKept(d, e) { KeptTiersAreAStep(d, e); } else { SameTierStep(guarded, Commit(guarded, Reverse(guarded, i, prior, now)), d, e); }
  }

  lemma RefundTiers(w: World, a: RefundAction)
    requires RefundEnabled(w, a) && RowsOkIn(w)
    ensures TierStep(w.db, Commit(w.db, RefundTx(w, a)))
  {
    hide RequestRefundTx, ReviewRefundTx, RecordAttemptTx, FailRefundTx, CompleteRefundTx, ShowsRefund;
    hide TierStep, RowOk, ReadOk, IsVersion;
    if a.Completing? {
      CompletingTiers(w.db, a.r, a.transaction, a.prior, a.now);
    } else {
      KeptTiersAreAStep(w.db, Commit(w.db, RefundTx(w, a)));
    }
  }

  // ---- what it means -----------------------------------------------------------------------

  lemma StepKeepsTiers(d: Database, e: Database, operated: set<User>)
    requires TiersOk(d, operated) && TierStep(d, e)
    ensures TiersOk(e, operated)
  {
    forall u: User ensures u in operated || Agrees(e, u) { assert u in operated || Agrees(d, u); }
  }

  /** An account that no operator reassigned is on its active subscription's tier, or free without
      one; and no step but the operator's moves an account onto or off master. */
  lemma TierIsWhatIsPaidFor(d: Database, operated: set<User>, u: User)
    requires TiersOk(d, operated) && u !in operated && !TierOf(d, u).Master?
    ensures TierOf(d, u) == if u in d.subs && d.subs[u].active then d.subs[u].tier else Free
  {
    assert Agrees(d, u);
  }
}
