/** The deterministic renewal order id: one renewal per account and term end, and no subscription
    left active on a term whose renewal is settled. */
module Renewals {
  import opened Calendar
  import opened Ledger
  import opened Protocol
  import opened Journal
  import opened Rows

  /** A renewal's term end has passed, and no active row of the account is behind it; once the
      renewal is applied or failed, every active row is past it. */
  ghost predicate RenewalOk(i: Intent, subs: Subs) {
    i.kind.Renew? ==>
      && i.effectiveAt <= i.insertedAt
      && (i.user in subs && subs[i.user].active ==>
            if i.status.Open() then i.effectiveAt <= subs[i.user].termEnd else i.effectiveAt < subs[i.user].termEnd)
  }

  ghost predicate Before(r: Intent, i: Intent) {
    r.kind.Renew? && i.kind.Subscribe? && i.status.Pending? && r.user == i.user ==> r.effectiveAt <= i.insertedAt
  }

  ghost predicate RenewalsOk(orders: Orders, subs: Subs, clock: Time) {
    && (forall o | o in orders :: orders[o].insertedAt <= clock && RenewalOk(orders[o], subs))
    && (forall o, p | o in orders && p in orders :: Before(orders[o], orders[p]))
  }

  /** Terms only get later, so a write that ends or carries on a row keeps this. */
  lemma StepKeepsRenewals(d: Database, e: Database, clock: Time)
    requires RenewalsOk(d.intents, d.subs, clock) && RowStep(d, e)
    ensures RenewalsOk(d.intents, e.subs, clock)
  {
    hide RowOk;
    forall o | o in d.intents ensures RenewalOk(d.intents[o], e.subs) { assert RenewalOk(d.intents[o], d.subs); }
  }

  lemma AddedRenewalOk(d: Database, e: Database, clock: Time, o: OrderId)
    requires Adds(d, clock, e.intents, o) && RowStep(d, e)
    ensures RenewalOk(e.intents[o], e.subs)
  {
    hide RowOk;
  }

  lemma CheckoutKeepsRenewals(w: World, a: CheckoutAction)
    requires CheckoutEnabled(w, a) && RowsOkIn(w) && RenewalsOk(w.db.intents, w.db.subs, w.clock)
    ensures var e := Commit(w.db, CheckoutTx(w, a)); RenewalsOk(e.intents, e.subs, w.clock)
  {
    CheckoutGrows(w, a);
    CheckoutSteps(w, a);
    hide CheckoutTx, CheckoutEnabled, RowsOk, RowStep, RenewalOk, RenewalsOk, Before, Adds;
    var d, e := w.db, Commit(w.db, CheckoutTx(w, a));
    StepKeepsRenewals(d, e, w.clock);
    if e.intents != d.intents {
      var o :| Adds(d, w.clock, e.intents, o);
      AddedRenewalOk(d, e, w.clock, o);
      AddedOrderJoins(d, e, w.clock, o);
    }
  }

  lemma AddedOrderJoins(d: Database, e: Database, clock: Time, o: OrderId)
    requires Adds(d, clock, e.intents, o) && RenewalsOk(d.intents, d.subs, clock)
    requires RenewalsOk(d.intents, e.subs, clock) && RenewalOk(e.intents[o], e.subs)
    ensures RenewalsOk(e.intents, e.subs, clock)
  {
    AddedOrderComesAfter(d, e.intents, clock, o);
    hide RenewalOk, Before, Adds;
  }

  /** An order recorded now comes after every renewal there is, and while one is open no other is
      recorded. */
  lemma AddedOrderComesAfter(d: Database, after: Orders, clock: Time, o: OrderId)
    requires Adds(d, clock, after, o) && RenewalsOk(d.intents, d.subs, clock)
    ensures forall p | p in after :: Before(after[p], after[o]) && Before(after[o], after[p])
    ensures after[o].insertedAt <= clock && after == d.intents[o := after[o]]
  {
    forall p | p in d.intents ensures Before(d.intents[p], after[o]) { assert RenewalOk(d.intents[p], d.subs); }
  }

  lemma AppliedRenewalIsBehind(d: Database, o: OrderId, key: Key, now: Time, packs: Catalog)
    requires o in d.intents && d.intents[o].kind.Renew? && OrderOk(d.intents[o]) && RenewalOk(d.intents[o], d.subs)
    requires forall u | u in d.subs :: d.subs[u].user == u && RowOk(d.subs[u])
    ensures var e := Commit(d, ApplyTx(d, o, key, now, packs)); o in e.intents && RenewalOk(e.intents[o], e.subs)
  {
    hide *;
    ApplyOutcome(d, o, key, now, packs);
    if d.intents[o].status.Pending? && Commit(d, ApplyTx(d, o, key, now, packs)).intents[o].status.Applied? {
      RenewalTakesEffect(d, o, key, now, packs);
    } else {
      UnappliedRenewalIsBehind(d, o, key, now, packs);
    }
  }

  lemma UnappliedRenewalIsBehind(d: Database, o: OrderId, key: Key, now: Time, packs: Catalog)
    requires o in d.intents && RenewalOk(d.intents[o], d.subs)
    requires var e := Commit(d, ApplyTx(d, o, key, now, packs));
             o in e.intents && !(d.intents[o].status.Pending? && e.intents[o].status.Applied?)
    ensures var e := Commit(d, ApplyTx(d, o, key, now, packs)); RenewalOk(e.intents[o], e.subs)
  {
    ApplyOutcome(d, o, key, now, packs);
    ApplyMoves(d, Applying(o, Payment(o, key, Done, 0, 0, true, []), now, packs));
    hide ApplyTx, Entitled, Unapplicable, RowsEntitled, MarkApplied, LogsNoCharge, RenewalOk;
    SameRowsAreBehind(d.intents[o], Commit(d, ApplyTx(d, o, key, now, packs)).intents[o], d.subs);
  }

  lemma SameRowsAreBehind(i: Intent, j: Intent, subs: Subs)
    requires RenewalOk(i, subs) && SameOrder(i, j) && (i.status.Open() <==> j.status.Open())
    ensures RenewalOk(j, subs)
  {}

  lemma RenewalTakesEffect(d: Database, o: OrderId, key: Key, now: Time, packs: Catalog)
    requires o in d.intents && d.intents[o].kind.Renew? && OrderOk(d.intents[o]) && RenewalOk(d.intents[o], d.subs)
    requires forall u | u in d.subs :: d.subs[u].user == u && RowOk(d.subs[u])
    requires d.intents[o].status.Pending?
    requires var e := Commit(d, ApplyTx(d, o, key, now, packs)); o in e.intents && e.intents[o].status.Applied?
    ensures var e := Commit(d, ApplyTx(d, o, key, now, packs)); RenewalOk(e.intents[o], e.subs)
  {
    var i, e := d.intents[o], Commit(d, ApplyTx(d, o, key, now, packs));
    ApplyOutcome(d, o, key, now, packs);
    ApplyMoves(d, Applying(o, Payment(o, key, Done, 0, 0, true, []), now, packs));
    RenewalApplies(d, o, key, now, packs);
    hide ApplyTx, Entitled, Unapplicable, RenewedSubscription, MarkApplied;
    assert RowOk(d.subs[i.user]);
    hide RowOk;
    RenewedRowCarriesOn(d, i);
    RenewedIsBehind(d, e, i, e.intents[o]);
  }

  lemma RenewedIsBehind(d: Database, e: Database, i: Intent, j: Intent)
    requires i.kind.Renew? && i.user in d.subs && d.subs[i.user].user == i.user && SameOrder(i, j)
    requires RenewalOk(i, d.subs) && i.status.Open() && d.subs[i.user].active
    requires Writes(d, e, RenewedSubscription(d.subs[i.user], i))
    requires d.subs[i.user].termEnd < RenewedSubscription(d.subs[i.user], i).termEnd
    requires i.effectiveAt == d.subs[i.user].termEnd
    ensures RenewalOk(j, e.subs)
  {
    hide CoverageEnd, WindowEnd;
  }

  lemma FailedRenewalIsBehind(d: Database, o: OrderId, now: Time)
    requires o in d.intents && d.intents[o].kind.Renew? && RenewalOk(d.intents[o], d.subs)
    requires forall u | u in d.subs :: d.subs[u].user == u
    ensures var e := Commit(d, FailTx(d, o, now)); o in e.intents && RenewalOk(e.intents[o], e.subs)
  {
    hide FailRenewal;
  }

  lemma ReturnedRenewalIsBehind(d: Database, o: OrderId, key: Key, amount: int)
    requires o in d.intents && d.intents[o].kind.Renew? && RenewalOk(d.intents[o], d.subs)
    requires forall u | u in d.subs :: d.subs[u].user == u
    ensures var e := Commit(d, CompleteUnappliedTx(d, o, key, amount)); o in e.intents && RenewalOk(e.intents[o], e.subs)
  {
    hide FailRenewal;
  }

  /** A settled renewal is behind every active row: an applied one moved the term on, a failed one
      ended the row if it was still on that term. */
  lemma SettledRenewalIsBehind(w: World, a: SettleAction)
    requires RowsOkIn(w) && OrdersOk(w.db.intents) && RenewalsOk(w.db.intents, w.db.subs, w.clock)
    requires a.o in w.db.intents && w.db.intents[a.o].kind.Renew?
    ensures var e := Commit(w.db, SettleTx(w, a)); a.o in e.intents && RenewalOk(e.intents[a.o], e.subs)
  {
    hide ApplyTx, FailTx, CompleteUnappliedTx, RowOk, ReadOk;
    assert RenewalOk(w.db.intents[a.o], w.db.subs);
    hide RenewalOk;
    match a
    case Applying(o, p, now, packs) => AppliedRenewalIsBehind(w.db, o, p.key, now, packs);
    case Reviewing(o, _, _) => ReviewedRenewalIsBehind(w.db, o, a.p.key, a.now);
    case Failing(o, _, now) => FailedRenewalIsBehind(w.db, o, now);
    case Returning(o, observed, captured) => ReturnedRenewalIsBehind(w.db, o, observed.key, captured.amount);
  }

  lemma ReviewedRenewalIsBehind(d: Database, o: OrderId, key: Key, now: Time)
    requires o in d.intents && RenewalOk(d.intents[o], d.subs)
    ensures var e := Commit(d, ReviewTx(d, o, key, now)); o in e.intents && RenewalOk(e.intents[o], e.subs)
  {}

  /** A first term starts after every renewal the account ever had. */
  lemma FirstRowIsAhead(d: Database, e: Database, o: OrderId, s: Subscription, clock: Time, now: Time)
    requires RenewalsOk(d.intents, d.subs, clock) && Writes(d, e, s) && RowOk(s)
    requires o in d.intents && d.intents[o].kind.Subscribe? && d.intents[o].status.Pending? && d.intents[o].insertedAt <= now
    requires s.user == d.intents[o].user && s.anchor == now
    ensures forall p | p in d.intents :: RenewalOk(d.intents[p], e.subs)
  {
    hide OnGrid;
    forall p | p in d.intents ensures RenewalOk(d.intents[p], e.subs) {
      assert Before(d.intents[p], d.intents[o]) && RenewalOk(d.intents[p], d.subs);
    }
  }

  lemma SettlementKeepsRenewals(w: World, a: SettleAction)
    requires SettleEnabled(w, a) && RowsOkIn(w) && OrdersOk(w.db.intents) && RenewalsOk(w.db.intents, w.db.subs, w.clock)
    ensures var e := Commit(w.db, SettleTx(w, a)); RenewalsOk(e.intents, e.subs, w.clock)
  {
    SettlementMoves(w, a);
    var d, e := w.db, Commit(w.db, SettleTx(w, a));
    if a.o in d.intents && d.intents[a.o].kind.Renew? { SettledRenewalIsBehind(w, a); }
    hide ApplyTx, FailTx, CompleteUnappliedTx, ReviewTx, NewSubscription, RowsOk, RowStep, RowOk, RenewalOk, Before, Moves;
    if a.Applying? && BuysFirst(d, e, a.o) {
      FirstRow(d, a.o, a.p.key, a.now, a.packs);
      NewRowIsOnGrid(d.intents[a.o], a.now);
      NewRowFields(d.intents[a.o], a.now);
      FirstRowIsAhead(d, e, a.o, NewSubscription(d.intents[a.o], a.now), w.clock, a.now);
    } else {
      SettlementSteps(w, a);
      StepKeepsRenewals(d, e, w.clock);
    }
    OtherOrdersStay(d, e, a, w.clock);
  }

  lemma OtherOrdersStay(d: Database, e: Database, a: SettleAction, clock: Time)
    requires Moves(a, d.intents, e.intents) && RenewalsOk(d.intents, e.subs, clock)
    requires a.o in d.intents && d.intents[a.o].kind.Renew? ==> a.o in e.intents && RenewalOk(e.intents[a.o], e.subs)
    ensures RenewalsOk(e.intents, e.subs, clock)
  {}

  lemma AdvancingKeepsRenewals(d: Database, s: Subscription, clock: Time)
    requires RenewalsOk(d.intents, d.subs, clock)
    ensures RenewalsOk(d.intents, Commit(d, AdvanceGrantTx(d, s)).subs, clock)
  {
    hide WindowEnd;
    var e := Commit(d, AdvanceGrantTx(d, s));
    forall o | o in d.intents ensures RenewalOk(d.intents[o], e.subs) { assert RenewalOk(d.intents[o], d.subs); }
  }

  /** A renewal that passes its guards never meets an order of its own id: the insert is new. */
  lemma RenewalIdIsFree(w: World, s: Subscription)
    requires RowsOkIn(w) && OrdersOk(w.db.intents) && RenewalsOk(w.db.intents, w.db.subs, w.clock)
    requires s.user in w.db.subs && w.db.subs[s.user].active && !HasOpenOrder(w.db, s.user)
    ensures Renewal(s.user, w.db.subs[s.user].termEnd) !in w.db.intents
  {
    var o := Renewal(s.user, w.db.subs[s.user].termEnd);
    assert o in w.db.intents ==> RenewalOk(w.db.intents[o], w.db.subs);
  }

  /** One renewal per account and term end; a settled one is strictly behind the account's active
      term; in particular no subscription is active on a term whose renewal finally failed. */
  lemma RenewalsAreOncePerTerm(orders: Orders, subs: Subs, clock: Time, o: OrderId, p: OrderId)
    requires OrdersOk(orders) && RenewalsOk(orders, subs, clock)
    requires o in orders && orders[o].kind.Renew? && p in orders && orders[p].kind.Renew?
    ensures orders[o].user == orders[p].user && orders[o].effectiveAt == orders[p].effectiveAt ==> o == p
    ensures (orders[o].status.Applied? || orders[o].status.Failed?) && orders[o].user in subs && subs[orders[o].user].active
            ==> orders[o].effectiveAt < subs[orders[o].user].termEnd
  {
    assert RenewalOk(orders[o], subs);
  }
}
