/** Exactly-once settlement: charges, entitlements and purchases against the orders' statuses. */
module Books {
  import opened Calendar
  import opened Ledger
  import opened Protocol
  import opened Journal

  ghost function ChargesOf(events: seq<Event>, o: OrderId): nat {
    if events == [] then 0
    else
      var last := events[|events| - 1];
      ChargesOf(events[..|events| - 1], o) + if last.Charge? && last.order == o then 1 else 0
  }

  lemma {:induction false} NoChargeAdded(before: seq<Event>, after: seq<Event>, o: OrderId)
    requires LogsNoCharge(before, after)
    ensures ChargesOf(after, o) == ChargesOf(before, o)
    decreases |after|
  {
    if |before| < |after| {
      NoChargeAdded(before, after[..|after| - 1], o);
    } else {
      assert after == before;
    }
  }

  lemma OneChargeAdded(before: seq<Event>, charge: Event, after: seq<Event>, o: OrderId)
    requires charge.Charge? && LogsNoCharge(before + [charge], after)
    ensures ChargesOf(after, o) == ChargesOf(before, o) + if charge.order == o then 1 else 0
  {
    assert (before + [charge])[..|before|] == before;
    NoChargeAdded(before + [charge], after, o);
  }

  lemma {:induction false} SomeCharge(events: seq<Event>, o: OrderId)
    requires ChargesOf(events, o) > 0
    ensures exists k | 0 <= k < |events| :: events[k].Charge? && events[k].order == o
    decreases |events|
  {
    var last := |events| - 1;
    if !(events[last].Charge? && events[last].order == o) {
      SomeCharge(events[..last], o);
      var k :| 0 <= k < last && events[..last][k].Charge? && events[..last][k].order == o;
      assert events[k] == events[..last][k];
    }
  }

  ghost predicate IsApplied(orders: Orders, o: OrderId) { o in orders && orders[o].status.Applied? }

  /** An order has one charge in the ledger exactly when it is applied, for its own amount and under
      the payment's key; it was granted something at most once, and unless it is a renewal, exactly
      once; a purchase exists exactly for an applied pack. */
  ghost predicate BooksOk(d: Database) { ChargesOk(d) && GrantsOk(d) }

  ghost predicate ChargesOk(d: Database) {
    && (forall o :: ChargesOf(d.events, o) == if IsApplied(d.intents, o) then 1 else 0)
    && (forall k | 0 <= k < |d.events| && d.events[k].Charge? :: (var c := d.events[k];
          IsApplied(d.intents, c.order) && c.user == d.intents[c.order].user
          && c.krw == d.intents[c.order].krw && c.key == d.intents[c.order].paymentKey))
  }

  ghost predicate GrantsOk(d: Database) {
    && (forall o :: multiset(d.grants)[o] <= if IsApplied(d.intents, o) then 1 else 0)
    && (forall o | IsApplied(d.intents, o) && !d.intents[o].kind.Renew? :: multiset(d.grants)[o] == 1)
    && (forall o :: o in d.purchases <==> IsApplied(d.intents, o) && d.intents[o].kind.Pack?)
  }

  /** A renewal too was granted what it paid for, unless it found support coverage, which only an
      operator gives. */
  ghost predicate RenewalsGranted(d: Database, operated: set<User>) {
    forall o | IsApplied(d.intents, o) && d.intents[o].kind.Renew? && d.intents[o].user !in operated :: multiset(d.grants)[o] == 1
  }

  /** An account never has two orders pending or in review. */
  ghost predicate OneOpen(orders: Orders) {
    forall o, p | o in orders && p in orders && orders[o].status.Open() && orders[p].status.Open() ::
      orders[o].user == orders[p].user ==> o == p
  }

  lemma GrowthAppliesNothing(d: Database, clock: Time, after: Orders)
    requires Grows(d, clock, after)
    ensures forall o | IsApplied(d.intents, o) || IsApplied(after, o) :: o in d.intents && o in after && d.intents[o] == after[o]
  {
    hide FitsWhenAdded, NoneOpen;
  }

  lemma GrowthKeepsOneOpen(d: Database, clock: Time, after: Orders)
    requires OneOpen(d.intents) && Grows(d, clock, after)
    ensures OneOpen(after)
  {
    hide FitsWhenAdded;
  }

  lemma SettlementKeepsOneOpen(a: SettleAction, before: Orders, after: Orders)
    requires OneOpen(before) && Moves(a, before, after)
    ensures OneOpen(after)
  {}

  /** A transaction that writes no charge and applies no order keeps the books. */
  lemma QuietTxKeepsBooks(d: Database, e: Database)
    requires BooksOk(d) && KeepsBooks(d, Committed(e))
    requires forall o | IsApplied(d.intents, o) || IsApplied(e.intents, o) :: o in d.intents && o in e.intents && d.intents[o] == e.intents[o]
    ensures BooksOk(e)
  {
    forall o ensures ChargesOf(e.events, o) == ChargesOf(d.events, o) { NoChargeAdded(d.events, e.events, o); }
    forall k | 0 <= k < |e.events| && e.events[k].Charge? ensures k < |d.events| && d.events[k] == e.events[k] {}
    assert forall o :: IsApplied(d.intents, o) <==> IsApplied(e.intents, o);
  }

  /** The one charge of an applied order says what was ordered and paid. */
  lemma AppliedIsCharged(d: Database, o: OrderId)
    requires ChargesOk(d) && IsApplied(d.intents, o)
    ensures ChargesOf(d.events, o) == 1
    ensures Charge(d.intents[o].user, o, d.intents[o].krw, d.intents[o].paymentKey) in d.events
  {
    SomeCharge(d.events, o);
    var k :| 0 <= k < |d.events| && d.events[k].Charge? && d.events[k].order == o;
    assert d.events[k] == Charge(d.intents[o].user, o, d.intents[o].krw, d.intents[o].paymentKey);
  }

  /** A renewal under support coverage is the one charge that grants nothing. */
  predicate GrantsNothing(d: Database, i: Intent) { i.kind.Renew? && i.user in d.support }

  /** What an apply path writes: the order's charge first, then nothing that is a charge; its grant,
      if and only if it is no renewal under support coverage; a purchase for a pack. */
  ghost predicate WritesCharge(d: Database, i: Intent, key: Key, e: Database) {
    && LogsNoCharge(d.events + [ChargeOf(i, key)], e.events)
    && e.grants == d.grants + (if GrantsNothing(d, i) then [] else [i.order])
    && e.purchases.Keys == d.purchases.Keys + if i.kind.Pack? then {i.order} else {}
  }

  lemma SubscriptionWrites(d: Database, i: Intent, key: Key, now: Time)
    requires i.kind.Subscribe?
    ensures WritesCharge(d, i, key, ApplySubscription(d, i, key, now))
  {
    hide NewSubscription;
  }

  lemma RenewalWrites(d: Database, s: Subscription, i: Intent, key: Key)
    requires i.kind.Renew?
    ensures WritesCharge(d, i, key, ApplyRenewal(d, s, i, key))
  {
    hide RenewedSubscription;
  }

  lemma UpgradeWrites(d: Database, s: Subscription, i: Intent, key: Key)
    requires i.kind.Upgrade?
    ensures WritesCharge(d, i, key, ApplyUpgrade(d, s, i, key))
  {}

  lemma PackWrites(d: Database, i: Intent, key: Key)
    requires i.kind.Pack?
    ensures WritesCharge(d, i, key, ApplyPack(d, i, key))
  {}

  lemma EntitlementWrites(d: Database, i: Intent, key: Key, now: Time)
    requires i.kind.Renew? || i.kind.Upgrade? ==> i.user in d.subs
    ensures WritesCharge(d, i, key, Entitled(d, i, key, now))
  {
    hide ApplySubscription, ApplyRenewal, ApplyUpgrade, ApplyPack, WritesCharge;
    match i.kind
    case Subscribe => SubscriptionWrites(d, i, key, now);
    case Renew => RenewalWrites(d, d.subs[i.user], i, key);
    case Upgrade => UpgradeWrites(d, d.subs[i.user], i, key);
    case Pack => PackWrites(d, i, key);
  }

  lemma ApplyingKeepsBooks(d: Database, o: OrderId, key: Key, now: Time, packs: Catalog)
    requires BooksOk(d) && (forall k | k in d.intents :: d.intents[k].order == k)
    ensures BooksOk(Commit(d, ApplyTx(d, o, key, now, packs)))
  {
    hide Entitled, Unapplicable;
    var e := Commit(d, ApplyTx(d, o, key, now, packs));
    if o in d.intents && d.intents[o].status.Pending? && e != d {
      var i := d.intents[o];
      if e.intents[o].status.Review? {
        QuietTxKeepsBooks(d, e);
      } else {
        AppliedBooks(d, o, key, now, packs);
      }
    }
  }

  ghost predicate JustApplied(d: Database, e: Database, o: OrderId) {
    && o in d.intents && d.intents[o].status.Pending?
    && o in e.intents && e.intents == d.intents[o := e.intents[o]] && e.intents[o].status.Applied?
    && e.intents[o].kind == d.intents[o].kind
  }

  /** What applying an order writes of the books. */
  ghost predicate Booked(d: Database, e: Database, o: OrderId) {
    && JustApplied(d, e, o) && e.intents[o].order == o && e.intents[o].user == d.intents[o].user
    && LogsNoCharge(d.events + [ChargeOf(e.intents[o], e.intents[o].paymentKey)], e.events)
    && e.grants == d.grants + (if GrantsNothing(d, d.intents[o]) then [] else [o])
    && e.purchases.Keys == d.purchases.Keys + if e.intents[o].kind.Pack? then {o} else {}
  }

  lemma AppliedIsBooked(d: Database, o: OrderId, key: Key, now: Time, packs: Catalog)
    requires o in d.intents && d.intents[o].order == o && d.intents[o].status.Pending?
    requires var e := Commit(d, ApplyTx(d, o, key, now, packs)); o in e.intents && e.intents[o].status.Applied?
    ensures Booked(d, Commit(d, ApplyTx(d, o, key, now, packs)), o)
  {
    ApplyOutcome(d, o, key, now, packs);
    ApplyMoves(d, Applying(o, Payment(o, key, Done, 0, 0, true, []), now, packs));
    hide ApplyTx, Entitled, Unapplicable, RowsEntitled, OnlyEntitles, LogsNoCharge;
    EntitlementWrites(d, d.intents[o], key, now);
  }

  lemma AppliedBooks(d: Database, o: OrderId, key: Key, now: Time, packs: Catalog)
    requires BooksOk(d) && o in d.intents && d.intents[o].order == o && d.intents[o].status.Pending?
    requires var e := Commit(d, ApplyTx(d, o, key, now, packs)); o in e.intents && e.intents[o].status.Applied?
    ensures BooksOk(Commit(d, ApplyTx(d, o, key, now, packs)))
  {
    hide ApplyTx, ChargesOk, GrantsOk;
    var e := Commit(d, ApplyTx(d, o, key, now, packs));
    AppliedIsBooked(d, o, key, now, packs);
    AppliedCharges(d, e, o);
    AppliedGrants(d, e, o);
  }

  lemma AppliedCharges(d: Database, e: Database, o: OrderId)
    requires ChargesOk(d) && Booked(d, e, o)
    ensures ChargesOk(e)
  {
    var charge := ChargeOf(e.intents[o], e.intents[o].paymentKey);
    forall p ensures ChargesOf(e.events, p) == ChargesOf(d.events, p) + if p == o then 1 else 0 {
      OneChargeAdded(d.events, charge, e.events, p);
    }
    forall k | 0 <= k < |e.events| && e.events[k].Charge?
      ensures e.events[k] == charge || (k < |d.events| && e.events[k] == d.events[k])
    {
      assert k < |d.events + [charge]|;
    }
  }

  lemma GrantsCounted(grants: seq<OrderId>, o: OrderId, nothing: bool)
    ensures forall p :: multiset(grants + (if nothing then [] else [o]))[p] == multiset(grants)[p] + if p == o && !nothing then 1 else 0
  {
    if nothing { assert grants + [] == grants; }
  }

  lemma OthersStayApplied(d: Database, e: Database, o: OrderId)
    requires JustApplied(d, e, o)
    ensures !IsApplied(d.intents, o) && IsApplied(e.intents, o) && o in d.intents && e.intents[o].kind == d.intents[o].kind
    ensures forall p | p != o :: IsApplied(e.intents, p) == IsApplied(d.intents, p) && (IsApplied(d.intents, p) ==> e.intents[p] == d.intents[p])
  {}

  lemma AppliedCounts(d: Database, e: Database, o: OrderId, p: OrderId)
    requires GrantsOk(d) && JustApplied(d, e, o)
    requires e.grants == d.grants + (if GrantsNothing(d, d.intents[o]) then [] else [o])
    ensures multiset(e.grants)[p] <= if IsApplied(e.intents, p) then 1 else 0
    ensures IsApplied(e.intents, p) && !e.intents[p].kind.Renew? ==> multiset(e.grants)[p] == 1
  {
    GrantsCounted(d.grants, o, GrantsNothing(d, d.intents[o]));
    OthersStayApplied(d, e, o);
    hide JustApplied, IsApplied;
    assert multiset(d.grants)[p] <= if IsApplied(d.intents, p) then 1 else 0;
  }

  lemma AppliedPurchases(d: Database, e: Database, o: OrderId, p: OrderId)
    requires GrantsOk(d) && JustApplied(d, e, o)
    requires e.purchases.Keys == d.purchases.Keys + if e.intents[o].kind.Pack? then {o} else {}
    ensures p in e.purchases <==> IsApplied(e.intents, p) && e.intents[p].kind.Pack?
  {
    OthersStayApplied(d, e, o);
    assert p in e.purchases.Keys <==> p in d.purchases.Keys || (p == o && e.intents[o].kind.Pack?);
    hide JustApplied;
  }

  lemma AppliedGrants(d: Database, e: Database, o: OrderId)
    requires GrantsOk(d) && Booked(d, e, o)
    ensures GrantsOk(e)
  {
    forall p
      ensures multiset(e.grants)[p] <= if IsApplied(e.intents, p) then 1 else 0
      ensures IsApplied(e.intents, p) && !e.intents[p].kind.Renew? ==> multiset(e.grants)[p] == 1
    {
      AppliedCounts(d, e, o, p);
    }
    forall p ensures p in e.purchases <==> IsApplied(e.intents, p) && e.intents[p].kind.Pack? { AppliedPurchases(d, e, o, p); }
    hide JustApplied, GrantsNothing;
  }

  /** The renewal of an account no operator ever reassigned finds no support coverage. */
  lemma ApplyingGrants(d: Database, o: OrderId, key: Key, now: Time, packs: Catalog, operated: set<User>)
    requires BooksOk(d) && RenewalsGranted(d, operated) && (forall k | k in d.intents :: d.intents[k].order == k)
    requires forall u | u in d.support :: u in operated
    ensures RenewalsGranted(Commit(d, ApplyTx(d, o, key, now, packs)), operated)
  {
    var e := Commit(d, ApplyTx(d, o, key, now, packs));
    if o in d.intents {
      ApplyOutcome(d, o, key, now, packs);
      ApplyMoves(d, Applying(o, Payment(o, key, Done, 0, 0, true, []), now, packs));
      hide ApplyTx, MarkApplied, Entitled, Unapplicable, RowsEntitled, ChargesOk, GrantsOk, RenewalsGranted, Booked;
      if d.intents[o].status.Pending? && e.intents[o].status.Applied? {
        AppliedIsBooked(d, o, key, now, packs);
        AppliedRenewalIsGranted(d, e, o, operated);
      } else {
        NothingApplied(d, e, operated);
      }
    }
  }

  lemma AppliedRenewalIsGranted(d: Database, e: Database, o: OrderId, operated: set<User>)
    requires GrantsOk(d) && Booked(d, e, o) && RenewalsGranted(d, operated)
    requires forall u | u in d.support :: u in operated
    ensures RenewalsGranted(e, operated)
  {
    GrantsCounted(d.grants, o, GrantsNothing(d, d.intents[o]));
    forall p | IsApplied(e.intents, p) && e.intents[p].kind.Renew? && e.intents[p].user !in operated
      ensures multiset(e.grants)[p] == 1
    {
      assert p != o ==> IsApplied(d.intents, p);
    }
  }

  lemma NothingApplied(d: Database, e: Database, operated: set<User>)
    requires RenewalsGranted(d, operated) && e.grants == d.grants
    requires forall o | IsApplied(e.intents, o) :: IsApplied(d.intents, o) && e.intents[o] == d.intents[o]
    ensures RenewalsGranted(e, operated)
  {}

  lemma QuietTxKeepsGrants(d: Database, e: Database, operated: set<User>, later: set<User>)
    requires RenewalsGranted(d, operated) && KeepsBooks(d, Committed(e)) && operated <= later
    requires forall o | IsApplied(e.intents, o) :: o in d.intents && o in e.intents && d.intents[o] == e.intents[o]
    ensures RenewalsGranted(e, later)
  {
    hide LogsNoCharge;
    assert forall o :: IsApplied(e.intents, o) ==> IsApplied(d.intents, o);
  }

  lemma SettlementKeepsGrants(w: World, a: SettleAction)
    requires BooksOk(w.db) && RenewalsGranted(w.db, w.operated) && forall o | o in w.db.intents :: w.db.intents[o].order == o
    requires forall u | u in w.db.support :: u in w.operated
    ensures RenewalsGranted(Commit(w.db, SettleTx(w, a)), w.operated)
  {
    SettlementMoves(w, a);
    hide ApplyTx, FailTx, CompleteUnappliedTx, ReviewTx, BooksOk;
    if a.Applying? {
      ApplyingGrants(w.db, a.o, a.p.key, a.now, a.packs, w.operated);
    } else {
      QuietTxKeepsGrants(w.db, Commit(w.db, SettleTx(w, a)), w.operated, w.operated);
    }
  }

  lemma SettlementKeepsBooks(w: World, a: SettleAction)
    requires BooksOk(w.db) && forall o | o in w.db.intents :: w.db.intents[o].order == o
    ensures BooksOk(Commit(w.db, SettleTx(w, a)))
  {
    SettlementMoves(w, a);
    hide ApplyTx, FailTx, CompleteUnappliedTx, ReviewTx;
    if a.Applying? {
      ApplyingKeepsBooks(w.db, a.o, a.p.key, a.now, a.packs);
    } else {
      QuietTxKeepsBooks(w.db, Commit(w.db, SettleTx(w, a)));
    }
  }
}
