/** The subscription row under every writer, including the two that write back a row they read
    before their transaction: versions, the anchored grid, and the reads still in flight. */
module Rows {
  import opened Basics
  import opened Calendar
  import opened Pricing
  import opened Ledger
  import opened Protocol
  import opened Journal
  import opened Books

  type Subs = map<User, Subscription>
  type History = map<Stamp, Subscription>

  ghost predicate Sold(s: Subscription) {
    Billable(s.tier) && (s.scheduledTier.Some? ==> Billable(s.scheduledTier.value))
  }

  /** An active row is on a tier that is sold and keeps AnchorAt <= TermStart < NextGrantAt <= TermEnd
      on the anchored month grid, under the coverage its first charge opened at the anchor. */
  ghost predicate RowOk(s: Subscription) {
    s.active ==>
      && Sold(s) && s.coverage == Paid(s.user, s.anchor)
      && OnGrid(s.anchor, s.termStart) && OnGrid(s.anchor, s.nextGrant) && OnGrid(s.anchor, s.termEnd)
      && s.anchor <= s.termStart < s.nextGrant <= s.termEnd
  }

  /** A row is the version its stamp names, but for the benefit boundary, which moves alone. */
  ghost predicate IsVersion(history: History, s: Subscription) {
    s.updatedAt in history && history[s.updatedAt] == s.(nextGrant := history[s.updatedAt].nextGrant)
  }

  /** A row read while active, against the row of now: the same subscription further on, or one
      bought since the read. */
  ghost predicate Descends(read: Subscription, at: Time, now: Subscription) {
    read.active && now.active ==> (now.anchor == read.anchor && read.termEnd <= now.termEnd) || at <= now.anchor
  }

  /** Of one version only the benefit boundary moves, and only on. */
  ghost predicate NotAhead(read: Subscription, now: Subscription) {
    read.updatedAt == now.updatedAt ==> read.nextGrant <= now.nextGrant
  }

  ghost predicate ReadOk(subs: Subs, history: History, clock: Time, m: Message) {
    m.RowRead? ==>
      && IsVersion(history, m.row) && RowOk(m.row) && m.at <= clock
      && m.row.user in subs && Descends(m.row, m.at, subs[m.row.user]) && NotAhead(m.row, subs[m.row.user])
  }

  ghost predicate RowsOk(subs: Subs, history: History, next: Stamp, heard: set<Message>, clock: Time) {
    && next > 0
    && (forall u | u in subs :: subs[u].user == u && IsVersion(history, subs[u]) && RowOk(subs[u]))
    && (forall k | k in history :: 0 < k < next && history[k].updatedAt == k)
    && (forall m | m in heard :: ReadOk(subs, history, clock, m))
  }

  ghost predicate RowsOkIn(w: World) { RowsOk(w.db.subs, w.db.history, w.db.nextStamp, w.heard, w.clock) }

  /** While an account's first charge is pending it has no active subscription, and no row of it was
      read as active since the order was recorded. */
  ghost predicate WaitsFor(i: Intent, subs: Subs, heard: set<Message>) {
    i.kind.Subscribe? && i.status.Pending? ==>
      && (i.user in subs ==> !subs[i.user].active)
      && forall m | m in heard && m.RowRead? && m.row.user == i.user && m.row.active :: m.at <= i.insertedAt
  }

  ghost predicate WaitingOk(orders: Orders, subs: Subs, heard: set<Message>) {
    forall o | o in orders :: WaitsFor(orders[o], subs, heard)
  }

  // ---- what a transaction makes of the rows ------------------------------------------------

  /** A row that carries on the current one: same anchor, no earlier term end, on the grid. */
  ghost predicate CarriesOn(d: Database, s: Subscription) {
    && s.user in d.subs && d.subs[s.user].active && s.anchor == d.subs[s.user].anchor
    && d.subs[s.user].termEnd <= s.termEnd && RowOk(s)
  }

  /** The term that `s` is on is the one the row was on, or a later one that an applied renewal paid for. */
  ghost predicate Starts(d: Database, e: Database, s: Subscription)
    requires s.user in d.subs
  {
    || s.termStart == d.subs[s.user].termStart
    || (d.subs[s.user].termStart < s.termStart && RenewedTo(e.intents, s.user, s.termStart))
  }

  ghost predicate RenewedTo(orders: Orders, u: User, at: Time) { IsApplied(orders, Renewal(u, at)) }

  /** Every write but the first of a subscription ends the row or carries it on. */
  ghost predicate RowStep(d: Database, e: Database) {
    RowsKept(d, e) || exists s :: Writes(d, e, s) && RowOk(s) && (s.active ==> CarriesOn(d, s) && Starts(d, e, s))
  }

  lemma EndingIsAStep(d: Database, e: Database, s: Subscription)
    requires Writes(d, e, s.(active := false))
    ensures RowStep(d, e)
  {}

  lemma CarryingOnIsAStep(d: Database, e: Database, s: Subscription)
    requires Writes(d, e, s) && CarriesOn(d, s) && Starts(d, e, s)
    ensures RowStep(d, e)
  {}

  /** Under a write of `s`, what was read stays a version and keeps its descendant. */
  lemma WriteKeepsRead(d: Database, e: Database, s: Subscription, clock: Time, m: Message)
    requires Writes(d, e, s) && d.nextStamp !in d.history && ReadOk(d.subs, d.history, clock, m)
    requires s.active ==> CarriesOn(d, s)
    ensures ReadOk(e.subs, e.history, clock, m)
  {
    hide OnGrid, RowOk;
  }

  lemma WriteKeepsVersions(d: Database, e: Database, s: Subscription)
    requires Writes(d, e, s) && RowOk(s) && d.nextStamp > 0
    requires forall u | u in d.subs :: d.subs[u].user == u && IsVersion(d.history, d.subs[u]) && RowOk(d.subs[u])
    requires forall k | k in d.history :: 0 < k < d.nextStamp && d.history[k].updatedAt == k
    ensures forall u | u in e.subs :: e.subs[u].user == u && IsVersion(e.history, e.subs[u]) && RowOk(e.subs[u])
    ensures forall k | k in e.history :: 0 < k < e.nextStamp && e.history[k].updatedAt == k
  {
    hide OnGrid;
    assert RowOk(s.(updatedAt := d.nextStamp));
    hide RowOk;
    forall u | u in e.subs ensures e.subs[u].user == u && IsVersion(e.history, e.subs[u]) && RowOk(e.subs[u]) {
      if u != s.user { assert IsVersion(d.history, d.subs[u]); }
    }
  }

  lemma StepKeepsRows(d: Database, e: Database, heard: set<Message>, clock: Time)
    requires RowsOk(d.subs, d.history, d.nextStamp, heard, clock) && RowStep(d, e)
    ensures RowsOk(e.subs, e.history, e.nextStamp, heard, clock)
  {
    hide RowOk, ReadOk, IsVersion;
    if !RowsKept(d, e) {
      var s :| Writes(d, e, s) && RowOk(s) && (s.active ==> CarriesOn(d, s) && Starts(d, e, s));
      WriteKeepsVersions(d, e, s);
      forall m | m in heard ensures ReadOk(e.subs, e.history, clock, m) { WriteKeepsRead(d, e, s, clock, m); }
    }
  }

  // ---- every transaction is such a step ----------------------------------------------------

  ghost predicate RowsFit(d: Database, heard: set<Message>, clock: Time) {
    RowsOk(d.subs, d.history, d.nextStamp, heard, clock)
  }

  /** Writing fields that carry no dates back to the current row. */
  lemma TouchingIsAStep(d: Database, e: Database, s: Subscription, heard: set<Message>, clock: Time)
    requires RowsFit(d, heard, clock) && Writes(d, e, s) && s.user in d.subs && d.subs[s.user].active
    requires s == d.subs[s.user].(tier := s.tier, autoRenew := s.autoRenew, scheduledTier := s.scheduledTier,
                                  scheduledTerm := s.scheduledTerm, active := s.active)
    requires Sold(d.subs[s.user]) ==> Sold(s)
    ensures RowStep(d, e)
  {
    hide OnGrid, RenewedTo;
    assert RowOk(d.subs[s.user]);
    CarryingOnIsAStep(d, e, s);
  }

  lemma ChangeSteps(w: World, u: User, tier: Plan, term: Term, q: QuoteId, id: nat, now: Time)
    requires RowsOkIn(w)
    ensures RowStep(w.db, Commit(w.db, ChangeQuotedTx(w.db, u, tier, term, q, id, now, w.clock)))
  {
    hide InsertIntent, ClassifyConfirmed, RowStep, HasOpenOrder, RowOk;
    var d, e := w.db, Commit(w.db, ChangeQuotedTx(w.db, u, tier, term, q, id, now, w.clock));
    if QuoteHolds(d, u, tier, term, q, now) && ClassifyConfirmed(d.subs[u], tier, term).Scheduled? && e != d {
      TouchingIsAStep(d, e, d.subs[u].(scheduledTier := Some(tier), scheduledTerm := Some(term), autoRenew := true), w.heard, w.clock);
    } else {
      InsertKeepsRows(d);
      KeptIsAStep(d, e);
    }
  }

  lemma InsertKeepsRows(d: Database)
    ensures forall i :: RowsKept(d, Commit(d, InsertIntent(d, i)))
  {}

  lemma KeptIsAStep(d: Database, e: Database)
    requires RowsKept(d, e)
    ensures RowStep(d, e)
  {}

  lemma RenewSteps(w: World, s: Subscription, now: Time)
    requires RowsOkIn(w)
    ensures RowStep(w.db, Commit(w.db, RenewTx(w.db, s, now, w.clock)))
  {
    hide InsertIntent, OfferPrice, RowStep, HasOpenOrder, RowOk, FailRenewal;
    var d, e := w.db, Commit(w.db, RenewTx(w.db, s, now, w.clock));
    InsertKeepsRows(d);
    if e == d || RowsKept(d, e) {
      KeptIsAStep(d, e);
    } else {
      var row := d.subs[s.user];
      EndingIsAStep(d, e, row);
    }
  }

  lemma CheckoutSteps(w: World, a: CheckoutAction)
    requires RowsOkIn(w)
    ensures RowStep(w.db, Commit(w.db, CheckoutTx(w, a)))
  {
    hide SubscribeTx, PurchasePackTx, QuoteChangeTx, ChangeQuotedTx, RenewTx, RowStep;
    var e := Commit(w.db, CheckoutTx(w, a));
    match a
    case Changing(u, tier, term, q, id, now) => ChangeSteps(w, u, tier, term, q, id, now);
    case Renewing(row, _, now) => RenewSteps(w, row, now);
    case _ => KeptIsAStep(w.db, e);
  }

  /** A renewal starts at the old term's end, stays on the anchor's grid and opens the month there. */
  lemma RenewedRowCarriesOn(d: Database, i: Intent)
    requires i.user in d.subs && d.subs[i.user].active && d.subs[i.user].user == i.user && RowOk(d.subs[i.user]) && Billable(i.tier)
    ensures CarriesOn(d, RenewedSubscription(d.subs[i.user], i))
    ensures d.subs[i.user].termEnd < RenewedSubscription(d.subs[i.user], i).termEnd
  {
    var s := d.subs[i.user];
    TermFromBoundary(s.anchor, s.termEnd, i.term.Annual?);
    hide OnGrid;
  }

  /** A first term is anchored at its own start. */
  lemma NewRowIsOnGrid(i: Intent, now: Time)
    requires Billable(i.tier)
    ensures RowOk(NewSubscription(i, now))
  {
    BoundaryFallsInItsMonth(now, 0);
    TermFromBoundary(now, now, i.term.Annual?);
    hide OnGrid;
  }

  lemma NewRowKeepsRows(d: Database, e: Database, s: Subscription, heard: set<Message>, clock: Time)
    requires RowsFit(d, heard, clock) && Writes(d, e, s) && RowOk(s)
    requires forall m | m in heard && m.RowRead? && m.row.user == s.user && m.row.active :: m.at <= s.anchor
    ensures RowsFit(e, heard, clock)
  {
    hide RowOk;
    WriteKeepsVersions(d, e, s);
  }

  /** The one write that neither ends nor carries on a row: a first charge taking effect. */
  ghost predicate BuysFirst(d: Database, e: Database, o: OrderId) {
    && o in d.intents && d.intents[o].status.Pending? && d.intents[o].kind.Subscribe?
    && o in e.intents && e.intents[o].status.Applied?
  }

  lemma FirstRow(d: Database, o: OrderId, key: Key, now: Time, packs: Catalog)
    requires BuysFirst(d, Commit(d, ApplyTx(d, o, key, now, packs)), o)
    ensures Writes(d, Commit(d, ApplyTx(d, o, key, now, packs)), NewSubscription(d.intents[o], now))
  {
    ApplyOutcome(d, o, key, now, packs);
    hide ApplyTx, Entitled, Unapplicable, NewSubscription;
  }

  /** A renewal or upgrade taking effect. */
  lemma EntitledSteps(d: Database, e: Database, i: Intent, heard: set<Message>, clock: Time)
    requires RowsFit(d, heard, clock) && OrderOk(i) && (i.kind.Renew? || i.kind.Upgrade?) && Unchanged(d, i)
    requires RowsEntitled(d, i, 0, e)
    requires i.kind.Renew? ==> OnTermOf(d, i) && IsApplied(e.intents, i.order)
    ensures RowStep(d, e)
  {
    hide RenewedSubscription, RowStep, RowOk, Writes, IsVersion, ReadOk;
    var s := d.subs[i.user];
    if i.kind.Renew? {
      RenewedRowCarriesOn(d, i);
      RenewedRowStarts(d, e, i);
      CarryingOnIsAStep(d, e, RenewedSubscription(s, i));
    } else {
      TouchingIsAStep(d, e, s.(tier := i.tier, scheduledTier := None, scheduledTerm := None), heard, clock);
    }
  }

  lemma RenewedRowStarts(d: Database, e: Database, i: Intent)
    requires OnTermOf(d, i) && d.subs[i.user].user == i.user && RowOk(d.subs[i.user]) && i.kind.Renew? && OrderOk(i)
    requires IsApplied(e.intents, i.order)
    ensures RenewedSubscription(d.subs[i.user], i).user == i.user && Starts(d, e, RenewedSubscription(d.subs[i.user], i))
  {
    hide OnGrid, CoverageEnd, WindowEnd;
  }

  lemma RenewalApplies(d: Database, o: OrderId, key: Key, now: Time, packs: Catalog)
    requires o in d.intents && d.intents[o].kind.Renew? && d.intents[o].status.Pending?
    requires Commit(d, ApplyTx(d, o, key, now, packs)).intents[o].status.Applied?
    ensures OnTermOf(d, d.intents[o])
  {
    hide Entitled;
  }

  lemma ApplyingSteps(w: World, o: OrderId, key: Key, now: Time, packs: Catalog)
    requires RowsOkIn(w) && o in w.db.intents && w.db.intents[o].order == o && OrderOk(w.db.intents[o])
    requires !BuysFirst(w.db, Commit(w.db, ApplyTx(w.db, o, key, now, packs)), o)
    ensures RowStep(w.db, Commit(w.db, ApplyTx(w.db, o, key, now, packs)))
  {
    hide ApplyTx, Entitled, Unapplicable, MarkApplied, RenewedSubscription, RowStep, RowsOk, Writes, Unchanged, OrderOk, LogsNoCharge;
    var d, e := w.db, Commit(w.db, ApplyTx(w.db, o, key, now, packs));
    ApplyOutcome(d, o, key, now, packs);
    var i := d.intents[o];
    if i.status.Pending? && e.intents[o].status.Applied? && !i.kind.Pack? {
      if i.kind.Renew? { RenewalApplies(d, o, key, now, packs); }
      EntitledSteps(d, e, i, w.heard, w.clock);
    } else {
      KeptIsAStep(d, e);
    }
  }

  lemma NewRowFields(i: Intent, now: Time)
    ensures NewSubscription(i, now).anchor == now && NewSubscription(i, now).user == i.user
  {}

  lemma FailSteps(d: Database, o: OrderId, now: Time)
    ensures RowStep(d, Commit(d, FailTx(d, o, now)))
  {
    hide FailRenewal, RowStep;
    var e := Commit(d, FailTx(d, o, now));
    if o in d.intents && d.intents[o].status.Pending? && d.intents[o].kind.Renew? && OnTermOf(d, d.intents[o]) {
      EndingIsAStep(d, e, d.subs[d.intents[o].user]);
    } else {
      KeptIsAStep(d, e);
    }
  }

  /** A renewal that fails ends the row, whatever was written elsewhere before. */
  lemma FailingSteps(d: Database, now: Database, s: Subscription, i: Intent)
    requires RowsKept(d, now)
    ensures RowStep(d, FailRenewal(now, s, i.tier, i.term, i.krw))
  {
    EndingIsAStep(d, FailRenewal(now, s, i.tier, i.term, i.krw), s);
  }

  lemma ReturnSteps(d: Database, o: OrderId, key: Key, amount: int)
    ensures RowStep(d, Commit(d, CompleteUnappliedTx(d, o, key, amount)))
  {
    hide FailRenewal, RowStep, RowOk, Writes, LogsNoCharge, KeepsBooks, KeepsQuotes, KeepsRefunds, KeepsSupport;
    var e := Commit(d, CompleteUnappliedTx(d, o, key, amount));
    if o in d.intents && d.intents[o].status.Review? && d.intents[o].kind.Renew? && OnTermOf(d, d.intents[o]) {
      var i := d.intents[o];
      var failed := Log(d.(intents := d.intents[o := i.(status := Failed)]), Refunded(i.user, OfOrder(o), amount, key));
      FailingSteps(d, failed, d.subs[i.user], i);
    } else {
      KeptIsAStep(d, e);
    }
  }

  lemma SettlementSteps(w: World, a: SettleAction)
    requires SettleEnabled(w, a) && RowsOkIn(w) && OrdersOk(w.db.intents)
    requires !(a.Applying? && BuysFirst(w.db, Commit(w.db, SettleTx(w, a)), a.o))
    ensures RowStep(w.db, Commit(w.db, SettleTx(w, a)))
  {
    hide ApplyTx, FailTx, CompleteUnappliedTx, RowsOk, RowStep, BuysFirst;
    match a
    case Applying(o, p, now, packs) => ApplyingSteps(w, o, p.key, now, packs);
    case Reviewing(_, _, _) => KeptIsAStep(w.db, Commit(w.db, SettleTx(w, a)));
    case Failing(o, _, now) => FailSteps(w.db, o, now);
    case Returning(o, observed, captured) => ReturnSteps(w.db, o, observed.key, captured.amount);
  }

  lemma SettlementKeepsRows(w: World, a: SettleAction)
    requires SettleEnabled(w, a) && RowsOkIn(w) && OrdersOk(w.db.intents) && WaitingOk(w.db.intents, w.db.subs, w.heard)
    ensures RowsFit(Commit(w.db, SettleTx(w, a)), w.heard, w.clock)
  {
    hide ApplyTx, FailTx, CompleteUnappliedTx, NewSubscription, RowsOk, RowStep, RowOk;
    var d, e := w.db, Commit(w.db, SettleTx(w, a));
    if a.Applying? && BuysFirst(d, e, a.o) {
      FirstRow(d, a.o, a.p.key, a.now, a.packs);
      NewRowIsOnGrid(d.intents[a.o], a.now);
      NewRowFields(d.intents[a.o], a.now);
      assert WaitsFor(d.intents[a.o], d.subs, w.heard);
      NewRowKeepsRows(d, e, NewSubscription(d.intents[a.o], a.now), w.heard, w.clock);
    } else {
      SettlementSteps(w, a);
      StepKeepsRows(d, e, w.heard, w.clock);
    }
  }

  // ---- the account's own writes ------------------------------------------------------------

  /** CancelSubscription writes back a row read before its transaction. The version check makes it
      the current row but for the benefit boundary, which may go back within the term. */
  lemma CancelSteps(w: World, s: Subscription, at: Time)
    requires RowsOkIn(w) && RowRead(s, at) in w.heard && s.active
    ensures RowStep(w.db, Commit(w.db, CancelTx(w.db, s)))
  {
    hide OnGrid, RowStep, HasOpenOrder;
    var d, e := w.db, Commit(w.db, CancelTx(w.db, s));
    if CancelTx(d, s).Committed? {
      assert ReadOk(d.subs, d.history, w.clock, RowRead(s, at));
      assert IsVersion(d.history, d.subs[s.user]);
      CarryingOnIsAStep(d, e, s.(autoRenew := false, scheduledTier := None, scheduledTerm := None));
    } else {
      KeptIsAStep(d, e);
    }
  }

  /** A row of the version that was read is the row that was read. */
  lemma CurrentReadIsActive(w: World, s: Subscription, at: Time)
    requires RowsOkIn(w) && RowRead(s, at) in w.heard && ReadIsCurrent(w.db, s)
    ensures w.db.subs[s.user] == s.(nextGrant := w.db.subs[s.user].nextGrant)
  {
    hide RowOk, Descends;
    assert ReadOk(w.db.subs, w.db.history, w.clock, RowRead(s, at));
    assert IsVersion(w.db.history, w.db.subs[s.user]);
  }

  lemma ResumeSteps(w: World, s: Subscription, at: Time)
    requires RowsOkIn(w) && RowRead(s, at) in w.heard && s.active
    ensures RowStep(w.db, Commit(w.db, ResumeTx(w.db, s)))
  {
    hide RowOk, RowStep, HasOpenOrder;
    var d, e := w.db, Commit(w.db, ResumeTx(w.db, s));
    if ResumeTx(d, s).Committed? {
      CurrentReadIsActive(w, s, at);
      TouchingIsAStep(d, e, d.subs[s.user].(autoRenew := true), w.heard, w.clock);
    } else {
      KeptIsAStep(d, e);
    }
  }

  lemma UnscheduleSteps(w: World, s: Subscription, at: Time)
    requires RowsOkIn(w) && RowRead(s, at) in w.heard && s.active
    ensures RowStep(w.db, Commit(w.db, CancelScheduledTx(w.db, s)))
  {
    hide RowOk, RowStep, HasOpenOrder;
    var d, e := w.db, Commit(w.db, CancelScheduledTx(w.db, s));
    if CancelScheduledTx(d, s).Committed? {
      CurrentReadIsActive(w, s, at);
      TouchingIsAStep(d, e, d.subs[s.user].(scheduledTier := None, scheduledTerm := None), w.heard, w.clock);
    } else {
      KeptIsAStep(d, e);
    }
  }

  lemma LapseSteps(d: Database, s: Subscription)
    ensures RowStep(d, Commit(d, LapseTx(d, s)))
  {
    hide RowStep;
    EndingIsAStep(d, Commit(d, LapseTx(d, s)), s);
  }

  /** A stale pass may advance only the boundary it read: a subscription bought since has a later
      one, so the row that moves is the one that was read, or a later term of it. */
  lemma AdvanceStaysOnGrid(w: World, s: Subscription, at: Time, now: Time)
    requires RowsOkIn(w) && RowRead(s, at) in w.heard && s.active && s.nextGrant <= now <= at && now < s.termEnd
    requires s.user in w.db.subs && w.db.subs[s.user].nextGrant == s.nextGrant
    ensures RowOk(w.db.subs[s.user].(nextGrant := WindowEnd(s.anchor, s.nextGrant)))
    ensures s.nextGrant < WindowEnd(s.anchor, s.nextGrant)
  {
    var row := w.db.subs[s.user];
    assert ReadOk(w.db.subs, w.db.history, w.clock, RowRead(s, at));
    assert RowOk(row);
    if row.active {
      assert row.anchor == s.anchor && s.termEnd <= row.termEnd;
      NextBoundaryStaysWithin(s.anchor, s.nextGrant, row.termEnd);
    }
    hide OnGrid;
  }

  lemma AdvancingKeepsRows(w: World, a: AccountAction)
    requires a.Advancing? && AccountEnabled(w, a) && RowsOkIn(w)
    ensures RowsFit(Commit(w.db, AdvanceGrantTx(w.db, a.row)), w.heard, w.clock)
  {
    hide RowOk, WindowEnd;
    var d, e := w.db, Commit(w.db, AdvanceGrantTx(w.db, a.row));
    if e.subs != d.subs {
      AdvanceStaysOnGrid(w, a.row, a.at, a.now);
      forall m | m in w.heard ensures ReadOk(e.subs, e.history, w.clock, m) {
        assert ReadOk(d.subs, d.history, w.clock, m);
      }
      forall u | u in e.subs ensures e.subs[u].user == u && IsVersion(e.history, e.subs[u]) && RowOk(e.subs[u]) {
        assert IsVersion(d.history, d.subs[u]);
      }
    }
  }

  lemma AccountKeepsRows(w: World, a: AccountAction)
    requires AccountEnabled(w, a) && RowsOkIn(w)
    ensures RowsFit(Commit(w.db, AccountTx(w, a)), w.heard, w.clock)
  {
    if a.Advancing? {
      AdvancingKeepsRows(w, a);
    } else {
      AccountSteps(w, a);
      hide AccountTx, RowsOk, RowStep, AccountEnabled;
      StepKeepsRows(w.db, Commit(w.db, AccountTx(w, a)), w.heard, w.clock);
    }
  }

  lemma AccountSteps(w: World, a: AccountAction)
    requires AccountEnabled(w, a) && RowsOkIn(w) && !a.Advancing?
    ensures !a.Supporting? ==> RowStep(w.db, Commit(w.db, AccountTx(w, a)))
    ensures a.Supporting? ==> RowsKept(w.db, Commit(w.db, AccountTx(w, a))) && RowStep(w.db, Commit(w.db, AccountTx(w, a)))
  {
    hide LapseTx, CancelTx, ResumeTx, CancelScheduledTx, RemoveMethodTx, AssignSupportTx, AdvanceGrantTx, RowsOk, RowStep;
    var d, e := w.db, Commit(w.db, AccountTx(w, a));
    match a
    case Lapsing(row, _, _) => LapseSteps(d, row);
    case Cancelling(row, at) => CancelSteps(w, row, at);
    case Resuming(row, at) => ResumeSteps(w, row, at);
    case Unscheduling(row, at) => UnscheduleSteps(w, row, at);
    case _ => KeptIsAStep(d, e);
  }

  // ---- reviewed refunds --------------------------------------------------------------------

  lemma ReverseSteps(d: Database, i: Intent, prior: Option<Plan>, at: Time, heard: set<Message>, clock: Time)
    requires RowsFit(d, heard, clock) && (prior.Some? ==> Billable(prior.value))
    ensures RowStep(d, Commit(d, Reverse(d, i, prior, at)))
  {
    hide RowOk, RowStep, BeforeFundingEnd, Rewritten, ReversalOf, LogsNoCharge;
    var e := Commit(d, Reverse(d, i, prior, at));
    if RowsKept(d, e) {
      KeptIsAStep(d, e);
    } else {
      ReversedRowSteps(d, e, d.subs[i.user], i, prior, at, heard, clock);
    }
  }

  lemma ReversedRowSteps(d: Database, e: Database, s: Subscription, i: Intent, prior: Option<Plan>, at: Time,
                         heard: set<Message>, clock: Time)
    requires RowsFit(d, heard, clock) && (prior.Some? ==> Billable(prior.value))
    requires s.user in d.subs && s == d.subs[s.user] && s.active
    requires ReversalOf(s, i, prior, at).Rewrites? && Writes(d, e, ReversalOf(s, i, prior, at).row)
    ensures RowStep(d, e)
  {
    hide RowOk, RowStep, Writes, RowsOk;
    if i.kind.Upgrade? {
      TouchingIsAStep(d, e, s.(tier := prior.value), heard, clock);
    } else {
      EndingIsAStep(d, e, s.(autoRenew := false, termEnd := at, nextGrant := at));
    }
  }

  lemma CompletingSteps(w: World, r: nat, transaction: Key, prior: Option<Plan>, now: Time)
    requires RowsOkIn(w) && (prior.Some? ==> Billable(prior.value))
    ensures RowStep(w.db, Commit(w.db, CompleteRefundTx(w.db, r, transaction, prior, now)))
  {
    hide Reverse, RowStep, RowsOk, TransactionFree;
    var d, e := w.db, Commit(w.db, CompleteRefundTx(w.db, r, transaction, prior, now));
    if KnownRequest(d, r) {
      var guarded := d.(guards := d.guards[r := GuardOf(d, r).(confirmed := GuardOf(d, r).confirmed + 1)]);
      ReverseSteps(guarded, d.intents[d.refunds[r].order], prior, now, w.heard, w.clock);
      var reversed := Commit(guarded, Reverse(guarded, d.intents[d.refunds[r].order], prior, now));
      if RowsKept(d, e) { KeptIsAStep(d, e); } else { SameStep(guarded, reversed, d, e); }
    } else {
      KeptIsAStep(d, e);
    }
  }

  lemma SameStep(d: Database, e: Database, d1: Database, e1: Database)
    requires RowStep(d, e) && RowsKept(d, d1) && RowsKept(e, e1) && forall o :: IsApplied(e.intents, o) ==> IsApplied(e1.intents, o)
    ensures RowStep(d1, e1)
  {
    hide RowOk, IsApplied, Writes;
    if !RowsKept(d, e) {
      var s :| Writes(d, e, s) && RowOk(s) && (s.active ==> CarriesOn(d, s) && Starts(d, e, s));
      SameWrite(d, e, d1, e1, s);
      WritingIsAStep(d1, e1, s);
    }
  }

  lemma SameWrite(d: Database, e: Database, d1: Database, e1: Database, s: Subscription)
    requires Writes(d, e, s) && RowsKept(d, d1) && RowsKept(e, e1)
    ensures Writes(d1, e1, s) && (CarriesOn(d, s) ==> CarriesOn(d1, s))
  {
    hide RowOk;
  }

  lemma WritingIsAStep(d: Database, e: Database, s: Subscription)
    requires Writes(d, e, s) && RowOk(s) && (s.active ==> CarriesOn(d, s) && Starts(d, e, s))
    ensures RowStep(d, e)
  {
    hide RowOk, CarriesOn, Starts;
  }

  lemma RefundSteps(w: World, a: RefundAction)
    requires RowsOkIn(w) && RefundEnabled(w, a)
    ensures RowStep(w.db, Commit(w.db, RefundTx(w, a)))
  {
    hide RequestRefundTx, ReviewRefundTx, RecordAttemptTx, FailRefundTx, CompleteRefundTx, RowStep, RowsOk, ShowsRefund;
    if a.Completing? {
      CompletingSteps(w, a.r, a.transaction, a.prior, a.now);
    } else {
      KeptIsAStep(w.db, Commit(w.db, RefundTx(w, a)));
    }
  }

  // ---- reads and the clock -----------------------------------------------------------------

  lemma EnvKeepsRows(w: World, a: EnvAction)
    requires EnvEnabled(w, a) && RowsOkIn(w)
    ensures RowsOk(w.db.subs, w.db.history, w.db.nextStamp, w.heard + News(w, a), if a.Tick? then a.to else w.clock)
  {
    hide RowOk, IsVersion;
    if a.ReadRow? { assert IsVersion(w.db.history, w.db.subs[a.u]) && RowOk(w.db.subs[a.u]); }
  }

  // ---- a first charge waits ----------------------------------------------------------------

  lemma EnvKeepsWaiting(w: World, a: EnvAction)
    requires EnvEnabled(w, a) && RowsOkIn(w) && WaitingOk(w.db.intents, w.db.subs, w.heard)
    ensures WaitingOk(w.db.intents, w.db.subs, w.heard + News(w, a))
  {
    hide RowOk, IsVersion, Descends;
  }

  lemma StepKeepsWaiting(d: Database, e: Database, heard: set<Message>)
    requires WaitingOk(d.intents, d.subs, heard) && RowStep(d, e)
    requires forall o | o in e.intents && e.intents[o].kind.Subscribe? && e.intents[o].status.Pending? ::
               o in d.intents && d.intents[o] == e.intents[o]
    ensures WaitingOk(e.intents, e.subs, heard)
  {
    hide RowOk;
    forall o | o in e.intents ensures WaitsFor(e.intents[o], e.subs, heard) {
      if e.intents[o].kind.Subscribe? && e.intents[o].status.Pending? { assert WaitsFor(d.intents[o], d.subs, heard); }
    }
  }

  lemma AddedOrderWaits(d: Database, e: Database, clock: Time, heard: set<Message>, o: OrderId)
    requires RowsFit(d, heard, clock) && RowStep(d, e) && Adds(d, clock, e.intents, o)
    ensures WaitsFor(e.intents[o], e.subs, heard)
  {
    hide RowOk, IsVersion, Descends, ReadOk;
    var i := e.intents[o];
    if i.kind.Subscribe? {
      hide RowsOk, Adds;
      InactiveStays(d, e, i.user);
      forall m | m in heard && m.RowRead? ensures m.at <= clock { ReadsArePast(d, heard, clock, m); }
    }
  }

  lemma InactiveStays(d: Database, e: Database, u: User)
    requires RowStep(d, e) && (u in d.subs ==> !d.subs[u].active)
    ensures u in e.subs ==> !e.subs[u].active
  {
    hide RowOk;
    if !RowsKept(d, e) {
      var s :| Writes(d, e, s) && RowOk(s) && (s.active ==> CarriesOn(d, s) && Starts(d, e, s));
      assert u == s.user ==> !s.active;
    }
  }

  lemma ReadsArePast(d: Database, heard: set<Message>, clock: Time, m: Message)
    requires RowsFit(d, heard, clock) && m in heard && m.RowRead?
    ensures m.at <= clock
  {
    assert ReadOk(d.subs, d.history, clock, m);
  }

  lemma CheckoutKeepsWaiting(w: World, a: CheckoutAction)
    requires CheckoutEnabled(w, a) && RowsOkIn(w) && WaitingOk(w.db.intents, w.db.subs, w.heard)
    ensures var e := Commit(w.db, CheckoutTx(w, a)); WaitingOk(e.intents, e.subs, w.heard)
  {
    CheckoutGrows(w, a);
    CheckoutSteps(w, a);
    hide CheckoutTx, CheckoutEnabled, RowsOk, RowStep, Adds, WaitsFor;
    var d, e := w.db, Commit(w.db, CheckoutTx(w, a));
    SameStep(d, e, d, e.(intents := d.intents));
    StepKeepsWaiting(d, e.(intents := d.intents), w.heard);
    if e.intents != d.intents {
      var o :| Adds(d, w.clock, e.intents, o);
      AddedOrderWaits(d, e, w.clock, w.heard, o);
      assert e.intents == d.intents[o := e.intents[o]] by { AddsOne(d, w.clock, e.intents, o); }
    }
  }

  lemma AddsOne(d: Database, clock: Time, after: Orders, o: OrderId)
    requires Adds(d, clock, after, o)
    ensures o !in d.intents && o in after && after == d.intents[o := after[o]]
  {}

  lemma SettlementKeepsWaiting(w: World, a: SettleAction)
    requires SettleEnabled(w, a) && RowsOkIn(w) && WaitingOk(w.db.intents, w.db.subs, w.heard) && OneOpen(w.db.intents)
             && OrdersOk(w.db.intents)
    ensures var e := Commit(w.db, SettleTx(w, a)); WaitingOk(e.intents, e.subs, w.heard)
  {
    SettlementMoves(w, a);
    hide ApplyTx, FailTx, CompleteUnappliedTx, NewSubscription, RowsOk, RowStep, WaitsFor, SettleEnabled;
    var d, e := w.db, Commit(w.db, SettleTx(w, a));
    if a.Applying? && BuysFirst(d, e, a.o) {
      FirstRow(d, a.o, a.p.key, a.now, a.packs);
      NewRowFields(d.intents[a.o], a.now);
      FirstRowKeepsWaiting(d, e, a.o, NewSubscription(d.intents[a.o], a.now), w.heard);
    } else {
      SettlementSteps(w, a);
      StepKeepsWaiting(d, e, w.heard);
    }
  }

  lemma FirstRowKeepsWaiting(d: Database, e: Database, o: OrderId, s: Subscription, heard: set<Message>)
    requires WaitingOk(d.intents, d.subs, heard) && OneOpen(d.intents) && Writes(d, e, s)
    requires o in d.intents && d.intents[o].status.Pending? && s.user == d.intents[o].user
    requires o in e.intents && e.intents == d.intents[o := e.intents[o]] && e.intents[o].status.Applied?
    ensures WaitingOk(e.intents, e.subs, heard)
  {
    forall p | p in e.intents ensures WaitsFor(e.intents[p], e.subs, heard) {
      if p != o { assert WaitsFor(d.intents[p], d.subs, heard); }
    }
  }
}
