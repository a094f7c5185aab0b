/** What pays for the term an account is on: every applied charge against the row it opened or
    extended, and what a refund of it therefore ends. */
module Funding {
  import opened Calendar
  import opened Ledger
  import opened Protocol
  import opened Journal
  import opened Books
  import opened Rows
  import opened Renewals
  import opened Refunds

  /** A base charge: one that pays for a term. */
  ghost predicate PaysForTerm(orders: Orders, o: OrderId) {
    IsApplied(orders, o) && (orders[o].kind.Subscribe? || orders[o].kind.Renew?)
  }

  /** A charge is applied after it was ordered; a first charge opens the coverage it is under, and a
      renewal extends one opened before. */
  ghost predicate ChargeOk(i: Intent, clock: Time) {
    && (i.status.Applied? ==> i.insertedAt <= i.appliedAt <= clock)
    && (i.status.Applied? && i.kind.Subscribe? ==> i.coverage == Paid(i.user, i.appliedAt))
    && (i.status.Applied? && i.kind.Renew? ==> i.coverage.Paid? && i.coverage.user == i.user && i.coverage.at < i.effectiveAt)
  }

  /** A later term than the first was paid for by the renewal that names its start. */
  ghost predicate TermPaid(orders: Orders, s: Subscription) {
    s.active ==> s.termStart == s.anchor || RenewedTo(orders, s.user, s.termStart)
  }

  /** No charge under the row's coverage is for a later term than the row's. */
  ghost predicate NoLaterTerm(i: Intent, s: Subscription) {
    s.active && i.coverage == s.coverage ==> FundingStart(i) <= s.termStart
  }

  ghost predicate FundingOk(orders: Orders, subs: Subs, clock: Time) {
    && (forall o | o in orders :: ChargeOk(orders[o], clock))
    && (forall u | u in subs :: TermPaid(orders, subs[u]))
    && (forall o, u | PaysForTerm(orders, o) && u in subs :: NoLaterTerm(orders[o], subs[u]))
  }

  /** The same orders are applied, and applied orders are as they were. */
  ghost predicate SameApplied(before: Orders, after: Orders) {
    && (forall o :: IsApplied(before, o) <==> IsApplied(after, o))
    && (forall o | IsApplied(before, o) :: after[o] == before[o])
  }

  // ---- a row that ends or carries on -------------------------------------------------------

  /** A step leaves an active row on its coverage, and on its term or one that was paid for. */
  lemma StepCarriesTerm(d: Database, e: Database, u: User)
    requires RowStep(d, e) && u in e.subs && e.subs[u].active
    requires forall u | u in d.subs :: d.subs[u].user == u && RowOk(d.subs[u])
    ensures u in d.subs && d.subs[u].active && e.subs[u].anchor == d.subs[u].anchor && e.subs[u].coverage == d.subs[u].coverage
    ensures e.subs[u].user == d.subs[u].user == u && d.subs[u].termStart <= e.subs[u].termStart
    ensures e.subs[u].termStart == d.subs[u].termStart || RenewedTo(e.intents, u, e.subs[u].termStart)
  {
    if !RowsKept(d, e) {
      var s :| Writes(d, e, s) && RowOk(s) && (s.active ==> CarriesOn(d, s) && Starts(d, e, s));
      if u == s.user { SameCoverage(d, s); }
    }
    hide RowOk, RowStep;
  }

  lemma SameCoverage(d: Database, s: Subscription)
    requires CarriesOn(d, s) && s.active && d.subs[s.user].user == s.user && RowOk(d.subs[s.user])
    ensures s.coverage == d.subs[s.user].coverage
  {
    hide OnGrid;
  }

  lemma StepKeepsTerms(d: Database, e: Database, clock: Time, u: User)
    requires FundingOk(d.intents, d.subs, clock) && RowStep(d, e) && forall o :: IsApplied(d.intents, o) ==> IsApplied(e.intents, o)
    requires (forall u | u in d.subs :: d.subs[u].user == u && RowOk(d.subs[u])) && u in e.subs
    ensures TermPaid(e.intents, e.subs[u])
    ensures forall o | PaysForTerm(d.intents, o) :: NoLaterTerm(d.intents[o], e.subs[u])
  {
    if e.subs[u].active {
      StepCarriesTerm(d, e, u);
      hide RowStep, RowOk;
      assert TermPaid(d.intents, d.subs[u]);
      forall o | PaysForTerm(d.intents, o) ensures NoLaterTerm(d.intents[o], e.subs[u]) {
        assert NoLaterTerm(d.intents[o], d.subs[u]);
      }
    }
  }

  lemma StepKeepsFunding(d: Database, e: Database, clock: Time)
    requires FundingOk(d.intents, d.subs, clock) && RowStep(d, e) && SameApplied(d.intents, e.intents)
    requires forall u | u in d.subs :: d.subs[u].user == u && RowOk(d.subs[u])
    ensures FundingOk(e.intents, e.subs, clock)
  {
    forall u | u in e.subs
      ensures TermPaid(e.intents, e.subs[u])
      ensures forall o | PaysForTerm(d.intents, o) :: NoLaterTerm(d.intents[o], e.subs[u])
    {
      StepKeepsTerms(d, e, clock, u);
    }
    hide RowStep, RowOk, NoLaterTerm, TermPaid;
    SameChargesOk(d.intents, e.intents, clock);
    forall o, u | PaysForTerm(e.intents, o) && u in e.subs ensures NoLaterTerm(e.intents[o], e.subs[u]) {
      assert PaysForTerm(d.intents, o) && e.intents[o] == d.intents[o];
    }
  }

  lemma SameChargesOk(before: Orders, after: Orders, clock: Time)
    requires SameApplied(before, after) && forall o | o in before :: ChargeOk(before[o], clock)
    ensures forall o | o in after :: ChargeOk(after[o], clock)
  {
    forall o | o in after ensures ChargeOk(after[o], clock) {
      if after[o].status.Applied? { assert IsApplied(before, o) && ChargeOk(before[o], clock); }
    }
  }

  // ---- an order that takes effect ----------------------------------------------------------

  lemma AppliedFields(d: Database, o: OrderId, key: Key, now: Time, packs: Catalog)
    requires o in d.intents && d.intents[o].status.Pending?
    requires var e := Commit(d, ApplyTx(d, o, key, now, packs)); o in e.intents && e.intents[o].status.Applied?
    ensures var e := Commit(d, ApplyTx(d, o, key, now, packs));
            && e.intents[o].appliedAt == now && SameOrder(d.intents[o], e.intents[o]) && e.intents == d.intents[o := e.intents[o]]
            && (!e.intents[o].kind.Pack? ==> e.intents[o].user in e.subs
                                             && e.intents[o].coverage == e.subs[e.intents[o].user].coverage
                                             && e.intents[o].fundingEnd == e.subs[e.intents[o].user].termEnd)
  {
    ApplyOutcome(d, o, key, now, packs);
    ApplyMoves(d, Applying(o, Payment(o, key, Done, 0, 0, true, []), now, packs));
    hide ApplyTx, Entitled, Unapplicable, RowsEntitled;
  }

  /** A renewal or upgrade taking effect: a renewal's term is the one the row is on now. */
  lemma AppliedKeepsFunding(d: Database, e: Database, o: OrderId, clock: Time)
    requires FundingOk(d.intents, d.subs, clock) && RowStep(d, e) && JustApplied(d, e, o) && !e.intents[o].kind.Subscribe?
    requires forall u | u in d.subs :: d.subs[u].user == u && RowOk(d.subs[u])
    requires forall u | u in e.subs :: e.subs[u].user == u && RowOk(e.subs[u])
    requires var i := e.intents[o];
             && i.insertedAt <= i.appliedAt <= clock
             && (i.kind.Renew? ==> i.user in e.subs && e.subs[i.user].active && i.coverage == e.subs[i.user].coverage
                                   && e.subs[i.user].anchor < i.effectiveAt == e.subs[i.user].termStart)
    ensures FundingOk(e.intents, e.subs, clock)
  {
    OthersStayApplied(d, e, o);
    forall u | u in e.subs
      ensures TermPaid(e.intents, e.subs[u])
      ensures forall p | PaysForTerm(d.intents, p) :: NoLaterTerm(d.intents[p], e.subs[u])
    {
      StepKeepsTerms(d, e, clock, u);
    }
    forall p | p in e.intents ensures ChargeOk(e.intents[p], clock) {
      if p != o { assert ChargeOk(d.intents[p], clock) && e.intents[p] == d.intents[p]; }
    }
    hide RowStep, TermPaid, ChargeOk;
    forall p, u | PaysForTerm(e.intents, p) && u in e.subs ensures NoLaterTerm(e.intents[p], e.subs[u]) {
      if p != o { assert PaysForTerm(d.intents, p) && e.intents[p] == d.intents[p]; }
    }
  }

  /** A first charge taking effect: no earlier charge is under the coverage it opens, unless it was made
      at that very instant, and then for the term that starts there. */
  lemma FirstKeepsFunding(d: Database, e: Database, o: OrderId, s: Subscription, clock: Time)
    requires FundingOk(d.intents, d.subs, clock) && JustApplied(d, e, o) && Writes(d, e, s) && RowOk(s) && s.active
    requires forall u | u in d.subs :: d.subs[u].user == u && RowOk(d.subs[u])
    requires forall p | p in d.intents :: Before(d.intents[p], d.intents[o]) && OrderOk(d.intents[p])
    requires var i := e.intents[o];
             && i.kind.Subscribe? && SameOrder(d.intents[o], i) && i.insertedAt <= i.appliedAt <= clock
             && i.user == s.user && i.coverage == s.coverage && s.anchor == s.termStart == i.appliedAt
    ensures FundingOk(e.intents, e.subs, clock)
  {
    OthersStayApplied(d, e, o);
    forall p | p in e.intents ensures ChargeOk(e.intents[p], clock) {
      if p != o { assert ChargeOk(d.intents[p], clock) && e.intents[p] == d.intents[p]; }
    }
    forall u | u in e.subs ensures TermPaid(e.intents, e.subs[u]) {
      if u != s.user { assert TermPaid(d.intents, d.subs[u]); }
    }
    forall p, u | PaysForTerm(e.intents, p) && u in e.subs ensures NoLaterTerm(e.intents[p], e.subs[u]) {
      if p != o && u != s.user {
        assert NoLaterTerm(d.intents[p], d.subs[u]);
      } else if p != o {
        assert ChargeOk(d.intents[p], clock) && Before(d.intents[p], d.intents[o]);
      }
    }
  }

  lemma RenewedTermStarts(d: Database, o: OrderId, key: Key, now: Time, packs: Catalog)
    requires o in d.intents && d.intents[o].status.Pending? && d.intents[o].kind.Renew?
    requires var e := Commit(d, ApplyTx(d, o, key, now, packs)); o in e.intents && e.intents[o].status.Applied?
    requires forall u | u in d.subs :: d.subs[u].user == u && RowOk(d.subs[u])
    ensures var i, e := d.intents[o], Commit(d, ApplyTx(d, o, key, now, packs));
            && i.user in e.subs && e.subs[i.user].active && e.subs[i.user].anchor < i.effectiveAt == e.subs[i.user].termStart
  {
    ApplyOutcome(d, o, key, now, packs);
    RenewalApplies(d, o, key, now, packs);
    hide ApplyTx, Entitled, Unapplicable, OnGrid, CoverageEnd, WindowEnd;
    assert RowOk(d.subs[d.intents[o].user]);
  }

  lemma FirstTermStarts(i: Intent, now: Time)
    ensures var s := NewSubscription(i, now);
            s.active && s.user == i.user && s.anchor == s.termStart == now && s.coverage == Paid(i.user, now)
  {}

  lemma ApplyingKeepsFunding(w: World, a: SettleAction)
    requires a.Applying? && SettleEnabled(w, a) && RowsOkIn(w) && OrdersOk(w.db.intents) && RenewalsOk(w.db.intents, w.db.subs, w.clock)
    requires FundingOk(w.db.intents, w.db.subs, w.clock) && w.db.intents[a.o].status.Pending?
    requires var e := Commit(w.db, SettleTx(w, a));
             && a.o in e.intents && e.intents[a.o].status.Applied? && forall u | u in e.subs :: e.subs[u].user == u && RowOk(e.subs[u])
    ensures var e := Commit(w.db, SettleTx(w, a)); FundingOk(e.intents, e.subs, w.clock)
  {
    hide ApplyTx, RowOk, NewSubscription, FundingOk, RowStep, ReadOk, IsVersion, Before, RenewalOk;
    var d, e := w.db, Commit(w.db, SettleTx(w, a));
    AppliedFields(d, a.o, a.p.key, a.now, a.packs);
    if d.intents[a.o].kind.Subscribe? {
      FirstRow(d, a.o, a.p.key, a.now, a.packs);
      NewRowIsOnGrid(d.intents[a.o], a.now);
      FirstTermStarts(d.intents[a.o], a.now);
      FirstKeepsFunding(d, e, a.o, NewSubscription(d.intents[a.o], a.now), w.clock);
    } else {
      SettlementSteps(w, a);
      if d.intents[a.o].kind.Renew? { RenewedTermStarts(d, a.o, a.p.key, a.now, a.packs); }
      AppliedKeepsFunding(d, e, a.o, w.clock);
    }
  }

  lemma MovesApplyNothing(a: SettleAction, before: Orders, after: Orders)
    requires Moves(a, before, after)
    requires !(a.Applying? && a.o in before && before[a.o].status.Pending? && IsApplied(after, a.o))
    ensures SameApplied(before, after)
  {}

  lemma SettlementKeepsFunding(w: World, a: SettleAction)
    requires SettleEnabled(w, a) && RowsOkIn(w) && OrdersOk(w.db.intents) && WaitingOk(w.db.intents, w.db.subs, w.heard)
    requires RenewalsOk(w.db.intents, w.db.subs, w.clock) && FundingOk(w.db.intents, w.db.subs, w.clock)
    ensures var e := Commit(w.db, SettleTx(w, a)); FundingOk(e.intents, e.subs, w.clock)
  {
    SettlementMoves(w, a);
    SettlementKeepsRows(w, a);
    hide SettleTx, RowOk, FundingOk, RowStep, ReadOk, IsVersion, RenewalsOk, WaitingOk, OrdersOk, SettleEnabled, NewSubscription;
    var d, e := w.db, Commit(w.db, SettleTx(w, a));
    if a.Applying? && a.o in d.intents && d.intents[a.o].status.Pending? && IsApplied(e.intents, a.o) {
      ApplyingKeepsFunding(w, a);
    } else {
      SettlementSteps(w, a);
      MovesApplyNothing(a, d.intents, e.intents);
      RowsAreWellDated(w);
      hide *;
      StepKeepsFunding(d, e, w.clock);
    }
  }

  lemma AppliesNothing(before: Orders, after: Orders)
    requires forall o | IsApplied(before, o) || IsApplied(after, o) :: o in before && o in after && before[o] == after[o]
    ensures SameApplied(before, after)
  {
    forall o ensures IsApplied(before, o) <==> IsApplied(after, o) {}
  }

  lemma RowsAreWellDated(w: World)
    requires RowsOkIn(w)
    ensures forall u | u in w.db.subs :: w.db.subs[u].user == u && RowOk(w.db.subs[u])
  {
    hide RowOk, ReadOk, IsVersion;
  }

  lemma CheckoutKeepsFunding(w: World, a: CheckoutAction)
    requires CheckoutEnabled(w, a) && RowsOkIn(w) && FundingOk(w.db.intents, w.db.subs, w.clock)
    ensures var e := Commit(w.db, CheckoutTx(w, a)); FundingOk(e.intents, e.subs, w.clock)
  {
    CheckoutGrows(w, a);
    CheckoutSteps(w, a);
    hide CheckoutTx, CheckoutEnabled, RowOk, ReadOk, IsVersion, FundingOk, RowStep, Grows;
    GrowthAppliesNothing(w.db, w.clock, Commit(w.db, CheckoutTx(w, a)).intents);
    hide *;
    AppliesNothing(w.db.intents, Commit(w.db, CheckoutTx(w, a)).intents);
    RowsAreWellDated(w);
    StepKeepsFunding(w.db, Commit(w.db, CheckoutTx(w, a)), w.clock);
  }

  lemma AdvancingKeepsFunding(d: Database, s: Subscription, clock: Time)
    requires FundingOk(d.intents, d.subs, clock)
    ensures FundingOk(d.intents, Commit(d, AdvanceGrantTx(d, s)).subs, clock)
  {
    hide WindowEnd, PaysForTerm;
    var e := Commit(d, AdvanceGrantTx(d, s));
    forall u | u in e.subs ensures TermPaid(d.intents, e.subs[u]) { assert TermPaid(d.intents, d.subs[u]); }
  }

  // ---- what a refund of a base charge ends -------------------------------------------------

  /** A base charge that still funds the row at an instant funds the very term the row is on, if and only
      if that term had started by then. */
  lemma FundsItsOwnTerm(d: Database, o: OrderId, at: Time, clock: Time)
    requires FundingOk(d.intents, d.subs, clock) && OrdersOk(d.intents) && PaysForTerm(d.intents, o) && Funds(d, d.intents[o], at)
    requires forall u | u in d.subs :: d.subs[u].user == u && RowOk(d.subs[u])
    requires RenewalOk(d.intents[o], d.subs)
    ensures var i, row := d.intents[o], d.subs[d.intents[o].user];
            && (row.termStart <= at ==> FundingStart(i) == row.termStart)
            && (i.appliedAt <= at ==> (FundingStart(i) == row.termStart <==> row.termStart <= at))
  {
    var i, row := d.intents[o], d.subs[d.intents[o].user];
    assert RowOk(row) && ChargeOk(i, clock) && TermPaid(d.intents, row) && NoLaterTerm(i, row);
    hide OnGrid;
    var renewal := Renewal(i.user, row.termStart);
    assert row.coverage == Paid(i.user, row.anchor) == i.coverage;
    assert row.termStart != row.anchor ==> IsApplied(d.intents, renewal) && OrderOk(d.intents[renewal]);
  }

  lemma LaterKeepsFunding(orders: Orders, subs: Subs, clock: Time, later: Time)
    requires FundingOk(orders, subs, clock) && clock <= later
    ensures FundingOk(orders, subs, later)
  {
    hide PaysForTerm, TermPaid, NoLaterTerm;
    forall o | o in orders ensures ChargeOk(orders[o], later) { assert ChargeOk(orders[o], clock); }
  }
}
