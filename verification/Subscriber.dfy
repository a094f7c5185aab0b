/** The first steps of some concrete runs: the account 0 subscribes at instant 0 and is charged, and its
    term is renewed when it ends. */
module Subscriber {
  import opened Calendar
  import opened Pricing
  import opened Ledger
  import opened Protocol

  /** One more step of a run. */
  lemma Onward(run: seq<Action>, w: World, a: Action) returns (next: seq<Action>)
    requires Reaches(run, w) && Enabled(w, a)
    ensures Reaches(next, Do(w, a))
  {
    hide Do, Enabled, IsRun, After;
    RunGoesOn(run, a);
    next := run + [a];
  }

  function Capturing(w: World, o: OrderId, key: Key): World
    requires o in w.db.intents
  {
    w.(provider := w.provider[o := Captured(key, w.db.intents[o].krw, true, [])],
       heard := w.heard + {Seen(Payment(o, key, Done, w.db.intents[o].krw, w.db.intents[o].krw, true, []))})
  }

  /** An order nobody charged yet is charged, the payment read, and applied. */
  lemma Charged(run: seq<Action>, w: World, o: OrderId, key: Key) returns (next: seq<Action>)
    requires Reaches(run, w) && o in w.db.intents && o !in w.provider && key != 0
    requires w.db.intents[o].krw > 0 && w.db.intents[o].insertedAt <= w.clock
    ensures var paid := Capturing(w, o, key);
            Reaches(next, paid.(db := Commit(w.db, ApplyTx(w.db, o, key, w.clock, map[]))))
  {
    hide IsRun, After, ApplyTx;
    var krw := w.db.intents[o].krw;
    var capture := Env(Capture(o, key, krw, true));
    next := Onward(run, w, capture);
    var captured := w.(provider := w.provider[o := Captured(key, krw, true, [])]);
    assert Do(w, capture) == captured;
    var payment := Observe(o, captured.provider[o]);
    assert payment == Payment(o, key, Done, krw, krw, true, []);
    next := Onward(next, captured, Env(HearPayment(o)));
    assert Do(captured, Env(HearPayment(o))) == Capturing(w, o, key);
    next := Onward(next, Capturing(w, o, key), Settle(Applying(o, payment, w.clock, map[])));
  }

  /** Someone reads an account's row. */
  lemma RowIsRead(run: seq<Action>, w: World, u: User) returns (next: seq<Action>, after: World)
    requires Reaches(run, w) && u in w.db.subs
    ensures after == w.(heard := w.heard + {RowRead(w.db.subs[u], w.clock)}) && Reaches(next, after)
  {
    hide IsRun, After;
    next := Onward(run, w, Env(ReadRow(u)));
    after := Do(w, Env(ReadRow(u)));
  }

  const ORDER := Issued(1)

  /** The account 0 and its row, with nothing open and no support coverage. */
  ghost predicate Holds(w: World, s: Subscription, orders: set<OrderId>) {
    && w.db.subs == map[0 := s] && s.user == 0 && s.active && s.tier == Light && s.anchor == 0
    && s.coverage == Paid(0, 0) && s.scheduledTier.None? && s.scheduledTerm.None?
    && w.db.methods == {0} && w.db.support == map[] && w.db.tiers == map[0 := Light] && w.db.intents.Keys == orders && w.provider.Keys == orders
    && forall o | o in w.db.intents :: w.db.intents[o].status.Applied?
  }

  function FirstOrder(term: Term): Intent { NewIntent(ORDER, 0, Subscribe, Light, term, 0, OfferPrice(Light, term), 0, 0, 0, 0) }

  function PaidOrder(term: Term): Intent {
    FirstOrder(term).(status := Applied, paymentKey := 1, appliedAt := 0, coverage := Paid(0, 0), fundingEnd := CoverageEnd(0, 0, term.Annual?))
  }

  /** Nothing was asked back of the first charge. */
  ghost predicate Untouched(w: World, term: Term) {
    && w.db.refunds == [] && w.db.guards == map[] && w.cancels == map[]
    && ORDER in w.db.intents && w.db.intents[ORDER] == PaidOrder(term)
    && ORDER in w.provider && w.provider[ORDER] == Captured(1, OfferPrice(Light, term), true, [])
    && Seen(Payment(ORDER, 1, Done, OfferPrice(Light, term), OfferPrice(Light, term), true, [])) in w.heard
  }

  lemma StartIsReached()
    ensures Reaches([], START)
  {}

  function Ordering(term: Term): World {
    START.(db := EMPTY_DATABASE.(methods := {0}, intents := map[ORDER := FirstOrder(term)]))
  }

  lemma Ordered(term: Term) returns (run: seq<Action>)
    ensures Reaches(run, Ordering(term))
  {
    StartIsReached();
    hide IsRun, After, OfferPrice;
    run := Onward([], START, Account(AddingMethod(0)));
    var w := Do(START, Account(AddingMethod(0)));
    var subscribe := Checkout(Subscribing(0, Light, term, 1, 0));
    run := Onward(run, w, subscribe);
    assert Do(w, subscribe) == Ordering(term);
  }

  /** The account subscribes at instant 0. */
  lemma Subscribed(term: Term) returns (run: seq<Action>, w: World)
    ensures Reaches(run, w) && w.clock == 0 && 0 in w.db.subs && w.db.subs[0].autoRenew && w.db.subs[0].term == term
    ensures Holds(w, w.db.subs[0], {ORDER}) && Untouched(w, term)
    ensures w.db.subs[0].termEnd == CoverageEnd(0, 0, term.Annual?) && w.db.subs[0].nextGrant == WindowEnd(0, 0)
  {
    run := Ordered(term);
    hide IsRun, After, CoverageEnd, WindowEnd, ApplyTx, OfferPrice;
    w := Ordering(term);
    run := Charged(run, w, ORDER, 1);
    FirstCharge(w.db, term);
    w := Capturing(w, ORDER, 1).(db := Commit(w.db, ApplyTx(w.db, ORDER, 1, w.clock, map[])));
  }

  lemma FirstCharge(d: Database, term: Term)
    requires d == EMPTY_DATABASE.(methods := {0}, intents := map[ORDER := FirstOrder(term)])
    ensures var e := Commit(d, ApplyTx(d, ORDER, 1, 0, map[]));
            && e.subs == map[0 := NewSubscription(FirstOrder(term), 0).(updatedAt := 1)]
            && e.methods == {0} && e.support == map[] && e.tiers == map[0 := Light] && e.refunds == [] && e.guards == map[]
            && e.intents == map[ORDER := PaidOrder(term)]
  {
    hide CoverageEnd, WindowEnd, OfferPrice;
    assert !Unapplicable(d, FirstOrder(term), 0, map[]);
  }

  /** The pass renews the row at its term's end, and the renewal is charged. */
  lemma Renewed(run: seq<Action>, w: World, end: Time) returns (next: seq<Action>, after: World)
    requires Reaches(run, w) && w.clock == end && 0 in w.db.subs && Holds(w, w.db.subs[0], {ORDER})
    requires RowRead(w.db.subs[0], end) in w.heard && w.db.subs[0].termEnd == end && w.db.subs[0].term == Monthly
    ensures Reaches(next, after) && after.clock == end && w.heard <= after.heard
    ensures 0 in after.db.subs && Holds(after, after.db.subs[0], {ORDER, Renewal(0, end)})
    ensures after.db.subs[0].termEnd == CoverageEnd(0, end, false) && after.db.subs[0].termStart == end
    ensures Renewal(0, end) in after.db.intents && after.db.intents[Renewal(0, end)].effectiveAt == end
    ensures after.db.refunds == w.db.refunds && ORDER in w.db.intents && ORDER in after.db.intents && after.db.intents[ORDER] == w.db.intents[ORDER]
  {
    hide IsRun, After, CoverageEnd, WindowEnd, ApplyTx;
    var renew := Checkout(Renewing(w.db.subs[0], end, end));
    next := Onward(run, w, renew);
    RenewalIsRecorded(w.db, end);
    var waiting := Do(w, renew);
    next := Charged(next, waiting, Renewal(0, end), 2);
    RenewalCharge(w.db, waiting.db, end);
    after := Capturing(waiting, Renewal(0, end), 2).(db := Commit(waiting.db, ApplyTx(waiting.db, Renewal(0, end), 2, end, map[])));
  }

  function RenewalOrder(s: Subscription, end: Time): Intent {
    NewIntent(Renewal(0, end), 0, Renew, Light, Monthly, 0, OfferPrice(Light, Monthly), s.updatedAt, end, end, end)
  }

  lemma RenewalIsRecorded(d: Database, end: Time)
    requires d.subs.Keys == {0} && d.subs[0].user == 0 && d.subs[0].active && d.subs[0].termEnd == end && d.methods == {0}
    requires d.subs[0].tier == Light && d.subs[0].term == Monthly && d.subs[0].scheduledTier.None? && d.subs[0].scheduledTerm.None?
    requires d.intents.Keys == {ORDER} && d.intents[ORDER].status.Applied?
    ensures RenewTx(d, d.subs[0], end, end)
            == Committed(d.(intents := d.intents[Renewal(0, end) := RenewalOrder(d.subs[0], end)]))
  {}

  lemma RenewalCharge(d: Database, e: Database, end: Time)
    requires d.subs.Keys == {0} && d.subs[0].user == 0 && d.subs[0].active && d.subs[0].termEnd == end
    requires d.subs[0].tier == Light && d.subs[0].anchor == 0 && d.subs[0].coverage.Paid? && d.support == map[]
    requires e == d.(intents := d.intents[Renewal(0, end) := RenewalOrder(d.subs[0], end)])
    ensures var f := Commit(e, ApplyTx(e, Renewal(0, end), 2, end, map[]));
            && f.subs.Keys == {0} && f.subs[0] == RenewedSubscription(d.subs[0], RenewalOrder(d.subs[0], end)).(updatedAt := d.nextStamp)
            && f.methods == d.methods && f.support == map[] && f.tiers == d.tiers && f.refunds == d.refunds
            && f.intents.Keys == e.intents.Keys && f.intents[Renewal(0, end)].status.Applied? && f.intents[Renewal(0, end)].effectiveAt == end
            && forall o | o in d.intents && o != Renewal(0, end) :: f.intents[o] == d.intents[o]
  {
    hide CoverageEnd, WindowEnd;
    assert !Unapplicable(e, RenewalOrder(d.subs[0], end), end, map[]);
  }

  lemma TermsFollow(anchor: Time, end: Time)
    requires end == CoverageEnd(anchor, anchor, false)
    ensures anchor < end < CoverageEnd(anchor, end, false)
  {
    hide *;
    BoundaryFallsInItsMonth(anchor, 0);
    AnchorIsOnGrid(anchor);
    TermFromBoundary(anchor, anchor, false);
    TermFromBoundary(anchor, end, false);
  }

  lemma AnchorIsOnGrid(anchor: Time)
    requires MonthBoundary(anchor, 0) == anchor
    ensures OnGrid(anchor, anchor)
  {
    hide MonthBoundary, MonthOf;
  }
}
