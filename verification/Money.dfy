/** Where the money of an order is, whatever interleaves and whatever answers are lost: the
    provider's captures against the journal's statuses. */
module Money {
  import opened Calendar
  import opened Ledger
  import opened Protocol
  import opened Journal

  type Captures = map<OrderId, Settlement>

  // ---- captures and their cancels ----------------------------------------------------------

  ghost predicate Sound(c: Settlement) {
    c.Captured? ==> c.amount > 0 && 0 <= Balance(c) && forall k | 0 <= k < |c.cancels| :: c.cancels[k].done ==> c.cancels[k].amount > 0
  }

  /** `c` has come on from `b`: a started payment settles once, a decline is final, and a capture
      keeps its payment and only gathers cancels. */
  ghost predicate Follows(b: Settlement, c: Settlement) {
    match b
    case Started => true
    case Declined(_) => c == b
    case Captured(key, amount, won, cancels) =>
      c.Captured? && c.key == key && c.amount == amount && c.won == won && cancels <= c.cancels
  }

  lemma {:induction false} SumDoneGrows(before: seq<Cancel>, after: seq<Cancel>)
    requires before <= after
    requires forall k | |before| <= k < |after| :: after[k].done ==> after[k].amount > 0
    ensures SumDone(before) <= SumDone(after)
    ensures (exists k :: |before| <= k < |after| && after[k].done) ==> SumDone(before) < SumDone(after)
    decreases |after|
  {
    if |before| < |after| {
      var init := after[..|after| - 1];
      SumDoneGrows(before, init);
      if k :| |before| <= k < |after| && after[k].done && k < |init| { assert init[k].done; }
    } else {
      assert before == after;
    }
  }

  lemma SumDoneOfAppend(cancels: seq<Cancel>, c: Cancel)
    ensures SumDone(cancels + [c]) == SumDone(cancels) + if c.done then c.amount else 0
  {
    assert (cancels + [c])[..|cancels|] == cancels;
  }

  /** Money that went back stays back: a balance never grows. */
  lemma BalanceFalls(b: Settlement, c: Settlement)
    requires Follows(b, c) && b.Captured? && Sound(c)
    ensures Balance(c) <= Balance(b)
  {
    SumDoneGrows(b.cancels, c.cancels);
  }

  // ---- the invariant -----------------------------------------------------------------------

  /** An answer that was read: the payment has only come on since. */
  ghost predicate StillTrue(provider: Captures, m: Message) {
    match m
    case Seen(p) =>
      p.order in provider && exists b :: Sound(b) && p == Observe(p.order, b) && Follows(b, provider[p.order])
    case ChargeRefused(o) => o in provider && provider[o].Declined?
    case _ => true
  }

  /** What each status says about the payment. */
  ghost predicate Backed(provider: Captures, i: Intent) {
    match i.status
    case Pending => true
    case Applied =>
      && i.order in provider && provider[i.order].Captured? && provider[i.order].amount == i.krw && provider[i.order].won
      && provider[i.order].key == i.paymentKey && i.paymentKey != 0
    case Review => i.order in provider && provider[i.order].Captured? && provider[i.order].key == i.paymentKey
    case Failed =>
      i.order in provider && (provider[i.order].Declined? || (provider[i.order].Captured? && Balance(provider[i.order]) == 0))
  }

  ghost predicate MoneyOk(orders: Orders, provider: Captures, heard: set<Message>) {
    && (forall o | o in orders :: orders[o].order == o)
    && (forall o | o in provider :: o in orders && Sound(provider[o]))
    && (forall m | m in heard :: StillTrue(provider, m))
    && (forall o | o in orders :: Backed(provider, orders[o]))
  }

  // ---- every step keeps it -----------------------------------------------------------------

  lemma ProviderFollows(w: World, a: EnvAction)
    requires EnvEnabled(w, a) && forall o | o in w.provider :: Sound(w.provider[o])
    ensures var next := NextProvider(w, a);
            && (forall o | o in w.provider :: o in next && Follows(w.provider[o], next[o]))
            && (forall o | o in next :: Sound(next[o]) && (o in w.provider || o in w.db.intents))
  {
    if a.NoteCancel? { SumDoneOfAppend(w.provider[a.o].cancels, a.cancel); }
    if a.CancelMoney? { SumDoneOfAppend(w.provider[a.o].cancels, Cancel(a.transaction, a.krw, true)); }
  }

  lemma FollowsIsTransitive(a: Settlement, b: Settlement, c: Settlement)
    requires Follows(a, b) && Follows(b, c)
    ensures Follows(a, c)
  {}

  lemma BackingLasts(before: Captures, after: Captures, i: Intent)
    requires Backed(before, i) && (i.order in before ==> i.order in after && Follows(before[i.order], after[i.order]) && Sound(after[i.order]))
    ensures Backed(after, i)
  {
    if i.status.Failed? && before[i.order].Captured? { BalanceFalls(before[i.order], after[i.order]); }
  }

  lemma AnswersLast(before: Captures, after: Captures, m: Message)
    requires StillTrue(before, m)
    requires forall o | o in before :: o in after && Follows(before[o], after[o])
    ensures StillTrue(after, m)
  {
    if m.Seen? {
      var p := m.payment;
      var b :| Sound(b) && p == Observe(p.order, b) && Follows(b, before[p.order]);
      FollowsIsTransitive(b, before[p.order], after[p.order]);
    }
  }

  lemma EnvKeepsMoney(w: World, a: EnvAction)
    requires EnvEnabled(w, a) && MoneyOk(w.db.intents, w.provider, w.heard)
    ensures MoneyOk(w.db.intents, NextProvider(w, a), w.heard + News(w, a))
  {
    var next := NextProvider(w, a);
    ProviderFollows(w, a);
    forall o | o in w.db.intents ensures Backed(next, w.db.intents[o]) { BackingLasts(w.provider, next, w.db.intents[o]); }
    forall m | m in w.heard ensures StillTrue(next, m) { AnswersLast(w.provider, next, m); }
    forall m | m in News(w, a) ensures StillTrue(next, m) {
      if m.Seen? { assert Follows(w.provider[a.o], w.provider[a.o]); }
    }
  }

  lemma GrowthKeepsMoney(d: Database, clock: Time, after: Orders, provider: Captures, heard: set<Message>)
    requires MoneyOk(d.intents, provider, heard) && Grows(d, clock, after)
    ensures MoneyOk(after, provider, heard)
  {
    hide FitsWhenAdded, StillTrue;
  }

  lemma SettlementKeepsMoney(w: World, a: SettleAction, after: Orders)
    requires SettleEnabled(w, a) && MoneyOk(w.db.intents, w.provider, w.heard) && Moves(a, w.db.intents, after)
    ensures MoneyOk(after, w.provider, w.heard)
  {
    if after != w.db.intents {
      var j := after[a.o];
      match a
      case Applying(o, p, _, _) => assert StillTrue(w.provider, Seen(p));
      case Reviewing(o, p, _) => assert StillTrue(w.provider, Seen(p));
      case Failing(o, why, _) =>
        assert StillTrue(w.provider, why);
        if why.Seen? && why.payment.status.Canceled? { CanceledIsEmpty(w.provider, why.payment); }
      case Returning(o, observed, captured) =>
        assert StillTrue(w.provider, Seen(observed));
        CanceledIsEmpty(w.provider, observed);
      assert Backed(w.provider, j);
    }
  }

  lemma CanceledIsEmpty(provider: Captures, p: Payment)
    requires StillTrue(provider, Seen(p)) && (p.status.Canceled? || (p.balance == 0 && p.cancels != []))
    requires p.order in provider && Sound(provider[p.order])
    ensures provider[p.order].Captured? && Balance(provider[p.order]) == 0
  {
    var b :| Sound(b) && p == Observe(p.order, b) && Follows(b, provider[p.order]);
    BalanceFalls(b, provider[p.order]);
  }

  // ---- what it means -----------------------------------------------------------------------

  /** Money safety. An order whose payment still holds a balance is pending, in review or applied;
      a failed order's payment holds nothing; an applied order captured exactly its own amount. */
  lemma MoneyIsSafe(orders: Orders, provider: Captures, heard: set<Message>, o: OrderId)
    requires MoneyOk(orders, provider, heard)
    ensures o in provider && provider[o].Captured? && Balance(provider[o]) > 0
            ==> o in orders && (orders[o].status.Open() || orders[o].status.Applied?)
    ensures o in orders && orders[o].status.Failed?
            ==> o in provider && (provider[o].Declined? || (provider[o].Captured? && Balance(provider[o]) == 0))
    ensures o in orders && orders[o].status.Applied?
            ==> o in provider && provider[o].Captured? && provider[o].amount == orders[o].krw && provider[o].won
  {}
}
