/** The billing flows: what each makes of the answers it gets, with everyone else acting between any
    two of its steps. A flow's own steps are appended to the log, which stays a run of the protocol:
    its checks are what makes each of its steps enabled. */
module Services {
  import opened Basics
  import opened Calendar
  import opened Pricing
  import opened Ledger
  import opened Protocol
  import opened Journal
  import opened Money
  import opened Books
  import opened Rows
  import opened Renewals
  import opened Tiers
  import opened Quotes
  import opened Refunds
  import opened Runs
  import opened Funding
  import opened Stores

  // ---- reading a payment's cancels ---------------------------------------------------------

  predicate Returns(cancel: Cancel, amount: int) { cancel.amount == amount && cancel.done && cancel.transaction != 0 }

  /** refunds.go: matchingCancelTransaction. The latest settled cancel of the amount, or the empty key. */
  method MatchingCancelTransaction(payment: Payment, amount: int) returns (transaction: Key)
    ensures transaction == 0 <==> forall k | 0 <= k < |payment.cancels| :: !Returns(payment.cancels[k], amount)
    ensures transaction != 0 ==>
              exists k | 0 <= k < |payment.cancels| ::
                payment.cancels[k] == Cancel(transaction, amount, true)
                && forall j | k < j < |payment.cancels| :: !Returns(payment.cancels[j], amount)
  {
    var i := |payment.cancels| - 1;
    while i >= 0
      invariant -1 <= i < |payment.cancels|
      invariant forall k | i < k < |payment.cancels| :: !Returns(payment.cancels[k], amount)
    {
      var candidate := payment.cancels[i];
      if candidate.amount == amount && candidate.done && candidate.transaction != 0 {
        assert Returns(payment.cancels[i], amount) && payment.cancels[i] == Cancel(candidate.transaction, amount, true);
        return candidate.transaction;
      }
      i := i - 1;
    }
    return 0;
  }

  /** refunds.go: confirmedCancelHasKey. */
  method ConfirmedCancelHasKey(payment: Payment, transaction: Key, amount: int) returns (found: bool)
    ensures found <==> HasCancel(payment.cancels, transaction, amount)
  {
    for k := 0 to |payment.cancels|
      invariant !HasCancel(payment.cancels[..k], transaction, amount)
    {
      var cancel := payment.cancels[k];
      if cancel.transaction == transaction && cancel.amount == amount && cancel.done { return true; }
    }
    assert payment.cancels[..|payment.cancels|] == payment.cancels;
    return false;
  }

  // ---- extending a run ---------------------------------------------------------------------

  lemma {:induction false} EnvKeepsRowsOfDb(log: seq<Action>, others: seq<Action>)
    requires IsRun(log) && IsRun(log + others) && forall k | 0 <= k < |others| :: others[k].Env?
    ensures After(log + others).db == After(log).db
    decreases |others|
  {
    if others == [] {
      assert log + others == log;
    } else {
      var init := others[..|others| - 1];
      assert (log + others)[..|log + others| - 1] == log + init;
      RunEndsWithAStep(log + others);
      EnvKeepsRowsOfDb(log, init);
    }
  }

  /** An order whose payment holds no money. */
  ghost predicate NothingHeld(provider: Captures, o: OrderId) {
    o in provider && (provider[o].Declined? || (provider[o].Captured? && Balance(provider[o]) == 0))
  }

  lemma FailureSeenMeansNothingHeld(w: World, o: OrderId, why: Message)
    requires Inv(w) && FailureSeen(w, o, why)
    ensures NothingHeld(w.provider, o)
  {
    hide CoverageOk, FundsOk, RefundsOkIn, OrdersOk, OneOpen, BooksOk, Backed;
    assert StillTrue(w.provider, why);
    if why.Seen? && why.payment.status.Canceled? { CanceledIsEmpty(w.provider, why.payment); }
  }

  lemma OrdersAreInThePast(w: World, o: OrderId)
    requires Inv(w) && o in w.db.intents
    ensures w.db.intents[o].insertedAt <= w.clock && w.db.intents[o].order == o
  {
    hide MoneyOk, OneOpen, BooksOk, RowsOk, WaitingOk, TiersOk, SupportOk, QuotesOk, FundsOk, RefundsOkIn;
  }

  datatype Answer = Found(payment: Payment) | Missing | Unread

  datatype ChargeAnswer = Charged | CardRefused | ChargeUnknown

  datatype CancelAnswer = Answered(payment: Payment) | ReadAfterRefusal(payment: Payment) | NoAnswer

  lemma AppliedIsPast(w: World, o: OrderId)
    requires Inv(w) && IsApplied(w.db.intents, o)
    ensures w.db.intents[o].appliedAt <= w.clock
  {
    hide JournalOk, CoverageOk, RefundsOkIn, RenewalsGranted, PaysForTerm, TermPaid, NoLaterTerm;
    assert ChargeOk(w.db.intents[o], w.clock);
  }

  /** What a settlement of the pending order `o` does while no one else writes. */
  ghost predicate SettledAlone(before: Database, after: Database, o: OrderId, packs: Catalog, e: Option<Error>) {
    match e
    case None => exists key: Key, at: Time :: after == Commit(before, ApplyTx(before, o, key, at, packs)) && IsApplied(after.intents, o)
    case Some(PaymentPending) =>
      o in after.intents && after.intents[o].status.Open() && after == before.(intents := before.intents[o := after.intents[o]])
    case Some(ChargeDeclined) => after == before || exists at: Time :: after == Commit(before, FailTx(before, o, at))
    case Some(error) => error.Storage? && after == before
  }

  lemma ApplySettles(d: Database, e: Database, o: OrderId, key: Key, at: Time, packs: Catalog, error: Option<Error>, reviewed: bool)
    requires o in d.intents && d.intents[o].status.Pending? && Carried(d, e, error, ApplyTx(d, o, key, at, packs))
    requires reviewed <==> Unapplicable(d, d.intents[o], at, packs)
    requires error.None? && !reviewed ==> IsApplied(e.intents, o)
    requires error.Some? ==> error.value.PaymentPending? || error.value.Storage?
    ensures SettledAlone(d, e, o, packs, if reviewed then Some(PaymentPending) else error)
  {
    hide Entitled, Unapplicable, MarkApplied, LogsNoCharge;
  }

  lemma FailSettles(d: Database, e: Database, o: OrderId, packs: Catalog, error: Option<Error>)
    requires if error.None? then exists at: Time :: e == Commit(d, FailTx(d, o, at)) else e == d
    ensures SettledAlone(d, e, o, packs, Some(ChargeDeclined))
  {
    hide FailTx;
  }

  lemma PendingIsSettledAlone(d: Database, o: OrderId, packs: Catalog)
    ensures o in d.intents && d.intents[o].status.Pending? ==> SettledAlone(d, d, o, packs, Some(PaymentPending))
  {
    assert o in d.intents ==> d.intents[o := d.intents[o]] == d.intents;
  }

  // ---- the billing pass, with no other writer ----------------------------------------------

  /** Nothing of any other account's subscription or orders changed. */
  ghost predicate OnlyTouches(before: Database, after: Database, u: User) {
    && (forall v | v != u && v in before.subs :: v in after.subs && after.subs[v] == before.subs[v])
    && (forall o | o in before.intents && before.intents[o].user != u :: o in after.intents && after.intents[o] == before.intents[o])
  }

  /** Lapsed, covered past `now`, blocked by an unresolved order, or reported. */
  ghost predicate Resolved(d: Database, u: User, now: Time, failed: bool) {
    failed || HasOpenOrder(d, u) || (u in d.subs && (!d.subs[u].active || now < d.subs[u].nextGrant))
  }

  lemma OnlyTouchesIsTransitive(a: Database, b: Database, c: Database, u: User)
    requires OnlyTouches(a, b, u) && OnlyTouches(b, c, u)
    ensures OnlyTouches(a, c, u)
  {}

  lemma AdvanceTouchesOne(d: Database, s: Subscription)
    ensures OnlyTouches(d, Commit(d, AdvanceGrantTx(d, s)), s.user)
  {
    hide WindowEnd;
  }

  lemma LapseTouchesOne(d: Database, s: Subscription)
    ensures OnlyTouches(d, Commit(d, LapseTx(d, s)), s.user)
    ensures s.user in Commit(d, LapseTx(d, s)).subs && !Commit(d, LapseTx(d, s)).subs[s.user].active
  {
    hide LogsNoCharge;
  }

  lemma RenewTouchesOne(d: Database, s: Subscription, now: Time, clock: Time)
    requires forall u | u in d.subs :: d.subs[u].user == u
    ensures OnlyTouches(d, Commit(d, RenewTx(d, s, now, clock)), s.user)
  {
    hide HasOpenOrder, OfferPrice, FailRenewal, LogsNoCharge;
  }

  /** The settlement of a renewal order while no one else writes: the term moves on past the one it
      extends, or the row lapses, or nothing changes. */
  lemma RenewalSettles(d: Database, e: Database, o: OrderId, packs: Catalog, error: Option<Error>)
    requires SettledAlone(d, e, o, packs, error) && o in d.intents && d.intents[o].kind.Renew? && d.intents[o].status.Pending?
    requires forall u | u in d.subs :: d.subs[u].user == u && RowOk(d.subs[u])
    requires OrderOk(d.intents[o]) && OnTermOf(d, d.intents[o])
    ensures var u := d.intents[o].user;
            && (error.None? ==> u in e.subs && d.subs[u].nextGrant < e.subs[u].nextGrant && OnlyTouches(d, e, u))
            && (error == Some(ChargeDeclined) ==> e == d || (u in e.subs && !e.subs[u].active && OnlyTouches(d, e, u)))
  {
    var i := d.intents[o];
    if error.None? {
      var key: Key, at: Time :| e == Commit(d, ApplyTx(d, o, key, at, packs)) && IsApplied(e.intents, o);
      RenewalAdvances(d, e, o, key, at, packs);
    } else if error == Some(ChargeDeclined) && e != d {
      var at: Time :| e == Commit(d, FailTx(d, o, at));
      RenewalLapses(d, o, at);
    }
  }

  lemma RenewalAdvances(d: Database, e: Database, o: OrderId, key: Key, at: Time, packs: Catalog)
    requires o in d.intents && d.intents[o].kind.Renew? && d.intents[o].status.Pending? && OrderOk(d.intents[o])
    requires e == Commit(d, ApplyTx(d, o, key, at, packs)) && IsApplied(e.intents, o)
    requires forall u | u in d.subs :: d.subs[u].user == u && RowOk(d.subs[u])
    ensures var u := d.intents[o].user; u in d.subs && u in e.subs && d.subs[u].nextGrant < e.subs[u].nextGrant && OnlyTouches(d, e, u)
  {
    var i := d.intents[o];
    ApplyOutcome(d, o, key, at, packs);
    ApplyMoves(d, Applying(o, Payment(o, key, Done, 0, 0, true, []), at, packs));
    hide ApplyTx, Entitled, Unapplicable, MarkApplied, LogsNoCharge;
    RenewedRowAdvances(d.subs[i.user], i);
    hide RenewedSubscription, RowOk;
  }

  lemma RenewedRowAdvances(s: Subscription, i: Intent)
    requires RowOk(s) && s.active
    ensures s.nextGrant < RenewedSubscription(s, i).nextGrant && RenewedSubscription(s, i).user == s.user
  {
    TermFromBoundary(s.anchor, s.termEnd, i.term.Annual?);
    hide OnGrid, WindowEnd, CoverageEnd;
  }

  lemma RenewalLapses(d: Database, o: OrderId, at: Time)
    requires o in d.intents && d.intents[o].kind.Renew? && d.intents[o].status.Pending? && OnTermOf(d, d.intents[o])
    requires forall u | u in d.subs :: d.subs[u].user == u
    ensures var u, e := d.intents[o].user, Commit(d, FailTx(d, o, at));
            u in e.subs && !e.subs[u].active && OnlyTouches(d, e, u)
  {
    hide FailRenewal, LogsNoCharge, Log;
  }

  /** For the row as it is, a renewal is refused only behind an unresolved order: no stale quote, no
      unsold tier, no order id already taken. */
  lemma CurrentRenewalGoesThrough(w: World, s: Subscription, now: Time)
    requires Inv(w) && s.user in w.db.subs && w.db.subs[s.user] == s && s.active
    ensures RenewTx(w.db, s, now, w.clock).Refused? ==> HasOpenOrder(w.db, s.user) && RenewTx(w.db, s, now, w.clock).error == PaymentPending
  {
    hide HasOpenOrder, OfferPrice, FailRenewal, LogsNoCharge, MoneyOk, OneOpen, BooksOk, WaitingOk, TiersOk, QuotesOk, FundsOk, RefundsOkIn, OnGrid, IsVersion, ReadOk, RenewalOk;
    assert RowOk(s);
    if !HasOpenOrder(w.db, s.user) { RenewalIdIsFree(w, s); }
  }

  class Service {
    const store: Store
    // Whether no one else writes: the provider and the clock still move.
    const alone: bool
    var provider: map<OrderId, Settlement>
    var cancels: map<CancelKey, CancelOutcome>
    var heard: set<Message>
    var operated: set<User>
    var clock: Time
    var log: seq<Action>

    function Now(): World
      reads this, store
    {
      World(store.Db(), provider, cancels, heard, operated, clock)
    }

    ghost predicate Valid()
      reads this, store
    {
      IsRun(log) && Now() == After(log)
    }

    twostate predicate Moved()
      reads this, store
    {
      Valid() && old(log) <= log && Later(old(Now()), Now())
    }

    twostate predicate Untouched()
      reads store
    {
      store.Db() == old(store.Db())
    }

    constructor (alone: bool)
      ensures Valid() && log == [] && fresh(store) && this.alone == alone
    {
      store := new Store();
      this.alone := alone;
      provider, cancels, heard, operated, clock, log := map[], map[], {}, {}, 0, [];
    }

    /** Anyone's actions, as many as may happen before the next step. */
    method Others()
      requires Valid()
      modifies this, store
      ensures Moved() && (alone ==> Untouched())
    {
      hide IsRun, After, Later, Inv, Do, Enabled;
      LaterIsReflexive(Now());
      var others: seq<Action> := *;
      if IsRun(log + others) && (alone ==> forall k | 0 <= k < |others| :: others[k].Env?) {
        assert (log + others)[..|log|] == log;
        RunsOnlyMoveOn(log + others, |log|);
        if alone { EnvKeepsRowsOfDb(log, others); }
        var next := After(log + others);
        log := log + others;
        store.Restore(next.db);
        provider, cancels, heard, operated, clock := next.provider, next.cancels, next.heard, next.operated, next.clock;
      }
    }

    /** A message sent or an answer read. */
    method Take(e: EnvAction)
      requires Valid() && EnvEnabled(Now(), e)
      modifies this
      ensures Moved() && Untouched() && heard == old(heard) + News(old(Now()), e)
      ensures !e.Tick? ==> clock == old(clock)
    {
      hide IsRun, After, Later, Inv, EnvEnabled, NextProvider, NextCancels, News;
      ghost var w := Now();
      EveryRunKeepsInv(log);
      StepIsLater(w, Env(e));
      RunGoesOn(log, Env(e));
      var next := Now();
      provider, cancels, heard := NextProvider(next, e), NextCancels(next, e), next.heard + News(next, e);
      clock := if e.Tick? then e.to else clock;
      log := log + [Env(e)];
    }

    /** The log after a transaction of this worker. */
    method Record(a: Action, ghost before: World)
      requires IsRun(log) && After(log) == before && Enabled(before, a) && Now() == Do(before, a)
      modifies this`log
      ensures Valid() && log == old(log) + [a] && Later(before, Now())
    {
      hide IsRun, After, Later, Inv, Do, Enabled;
      EveryRunKeepsInv(log);
      StepIsLater(before, a);
      RunGoesOn(log, a);
      log := log + [a];
    }

    // ---- the provider ----------------------------------------------------------------------

    method PaymentByOrder(o: OrderId) returns (answer: Answer)
      requires Valid()
      modifies this, store
      ensures Moved() && (alone ==> Untouched())
      ensures answer.Found? ==> Seen(answer.payment) in heard && answer.payment.order == o
    {
      hide IsRun, After, Later, Do;
      ghost var w := Now();
      Others();
      var lost: bool := *;
      if lost { return Unread; }
      if o !in provider { return Missing; }
      var payment := Observe(o, provider[o]);
      ghost var v := Now();
      Take(HearPayment(o));
      LaterIsTransitive(w, v, Now());
      return Found(payment);
    }

    /** The charge may take effect whatever is answered; only a card's own refusal is told apart. */
    method Charge(i: Intent) returns (answer: ChargeAnswer)
      requires Valid()
      modifies this, store
      ensures Moved() && (alone ==> Untouched())
      ensures answer.CardRefused? ==> ChargeRefused(i.order) in heard
    {
      hide IsRun, After, Later, Do;
      ghost var w := Now();
      Others();
      var lost: bool := *;
      if lost { return ChargeUnknown; }
      if i.order in provider && provider[i.order].Declined? {
        ghost var v := Now();
        Take(HearChargeRefusal(i.order));
        LaterIsTransitive(w, v, Now());
        return CardRefused;
      }
      return Charged;
    }

    /** A definitive refusal may also answer the retry of a cancel that went through: the payment is
        read back. */
    method ReadRefusedBack(paymentKey: Key, o: OrderId, key: CancelKey) returns (answer: CancelAnswer)
      requires Valid() && key in cancels
      modifies this, store
      ensures Moved() && !answer.Answered?
      ensures answer.ReadAfterRefusal? ==>
                && Seen(answer.payment) in heard && answer.payment.order == o
                && RefusedThenSeen(key, answer.payment) in heard && answer.payment.key == paymentKey
    {
      hide IsRun, After, Do, MovesOn, RequestsMoveOn;
      ghost var w := Now();
      Take(HearCancelRefusal(key));
      ghost var told := Now();
      assert CancelRefused(key) in heard;
      Others();
      LaterIsTransitive(w, told, Now());
      var unread: bool := *;
      if unread || o !in provider { return NoAnswer; }
      var observed := Observe(o, provider[o]);
      ghost var v := Now();
      Take(ReadBack(key, o));
      LaterIsTransitive(w, v, Now());
      if observed.key != paymentKey { return NoAnswer; }
      return ReadAfterRefusal(observed);
    }

    /** provider_refusals.go: cancelOrReadBack. */
    method CancelOrReadBack(paymentKey: Key, o: OrderId, amount: int, key: CancelKey) returns (answer: CancelAnswer)
      requires Valid() && MayAsk(Now(), key, o, amount)
      modifies this, store
      ensures Moved()
      ensures !answer.NoAnswer? ==> Seen(answer.payment) in heard && answer.payment.order == o
      ensures answer.ReadAfterRefusal? ==> RefusedThenSeen(key, answer.payment) in heard && answer.payment.key == paymentKey
    {
      hide IsRun, After, Later, Do;
      ghost var w := Now();
      Take(AskCancel(key, o, amount));
      ghost var asked := Now();
      Others();
      LaterIsTransitive(w, asked, Now());
      var lost: bool := *;
      if lost || key !in cancels || o !in provider { return NoAnswer; }
      var refused: bool := *;
      if cancels[key].DoneAt? && !refused {
        var payment := Observe(o, provider[o]);
        ghost var v := Now();
        Take(HearPayment(o));
        LaterIsTransitive(w, v, Now());
        return Answered(payment);
      }
      ghost var v := Now();
      answer := ReadRefusedBack(paymentKey, o, key);
      LaterIsTransitive(w, v, Now());
    }

    // ---- fixed_settlement.go ---------------------------------------------------------------

    method RecordSettlement(a: SettleAction, ghost before: World)
      requires IsRun(log) && After(log) == before && SettleEnabled(before, a)
      requires Now() == before.(db := Commit(before.db, SettleTx(before, a)))
      modifies this`log
      ensures Valid() && old(log) <= log && Later(before, Now())
    {
      hide IsRun, After, Later, SettleEnabled, SettleTx;
      Record(Settle(a), before);
    }

    /** `i` is an order as it was read, however long ago. */
    ghost predicate Known(i: Intent)
      reads this, store
    {
      i.order in store.intents && MovesOn(i, store.intents[i.order]) && i.insertedAt <= clock
    }

    method ApplyFixedPayment(i: Intent, p: Payment, packs: Catalog) returns (e: Option<Error>)
      requires Valid() && Known(i) && Seen(p) in heard && p.order == i.order
      requires p.status.Done? && p.key != 0 && p.amount == i.krw && p.won
      modifies this, store
      ensures Moved() && (e.Some? ==> e.value.PaymentPending? || e.value.Storage?)
      ensures e.None? ==> IsApplied(store.intents, i.order)
      ensures alone && old(store.intents[i.order].status.Pending?) ==>
                SettledAlone(old(store.Db()), store.Db(), i.order, packs, e)
    {
      hide IsRun, After, ApplyTx, Inv, RequestsMoveOn, Unapplicable;
      ghost var start := Now();
      var now := clock;
      Others();
      var fails: bool := *;
      if fails { return Some(Storage); }
      ghost var before := Now();
      EveryRunKeepsInv(log);
      OrdersAreInThePast(before, i.order);
      hide SettledAlone;
      var a := Applying(i.order, p, now, packs);
      assert SettleEnabled(before, a);
      hide SettleEnabled;
      var reviewed;
      e, reviewed := store.ApplyFixedPayment(i.order, p.key, now, packs);
      RecordSettlement(a, before);
      LaterIsTransitive(start, before, Now());
      if before.db.intents[i.order].status.Pending? {
        ApplySettles(before.db, store.Db(), i.order, p.key, now, packs, e, reviewed);
      }
      if reviewed { return Some(PaymentPending); }
    }

    method ReviewFixedIntent(i: Intent, p: Payment) returns (e: Option<Error>)
      requires Valid() && Known(i) && Seen(p) in heard && p.order == i.order && p.status.Done?
      modifies this, store
      ensures Moved() && (e == Some(PaymentPending) || e == Some(Storage))
      ensures alone && old(store.intents[i.order].status.Pending?) ==>
                SettledAlone(old(store.Db()), store.Db(), i.order, map[], e)
    {
      hide IsRun, After, Inv, RequestsMoveOn;
      ghost var start := Now();
      var now := clock;
      Others();
      var fails: bool := *;
      if fails { return Some(Storage); }
      ghost var before := Now();
      var _ := store.ReviewFixedIntent(i.order, p.key, now);
      RecordSettlement(Reviewing(i.order, p, now), before);
      LaterIsTransitive(start, before, Now());
      return Some(PaymentPending);
    }

    method FailFixedIntent(i: Intent, why: Message) returns (e: Option<Error>)
      requires Valid() && Known(i) && FailureSeen(Now(), i.order, why)
      modifies this, store
      ensures Moved() && (e.None? || e == Some(Storage)) && NothingHeld(provider, i.order)
      ensures e.None? ==> i.order in store.intents && !store.intents[i.order].status.Pending?
      ensures e.None? && alone ==> exists at: Time :: store.Db() == Commit(old(store.Db()), FailTx(old(store.Db()), i.order, at))
      ensures e.Some? && alone ==> Untouched()
    {
      hide IsRun, After, Inv, RequestsMoveOn, FailTx;
      ghost var start := Now();
      var now := clock;
      Others();
      ghost var before := Now();
      EveryRunKeepsInv(log);
      FailureSeenMeansNothingHeld(before, i.order, why);
      var fails: bool := *;
      if fails { return Some(Storage); }
      var _ := store.FailFixedIntent(i.order, now);
      RecordSettlement(Failing(i.order, why, now), before);
      LaterIsTransitive(start, before, Now());
      FailedIsNotPending(before.db, i.order, now);
      return None;
    }

    static lemma FailedIsNotPending(d: Database, o: OrderId, now: Time)
      requires o in d.intents
      ensures var e := Commit(d, FailTx(d, o, now)); o in e.intents && !e.intents[o].status.Pending?
    {
      hide FailRenewal, Log;
    }

    /** What every settlement flow reports: success only for an applied order, a declined charge only
        where the provider holds no money. */
    ghost predicate Reports(i: Intent, e: Option<Error>)
      reads this, store
    {
      && (e.None? ==> IsApplied(store.intents, i.order))
      && (e == Some(ChargeDeclined) ==> NothingHeld(provider, i.order))
    }

    method ReconcileFixedPayment(i: Intent, p: Payment, packs: Catalog) returns (e: Option<Error>)
      requires Valid() && Known(i) && Seen(p) in heard
      modifies this, store
      ensures Moved() && Reports(i, e)
      ensures alone && old(store.intents[i.order].status.Pending?) ==>
                SettledAlone(old(store.Db()), store.Db(), i.order, packs, e)
    {
      hide IsRun, After, Later, Inv, FailTx, ApplyTx;
      LaterIsReflexive(Now());
      if p.order != i.order { return Some(PaymentPending); }
      if p.status.Done? {
        if p.key == 0 || p.amount != i.krw || !p.won {
          e := ReviewFixedIntent(i, p);
        } else {
          e := ApplyFixedPayment(i, p, packs);
        }
        return;
      }
      if p.status.Aborted? || p.status.Expired? || p.status.Canceled? {
        e := FailFixedIntent(i, Seen(p));
        if e.Some? { return; }
        return Some(ChargeDeclined);
      }
      return Some(PaymentPending);
    }

    method ProcessFixedIntent(i: Intent, packs: Catalog) returns (e: Option<Error>)
      requires Valid() && Known(i)
      modifies this, store
      ensures Moved() && Reports(i, e)
      ensures alone && i.status.Pending? && old(store.intents[i.order].status.Pending?) ==>
                SettledAlone(old(store.Db()), store.Db(), i.order, packs, e)
    {
      hide IsRun, After, Inv, FailTx, ApplyTx, SettledAlone, RequestsMoveOn, Later, MovesOn;
      ghost var start := Now();
      LaterIsReflexive(start);
      PendingIsSettledAlone(store.Db(), i.order, packs);
      if !i.status.Pending? { return Some(PaymentPending); }
      var read := PaymentByOrder(i.order);
      ghost var seen := Now();
      LaterKnows(start, seen, i);
      if read.Unread? { return Some(PaymentPending); }
      if read.Missing? {
        e, read := ChargeAndRead(i, packs);
        LaterIsTransitive(start, seen, Now());
        LaterKnows(start, Now(), i);
        seen := Now();
        if e.Some? { return; }
      }
      e := ReconcileFixedPayment(i, read.payment, packs);
      LaterIsTransitive(start, seen, Now());
    }

    /** The charge of ProcessFixedIntent, up to the payment read after it. */
    method ChargeAndRead(i: Intent, packs: Catalog) returns (e: Option<Error>, read: Answer)
      requires Valid() && Known(i)
      modifies this, store
      ensures Moved() && Reports(i, if e.None? then Some(PaymentPending) else e)
      ensures e.None? ==> read.Found? && Seen(read.payment) in heard && read.payment.order == i.order && (alone ==> Untouched())
      ensures e.Some? && alone && old(store.intents[i.order].status.Pending?) ==>
                SettledAlone(old(store.Db()), store.Db(), i.order, packs, e)
    {
      hide IsRun, After, Inv, FailTx, ApplyTx, SettledAlone, RequestsMoveOn, Later, MovesOn;
      ghost var start := Now();
      PendingIsSettledAlone(store.Db(), i.order, packs);
      read := Unread;
      var answer := Charge(i);
      ghost var charged := Now();
      LaterKnows(start, charged, i);
      if answer.CardRefused? {
        e := FailFixedIntent(i, ChargeRefused(i.order));
        LaterIsTransitive(start, charged, Now());
        if alone && start.db.intents[i.order].status.Pending? { FailSettles(start.db, store.Db(), i.order, packs, e); }
        return Some(ChargeDeclined), read;
      }
      if answer.ChargeUnknown? { return Some(PaymentPending), read; }
      read := PaymentByOrder(i.order);
      LaterIsTransitive(start, charged, Now());
      return if read.Found? then None else Some(PaymentPending), read;
    }

    static lemma LaterKnows(v: World, w: World, i: Intent)
      requires Later(v, w) && i.order in v.db.intents && MovesOn(i, v.db.intents[i.order]) && i.insertedAt <= v.clock
      ensures i.order in w.db.intents && MovesOn(i, w.db.intents[i.order]) && i.insertedAt <= w.clock
    {
      assert MovesOn(v.db.intents[i.order], w.db.intents[i.order]);
    }

    /** fixed_settlement.go: ReconcileOrder, the webhook's path. */
    method ReconcileOrder(o: OrderId, packs: Catalog) returns (e: Option<Error>)
      requires Valid()
      modifies this, store
      ensures Moved()
      ensures e.None? && o in old(store.intents) ==> !store.intents[o].status.Pending?
    {
      hide IsRun, After, Inv, RequestsMoveOn, SettledAlone;
      ghost var start := Now();
      LaterIsReflexive(start);
      if o !in store.intents { return None; }
      var i := store.intents[o];
      if !i.status.Pending? { return None; }
      EveryRunKeepsInv(log);
      OrdersAreInThePast(start, o);
      var read := PaymentByOrder(o);
      if !read.Found? { return Some(PaymentPending); }
      ghost var before := Now();
      e := ReconcileFixedPayment(i, read.payment, packs);
      LaterIsTransitive(start, before, Now());
    }

    // ---- unapplied_captures.go -------------------------------------------------------------

    /** The whole capture of an order in review goes back, and only then is the order failed. */
    method RefundUnapplied(i: Intent) returns (e: Option<Error>)
      requires Valid() && Known(i) && i.status.Review?
      modifies this, store
      ensures Moved()
      ensures e.None? ==> i.order in store.intents && store.intents[i.order].status.Failed? && NothingHeld(provider, i.order)
    {
      hide IsRun, After, Inv, RequestsMoveOn, Do;
      ghost var start := Now();
      var read := PaymentByOrder(i.order);
      ghost var seen := Now();
      if !read.Found? || read.payment.order != i.order || read.payment.key == 0 { return Some(RefundProviderPending); }
      var captured := read.payment;
      var observed := CancelInFull(captured, i.order);
      ghost var known := Now();
      LaterIsTransitive(start, seen, known);
      if observed.None? { return Some(RefundProviderPending); }
      var returned := ReturnedInFull(observed.value, captured);
      if !returned { return Some(RefundProviderPending); }
      e := CompleteUnappliedRefund(i, observed.value, captured);
      LaterIsTransitive(start, known, Now());
    }

    /** Asks for the whole capture back and reads the payment: the answer to the cancel is not the
        record. */
    method CancelInFull(captured: Payment, o: OrderId) returns (observed: Option<Payment>)
      requires Valid() && MayAsk(Now(), ForOrder(o), o, captured.amount)
      modifies this, store
      ensures Moved() && (observed.Some? ==> Seen(observed.value) in heard)
    {
      hide IsRun, After, Do, MovesOn, RequestsMoveOn;
      ghost var start := Now();
      var answer := CancelOrReadBack(captured.key, o, captured.amount, ForOrder(o));
      if answer.NoAnswer? { return None; }
      if answer.ReadAfterRefusal? { return Some(answer.payment); }
      ghost var asked := Now();
      var again := PaymentByOrder(o);
      LaterIsTransitive(start, asked, Now());
      return if again.Found? then Some(again.payment) else None;
    }

    /** unapplied_captures.go: returnedInFull. */
    static method ReturnedInFull(observed: Payment, captured: Payment) returns (returned: bool)
      ensures returned <==> Protocol.ReturnedInFull(observed, captured)
    {
      if observed.key != captured.key || observed.order != captured.order || observed.amount != captured.amount
         || observed.won != captured.won || observed.balance != 0 { return false; }
      var transaction := MatchingCancelTransaction(observed, captured.amount);
      assert forall k | 0 <= k < |observed.cancels| :: Returns(observed.cancels[k], captured.amount) <==>
        observed.cancels[k].amount == captured.amount && observed.cancels[k].done && observed.cancels[k].transaction != 0;
      return transaction != 0;
    }

    method CompleteUnappliedRefund(i: Intent, observed: Payment, captured: Payment) returns (e: Option<Error>)
      requires Valid() && Known(i) && i.status.Review? && Seen(observed) in heard && Seen(captured) in heard
      requires captured.order == i.order && captured.key != 0 && Protocol.ReturnedInFull(observed, captured)
      modifies this, store
      ensures Moved()
      ensures e.None? ==> i.order in store.intents && store.intents[i.order].status.Failed? && NothingHeld(provider, i.order)
    {
      hide IsRun, After, Inv, RequestsMoveOn, Do, CompleteUnappliedTx;
      ghost var start := Now();
      Others();
      var fails: bool := *;
      if fails { return Some(Storage); }
      ghost var before := Now();
      EveryRunKeepsInv(log);
      OrdersAreInThePast(before, i.order);
      ReturnedMeansNothingHeld(before, observed, captured);
      var _ := store.CompleteUnappliedRefund(i, observed.key, captured.amount);
      RecordSettlement(Returning(i.order, observed, captured), before);
      LaterIsTransitive(start, before, Now());
      ReturnedIsFailed(before.db, i.order, observed.key, captured.amount);
      return None;
    }

    static lemma ReturnedMeansNothingHeld(w: World, observed: Payment, captured: Payment)
      requires Inv(w) && Seen(observed) in w.heard && Protocol.ReturnedInFull(observed, captured)
      ensures NothingHeld(w.provider, captured.order)
    {
      hide CoverageOk, FundsOk, RefundsOkIn, OrdersOk, OneOpen, BooksOk, Backed;
      assert StillTrue(w.provider, Seen(observed));
      CanceledIsEmpty(w.provider, observed);
    }

    static lemma ReturnedIsFailed(d: Database, o: OrderId, key: Key, amount: int)
      requires o in d.intents && (d.intents[o].status.Review? || d.intents[o].status.Failed?)
      ensures var e := Commit(d, CompleteUnappliedTx(d, o, key, amount)); o in e.intents && e.intents[o].status.Failed?
    {
      hide FailRenewal, Log;
    }

    // ---- refunds.go ------------------------------------------------------------------------

    method RecordRefunding(a: RefundAction, ghost before: World)
      requires IsRun(log) && After(log) == before && RefundEnabled(before, a) && !a.Recording?
      requires Now() == before.(db := Commit(before.db, RefundTx(before, a)))
      modifies this`log
      ensures Valid() && old(log) <= log && Later(before, Now())
    {
      hide IsRun, After, Later, RefundEnabled, RefundTx;
      Record(Refunding(a), before);
    }

    /** `request` is a reviewed request, and `payment` its order, as they were read. */
    ghost predicate UnderReview(r: nat, request: Refund, payment: Intent)
      reads this, store
    {
      && r < |store.refunds| && Reviewed(request) && RequestMovesOn(request, store.refunds[r])
      && request.order in store.intents && store.intents[request.order] == payment && payment.status.Applied?
      && payment.order == request.order
    }

    /** The refusal path: an untouched balance means no money moved, so the frozen funding goes back. */
    method ReleaseRefused(r: nat, request: Refund, payment: Intent, observed: Payment) returns (e: Option<Error>)
      requires Valid() && UnderReview(r, request, payment)
      requires RefusedThenSeen(ForRequest(r), observed) in heard && observed.order == request.order
      requires observed.balance == request.balanceBefore
      modifies this, store
      ensures Moved() && ForRequest(r) in cancels && cancels[ForRequest(r)].RefusedForGood?
    {
      hide IsRun, After, Inv, RequestsMoveOn, FailRefundTx;
      ghost var start := Now();
      Others();
      ghost var before := Now();
      ReviewingLasts(start, before, r, request, payment);
      EveryRunKeepsInv(log);
      RefusalIsFinal(before, r, observed);
      var fails: bool := *;
      if fails { return Some(Storage); }
      e := store.ReleaseAndFailRefund(r);
      RecordRefunding(Releasing(r, observed), before);
      LaterIsTransitive(start, before, Now());
    }

    static lemma ReviewingLasts(v: World, w: World, r: nat, request: Refund, payment: Intent)
      requires Later(v, w) && r < |v.db.refunds| && RequestMovesOn(request, v.db.refunds[r])
      requires request.order in v.db.intents && v.db.intents[request.order] == payment && payment.status.Applied?
      ensures r < |w.db.refunds| && RequestMovesOn(request, w.db.refunds[r])
      ensures request.order in w.db.intents && w.db.intents[request.order] == payment
    {}

    static lemma RefusalIsFinal(w: World, r: nat, observed: Payment)
      requires Inv(w) && r < |w.db.refunds| && Reviewed(w.db.refunds[r]) && RefusedThenSeen(ForRequest(r), observed) in w.heard
      requires observed.order == w.db.refunds[r].order && observed.balance == w.db.refunds[r].balanceBefore
      ensures ForRequest(r) in w.cancels && w.cancels[ForRequest(r)].RefusedForGood?
    {
      hide OrdersOk, OneOpen, BooksOk, CoverageOk, FundsOk, RefundsOk, MoneyOk;
      UntouchedBalanceIsRefused(w, r, observed);
    }

    method RecordRefundProviderAttempt(r: nat, request: Refund, payment: Intent, transaction: Key, shown: Payment)
      returns (e: Option<Error>)
      requires Valid() && UnderReview(r, request, payment) && Seen(shown) in heard
      requires Shows(request, payment, shown, transaction)
      modifies this, store
      ensures Moved() && (e.None? ==> AttemptRecorded(r, transaction) in heard) && e != Some(RefundDeclined)
    {
      hide IsRun, After, Later, Inv, RequestsMoveOn, TransactionFree, LogsNoCharge;
      ghost var start := Now();
      Others();
      ghost var before := Now();
      ReviewingLasts(start, before, r, request, payment);
      LaterHears(start, before);
      var fails: bool := *;
      if fails { return Some(Storage); }
      e := store.RecordRefundProviderAttempt(r, transaction);
      if e.None? { heard := heard + {AttemptRecorded(r, transaction)}; }
      Record(Refunding(Recording(r, transaction, shown)), before);
      LaterIsTransitive(start, before, Now());
    }

    static lemma LaterHears(v: World, w: World)
      requires Later(v, w)
      ensures v.heard <= w.heard && v.clock <= w.clock
    {}

    method SettleRefund(r: nat, request: Refund, payment: Intent, transaction: Key, shown: Payment, prior: Option<Plan>)
      returns (e: Option<Error>)
      requires Valid() && UnderReview(r, request, payment) && Seen(shown) in heard && AttemptRecorded(r, transaction) in heard
      requires Shows(request, payment, shown, transaction) && (prior.Some? ==> Billable(prior.value))
      modifies this, store
      ensures Moved() && (e.None? ==> r < |store.refunds| && store.refunds[r].status.Completed?) && e != Some(RefundDeclined)
    {
      hide IsRun, After, Later, Inv, RequestsMoveOn, CompleteRefundTx;
      ghost var start := Now();
      EveryRunKeepsInv(log);
      AppliedIsPast(start, request.order);
      var now := clock;
      Others();
      ghost var before := Now();
      ReviewingLasts(start, before, r, request, payment);
      LaterHears(start, before);
      var fails: bool := *;
      if fails { return Some(Storage); }
      e := store.SettleRefund(r, transaction, prior, now);
      CommittedIsCompleted(before.db, r, transaction, prior, now);
      RecordRefunding(Completing(r, transaction, shown, prior, now), before);
      LaterIsTransitive(start, before, Now());
    }

    static lemma CommittedIsCompleted(d: Database, r: nat, transaction: Key, prior: Option<Plan>, at: Time)
      ensures var tx := CompleteRefundTx(d, r, transaction, prior, at);
              if tx.Committed? then r < |tx.db.refunds| && tx.db.refunds[r].status.Completed? else tx.error != RefundDeclined
    {
      hide TransactionFree, LogsNoCharge, BeforeFundingEnd, Rewritten, ReversalOf;
    }

    /** The payment shows the reviewed amount gone. */
    ghost predicate Shows(request: Refund, payment: Intent, shown: Payment, transaction: Key) {
      && transaction != 0 && HasCancel(shown.cancels, transaction, request.amount)
      && shown.key == payment.paymentKey && shown.order == payment.order && shown.amount == payment.krw && shown.won
      && shown.balance <= request.balanceBefore - request.amount
    }

    /** Success only for a completed request; a declined one only where the provider refused its
        cancel for good. `prior` is the tier the transition history gives before an upgrade. */
    ghost predicate RefundReports(r: nat, e: Option<Error>)
      reads this, store
    {
      && (e.None? ==> r < |store.refunds| && store.refunds[r].status.Completed?)
      && (e == Some(RefundDeclined) ==> ForRequest(r) in cancels && cancels[ForRequest(r)].RefusedForGood?)
    }

    /** The request's own cancel, asked for under its one key: the transaction to settle it by, or why
        there is none yet. */
    method CancelReviewed(r: nat, request: Refund, payment: Intent) returns (transaction: Key, e: Option<Error>)
      requires Valid() && UnderReview(r, request, payment)
      modifies this, store
      ensures Moved() && UnderReview(r, request, payment) && RefundReports(r, if e.None? then Some(Storage) else e)
      ensures e.None? ==> AttemptRecorded(r, transaction) in heard
    {
      hide IsRun, After, Inv, RequestsMoveOn, Do;
      transaction := 0;
      ghost var start := Now();
      if clock - request.reviewedAt >= REFUND_WINDOW {
        LaterIsReflexive(start);
        return 0, Some(RefundProviderPending);
      }
      var answer := CancelOrReadBack(payment.paymentKey, payment.order, request.amount, ForRequest(r));
      ghost var asked := Now();
      ReviewingLasts(start, asked, r, request, payment);
      if answer.NoAnswer? { return 0, Some(RefundProviderPending); }
      var canceled := answer.payment;
      if answer.ReadAfterRefusal? && canceled.balance == request.balanceBefore {
        var _ := ReleaseRefused(r, request, payment, canceled);
        LaterIsTransitive(start, asked, Now());
        ReviewingLasts(start, Now(), r, request, payment);
        return 0, Some(RefundDeclined);
      }
      if canceled.key != payment.paymentKey || canceled.order != payment.order || canceled.amount != payment.krw
         || !canceled.won || canceled.balance > request.balanceBefore - request.amount { return 0, Some(RefundProviderPending); }
      transaction := MatchingCancelTransaction(canceled, request.amount);
      if transaction == 0 { return 0, Some(RefundProviderPending); }
      e := RecordRefundProviderAttempt(r, request, payment, transaction, canceled);
      LaterIsTransitive(start, asked, Now());
      ReviewingLasts(start, Now(), r, request, payment);
    }

    method ReconcileRefund(r: nat, prior: Option<Plan>) returns (e: Option<Error>)
      requires Valid() && (prior.Some? ==> Billable(prior.value))
      modifies this, store
      ensures Moved() && RefundReports(r, e)
    {
      hide IsRun, After, Inv, RequestsMoveOn, Do, Later;
      ghost var start := Now();
      LaterIsReflexive(start);
      if r >= |store.refunds| { return Some(RefundNotFound); }
      var request := store.refunds[r];
      if request.status.Completed? { return None; }
      if !request.status.Processing? { return Some(RefundConflict); }
      if !Refundable(store.Db(), request.user, request.order) { return Some(RefundNotFound); }
      var payment := store.intents[request.order];
      EveryRunKeepsInv(log);
      OrdersAreInThePast(start, request.order);
      RequestStaysPut(request);
      var transaction := request.transaction;
      if transaction == 0 {
        transaction, e := CancelReviewed(r, request, payment);
        if e.Some? { return; }
      } else {
        RecordedBefore(start, r);
      }
      ghost var asked := Now();
      var read := PaymentByOrder(payment.order);
      ghost var seen := Now();
      LaterIsTransitive(start, asked, seen);
      ReviewingLasts(asked, seen, r, request, payment);
      LaterHears(asked, seen);
      if !read.Found? { return Some(RefundProviderPending); }
      var confirmed := read.payment;
      var has := ConfirmedCancelHasKey(confirmed, transaction, request.amount);
      if !has || confirmed.key != payment.paymentKey || confirmed.order != payment.order || confirmed.amount != payment.krw
         || !confirmed.won || confirmed.balance > request.balanceBefore - request.amount { return Some(RefundProviderPending); }
      RecordedIsAKey(seen, log, r, transaction);
      e := SettleRefund(r, request, payment, transaction, confirmed, prior);
      LaterIsTransitive(start, seen, Now());
    }

    static lemma RecordedBefore(w: World, r: nat)
      requires Inv(w) && r < |w.db.refunds| && w.db.refunds[r].transaction != 0
      ensures AttemptRecorded(r, w.db.refunds[r].transaction) in w.heard
    {
      hide JournalOk, CoverageOk, FundsOk, AnswersOk, GuardsOk, OneOpenRequest, TransactionsUnique, BalanceWasSeen, HasCancel;
      assert RequestOk(w.db.refunds[r], r, w.db.intents, w.provider, w.cancels, w.heard);
    }

    static lemma RecordedIsAKey(w: World, log: seq<Action>, r: nat, transaction: Key)
      requires IsRun(log) && w == After(log) && AttemptRecorded(r, transaction) in w.heard
      ensures transaction != 0
    {
      hide JournalOk, CoverageOk, FundsOk, RefundsOk, IsRun, After;
      EveryRunKeepsInv(log);
      RecordedAttempt(w, r, transaction);
    }

    method ReviewRefund(r: nat, approve: bool, amount: int, evidence: Evidence, prior: Option<Plan>) returns (e: Option<Error>)
      requires Valid() && (prior.Some? ==> Billable(prior.value))
      modifies this, store
      ensures Moved()
      ensures e.None? ==> r < |store.refunds| && if approve then Reviewed(store.refunds[r]) else store.refunds[r].status.Rejected?
    {
      hide IsRun, After, Inv, RequestsMoveOn, Do, Later;
      ghost var start := Now();
      LaterIsReflexive(start);
      if r >= |store.refunds| { return Some(RefundNotFound); }
      var stored := store.refunds[r];
      if !stored.status.Requested? { return Some(RefundConflict); }
      var payment := Payment(stored.order, 0, InProgress, 0, 0, false, []);
      if approve {
        var read := PaymentByOrder(stored.order);
        if !read.Found? { return Some(RefundProviderPending); }
        payment := read.payment;
      }
      ghost var seen := Now();
      e := Decide(r, approve, amount, payment, evidence);
      ghost var decided := Now();
      LaterIsTransitive(start, seen, decided);
      if e.Some? || !approve { return; }
      e := ReconcileRefund(r, prior);
      LaterIsTransitive(start, decided, Now());
      LaterReview(decided, Now(), r);
      if e == Some(RefundProviderPending) { e := None; }
    }

    /** The deciding transaction, on the payment read before it. */
    method Decide(r: nat, approve: bool, amount: int, payment: Payment, evidence: Evidence) returns (e: Option<Error>)
      requires Valid() && (approve ==> Seen(payment) in heard)
      modifies this, store
      ensures Moved()
      ensures e.None? ==> r < |store.refunds| && if approve then Reviewed(store.refunds[r]) else store.refunds[r].status.Rejected?
    {
      hide IsRun, After, Inv, RequestsMoveOn, Do, Later, ReviewRefundTx;
      ghost var start := Now();
      var now := clock;
      Others();
      ghost var before := Now();
      LaterHears(start, before);
      var fails: bool := *;
      if fails { return Some(Storage); }
      e := store.ReviewRefund(r, approve, amount, payment, evidence, now);
      RecordRefunding(Deciding(r, approve, amount, payment, evidence, now), before);
      LaterIsTransitive(start, before, Now());
      DecisionIsMade(before.db, r, approve, amount, payment, evidence, now);
    }

    static lemma DecisionIsMade(d: Database, r: nat, approve: bool, amount: int, p: Payment, evidence: Evidence, now: Time)
      ensures var tx := ReviewRefundTx(d, r, approve, amount, p, evidence, now);
              tx.Committed? ==> r < |tx.db.refunds| && if approve then Reviewed(tx.db.refunds[r]) else tx.db.refunds[r].status.Rejected?
    {
      hide HasDependentUpgrade, LogsNoCharge;
    }

    static lemma LaterReview(v: World, w: World, r: nat)
      requires Later(v, w) && r < |v.db.refunds| && Reviewed(v.db.refunds[r])
      ensures r < |w.db.refunds| && Reviewed(w.db.refunds[r])
    {
      assert RequestMovesOn(v.db.refunds[r], w.db.refunds[r]);
    }

    // ---- subscription.go: the billing pass -------------------------------------------------

    method RecordAccount(a: AccountAction, ghost before: World)
      requires IsRun(log) && After(log) == before && AccountEnabled(before, a) && !a.Supporting?
      requires Now() == before.(db := Commit(before.db, AccountTx(before, a)))
      modifies this`log
      ensures Valid()
    {
      hide IsRun, After, Later, AccountEnabled, AccountTx;
      Record(Account(a), before);
    }

    /** The account's row as it is now. */
    method ReadRowOf(u: User) returns (row: Subscription)
      requires Valid() && u in store.subs
      modifies this
      ensures Valid() && Untouched() && row == store.subs[u] && RowRead(row, clock) in heard && old(clock) <= clock && old(heard) <= heard
    {
      hide IsRun, After, Do;
      row := store.subs[u];
      Take(ReadRow(u));
    }

    /** `row` is the account's row, read no earlier than `now`. */
    ghost predicate Current(row: Subscription, at: Time, now: Time)
      reads this, store
    {
      RowRead(row, at) in heard && now <= at && now <= clock && row.user in store.subs && store.subs[row.user] == row
    }

    /** grantAnnualWindow: with no other writer the boundary always moves on. */
    method GrantAnnualWindow(row: Subscription, at: Time, now: Time) returns (updated: Subscription, e: Option<Error>)
      requires Valid() && Current(row, at, now) && row.active && row.nextGrant <= now < row.termEnd
      modifies this, store
      ensures Valid() && old(clock) <= clock && old(heard) <= heard && OnlyTouches(old(store.Db()), store.Db(), row.user)
      ensures e.None? ==> Current(updated, clock, now) && updated.user == row.user && updated.active && row.nextGrant < updated.nextGrant
      ensures e.Some? ==> e == Some(Storage)
    {
      hide IsRun, After, Inv, WindowEnd;
      updated, e := row, None;
      var fails: bool := *;
      if fails { NothingTouched(store.Db(), row.user); return row, Some(Storage); }
      ghost var before := Now();
      EveryRunKeepsInv(log);
      AdvanceMovesOn(before, row, at, now);
      AdvanceTouchesOne(before.db, row);
      var advanced := store.GrantAnnualWindow(row);
      assert advanced;
      RecordAccount(Advancing(row, at, now), before);
      updated := ReadRowOf(row.user);
    }

    static lemma AdvanceMovesOn(w: World, s: Subscription, at: Time, now: Time)
      requires Inv(w) && RowRead(s, at) in w.heard && s.active && s.nextGrant <= now <= at && now < s.termEnd
      requires s.user in w.db.subs && w.db.subs[s.user] == s
      ensures s.nextGrant < WindowEnd(s.anchor, s.nextGrant)
    {
      hide JournalOk, WaitingOk, RenewalsOk, TiersOk, QuotesOk, FundsOk, RefundsOkIn, RowsOk, RowOk, WindowEnd;
      AdvanceStaysOnGrid(w, s, at, now);
    }

    method LapseCancelled(row: Subscription, at: Time, now: Time) returns (e: Option<Error>)
      requires Valid() && Current(row, at, now) && row.active && row.termEnd <= now
      modifies this, store
      ensures Valid() && clock == old(clock) && heard == old(heard) && OnlyTouches(old(store.Db()), store.Db(), row.user)
      ensures e.None? ==> row.user in store.subs && !store.subs[row.user].active
      ensures e.Some? ==> e == Some(Storage) && Untouched()
    {
      hide IsRun, After, Inv, LapseTx;
      var fails: bool := *;
      if fails { NothingTouched(store.Db(), row.user); return Some(Storage); }
      ghost var before := Now();
      LapseTouchesOne(before.db, row);
      store.LapseCancelled(row);
      RecordAccount(Lapsing(row, at, now), before);
      return None;
    }

    /** Why a pass stops at an account: an order with an open outcome, or a reported failure. */
    ghost predicate PassReports(u: User, e: Option<Error>)
      reads this, store
    {
      && (e == Some(PaymentPending) ==> HasOpenOrder(store.Db(), u))
      && (e.Some? ==> e.value.PaymentPending? || e.value.ChargeDeclined? || e.value.Storage?)
    }

    method RecordRenewal(row: Subscription, at: Time, now: Time, ghost before: World)
      requires IsRun(log) && After(log) == before && CheckoutEnabled(before, Renewing(row, at, now))
      requires Now() == before.(db := Commit(before.db, RenewTx(before.db, row, now, before.clock)))
      modifies this`log
      ensures Valid()
    {
      hide IsRun, After, Later, CheckoutEnabled, RenewTx;
      Record(Checkout(Renewing(row, at, now)), before);
    }

    static lemma RowsAreTheirUsers(w: World)
      requires Inv(w)
      ensures forall u | u in w.db.subs :: w.db.subs[u].user == u && RowOk(w.db.subs[u])
      ensures forall o | o in w.db.intents :: w.db.intents[o].order == o && OrderOk(w.db.intents[o])
    {
      hide MoneyOk, OneOpen, BooksOk, WaitingOk, RenewalsOk, TiersOk, QuotesOk, FundsOk, RefundsOkIn, RowOk, OrderOk, IsVersion, ReadOk;
    }

    /** fixed_checkout.go: renew. The account is renewed, lapsed on a failed renewal, or blocked by an
        order whose outcome is open: never refused as stale, unsold or already ordered. */
    method Renew(row: Subscription, at: Time, now: Time, packs: Catalog) returns (e: Option<Error>)
      requires Valid() && alone && Current(row, at, now) && row.active && row.termEnd <= now
      modifies this, store
      ensures Valid() && old(clock) <= clock && old(heard) <= heard
      ensures e.None? ==> row.user in store.subs && row.nextGrant < store.subs[row.user].nextGrant
      ensures PassReports(row.user, e) && OnlyTouches(old(store.Db()), store.Db(), row.user)
    {
      hide IsRun, After, Inv, RenewTx, OnTermOf, HasOpenOrder, OnlyTouches, RowOk;
      ghost var before := Now();
      EveryRunKeepsInv(log);
      CurrentRenewalGoesThrough(before, row, now);
      RowsAreTheirUsers(before);
      RenewTouchesOne(before.db, row, now, clock);
      var order;
      e, order := store.Renew(row, now, clock);
      RecordRenewal(row, at, now, before);
      if e.Some? { return; }
      if order.None? { return Some(ChargeDeclined); }
      ghost var recorded := Now();
      EveryRunKeepsInv(log);
      RowsAreTheirUsers(recorded);
      e := SettleRenewal(store.intents[order.value], packs);
      OnlyTouchesIsTransitive(before.db, recorded.db, store.Db(), row.user);
    }

    method SettleRenewal(i: Intent, packs: Catalog) returns (e: Option<Error>)
      requires Valid() && alone && i.order in store.intents && store.intents[i.order] == i && i.insertedAt <= clock
      requires i.kind.Renew? && i.status.Pending? && OnTermOf(store.Db(), i) && OrderOk(i)
      requires forall u | u in store.subs :: store.subs[u].user == u && RowOk(store.subs[u])
      modifies this, store
      ensures Valid() && old(clock) <= clock && old(heard) <= heard
      ensures e.None? ==> i.user in store.subs && old(store.subs[i.user].nextGrant) < store.subs[i.user].nextGrant
      ensures PassReports(i.user, e) && OnlyTouches(old(store.Db()), store.Db(), i.user)
    {
      hide IsRun, After, Inv, RowOk, RequestsMoveOn, NothingHeld;
      ghost var before := Now();
      e := ProcessFixedIntent(i, packs);
      RenewalSettles(before.db, store.Db(), i.order, packs, e);
    }

    /** RunDue's loop over one account. It ends, because every step moves the boundary on or ends the
        row, and it leaves the account lapsed, covered past `now`, blocked by an open order, or
        reported. */
    method CatchUp(due: Subscription, readAt: Time, now: Time, packs: Catalog) returns (e: Option<Error>)
      requires Valid() && alone && Current(due, readAt, now)
      modifies this, store
      ensures Valid() && old(clock) <= clock && old(heard) <= heard
      ensures e.None? ==> due.user in store.subs && (!store.subs[due.user].active || now < store.subs[due.user].nextGrant)
      ensures PassReports(due.user, e) && OnlyTouches(old(store.Db()), store.Db(), due.user)
    {
      hide IsRun, After, Inv, OnlyTouches, HasOpenOrder, After;
      ghost var start := store.Db();
      var row, at := due, readAt;
      NothingTouched(start, due.user);
      e := None;
      while row.active && row.nextGrant <= now
        invariant Valid() && old(clock) <= clock && old(heard) <= heard && Current(row, at, now) && row.user == due.user && e.None?
        invariant OnlyTouches(start, store.Db(), due.user)
        decreases row.active, now - row.nextGrant
      {
        ghost var before := store.Db();
        if now < row.termEnd {
          row, e := GrantAnnualWindow(row, at, now);
          at := clock;
          if e.Some? {
            OnlyTouchesIsTransitive(start, before, store.Db(), due.user);
            return;
          }
        } else {
          if TierOf(store.Db(), row.user).Master? || !row.autoRenew {
            e := LapseCancelled(row, at, now);
          } else {
            e := Renew(row, at, now, packs);
          }
          if e.Some? {
            OnlyTouchesIsTransitive(start, before, store.Db(), due.user);
            return;
          }
          EveryRunKeepsInv(log);
          RowsAreTheirUsers(Now());
          row := ReadRowOf(row.user);
          at := clock;
        }
        OnlyTouchesIsTransitive(start, before, store.Db(), due.user);
      }
    }

    static lemma NothingTouched(d: Database, u: User)
      ensures OnlyTouches(d, d, u)
    {}

    /** RunDue, over the accounts that were due when the pass began; `failures` are those it reports. */
    method RunDue(due: seq<Subscription>, readAt: Time, now: Time, packs: Catalog) returns (failures: set<User>)
      requires Valid() && alone && forall k | 0 <= k < |due| :: Current(due[k], readAt, now)
      requires forall j, k | 0 <= j < k < |due| :: due[j].user != due[k].user
      modifies this, store
      ensures Valid()
      ensures forall k | 0 <= k < |due| :: Resolved(store.Db(), due[k].user, now, due[k].user in failures)
    {
      hide IsRun, After, Inv, OnlyTouches, Resolved;
      failures := {};
      for k := 0 to |due|
        invariant Valid() && forall j | k <= j < |due| :: Current(due[j], readAt, now)
        invariant forall j | 0 <= j < k :: Resolved(store.Db(), due[j].user, now, due[j].user in failures)
      {
        ghost var before := store.Db();
        var e := CatchUp(due[k], readAt, now, packs);
        if e.Some? && !e.value.PaymentPending? { failures := failures + {due[k].user}; }
        CaughtUpIsResolved(store.Db(), due[k].user, now, due[k].user in failures);
        forall j | 0 <= j < |due| && j != k
          ensures j < k ==> Resolved(store.Db(), due[j].user, now, due[j].user in failures)
          ensures j > k ==> Current(due[j], readAt, now)
        {
          assert j < k ==> Resolved(before, due[j].user, now, due[j].user in failures) by {
            assert due[j].user != due[k].user;
          }
          OthersStayResolved(before, store.Db(), due[k].user, due[j].user, now, due[j].user in failures);
        }
      }
    }

    static lemma CaughtUpIsResolved(d: Database, u: User, now: Time, failed: bool)
      requires failed || HasOpenOrder(d, u) || (u in d.subs && (!d.subs[u].active || now < d.subs[u].nextGrant))
      ensures Resolved(d, u, now, failed)
    {}

    static lemma OthersStayResolved(d: Database, e: Database, u: User, v: User, now: Time, failed: bool)
      requires OnlyTouches(d, e, u) && v != u
      ensures Resolved(d, v, now, failed) ==> Resolved(e, v, now, failed)
      ensures v in d.subs ==> v in e.subs && e.subs[v] == d.subs[v]
    {}
  }
}
