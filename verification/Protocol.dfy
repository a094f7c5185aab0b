/** The settlement protocol: the journal, the provider behind it, and every answer anyone ever
    read. Requests, the webhook, the billing pass and the refund review interleave one writer
    transaction at a time, and any of them may act on an answer read arbitrarily long ago. */
module Protocol {
  import opened Basics
  import opened Calendar
  import opened Pricing
  import opened Ledger

  // ---- the provider ------------------------------------------------------------------------

  /** What the provider holds for an order it was asked to charge. */
  datatype Settlement =
    | Started
    | Declined(expired: bool)
    | Captured(key: Key, amount: int, won: bool, cancels: seq<Cancel>)

  function SumDone(cancels: seq<Cancel>): int {
    if cancels == [] then 0
    else
      var last := cancels[|cancels| - 1];
      SumDone(cancels[..|cancels| - 1]) + if last.done then last.amount else 0
  }

  function Balance(c: Settlement): int
    requires c.Captured?
  {
    c.amount - SumDone(c.cancels)
  }

  /** The payment a read of the order answers with. */
  function Observe(o: OrderId, c: Settlement): Payment {
    match c
    case Started => Payment(o, 0, InProgress, 0, 0, true, [])
    case Declined(expired) => Payment(o, 0, if expired then Expired else Aborted, 0, 0, true, [])
    case Captured(key, amount, won, cancels) =>
      var status := if Balance(c) == 0 then Canceled else if Balance(c) == amount then Done else PartialCanceled;
      Payment(o, key, status, amount, Balance(c), won, cancels)
  }

  /** Idempotency keys of cancels: an unapplied capture's, a reviewed refund's, or anyone else's. */
  datatype CancelKey = ForOrder(order: OrderId) | ForRequest(request: nat) | Elsewhere(n: nat)

  datatype CancelOutcome = DoneAt(order: OrderId, index: nat) | RefusedForGood

  // ---- what has been read or sent ----------------------------------------------------------

  datatype Message =
    | Seen(payment: Payment)                       // an order read, or the answer to a cancel
    | ChargeRefused(order: OrderId)                // a definitive refusal of the card
    | CancelAsked(key: CancelKey, order: OrderId, amount: int)
    | CancelRefused(key: CancelKey)                // a definitive refusal of the cancel
    | RefusedThenSeen(key: CancelKey, payment: Payment)  // ... and the payment read back after it
    | AttemptRecorded(request: nat, transaction: Key)
    | RowRead(row: Subscription, at: Time)

  datatype World = World(
    db: Database,
    provider: map<OrderId, Settlement>,
    cancels: map<CancelKey, CancelOutcome>,
    heard: set<Message>,
    operated: set<User>,     // accounts whose tier an operator reassigned
    clock: Time)

  const START := World(EMPTY_DATABASE, map[], map[], {}, {}, 0)

  /** What the provider does, and what anyone reads or sends. */
  datatype EnvAction =
    | Tick(to: Time)
    | Begin(o: OrderId)
    | Decline(o: OrderId, expired: bool)
    | Capture(o: OrderId, key: Key, krw: int, won: bool)
    | NoteCancel(o: OrderId, cancel: Cancel)
    | CancelMoney(o: OrderId, k: CancelKey, transaction: Key, krw: int)
    | RefuseCancel(k: CancelKey)
    | HearPayment(o: OrderId)
    | HearChargeRefusal(o: OrderId)
    | HearCancelRefusal(k: CancelKey)
    | ReadBack(k: CancelKey, o: OrderId)
    | ReadRow(u: User)
    | AskCancel(k: CancelKey, o: OrderId, krw: int)

  datatype CheckoutAction =
    | Subscribing(u: User, tier: Plan, term: Term, id: nat, now: Time)
    | Purchasing(u: User, pack: PackId, packs: Catalog, id: nat, now: Time)
    | Quoting(row: Subscription, at: Time, tier: Plan, term: Term, q: QuoteId, now: Time)
    | Changing(u: User, tier: Plan, term: Term, q: QuoteId, id: nat, now: Time)
    | Renewing(row: Subscription, at: Time, now: Time)

  datatype SettleAction =
    | Applying(o: OrderId, p: Payment, now: Time, packs: Catalog)
    | Reviewing(o: OrderId, p: Payment, now: Time)
    | Failing(o: OrderId, why: Message, now: Time)
    | Returning(o: OrderId, observed: Payment, captured: Payment)

  datatype AccountAction =
    | Advancing(row: Subscription, at: Time, now: Time)
    | Lapsing(row: Subscription, at: Time, now: Time)
    | Cancelling(row: Subscription, at: Time)
    | Resuming(row: Subscription, at: Time)
    | Unscheduling(row: Subscription, at: Time)
    | Supporting(u: User, target: Plan, now: Time)
    | AddingMethod(u: User)
    | RemovingMethod(u: User)
    | PurgingQuotes(stale: set<QuoteId>)

  datatype RefundAction =
    | Requesting(u: User, o: OrderId)
    | Deciding(r: nat, approve: bool, krw: int, p: Payment, e: Evidence, now: Time)
    | Recording(r: nat, transaction: Key, p: Payment)
    | Releasing(r: nat, p: Payment)
    | Completing(r: nat, transaction: Key, p: Payment, prior: Option<Plan>, now: Time)

  datatype Action =
    | Env(env: EnvAction)
    | Checkout(checkout: CheckoutAction)
    | Settle(settle: SettleAction)
    | Account(account: AccountAction)
    | Refunding(refund: RefundAction)

  // ---- when an action may happen -----------------------------------------------------------

  /** refunds.go: confirmedCancelHasKey. */
  predicate HasCancel(cancels: seq<Cancel>, transaction: Key, amount: int) {
    exists k | 0 <= k < |cancels| :: cancels[k] == Cancel(transaction, amount, true)
  }

  /** unapplied_captures.go: returnedInFull; the second clause is a non-empty
      matchingCancelTransaction of the captured amount. */
  predicate ReturnedInFull(observed: Payment, captured: Payment) {
    && observed.key == captured.key && observed.order == captured.order
    && observed.amount == captured.amount && observed.won == captured.won && observed.balance == 0
    && exists k | 0 <= k < |observed.cancels| ::
         observed.cancels[k].amount == captured.amount && observed.cancels[k].done && observed.cancels[k].transaction != 0
  }

  /** The payment a refund is settled by shows the reviewed amount gone. */
  predicate ShowsRefund(d: Database, r: nat, p: Payment, transaction: Key)
    requires r < |d.refunds| && d.refunds[r].order in d.intents
  {
    var request := d.refunds[r];
    var i := d.intents[request.order];
    && transaction != 0 && HasCancel(p.cancels, transaction, request.amount)
    && p.key == i.paymentKey && p.order == i.order && p.amount == i.krw && p.won
    && p.balance <= request.balanceBefore - request.amount
  }

  predicate KnownRequest(d: Database, r: nat) { r < |d.refunds| && d.refunds[r].order in d.intents }

  predicate FreshTransaction(w: World, transaction: Key) {
    && transaction != 0
    && forall o | o in w.provider && w.provider[o].Captured? ::
         forall k | 0 <= k < |w.provider[o].cancels| :: w.provider[o].cancels[k].transaction != transaction
  }

  predicate FailureSeen(w: World, o: OrderId, why: Message) {
    && why in w.heard
    && match why
       case ChargeRefused(order) => order == o
       case Seen(p) => p.order == o && (p.status.Aborted? || p.status.Expired? || p.status.Canceled?)
       case _ => false
  }

  /** A cancel is asked for under its own key only: an order once in review, or the reviewed amount
      of a request. Whoever asks may be late, so the order or request may be settled by then. */
  predicate MayAsk(w: World, k: CancelKey, o: OrderId, krw: int) {
    match k
    case ForOrder(order) =>
      order == o && o in w.db.intents && (w.db.intents[o].status.Review? || w.db.intents[o].status.Failed?)
    case ForRequest(r) =>
      && r < |w.db.refunds| && w.db.refunds[r].order == o && w.db.refunds[r].amount == krw
      && (w.db.refunds[r].status.Processing? || w.db.refunds[r].status.Completed? || w.db.refunds[r].status.RefundFailed?)
    case Elsewhere(_) => true
  }

  predicate EnvEnabled(w: World, a: EnvAction) {
    match a
    case Tick(to) => w.clock <= to
    case Begin(o) => o in w.db.intents && o !in w.provider
    case Decline(o, _) => o in w.db.intents && (o in w.provider ==> w.provider[o].Started?)
    case Capture(o, _, krw, _) => o in w.db.intents && (o in w.provider ==> w.provider[o].Started?) && krw > 0
    case NoteCancel(o, cancel) =>
      o in w.provider && w.provider[o].Captured? && !cancel.done && FreshTransaction(w, cancel.transaction)
    case CancelMoney(o, k, transaction, krw) =>
      && o in w.provider && w.provider[o].Captured? && 0 < krw <= Balance(w.provider[o])
      && k !in w.cancels && CancelAsked(k, o, krw) in w.heard && FreshTransaction(w, transaction)
    case RefuseCancel(k) => k !in w.cancels
    case HearPayment(o) => o in w.provider
    case HearChargeRefusal(o) => o in w.provider && w.provider[o].Declined?
    case HearCancelRefusal(k) => k in w.cancels
    case ReadBack(k, o) => CancelRefused(k) in w.heard && o in w.provider
    case ReadRow(u) => u in w.db.subs
    case AskCancel(k, o, krw) => MayAsk(w, k, o, krw)
  }

  predicate CheckoutEnabled(w: World, a: CheckoutAction) {
    && a.now <= w.clock
    && (a.Quoting? ==> RowRead(a.row, a.at) in w.heard)
    && (a.Renewing? ==> RowRead(a.row, a.at) in w.heard && a.row.active && a.row.termEnd <= a.now)
  }

  predicate SettleEnabled(w: World, a: SettleAction) {
    match a
    case Applying(o, p, now, _) =>
      && o in w.db.intents && w.db.intents[o].insertedAt <= now <= w.clock
      && Seen(p) in w.heard && p.order == o && p.status.Done? && p.key != 0 && p.amount == w.db.intents[o].krw && p.won
    case Reviewing(o, p, now) => Seen(p) in w.heard && p.order == o && p.status.Done? && now <= w.clock
    case Failing(o, why, now) => FailureSeen(w, o, why) && now <= w.clock
    case Returning(o, observed, captured) =>
      && Seen(observed) in w.heard && Seen(captured) in w.heard && captured.order == o && captured.key != 0
      && ReturnedInFull(observed, captured)
  }

  predicate AccountEnabled(w: World, a: AccountAction) {
    match a
    case Advancing(row, at, now) =>
      RowRead(row, at) in w.heard && row.active && row.nextGrant <= now <= at && now < row.termEnd
    case Lapsing(row, at, now) => RowRead(row, at) in w.heard && row.active && row.termEnd <= now <= w.clock
    case Supporting(_, _, now) => now <= w.clock
    case AddingMethod(_) => true
    case RemovingMethod(_) => true
    case PurgingQuotes(_) => true
    case _ => RowRead(a.row, a.at) in w.heard && a.row.active
  }

  predicate RefundEnabled(w: World, a: RefundAction) {
    match a
    case Requesting(_, _) => true
    case Deciding(_, approve, _, p, _, now) => (approve ==> Seen(p) in w.heard) && now <= w.clock
    case Recording(r, transaction, p) =>
      Seen(p) in w.heard && KnownRequest(w.db, r) && ShowsRefund(w.db, r, p, transaction)
    case Releasing(r, p) =>
      && KnownRequest(w.db, r) && RefusedThenSeen(ForRequest(r), p) in w.heard && p.order == w.db.refunds[r].order
      && p.balance == w.db.refunds[r].balanceBefore
    case Completing(r, transaction, p, prior, now) =>
      && (prior.Some? ==> Billable(prior.value)) && KnownRequest(w.db, r) && AttemptRecorded(r, transaction) in w.heard && Seen(p) in w.heard
      && ShowsRefund(w.db, r, p, transaction) && w.db.intents[w.db.refunds[r].order].appliedAt <= now <= w.clock
  }

  predicate Enabled(w: World, a: Action) {
    match a
    case Env(e) => EnvEnabled(w, e)
    case Checkout(c) => CheckoutEnabled(w, c)
    case Settle(s) => SettleEnabled(w, s)
    case Account(s) => AccountEnabled(w, s)
    case Refunding(f) => RefundEnabled(w, f)
  }

  // ---- what it does ------------------------------------------------------------------------

  /** The rows after a transaction: those it commits, or the old ones. */
  function Commit(d: Database, tx: Tx): Database {
    match tx case Committed(e) => e case Refused(_) => d
  }

  function CheckoutTx(w: World, a: CheckoutAction): Tx {
    match a
    case Subscribing(u, tier, term, id, now) => SubscribeTx(w.db, u, tier, term, id, now, w.clock)
    case Purchasing(u, pack, packs, id, now) => PurchasePackTx(w.db, u, pack, packs, id, now, w.clock)
    case Quoting(row, _, tier, term, q, now) => QuoteChangeTx(w.db, row, tier, term, q, now)
    case Changing(u, tier, term, q, id, now) => ChangeQuotedTx(w.db, u, tier, term, q, id, now, w.clock)
    case Renewing(row, _, now) => RenewTx(w.db, row, now, w.clock)
  }

  function SettleTx(w: World, a: SettleAction): Tx {
    match a
    case Applying(o, p, now, packs) => ApplyTx(w.db, o, p.key, now, packs)
    case Reviewing(o, p, now) => ReviewTx(w.db, o, p.key, now)
    case Failing(o, _, now) => FailTx(w.db, o, now)
    case Returning(o, observed, captured) => CompleteUnappliedTx(w.db, o, observed.key, captured.amount)
  }

  function AccountTx(w: World, a: AccountAction): Tx {
    match a
    case Advancing(row, _, _) => AdvanceGrantTx(w.db, row)
    case Lapsing(row, _, _) => LapseTx(w.db, row)
    case Cancelling(row, _) => CancelTx(w.db, row)
    case Resuming(row, _) => ResumeTx(w.db, row)
    case Unscheduling(row, _) => CancelScheduledTx(w.db, row)
    case Supporting(u, target, now) => AssignSupportTx(w.db, u, target, now)
    case AddingMethod(u) => Committed(w.db.(methods := w.db.methods + {u}))
    case RemovingMethod(u) => RemoveMethodTx(w.db, u)
    case PurgingQuotes(stale) => Committed(w.db.(quotes := w.db.quotes - stale))
  }

  function RefundTx(w: World, a: RefundAction): Tx {
    match a
    case Requesting(u, o) => RequestRefundTx(w.db, u, o)
    case Deciding(r, approve, krw, p, e, now) => ReviewRefundTx(w.db, r, approve, krw, p, e, now)
    case Recording(r, transaction, _) => RecordAttemptTx(w.db, r, transaction)
    case Releasing(r, _) => FailRefundTx(w.db, r)
    case Completing(r, transaction, _, prior, now) => CompleteRefundTx(w.db, r, transaction, prior, now)
  }

  function NextProvider(w: World, a: EnvAction): map<OrderId, Settlement>
    requires EnvEnabled(w, a)
  {
    match a
    case Begin(o) => w.provider[o := Started]
    case Decline(o, expired) => w.provider[o := Declined(expired)]
    case Capture(o, key, krw, won) => w.provider[o := Captured(key, krw, won, [])]
    case NoteCancel(o, cancel) => w.provider[o := w.provider[o].(cancels := w.provider[o].cancels + [cancel])]
    case CancelMoney(o, _, transaction, krw) =>
      w.provider[o := w.provider[o].(cancels := w.provider[o].cancels + [Cancel(transaction, krw, true)])]
    case _ => w.provider
  }

  function NextCancels(w: World, a: EnvAction): map<CancelKey, CancelOutcome>
    requires EnvEnabled(w, a)
  {
    match a
    case CancelMoney(o, k, _, _) => w.cancels[k := DoneAt(o, |w.provider[o].cancels|)]
    case RefuseCancel(k) => w.cancels[k := RefusedForGood]
    case _ => w.cancels
  }

  function News(w: World, a: EnvAction): set<Message>
    requires EnvEnabled(w, a)
  {
    match a
    case HearPayment(o) => {Seen(Observe(o, w.provider[o]))}
    case HearChargeRefusal(o) => {ChargeRefused(o)}
    case HearCancelRefusal(k) => {CancelRefused(k)}
    case ReadBack(k, o) => {Seen(Observe(o, w.provider[o])), RefusedThenSeen(k, Observe(o, w.provider[o]))}
    case ReadRow(u) => {RowRead(w.db.subs[u], w.clock)}
    case AskCancel(k, o, krw) => {CancelAsked(k, o, krw)}
    case _ => {}
  }

  function Do(w: World, a: Action): World
    requires Enabled(w, a)
  {
    match a
    case Env(e) =>
      w.(provider := NextProvider(w, e), cancels := NextCancels(w, e), heard := w.heard + News(w, e),
         clock := if e.Tick? then e.to else w.clock)
    case Checkout(c) => w.(db := Commit(w.db, CheckoutTx(w, c)))
    case Settle(s) => w.(db := Commit(w.db, SettleTx(w, s)))
    case Account(s) =>
      w.(db := Commit(w.db, AccountTx(w, s)), operated := if s.Supporting? then w.operated + {s.u} else w.operated)
    case Refunding(f) =>
      w.(db := Commit(w.db, RefundTx(w, f)),
         heard := if f.Recording? && RefundTx(w, f).Committed? then w.heard + {AttemptRecorded(f.r, f.transaction)} else w.heard)
  }

  // ---- runs --------------------------------------------------------------------------------

  /** A run of the protocol: actions in the order they happened, each enabled where it happened. */
  predicate IsRun(run: seq<Action>)
    decreases |run|, 1
  {
    run == [] || (IsRun(run[..|run| - 1]) && LastWasEnabled(run))
  }

  predicate LastWasEnabled(run: seq<Action>)
    requires run != [] && IsRun(run[..|run| - 1])
    decreases |run|, 0
  {
    Enabled(After(run[..|run| - 1]), run[|run| - 1])
  }

  function After(run: seq<Action>): World
    requires IsRun(run)
    decreases |run|, 3
  {
    if run == [] then START else AfterLast(run)
  }

  function AfterLast(run: seq<Action>): World
    requires run != [] && IsRun(run)
    decreases |run|, 2
  {
    assert LastWasEnabled(run);
    Do(After(run[..|run| - 1]), run[|run| - 1])
  }

  /** A run comes one action after another. */
  lemma RunEndsWithAStep(run: seq<Action>)
    requires run != [] && IsRun(run)
    ensures IsRun(run[..|run| - 1]) && Enabled(After(run[..|run| - 1]), run[|run| - 1])
    ensures After(run) == Do(After(run[..|run| - 1]), run[|run| - 1])
  {
    hide Do, Enabled;
    assert LastWasEnabled(run) && After(run) == AfterLast(run);
  }

  lemma RunGoesOn(run: seq<Action>, a: Action)
    requires IsRun(run) && Enabled(After(run), a)
    ensures IsRun(run + [a]) && After(run + [a]) == Do(After(run), a)
  {
    hide Do, Enabled;
    assert (run + [a])[..|run|] == run;
    assert LastWasEnabled(run + [a]);
    assert After(run + [a]) == AfterLast(run + [a]);
  }

  /** `w` is where the run leads. */
  ghost predicate Reaches(run: seq<Action>, w: World) { IsRun(run) && After(run) == w }
}
