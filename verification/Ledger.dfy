/** The rows of the billing store and what each writer transaction makes of them
    (backend/internal/billing: types.go, refund_types.go, fixed_checkout.go, fixed_settlement.go,
    unapplied_captures.go, refunds.go, subscription.go, change.go, support.go).

    A transaction is a function to `Tx`: the rows it commits, or the error that rolls it back.
    The class Store carries the same transactions out statement by statement. */
module Ledger {
  import opened Basics
  import opened Calendar
  import opened Pricing

  type User = nat
  type PackId = nat
  type QuoteId = nat
  // A provider's payment or transaction key; 0 is the empty key.
  type Key = nat
  // A version of a subscription row: UpdatedAt, which is new on every upsert. 0 is the zero time.
  type Stamp = nat

  /** A renewal's order id is a hash of its user and term end; every other order's is random. */
  datatype OrderId = Issued(n: nat) | Renewal(user: User, end: Time)

  datatype Kind = Subscribe | Renew | Upgrade | Pack

  datatype Status = Pending | Applied | Failed | Review {
    predicate Open() { Pending? || Review? }
  }

  datatype Intent = Intent(
    order: OrderId, user: User, kind: Kind, tier: Plan, term: Term, pack: PackId, krw: int,
    subStamp: Stamp, quotedAt: Time, effectiveAt: Time, insertedAt: Time,
    status: Status, paymentKey: Key, appliedAt: Time, coverage: Coverage, fundingEnd: Time)

  datatype Coverage = NoCoverage | Paid(user: User, at: Time)

  datatype Subscription = Subscription(
    user: User, coverage: Coverage, tier: Plan, term: Term,
    anchor: Time, termStart: Time, termEnd: Time, nextGrant: Time,
    autoRenew: bool, scheduledTier: Option<Plan>, scheduledTerm: Option<Term>,
    active: bool, updatedAt: Stamp)

  datatype Quote = Quote(
    user: User, tier: Plan, term: Term, krw: int, appliedNow: bool,
    effectiveAt: Time, subStamp: Stamp, quotedAt: Time, expiresAt: Time)

  datatype Purchase = Purchase(user: User, pack: PackId, krw: int, key: Key, refunded: bool)

  datatype RequestStatus = Requested | Rejected | Processing | Completed | RefundFailed

  datatype Refund = Refund(
    user: User, order: OrderId, status: RequestStatus, amount: int, balanceBefore: int,
    transaction: Key, confirmed: int, reviewedAt: Time)

  /** How often the funding owner was told to freeze, void and give back one request's funding. */
  datatype Guard = Guard(held: nat, confirmed: nat, released: nat)

  datatype Note = OfOrder(order: OrderId) | OfRequest(request: nat)

  datatype Event =
    | Charge(user: User, order: OrderId, krw: int, key: Key)
    | TierChange(user: User, tier: Plan, term: Term)
    | ChargeFailed(user: User, order: OrderId)
    | RenewalFailed(user: User, tier: Plan, term: Term, krw: int)
    | Cancelled(user: User, tier: Plan, term: Term)
    | ChangeScheduled(user: User, tier: Plan, term: Term)
    | CancelScheduled(user: User, tier: Plan, term: Term)
    | Refunded(user: User, note: Note, krw: int, key: Key)

  datatype Database = Database(
    intents: map<OrderId, Intent>,
    subs: map<User, Subscription>,
    tiers: map<User, Plan>,
    support: map<User, Plan>,
    methods: set<User>,
    quotes: map<QuoteId, Quote>,
    purchases: map<OrderId, Purchase>,
    refunds: seq<Refund>,          // a request's id is its position
    events: seq<Event>,
    grants: seq<OrderId>,          // the orders credits were opened, added or bought for
    guards: map<nat, Guard>,
    history: map<Stamp, Subscription>,  // every subscription row ever upserted, by its stamp
    nextStamp: Stamp)

  const EMPTY_DATABASE := Database(map[], map[], map[], map[], {}, map[], map[], [], [], [], map[], map[], 1)

  datatype Error =
    | MasterAccount | PaymentPending | SubscriptionExists | PaymentMethodRequired | StaleQuote
    | NoChange | NoScheduledChange | TierNotSubscribable | SubscriptionRequired | InvalidPack | InvalidProration
    | ChargeDeclined | RefundConflict | RefundNotFound | RefundAmount | RefundActiveUse
    | RefundDependentPayment | RefundProviderPending | RefundDeclined | LastMaster | NeedsMethod | Storage

  datatype Tx = Committed(db: Database) | Refused(error: Error)

  type Catalog = map<PackId, int>   // the price of each credit pack on sale

  // ---- what a transaction leaves alone ------------------------------------------------------

  /** The event log only grows, and by no charge. */
  ghost predicate LogsNoCharge(before: seq<Event>, after: seq<Event>) {
    before <= after && forall k | |before| <= k < |after| :: !after[k].Charge?
  }

  ghost predicate KeepsOrders(d: Database, tx: Tx) { tx.Committed? ==> tx.db.intents == d.intents }

  ghost predicate KeepsBooks(d: Database, tx: Tx) {
    tx.Committed? ==> LogsNoCharge(d.events, tx.db.events) && tx.db.grants == d.grants
                      && tx.db.purchases.Keys == d.purchases.Keys
  }

  ghost predicate KeepsAccounts(d: Database, tx: Tx) {
    tx.Committed? ==> tx.db.subs == d.subs && tx.db.tiers == d.tiers && tx.db.support == d.support
                      && tx.db.history == d.history && tx.db.nextStamp == d.nextStamp
  }

  ghost predicate KeepsQuotes(d: Database, tx: Tx) { tx.Committed? ==> tx.db.quotes == d.quotes }

  ghost predicate KeepsRefunds(d: Database, tx: Tx) {
    tx.Committed? ==> tx.db.refunds == d.refunds && tx.db.guards == d.guards
  }

  ghost predicate KeepsSupport(d: Database, tx: Tx) { tx.Committed? ==> tx.db.support == d.support }

  // ---- the statements transactions are made of -------------------------------------------

  function Upsert(d: Database, s: Subscription): Database {
    var row := s.(updatedAt := d.nextStamp);
    d.(subs := d.subs[s.user := row], history := d.history[d.nextStamp := row], nextStamp := d.nextStamp + 1)
  }

  // How a transaction leaves the subscription rows: as they are, or with one row written.
  ghost predicate RowsKept(d: Database, e: Database) {
    e.subs == d.subs && e.history == d.history && e.nextStamp == d.nextStamp
  }

  ghost predicate Writes(d: Database, e: Database, s: Subscription) {
    e.subs == Upsert(d, s).subs && e.history == Upsert(d, s).history && e.nextStamp == d.nextStamp + 1
  }

  function Log(d: Database, e: Event): (f: Database)
    ensures f == d.(events := f.events) && (!e.Charge? ==> LogsNoCharge(d.events, f.events))
  {
    d.(events := d.events + [e])
  }

  function Granted(d: Database, o: OrderId): Database { d.(grants := d.grants + [o]) }

  function TierOf(d: Database, u: User): Plan { if u in d.tiers then d.tiers[u] else Free }

  /** auth/service.go: AssignTier. A master account is left on master. */
  function Assigned(tiers: map<User, Plan>, u: User, tier: Plan): map<User, Plan> {
    if u in tiers && tiers[u].Master? then tiers else tiers[u := tier]
  }

  function AssignTier(d: Database, u: User, tier: Plan): Database { d.(tiers := Assigned(d.tiers, u, tier)) }

  /** A row written together with the account's tier. */
  function Rewritten(d: Database, s: Subscription, u: User, tier: Plan): (e: Database)
    ensures Writes(d, e, s) && e.tiers == Assigned(d.tiers, u, tier)
    ensures e == d.(subs := e.subs, history := e.history, nextStamp := e.nextStamp, tiers := e.tiers)
  {
    hide Assigned;
    AssignTier(Upsert(d, s), u, tier)
  }

  function SetStatus(d: Database, o: OrderId, status: Status, key: Key, at: Time): Database
    requires o in d.intents
  {
    d.(intents := d.intents[o := d.intents[o].(status := status, paymentKey := key, appliedAt := at)])
  }

  /** store/intents.go: PendingIntent, whose answer includes the orders in review. */
  predicate HasOpenOrder(d: Database, u: User) {
    exists o | o in d.intents :: d.intents[o].user == u && d.intents[o].status.Open()
  }

  /** The order id is the journal's primary key, and its amount must be positive. */
  function InsertIntent(d: Database, i: Intent): Tx {
    if i.order in d.intents || i.krw <= 0 then Refused(Storage) else Committed(d.(intents := d.intents[i.order := i]))
  }

  function NewIntent(o: OrderId, u: User, kind: Kind, tier: Plan, term: Term, pack: PackId, krw: int,
                     subStamp: Stamp, quotedAt: Time, effectiveAt: Time, clock: Time): Intent
  {
    Intent(o, u, kind, tier, term, pack, krw, subStamp, quotedAt, effectiveAt, clock, Pending, 0, 0, NoCoverage, 0)
  }

  predicate ActiveNow(d: Database, u: User, now: Time) {
    u in d.subs && d.subs[u].active && now < d.subs[u].termEnd
  }

  // ---- fixed_checkout.go -------------------------------------------------------------------

  /** `clock` is the instant of the commit; `now` is the one the caller read. */
  function SubscribeTx(d: Database, u: User, tier: Plan, term: Term, id: nat, now: Time, clock: Time): (tx: Tx)
    ensures KeepsBooks(d, tx) && KeepsAccounts(d, tx) && KeepsQuotes(d, tx) && KeepsRefunds(d, tx)
  {
    if !Billable(tier) then Refused(TierNotSubscribable)
    else if TierOf(d, u).Master? then Refused(MasterAccount)
    else if HasOpenOrder(d, u) then Refused(PaymentPending)
    else if u in d.subs && d.subs[u].active then Refused(SubscriptionExists)
    else if u !in d.methods then Refused(PaymentMethodRequired)
    else
      var stamp := if u in d.subs then d.subs[u].updatedAt else 0;
      InsertIntent(d, NewIntent(Issued(id), u, Subscribe, tier, term, 0, OfferPrice(tier, term), stamp, now, 0, clock))
  }

  function PurchasePackTx(d: Database, u: User, pack: PackId, packs: Catalog, id: nat, now: Time, clock: Time): (tx: Tx)
    ensures KeepsBooks(d, tx) && KeepsAccounts(d, tx) && KeepsQuotes(d, tx) && KeepsRefunds(d, tx)
  {
    if pack !in packs then Refused(InvalidPack)
    else if TierOf(d, u).Master? then Refused(MasterAccount)
    else if HasOpenOrder(d, u) then Refused(PaymentPending)
    else if !ActiveNow(d, u, now) then Refused(SubscriptionRequired)
    else if u !in d.methods then Refused(PaymentMethodRequired)
    else InsertIntent(d, NewIntent(Issued(id), u, Pack, Free, Monthly, pack, packs[pack], d.subs[u].updatedAt, now, 0, clock))
  }

  datatype Change = NoneNeeded | UpgradeNow | Scheduled

  /** fixed_checkout.go: classifyFixedSnapshot, for billable tiers and valid terms. */
  function ClassifyConfirmed(s: Subscription, tier: Plan, term: Term): Change {
    if tier == s.tier && term == s.term then NoneNeeded
    else if term == s.term && Rank(tier) > Rank(s.tier) then UpgradeNow
    else Scheduled
  }

  /** change.go: classifyChange. */
  function ClassifyQuoted(s: Subscription, tier: Plan, term: Term): Change {
    var tierChanged, termChanged := s.tier != tier, s.term != term;
    if !tierChanged && !termChanged then NoneNeeded
    else if tierChanged && termChanged then Scheduled
    else if tierChanged && Rank(tier) > Rank(s.tier) then UpgradeNow
    else Scheduled
  }

  const QUOTE_LIFETIME := 600_000_000_000

  function UpgradeQuoteAt(s: Subscription, tier: Plan, at: Time): Option<UpgradeAmounts> {
    QuoteUpgrade(s.tier, tier, s.term.Annual?, s.termStart, s.termEnd,
                 WindowStart(s.anchor, at), WindowEnd(s.anchor, at), at)
  }

  datatype Priced = Quoted(quote: Quote) | Unquoted(error: Error)

  /** change.go: classifyChange and quoteChangeAt, on the row `s`. */
  function QuoteOf(s: Subscription, tier: Plan, term: Term, now: Time): Priced
    requires Billable(tier)
  {
    var quote := Quote(s.user, tier, term, OfferPrice(tier, term), false, s.termEnd, s.updatedAt, now, now + QUOTE_LIFETIME);
    match ClassifyQuoted(s, tier, term)
    case NoneNeeded => Unquoted(NoChange)
    case Scheduled => Quoted(quote)
    case UpgradeNow =>
      var amounts := UpgradeQuoteAt(s, tier, now);
      if amounts.None? then Unquoted(InvalidProration)
      else Quoted(quote.(krw := amounts.value.chargeKRW, appliedNow := true, effectiveAt := now))
  }

  /** change.go: QuoteChange, from the row `s` its caller read. */
  function QuoteChangeTx(d: Database, s: Subscription, tier: Plan, term: Term, q: QuoteId, now: Time): (tx: Tx)
    ensures KeepsOrders(d, tx) && KeepsBooks(d, tx) && KeepsAccounts(d, tx) && KeepsRefunds(d, tx)
  {
    hide QuoteOf;
    if !Billable(tier) then Refused(TierNotSubscribable)
    else if !s.active || s.termEnd <= now then Refused(SubscriptionRequired)
    else if q in d.quotes then Refused(Storage)
    else
      match QuoteOf(s, tier, term, now)
      case Unquoted(error) => Refused(error)
      case Quoted(quote) => Committed(d.(quotes := d.quotes[q := quote]))
  }

  /** fixed_checkout.go: fixedQuoteInTx accepts. */
  predicate QuoteHolds(d: Database, u: User, tier: Plan, term: Term, q: QuoteId, now: Time) {
    && q in d.quotes
    && (var quote := d.quotes[q];
        && quote.user == u && quote.tier == tier && quote.term == term
        && quote.quotedAt <= now < quote.expiresAt
        && ActiveNow(d, u, now)
        && d.subs[u].updatedAt == quote.subStamp
        && (quote.appliedNow ==>
              WindowStart(d.subs[u].anchor, quote.quotedAt) == WindowStart(d.subs[u].anchor, now)))
  }

  /** fixed_checkout.go: ChangeSubscriptionQuoted. */
  function ChangeQuotedTx(d: Database, u: User, tier: Plan, term: Term, q: QuoteId, id: nat, now: Time, clock: Time): (tx: Tx)
    ensures KeepsSupport(d, tx)
    ensures KeepsBooks(d, tx) && KeepsQuotes(d, tx) && KeepsRefunds(d, tx)
  {
    if TierOf(d, u).Master? then Refused(MasterAccount)
    else if !QuoteHolds(d, u, tier, term, q, now) then Refused(StaleQuote)
    else if HasOpenOrder(d, u) then Refused(PaymentPending)
    else if !Billable(tier) then Refused(TierNotSubscribable)
    else
      var s, quote := d.subs[u], d.quotes[q];
      var change := ClassifyConfirmed(s, tier, term);
      if change.NoneNeeded? then Refused(NoChange)
      else if change.UpgradeNow? != quote.appliedNow then Refused(StaleQuote)
      else if change.Scheduled? then
        Committed(Log(Upsert(d, s.(scheduledTier := Some(tier), scheduledTerm := Some(term), autoRenew := true)),
                      ChangeScheduled(u, tier, term)))
      else if u !in d.methods then Refused(PaymentMethodRequired)
      else if quote.krw <= 0 then Refused(StaleQuote)
      else InsertIntent(d, NewIntent(Issued(id), u, Upgrade, tier, term, 0, quote.krw, s.updatedAt,
                                     quote.quotedAt, quote.effectiveAt, clock))
  }

  function FreeOrSupport(d: Database, u: User): Plan { if u in d.support then d.support[u] else Free }

  /** fixed_settlement.go: failRenewalInTx. */
  function FailRenewal(d: Database, s: Subscription, tier: Plan, term: Term, krw: int): (e: Database)
    ensures e.intents == d.intents && e.support == d.support && Writes(d, e, s.(active := false))
    ensures KeepsBooks(d, Committed(e)) && KeepsQuotes(d, Committed(e)) && KeepsRefunds(d, Committed(e))
  {
    hide Rewritten, Log, LogsNoCharge;
    Log(Rewritten(d, s.(active := false), s.user, FreeOrSupport(d, s.user)), RenewalFailed(s.user, tier, term, krw))
  }

  function NextTier(s: Subscription): Plan { if s.scheduledTier.Some? then s.scheduledTier.value else s.tier }

  function NextTerm(s: Subscription): Term { if s.scheduledTerm.Some? then s.scheduledTerm.value else s.term }

  /** fixed_checkout.go: renew, from the row `s` the pass read. */
  function RenewTx(d: Database, s: Subscription, now: Time, clock: Time): (tx: Tx)
    ensures KeepsSupport(d, tx)
    ensures KeepsBooks(d, tx) && KeepsQuotes(d, tx) && KeepsRefunds(d, tx)
  {
    if HasOpenOrder(d, s.user) then Refused(PaymentPending)
    else if s.user !in d.subs then Refused(StaleQuote)
    else
      var current := d.subs[s.user];
      if !current.active || current.termEnd != s.termEnd || current.updatedAt != s.updatedAt then Refused(StaleQuote)
      else
        var tier, term := NextTier(current), NextTerm(current);
        if !Billable(tier) then Refused(TierNotSubscribable)
        else if s.user !in d.methods then
          Committed(FailRenewal(d, current, tier, term, OfferPrice(tier, term)))
        else
          InsertIntent(d, NewIntent(Renewal(s.user, current.termEnd), s.user, Renew, tier, term, 0,
                                    OfferPrice(tier, term), current.updatedAt, now, current.termEnd, clock))
  }

  // ---- fixed_settlement.go -----------------------------------------------------------------

  function ReviewTx(d: Database, o: OrderId, key: Key, now: Time): (tx: Tx)
    ensures KeepsBooks(d, tx) && KeepsAccounts(d, tx) && KeepsQuotes(d, tx) && KeepsRefunds(d, tx)
  {
    if o in d.intents && d.intents[o].status.Pending? then Committed(SetStatus(d, o, Review, key, now))
    else Committed(d)
  }

  /** The captured payment no longer fits the order it was charged for: unapplicable. */
  predicate Unapplicable(d: Database, i: Intent, now: Time, packs: Catalog): (refused: bool)
    ensures !refused && (i.kind.Renew? || i.kind.Upgrade?) ==> i.user in d.subs
  {
    hide UpgradeStillFits;
    match i.kind
    case Pack => i.pack !in packs || packs[i.pack] != i.krw
    case Subscribe => i.user in d.subs && (d.subs[i.user].active || d.subs[i.user].updatedAt != i.subStamp)
    case Renew => !Unchanged(d, i) || d.subs[i.user].termEnd != i.effectiveAt
    case Upgrade => !Unchanged(d, i) || !UpgradeStillFits(d.subs[i.user], i, now)
  }

  predicate Unchanged(d: Database, i: Intent) {
    i.user in d.subs && d.subs[i.user].active && d.subs[i.user].updatedAt == i.subStamp
  }

  predicate UpgradeStillFits(s: Subscription, i: Intent, now: Time) {
    && now < s.termEnd && Rank(s.tier) < Rank(i.tier) && s.term == i.term
    && WindowStart(s.anchor, i.quotedAt) == WindowStart(s.anchor, now)
    && UpgradeQuoteAt(s, i.tier, i.quotedAt).Some?
    && UpgradeQuoteAt(s, i.tier, i.quotedAt).value.chargeKRW == i.krw
  }

  function NewSubscription(i: Intent, now: Time): Subscription {
    Subscription(i.user, Paid(i.user, now), i.tier, i.term, now, now, CoverageEnd(now, now, i.term.Annual?),
                 WindowEnd(now, now), true, None, None, true, 0)
  }

  function RenewedSubscription(s: Subscription, i: Intent): Subscription {
    s.(tier := i.tier, term := i.term, termStart := s.termEnd,
       termEnd := CoverageEnd(s.anchor, s.termEnd, i.term.Annual?),
       nextGrant := WindowEnd(s.anchor, s.termEnd), scheduledTier := None, scheduledTerm := None)
  }

  /** An apply path leaves every order, quote and refund alone, and no account without its row. */
  ghost predicate OnlyEntitles(d: Database, i: Intent, e: Database) {
    && e.intents == d.intents && e.quotes == d.quotes && e.refunds == d.refunds && e.guards == d.guards
    && d.subs.Keys <= e.subs.Keys && (e.support == d.support || e.support == d.support - {i.user})
  }

  function ChargeOf(i: Intent, key: Key): Event { Charge(i.user, i.order, i.krw, key) }

  /** fixed_settlement.go: applyFixedSubscription. */
  function ApplySubscription(d: Database, i: Intent, key: Key, now: Time): (e: Database)
    ensures OnlyEntitles(d, i, e) && Writes(d, e, NewSubscription(i, now)) && i.user in e.subs
  {
    var e := Log(Log(Upsert(d, NewSubscription(i, now)), ChargeOf(i, key)), TierChange(i.user, i.tier, i.term));
    Granted(AssignTier(e.(support := e.support - {i.user}), i.user, i.tier), i.order)
  }

  /** applyFixedRenewal, of the row `s`. */
  function ApplyRenewal(d: Database, s: Subscription, i: Intent, key: Key): (e: Database)
    ensures OnlyEntitles(d, i, e) && Writes(d, e, RenewedSubscription(s, i))
  {
    hide RenewedSubscription;
    var charged := Log(Upsert(d, RenewedSubscription(s, i)), ChargeOf(i, key));
    var changed := if i.tier == s.tier then charged else Log(charged, TierChange(i.user, i.tier, i.term));
    if i.user in d.support then changed
    else Granted(if i.tier == s.tier then changed else AssignTier(changed, i.user, i.tier), i.order)
  }

  /** applyFixedUpgrade, of the row `s`. */
  function ApplyUpgrade(d: Database, s: Subscription, i: Intent, key: Key): (e: Database)
    ensures OnlyEntitles(d, i, e) && Writes(d, e, s.(tier := i.tier, scheduledTier := None, scheduledTerm := None))
  {
    var e := Upsert(d, s.(tier := i.tier, scheduledTier := None, scheduledTerm := None));
    Granted(AssignTier(Log(Log(e, ChargeOf(i, key)), TierChange(i.user, i.tier, i.term)), i.user, i.tier), i.order)
  }

  /** applyFixedPack. */
  function ApplyPack(d: Database, i: Intent, key: Key): (e: Database)
    ensures OnlyEntitles(d, i, e) && RowsKept(d, e)
  {
    Log(Granted(d, i.order).(purchases := d.purchases[i.order := Purchase(i.user, i.pack, i.krw, key, false)]), ChargeOf(i, key))
  }

  /** The subscription row each kind of order buys. */
  ghost predicate RowsEntitled(d: Database, i: Intent, now: Time, e: Database)
    requires i.kind.Renew? || i.kind.Upgrade? ==> i.user in d.subs
  {
    match i.kind
    case Subscribe => Writes(d, e, NewSubscription(i, now))
    case Renew => Writes(d, e, RenewedSubscription(d.subs[i.user], i))
    case Upgrade => Writes(d, e, d.subs[i.user].(tier := i.tier, scheduledTier := None, scheduledTerm := None))
    case Pack => RowsKept(d, e)
  }

  /** applyFixedEntitlement, past its refusals. */
  function Entitled(d: Database, i: Intent, key: Key, now: Time): (e: Database)
    requires i.kind.Renew? || i.kind.Upgrade? ==> i.user in d.subs
    ensures OnlyEntitles(d, i, e) && RowsEntitled(d, i, now, e)
    ensures !i.kind.Pack? ==> i.user in e.subs
  {
    hide ApplySubscription, ApplyRenewal, ApplyUpgrade, ApplyPack, NewSubscription, RenewedSubscription;
    match i.kind
    case Subscribe => ApplySubscription(d, i, key, now)
    case Renew => ApplyRenewal(d, d.subs[i.user], i, key)
    case Upgrade => ApplyUpgrade(d, d.subs[i.user], i, key)
    case Pack => ApplyPack(d, i, key)
  }

  /** SetIntentFunding and MarkIntent, for an order whose entitlement was just written. */
  function MarkApplied(d: Database, o: OrderId, key: Key, now: Time): Database
    requires o in d.intents && (d.intents[o].kind.Pack? || d.intents[o].user in d.subs)
  {
    var i := d.intents[o];
    var funded := if i.kind.Pack? then i else i.(coverage := d.subs[i.user].coverage, fundingEnd := d.subs[i.user].termEnd);
    d.(intents := d.intents[o := funded.(status := Applied, paymentKey := key, appliedAt := now)])
  }

  /** fixed_settlement.go: applyFixedPayment, for a payment that matches the order. */
  function ApplyTx(d: Database, o: OrderId, key: Key, now: Time, packs: Catalog): (tx: Tx)
    ensures tx.Committed? ==> tx.db.support == d.support || (o in d.intents && tx.db.support == d.support - {d.intents[o].user})
    ensures KeepsQuotes(d, tx) && KeepsRefunds(d, tx)
  {
    hide Entitled, Unapplicable;
    if o !in d.intents then Refused(PaymentPending)
    else
      var i := d.intents[o];
      if i.status.Applied? then Committed(d)
      else if !i.status.Pending? then Refused(PaymentPending)
      else if Unapplicable(d, i, now, packs) then Committed(SetStatus(d, o, Review, key, now))
      else if i.kind.Pack? && o in d.purchases then Refused(Storage)
      else if (i.kind.Renew? || i.kind.Upgrade?) && d.subs[i.user].coverage.NoCoverage? then Refused(PaymentPending)
      else Committed(MarkApplied(Entitled(d, i, key, now), o, key, now))
  }

  predicate OnTermOf(d: Database, i: Intent) {
    i.user in d.subs && d.subs[i.user].active && d.subs[i.user].termEnd == i.effectiveAt
  }

  /** fixed_settlement.go: failFixedIntent. */
  function FailTx(d: Database, o: OrderId, now: Time): (tx: Tx)
    ensures KeepsSupport(d, tx)
    ensures KeepsBooks(d, tx) && KeepsQuotes(d, tx) && KeepsRefunds(d, tx)
  {
    hide FailRenewal, Log;
    if o !in d.intents || !d.intents[o].status.Pending? then Committed(d)
    else
      var i := d.intents[o];
      var e := if i.kind.Renew? && OnTermOf(d, i) then FailRenewal(d, d.subs[i.user], i.tier, i.term, i.krw)
               else Log(d, ChargeFailed(i.user, o));
      Committed(SetStatus(e, o, Failed, 0, now))
  }

  /** unapplied_captures.go: completeUnappliedRefund. */
  function CompleteUnappliedTx(d: Database, o: OrderId, key: Key, amount: int): (tx: Tx)
    ensures KeepsSupport(d, tx)
    ensures KeepsBooks(d, tx) && KeepsQuotes(d, tx) && KeepsRefunds(d, tx)
  {
    hide FailRenewal, Log;
    if o !in d.intents || !d.intents[o].status.Review? then Committed(d)
    else
      var i := d.intents[o];
      var e := Log(d.(intents := d.intents[o := i.(status := Failed)]), Refunded(i.user, OfOrder(o), amount, key));
      Committed(if i.kind.Renew? && OnTermOf(d, i) then FailRenewal(e, d.subs[i.user], i.tier, i.term, i.krw) else e)
  }

  // ---- subscription.go and change.go -------------------------------------------------------

  /** AdvanceNextGrant: moves the benefit boundary alone, and only from the value the caller read. */
  function AdvanceGrantTx(d: Database, s: Subscription): (tx: Tx)
    ensures KeepsSupport(d, tx)
    ensures KeepsOrders(d, tx) && KeepsBooks(d, tx) && KeepsQuotes(d, tx) && KeepsRefunds(d, tx)
  {
    if s.user in d.subs && d.subs[s.user].nextGrant == s.nextGrant then
      Committed(d.(subs := d.subs[s.user := d.subs[s.user].(nextGrant := WindowEnd(s.anchor, s.nextGrant))]))
    else Committed(d)
  }

  /** lapseCancelled: writes back the row the pass read, whatever the row has become since. */
  function LapseTx(d: Database, s: Subscription): (tx: Tx)
    ensures KeepsSupport(d, tx)
    ensures KeepsOrders(d, tx) && KeepsBooks(d, tx) && KeepsQuotes(d, tx) && KeepsRefunds(d, tx)
  {
    hide Rewritten, Log, LogsNoCharge;
    Committed(Log(Rewritten(d, s.(active := false), s.user, FreeOrSupport(d, s.user)), Cancelled(s.user, s.tier, s.term)))
  }

  predicate ReadIsCurrent(d: Database, s: Subscription) {
    s.user in d.subs && d.subs[s.user].updatedAt == s.updatedAt
  }

  /** CancelSubscription writes back the row its caller read, under the version check. */
  function CancelTx(d: Database, s: Subscription): (tx: Tx)
    ensures KeepsSupport(d, tx)
    ensures KeepsOrders(d, tx) && KeepsBooks(d, tx) && KeepsQuotes(d, tx) && KeepsRefunds(d, tx)
  {
    if !s.autoRenew then Refused(NoChange)
    else if HasOpenOrder(d, s.user) then Refused(PaymentPending)
    else if !ReadIsCurrent(d, s) then Refused(StaleQuote)
    else Committed(Log(Upsert(d, s.(autoRenew := false, scheduledTier := None, scheduledTerm := None)),
                       CancelScheduled(s.user, s.tier, s.term)))
  }

  function ResumeTx(d: Database, s: Subscription): (tx: Tx)
    ensures KeepsSupport(d, tx)
    ensures KeepsOrders(d, tx) && KeepsBooks(d, tx) && KeepsQuotes(d, tx) && KeepsRefunds(d, tx)
  {
    if s.autoRenew then Refused(NoChange)
    else if HasOpenOrder(d, s.user) then Refused(PaymentPending)
    else if !ReadIsCurrent(d, s) then Refused(StaleQuote)
    else Committed(Upsert(d, d.subs[s.user].(autoRenew := true)))
  }

  function CancelScheduledTx(d: Database, s: Subscription): (tx: Tx)
    ensures KeepsSupport(d, tx)
    ensures KeepsOrders(d, tx) && KeepsBooks(d, tx) && KeepsQuotes(d, tx) && KeepsRefunds(d, tx)
  {
    if s.scheduledTier.None? && s.scheduledTerm.None? then Refused(NoScheduledChange)
    else if HasOpenOrder(d, s.user) then Refused(PaymentPending)
    else if !ReadIsCurrent(d, s) then Refused(StaleQuote)
    else Committed(Upsert(d, d.subs[s.user].(scheduledTier := None, scheduledTerm := None)))
  }

  function RemoveMethodTx(d: Database, u: User): (tx: Tx)
    ensures KeepsOrders(d, tx) && KeepsBooks(d, tx) && KeepsAccounts(d, tx) && KeepsQuotes(d, tx) && KeepsRefunds(d, tx)
  {
    if HasOpenOrder(d, u) then Refused(PaymentPending)
    else if u in d.subs && d.subs[u].active && d.subs[u].autoRenew then Refused(NeedsMethod)
    else Committed(d.(methods := d.methods - {u}))
  }

  /** auth/store: the account whose demotion would leave no master. */
  predicate OnlyMaster(tiers: map<User, Plan>, u: User) {
    u in tiers && tiers[u].Master? && forall v | v in tiers && tiers[v].Master? :: v == u
  }

  /** support.go: AssignSupportTier, as far as tiers and support coverage go. */
  function AssignSupportTx(d: Database, u: User, target: Plan, now: Time): (tx: Tx)
    ensures tx.Committed? ==> RowsKept(d, tx.db)
    ensures KeepsOrders(d, tx) && KeepsBooks(d, tx) && KeepsQuotes(d, tx) && KeepsRefunds(d, tx)
  {
    var current := TierOf(d, u);
    if target.Free? || target.Master? then
      if current == target then Committed(d)
      else if OnlyMaster(d.tiers, u) then Refused(LastMaster)
      else Committed(d.(tiers := d.tiers[u := target], support := d.support - {u}))
    else if current == target && (u in d.support || ActiveNow(d, u, now)) then Committed(d)
    else if OnlyMaster(d.tiers, u) then Refused(LastMaster)
    else Committed(d.(tiers := d.tiers[u := target], support := d.support[u := target]))
  }

  // ---- refunds.go --------------------------------------------------------------------------

  predicate Refundable(d: Database, u: User, o: OrderId) {
    o in d.intents && d.intents[o].user == u && d.intents[o].status.Applied?
  }

  predicate OpenRequest(d: Database, o: OrderId) {
    exists r | 0 <= r < |d.refunds| ::
      d.refunds[r].order == o && (d.refunds[r].status.Requested? || d.refunds[r].status.Processing?)
  }

  function ConfirmedTotal(refunds: seq<Refund>, o: OrderId): int {
    if refunds == [] then 0
    else
      var last := refunds[|refunds| - 1];
      ConfirmedTotal(refunds[..|refunds| - 1], o) + if last.order == o && last.status.Completed? then last.confirmed else 0
  }

  function RequestRefundTx(d: Database, u: User, o: OrderId): (tx: Tx)
    ensures KeepsOrders(d, tx) && KeepsBooks(d, tx) && KeepsAccounts(d, tx) && KeepsQuotes(d, tx)
  {
    if !Refundable(d, u, o) then Refused(RefundNotFound)
    else if OpenRequest(d, o) then Refused(RefundConflict)
    else if ConfirmedTotal(d.refunds, o) >= d.intents[o].krw then Refused(RefundAmount)
    else Committed(d.(refunds := d.refunds + [Refund(u, o, Requested, 0, 0, 0, 0, 0)]))
  }

  /** What the funded-benefit owner reports about a payment's benefits. */
  datatype Evidence = Evidence(unused: bool, reserved: bool)

  function FundingStart(i: Intent): Time { if i.kind.Subscribe? then i.appliedAt else i.effectiveAt }

  /** refund_types.go: `at` is before Funding().End — the funded term's end, cut where a later
      applied renewal's term begins inside it. */
  predicate BeforeFundingEnd(d: Database, i: Intent, at: Time) {
    && at < i.fundingEnd
    && forall o | o in d.intents :: (var r := d.intents[o];
         r.user == i.user && r.kind.Renew? && r.status.Applied? && FundingStart(i) < r.effectiveAt < i.fundingEnd
         ==> at < r.effectiveAt)
  }

  predicate HasDependentUpgrade(d: Database, i: Intent) {
    && !i.kind.Pack? && !i.kind.Upgrade?
    && exists o | o in d.intents :: (var up := d.intents[o];
         && up.user == i.user && up.kind.Upgrade? && up.status.Applied? && up.coverage == i.coverage
         && FundingStart(i) <= up.effectiveAt && BeforeFundingEnd(d, i, up.effectiveAt)
         && forall r | 0 <= r < |d.refunds| :: d.refunds[r].order == o ==> !d.refunds[r].status.Completed?)
  }

  const REFUND_WINDOW := 7 * DAY

  /** A provider's record of one order's payment, as a read of it answers. */
  datatype Payment = Payment(
    order: OrderId, key: Key, status: PaymentStatus, amount: int, balance: int, won: bool, cancels: seq<Cancel>)

  datatype PaymentStatus = InProgress | Done | PartialCanceled | Canceled | Aborted | Expired

  datatype Cancel = Cancel(transaction: Key, amount: int, done: bool)

  /** refunds.go: ReviewRefund; `p` is the payment read before the transaction. */
  function ReviewRefundTx(d: Database, r: nat, approve: bool, amount: int, p: Payment, e: Evidence, now: Time): (tx: Tx)
    ensures KeepsOrders(d, tx) && KeepsBooks(d, tx) && KeepsAccounts(d, tx) && KeepsQuotes(d, tx)
  {
    if r >= |d.refunds| || !d.refunds[r].status.Requested? then Refused(RefundConflict)
    else
      var request := d.refunds[r];
      if !Refundable(d, request.user, request.order) then Refused(RefundNotFound)
      else
        var i := d.intents[request.order];
        if !approve then
          if amount != 0 then Refused(RefundAmount)
          else Committed(d.(refunds := d.refunds[r := request.(status := Rejected, reviewedAt := now)]))
        else if e.reserved then Refused(RefundActiveUse)
        else if HasDependentUpgrade(d, i) then Refused(RefundDependentPayment)
        else if p.order != i.order || p.key != i.paymentKey || p.amount != i.krw || !p.won
                || amount <= 0 || amount > p.balance then Refused(RefundAmount)
        else if now < i.appliedAt + REFUND_WINDOW && e.unused && amount != p.balance then Refused(RefundAmount)
        else Committed(d.(
          refunds := d.refunds[r := request.(status := Processing, amount := amount, balanceBefore := p.balance, reviewedAt := now)],
          guards := d.guards[r := GuardOf(d, r).(held := GuardOf(d, r).held + 1)]))
  }

  function GuardOf(d: Database, r: nat): Guard { if r in d.guards then d.guards[r] else Guard(0, 0, 0) }

  /** The transaction key is unique over all requests. */
  predicate TransactionFree(d: Database, r: nat, transaction: Key) {
    forall k | 0 <= k < |d.refunds| :: k != r ==> d.refunds[k].transaction != transaction
  }

  /** RecordRefundProviderAttempt. */
  function RecordAttemptTx(d: Database, r: nat, transaction: Key): (tx: Tx)
    ensures KeepsOrders(d, tx) && KeepsBooks(d, tx) && KeepsAccounts(d, tx) && KeepsQuotes(d, tx)
  {
    if r >= |d.refunds| || !d.refunds[r].status.Processing? then Refused(RefundConflict)
    else if d.refunds[r].transaction != 0 && d.refunds[r].transaction != transaction then Refused(RefundConflict)
    else if !TransactionFree(d, r, transaction) then Refused(Storage)
    else Committed(d.(refunds := d.refunds[r := d.refunds[r].(transaction := transaction)]))
  }

  /** The refusal path of ReconcileRefund: Release and FailRefund. */
  function FailRefundTx(d: Database, r: nat): (tx: Tx)
    ensures KeepsOrders(d, tx) && KeepsBooks(d, tx) && KeepsAccounts(d, tx) && KeepsQuotes(d, tx)
  {
    if r >= |d.refunds| || !d.refunds[r].status.Processing? then Refused(RefundConflict)
    else Committed(d.(refunds := d.refunds[r := d.refunds[r].(status := RefundFailed)],
                      guards := d.guards[r := GuardOf(d, r).(released := GuardOf(d, r).released + 1)]))
  }

  datatype Reversal = Unreversed | Rewrites(row: Subscription, tier: Plan)

  /** What a refund of `i` makes of the row it still funds; `prior` is the tier the transition history
      gives for the instant before an upgrade, if any. */
  function ReversalOf(s: Subscription, i: Intent, prior: Option<Plan>, at: Time): Reversal {
    if !i.kind.Upgrade? then Rewrites(s.(active := false, autoRenew := false, termEnd := at, nextGrant := at), Free)
    else if s.tier != i.tier || prior.None? then Unreversed
    else Rewrites(s.(tier := prior.value), prior.value)
  }

  /** reverseRefundedEntitlements. */
  function Reverse(d: Database, i: Intent, prior: Option<Plan>, at: Time): (tx: Tx)
    ensures KeepsSupport(d, tx)
    ensures KeepsBooks(d, tx) && KeepsOrders(d, tx) && KeepsQuotes(d, tx) && KeepsRefunds(d, tx)
  {
    hide BeforeFundingEnd, Rewritten, ReversalOf;
    if i.kind.Pack? then
      if i.order in d.purchases then
        Committed(d.(purchases := d.purchases[i.order := d.purchases[i.order].(refunded := true)]))
      else Refused(RefundConflict)
    else if i.user !in d.subs || d.subs[i.user].coverage != i.coverage || !BeforeFundingEnd(d, i, at)
            || !d.subs[i.user].active then Committed(d)
    else
      match ReversalOf(d.subs[i.user], i, prior, at)
      case Unreversed => Committed(d)
      case Rewrites(row, tier) => Committed(Rewritten(d, row, i.user, tier))
  }

  /** The settling transaction of ReconcileRefund: Confirm, reverse, RecordRefundOutcome, event. */
  function CompleteRefundTx(d: Database, r: nat, transaction: Key, prior: Option<Plan>, at: Time): (tx: Tx)
    ensures KeepsSupport(d, tx)
    ensures KeepsOrders(d, tx) && KeepsBooks(d, tx) && KeepsQuotes(d, tx)
  {
    hide Reverse, TransactionFree;
    if r >= |d.refunds| then Refused(RefundNotFound)
    else if d.refunds[r].status.Completed? then Committed(d)
    else if !d.refunds[r].status.Processing? then Refused(RefundConflict)
    else if !Refundable(d, d.refunds[r].user, d.refunds[r].order) then Refused(RefundNotFound)
    else
      var request := d.refunds[r];
      var i := d.intents[request.order];
      var confirmed := d.(guards := d.guards[r := GuardOf(d, r).(confirmed := GuardOf(d, r).confirmed + 1)]);
      match Reverse(confirmed, i, prior, at)
      case Refused(error) => Refused(error)
      case Committed(e) =>
        if !TransactionFree(e, r, transaction) then Refused(Storage)
        else Committed(Log(e.(refunds := e.refunds[r := request.(status := Completed, transaction := transaction,
                                                                 confirmed := request.amount)]),
                           Refunded(i.user, OfRequest(r), request.amount, i.paymentKey)))
  }
}
