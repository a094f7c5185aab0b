/** Reviewed refunds: what was confirmed against what the provider gave back, and the funding held
    meanwhile. */
module Refunds {
  import opened Basics
  import opened Calendar
  import opened Pricing
  import opened Ledger
  import opened Protocol
  import opened Journal
  import opened Money

  type Keys = map<CancelKey, CancelOutcome>

  // ---- money given back --------------------------------------------------------------------

  lemma {:induction false} SumDoneOfConcat(a: seq<Cancel>, b: seq<Cancel>)
    ensures SumDone(a + b) == SumDone(a) + SumDone(b)
    decreases |b|
  {
    if b == [] {
      assert a + b == a;
    } else {
      var init := b[..|b| - 1];
      SumDoneOfConcat(a, init);
      assert (a + b)[..|a + b| - 1] == a + init;
    }
  }

  lemma SplitAt<T>(s: seq<T>, k: nat)
    requires k < |s|
    ensures s == s[..k] + [s[k]] + s[k + 1..]
  {}

  lemma SumDoneWithout(cancels: seq<Cancel>, k: nat)
    requires k < |cancels|
    ensures SumDone(cancels) == SumDone(cancels[..k] + cancels[k + 1..]) + if cancels[k].done then cancels[k].amount else 0
  {
    var front, back := cancels[..k], cancels[k + 1..];
    SplitAt(cancels, k);
    hide SumDone;
    SumDoneOfConcat(front + [cancels[k]], back);
    SumDoneOfAppend(front, cancels[k]);
    SumDoneOfConcat(front, back);
  }

  ghost predicate Counts(r: Refund, o: OrderId) { r.order == o && r.status.Completed? }

  /** Each completed request of the order has a done cancel of its own amount, under a key no other
      request has. */
  ghost predicate EachBacked(refunds: seq<Refund>, o: OrderId, cancels: seq<Cancel>) {
    && (forall r | 0 <= r < |refunds| && Counts(refunds[r], o) :: HasCancel(cancels, refunds[r].transaction, refunds[r].confirmed))
    && (forall r, t | 0 <= r < t < |refunds| && Counts(refunds[r], o) && Counts(refunds[t], o) ::
          refunds[r].transaction != refunds[t].transaction)
  }

  /** Then all they confirmed is within what the provider gave back. */
  lemma {:induction false} ConfirmedWithinCancels(refunds: seq<Refund>, o: OrderId, cancels: seq<Cancel>)
    requires EachBacked(refunds, o, cancels) && forall k | 0 <= k < |cancels| :: cancels[k].done ==> cancels[k].amount > 0
    ensures ConfirmedTotal(refunds, o) <= SumDone(cancels)
    decreases |refunds|
  {
    if refunds == [] {
      SumDoneGrows([], cancels);
    } else {
      var n := |refunds| - 1;
      var last, init := refunds[n], refunds[..n];
      if Counts(last, o) {
        var k :| 0 <= k < |cancels| && cancels[k] == Cancel(last.transaction, last.confirmed, true);
        var rest := cancels[..k] + cancels[k + 1..];
        forall r | 0 <= r < n && Counts(init[r], o) ensures HasCancel(rest, init[r].transaction, init[r].confirmed) {
          var j :| 0 <= j < |cancels| && cancels[j] == Cancel(refunds[r].transaction, refunds[r].confirmed, true);
          assert j != k;
          assert rest[if j < k then j else j - 1] == cancels[j];
        }
        SumDoneWithout(cancels, k);
        ConfirmedWithinCancels(init, o, rest);
      } else {
        forall r | 0 <= r < n && Counts(init[r], o) ensures HasCancel(cancels, init[r].transaction, init[r].confirmed) {
          assert Counts(refunds[r], o);
        }
        ConfirmedWithinCancels(init, o, cancels);
      }
    }
  }

  // ---- the invariant -----------------------------------------------------------------------

  /** The funding of a request is frozen once while it is processing, and then voided or given back
      exactly once. */
  ghost predicate GuardMatches(r: Refund, held: bool, guard: Guard) {
    match r.status
    case Requested => !held
    case Rejected => !held
    case Processing => held && guard == Guard(1, 0, 0)
    case Completed => held && guard == Guard(1, 1, 0)
    case RefundFailed => held && guard == Guard(1, 0, 1)
  }

  ghost predicate Reviewed(r: Refund) { r.status.Processing? || r.status.Completed? || r.status.RefundFailed? }

  function BalanceAt(c: Settlement, n: nat): int
    requires c.Captured? && n <= |c.cancels|
  {
    c.amount - SumDone(c.cancels[..n])
  }

  /** The balance the review saw is the payment's at some moment, before any cancel of this
      request. */
  ghost predicate BalanceWasSeen(r: Refund, id: nat, c: Settlement, keys: Keys)
    requires c.Captured?
  {
    exists n: nat | n <= |c.cancels| ::
      r.balanceBefore == BalanceAt(c, n)
      && (ForRequest(id) in keys && keys[ForRequest(id)].DoneAt? ==> n <= keys[ForRequest(id)].index)
  }

  ghost predicate RequestOk(r: Refund, id: nat, orders: Orders, provider: Captures, keys: Keys, heard: set<Message>) {
    && r.order in orders && orders[r.order].status.Applied? && orders[r.order].user == r.user
    && r.order in provider && provider[r.order].Captured?
    && (r.transaction != 0 ==> AttemptRecorded(id, r.transaction) in heard && Reviewed(r)
                               && HasCancel(provider[r.order].cancels, r.transaction, r.amount))
    && (Reviewed(r) ==> r.amount > 0 && BalanceWasSeen(r, id, provider[r.order], keys))
    && (r.status.Completed? ==> r.transaction != 0 && r.confirmed == r.amount)
    && (r.status.RefundFailed? ==> ForRequest(id) in keys && keys[ForRequest(id)].RefusedForGood?)
  }

  ghost predicate OneOpenRequest(refunds: seq<Refund>) {
    forall r, t | 0 <= r < |refunds| && 0 <= t < |refunds| && refunds[r].order == refunds[t].order
                  && (refunds[r].status.Requested? || refunds[r].status.Processing?)
                  && (refunds[t].status.Requested? || refunds[t].status.Processing?) :: r == t
  }

  ghost predicate TransactionsUnique(refunds: seq<Refund>) {
    forall r, t | 0 <= r < |refunds| && 0 <= t < |refunds| && refunds[r].transaction != 0 :: 
      refunds[r].transaction == refunds[t].transaction ==> r == t
  }

  ghost predicate HeardOk(refunds: seq<Refund>, keys: Keys, heard: set<Message>, m: Message) {
    match m
    case AttemptRecorded(r, t) => t != 0 && r < |refunds| && refunds[r].transaction == t
    case CancelAsked(k, o, krw) =>
      k.ForRequest? ==> k.request < |refunds| && Reviewed(refunds[k.request]) && refunds[k.request].order == o && refunds[k.request].amount == krw
    case CancelRefused(k) => k in keys
    case RefusedThenSeen(k, p) => k in keys && Seen(p) in heard && (keys[k].DoneAt? && keys[k].order == p.order ==> keys[k].index < |p.cancels|)
    case _ => true
  }

  ghost predicate KeyOk(provider: Captures, heard: set<Message>, k: CancelKey, outcome: CancelOutcome) {
    outcome.DoneAt? ==>
      && outcome.order in provider && provider[outcome.order].Captured?
      && outcome.index < |provider[outcome.order].cancels| && provider[outcome.order].cancels[outcome.index].done
      && CancelAsked(k, outcome.order, provider[outcome.order].cancels[outcome.index].amount) in heard
  }

  ghost predicate GuardsOk(refunds: seq<Refund>, guards: map<nat, Guard>) {
    && (forall r: nat :: r in guards ==> r < |refunds|)
    && (forall r | 0 <= r < |refunds| :: GuardMatches(refunds[r], r in guards, if r in guards then guards[r] else Guard(0, 0, 0)))
  }

  ghost predicate RequestsOk(refunds: seq<Refund>, orders: Orders, provider: Captures, keys: Keys, heard: set<Message>) {
    forall r | 0 <= r < |refunds| :: RequestOk(refunds[r], r, orders, provider, keys, heard)
  }

  ghost predicate AnswersOk(refunds: seq<Refund>, provider: Captures, keys: Keys, heard: set<Message>) {
    && (forall m | m in heard :: HeardOk(refunds, keys, heard, m))
    && (forall k | k in keys :: KeyOk(provider, heard, k, keys[k]))
  }

  ghost predicate RefundsOk(refunds: seq<Refund>, guards: map<nat, Guard>, orders: Orders, provider: Captures,
                            keys: Keys, heard: set<Message>)
  {
    && RequestsOk(refunds, orders, provider, keys, heard) && GuardsOk(refunds, guards)
    && OneOpenRequest(refunds) && TransactionsUnique(refunds) && AnswersOk(refunds, provider, keys, heard)
  }

  ghost predicate RefundsOkIn(w: World) { RefundsOk(w.db.refunds, w.db.guards, w.db.intents, w.provider, w.cancels, w.heard) }

  // ---- the provider and its answers --------------------------------------------------------

  lemma CancelsStay(b: Settlement, c: Settlement, transaction: Key, amount: int)
    requires Follows(b, c) && b.Captured? && HasCancel(b.cancels, transaction, amount)
    ensures HasCancel(c.cancels, transaction, amount)
  {
    var k :| 0 <= k < |b.cancels| && b.cancels[k] == Cancel(transaction, amount, true);
    assert c.cancels[k] == b.cancels[k];
  }

  /** The balance a review saw came before the request's own cancel, and still does. */
  lemma SeenBalanceStays(r: Refund, id: nat, b: Settlement, c: Settlement, keys: Keys, next: Keys)
    requires b.Captured? && Follows(b, c) && BalanceWasSeen(r, id, b, keys)
    requires var k := ForRequest(id);
             k in next && next[k].DoneAt? ==> if k in keys then next[k] == keys[k] else |b.cancels| <= next[k].index
    ensures BalanceWasSeen(r, id, c, next)
  {
    hide SumDone;
    var k := ForRequest(id);
    var n: nat :| n <= |b.cancels| && r.balanceBefore == BalanceAt(b, n) && (k in keys && keys[k].DoneAt? ==> n <= keys[k].index);
    assert c.cancels[..n] == b.cancels[..n];
    assert r.balanceBefore == BalanceAt(c, n);
  }

  /** Whatever the provider does, every key's outcome stands, and one settled now comes after every
      cancel the payment had. */
  lemma OutcomesStand(w: World, a: EnvAction)
    requires EnvEnabled(w, a)
    ensures forall k | k in w.cancels :: k in NextCancels(w, a) && NextCancels(w, a)[k] == w.cancels[k]
    ensures forall k | k in NextCancels(w, a) && k !in w.cancels && NextCancels(w, a)[k].DoneAt? ::
              a.CancelMoney? && a.k == k && NextCancels(w, a)[k] == DoneAt(a.o, |w.provider[a.o].cancels|)
              && a.o in w.provider && w.provider[a.o].Captured? && CancelAsked(k, a.o, a.krw) in w.heard
  {}

  lemma EnvKeepsRequest(w: World, a: EnvAction, id: nat)
    requires EnvEnabled(w, a) && RefundsOkIn(w) && MoneyOk(w.db.intents, w.provider, w.heard) && id < |w.db.refunds|
    ensures RequestOk(w.db.refunds[id], id, w.db.intents, NextProvider(w, a), NextCancels(w, a), w.heard + News(w, a))
  {
    ProviderFollows(w, a);
    OutcomesStand(w, a);
    hide NextProvider, NextCancels, EnvEnabled, News, Sound, MoneyOk, BalanceWasSeen, Follows, HasCancel;
    var r, next, keys := w.db.refunds[id], NextProvider(w, a), NextCancels(w, a);
    assert RequestOk(r, id, w.db.intents, w.provider, w.cancels, w.heard);
    var b, c := w.provider[r.order], next[r.order];
    assert c.Captured? by { CaptureStays(b, c); }
    if Reviewed(r) {
      var k := ForRequest(id);
      if k in keys && k !in w.cancels && keys[k].DoneAt? {
        assert HeardOk(w.db.refunds, w.cancels, w.heard, CancelAsked(k, a.o, a.krw));
      }
      SeenBalanceStays(r, id, b, c, w.cancels, keys);
    }
    if r.transaction != 0 { CancelsStay(b, c, r.transaction, r.amount); }
  }

  lemma CaptureStays(b: Settlement, c: Settlement)
    requires Follows(b, c) && b.Captured?
    ensures c.Captured? && b.cancels <= c.cancels
  {}

  lemma EnvKeepsKeys(w: World, a: EnvAction)
    requires EnvEnabled(w, a) && RefundsOkIn(w) && MoneyOk(w.db.intents, w.provider, w.heard)
    ensures forall k | k in NextCancels(w, a) :: KeyOk(NextProvider(w, a), w.heard + News(w, a), k, NextCancels(w, a)[k])
  {
    ProviderFollows(w, a);
    OutcomesStand(w, a);
    var next, keys := NextProvider(w, a), NextCancels(w, a);
    hide NextCancels, News, Sound, MoneyOk, RequestsOk, GuardsOk;
    forall k | k in keys ensures KeyOk(next, w.heard + News(w, a), k, keys[k]) {
      if k in w.cancels { assert KeyOk(w.provider, w.heard, k, w.cancels[k]); }
    }
  }

  lemma NewsIsOk(w: World, a: EnvAction, m: Message)
    requires EnvEnabled(w, a) && RefundsOkIn(w) && m in News(w, a)
    ensures HeardOk(w.db.refunds, NextCancels(w, a), w.heard + News(w, a), m)
  {
    hide RequestsOk, GuardsOk;
    if m.RefusedThenSeen? {
      assert HeardOk(w.db.refunds, w.cancels, w.heard, CancelRefused(m.key));
      assert KeyOk(w.provider, w.heard, m.key, w.cancels[m.key]);
    }
  }

  lemma AnswerStays(w: World, a: EnvAction, m: Message)
    requires EnvEnabled(w, a) && RefundsOkIn(w) && m in w.heard
    ensures HeardOk(w.db.refunds, NextCancels(w, a), w.heard + News(w, a), m)
  {
    OutcomesStand(w, a);
    hide NextCancels, News, RequestsOk, GuardsOk;
    assert HeardOk(w.db.refunds, w.cancels, w.heard, m);
  }

  lemma EnvKeepsRefunds(w: World, a: EnvAction)
    requires EnvEnabled(w, a) && RefundsOkIn(w) && MoneyOk(w.db.intents, w.provider, w.heard)
    ensures RefundsOk(w.db.refunds, w.db.guards, w.db.intents, NextProvider(w, a), NextCancels(w, a), w.heard + News(w, a))
  {
    hide NextProvider, NextCancels, News, EnvEnabled, RequestOk, KeyOk, HeardOk, GuardsOk, MoneyOk, OneOpenRequest, TransactionsUnique;
    EnvKeepsKeys(w, a);
    forall id | 0 <= id < |w.db.refunds|
      ensures RequestOk(w.db.refunds[id], id, w.db.intents, NextProvider(w, a), NextCancels(w, a), w.heard + News(w, a))
    {
      EnvKeepsRequest(w, a, id);
    }
    forall m | m in w.heard + News(w, a) ensures HeardOk(w.db.refunds, NextCancels(w, a), w.heard + News(w, a), m) {
      if m in w.heard { AnswerStays(w, a, m); } else { NewsIsOk(w, a, m); }
    }
  }

  // ---- the transactions --------------------------------------------------------------------

  /** Requests are about applied orders, which nothing rewrites. */
  lemma OrdersKeepRefunds(w: World, after: Orders)
    requires RefundsOkIn(w)
    requires forall o | o in w.db.intents && w.db.intents[o].status.Applied? :: o in after && after[o] == w.db.intents[o]
    ensures RefundsOk(w.db.refunds, w.db.guards, after, w.provider, w.cancels, w.heard)
  {
    hide AnswersOk, GuardsOk, OneOpenRequest, TransactionsUnique, BalanceWasSeen, HasCancel;
    forall r | 0 <= r < |w.db.refunds|
      ensures RequestOk(w.db.refunds[r], r, after, w.provider, w.cancels, w.heard)
    {
      assert RequestOk(w.db.refunds[r], r, w.db.intents, w.provider, w.cancels, w.heard);
    }
  }

  ghost predicate Waiting(r: Refund) { r.status.Requested? || r.status.Processing? }

  /** The moves of a refund request: what it is about never changes, a review's terms never change,
      and a settled request is final. */
  ghost predicate RequestMovesOn(r: Refund, s: Refund) {
    && s.order == r.order && s.user == r.user
    && (Reviewed(r) ==> Reviewed(s) && s.amount == r.amount && s.balanceBefore == r.balanceBefore)
    && (r.transaction != 0 ==> s.transaction == r.transaction)
    && (r.status.Rejected? || r.status.Completed? || r.status.RefundFailed? ==> s == r)
  }

  lemma RequestStaysPut(r: Refund)
    ensures RequestMovesOn(r, r)
  {}

  ghost predicate RequestsMoveOn(before: seq<Refund>, after: seq<Refund>) {
    |before| <= |after| && forall r | 0 <= r < |before| :: RequestMovesOn(before[r], after[r])
  }

  /** What a transaction may make of one request. */
  ghost predicate Succeeds(w: World, id: nat, next: Refund, guards: map<nat, Guard>, heard: set<Message>) {
    && id < |w.db.refunds|
    && RequestMovesOn(w.db.refunds[id], next) && (Waiting(next) ==> Waiting(w.db.refunds[id]))
    && (next.transaction != 0 ==> TransactionFree(w.db, id, next.transaction))
    && (heard == w.heard || (next.transaction != 0 && heard == w.heard + {AttemptRecorded(id, next.transaction)}))
    && (forall k: nat | k != id :: (k in guards <==> k in w.db.guards) && (k in guards ==> guards[k] == w.db.guards[k]))
    && GuardMatches(next, id in guards, if id in guards then guards[id] else Guard(0, 0, 0))
    && RequestOk(next, id, w.db.intents, w.provider, w.cancels, heard)
  }

  ghost predicate Steps(w: World, id: nat, e: Database, heard: set<Message>) {
    && id < |w.db.refunds| == |e.refunds| && e.refunds == w.db.refunds[id := e.refunds[id]]
    && Succeeds(w, id, e.refunds[id], e.guards, heard)
  }

  function HeardAfter(w: World, a: RefundAction): set<Message> {
    if a.Recording? then w.heard + {AttemptRecorded(a.r, a.transaction)} else w.heard
  }

  lemma RewriteKeepsRequests(w: World, id: nat, next: Refund, guards: map<nat, Guard>, heard: set<Message>)
    requires RefundsOkIn(w) && Succeeds(w, id, next, guards, heard)
    ensures RequestsOk(w.db.refunds[id := next], w.db.intents, w.provider, w.cancels, heard)
    ensures GuardsOk(w.db.refunds[id := next], guards)
    ensures OneOpenRequest(w.db.refunds[id := next]) && TransactionsUnique(w.db.refunds[id := next])
  {
    hide AnswersOk, BalanceWasSeen, HasCancel, GuardMatches;
    var after := w.db.refunds[id := next];
    forall r | 0 <= r < |after| ensures RequestOk(after[r], r, w.db.intents, w.provider, w.cancels, heard) {
      if r != id { assert RequestOk(w.db.refunds[r], r, w.db.intents, w.provider, w.cancels, w.heard); }
    }
    forall r | 0 <= r < |after| ensures GuardMatches(after[r], r in guards, if r in guards then guards[r] else Guard(0, 0, 0)) {
      if r != id { assert after[r] == w.db.refunds[r]; }
    }
  }

  lemma RewriteKeepsRefunds(w: World, id: nat, next: Refund, guards: map<nat, Guard>, heard: set<Message>)
    requires RefundsOkIn(w) && Succeeds(w, id, next, guards, heard)
    ensures RefundsOk(w.db.refunds[id := next], guards, w.db.intents, w.provider, w.cancels, heard)
  {
    RewriteKeepsRequests(w, id, next, guards, heard);
    hide RequestsOk, GuardsOk, OneOpenRequest, TransactionsUnique, GuardMatches, RequestOk, TransactionFree;
    var after := w.db.refunds[id := next];
    forall m | m in heard ensures HeardOk(after, w.cancels, heard, m) {
      if m in w.heard { assert HeardOk(w.db.refunds, w.cancels, w.heard, m); }
    }
    forall k | k in w.cancels ensures KeyOk(w.provider, heard, k, w.cancels[k]) {
      assert KeyOk(w.provider, w.heard, k, w.cancels[k]);
    }
  }

  lemma NewRequestKeepsRequests(w: World, next: Refund)
    requires RefundsOkIn(w) && RequestOk(next, |w.db.refunds|, w.db.intents, w.provider, w.cancels, w.heard)
    requires next.status.Requested? && next.transaction == 0 && !OpenRequest(w.db, next.order)
    ensures var after := w.db.refunds + [next];
            RequestsOk(after, w.db.intents, w.provider, w.cancels, w.heard) && GuardsOk(after, w.db.guards)
            && OneOpenRequest(after) && TransactionsUnique(after)
  {
    hide AnswersOk, RequestOk, GuardMatches;
    assert forall g :: GuardMatches(next, false, g) by { RequestedIsUnguarded(next); }
  }

  lemma RequestedIsUnguarded(r: Refund)
    requires r.status.Requested?
    ensures forall g :: GuardMatches(r, false, g)
  {}

  lemma NewRequestKeepsAnswers(w: World, next: Refund)
    requires AnswersOk(w.db.refunds, w.provider, w.cancels, w.heard)
    ensures AnswersOk(w.db.refunds + [next], w.provider, w.cancels, w.heard)
  {
    hide KeyOk;
    forall m | m in w.heard ensures HeardOk(w.db.refunds + [next], w.cancels, w.heard, m) {
      assert HeardOk(w.db.refunds, w.cancels, w.heard, m);
    }
  }

  lemma NewRequestIsOk(w: World, o: OrderId)
    requires MoneyOk(w.db.intents, w.provider, w.heard) && o in w.db.intents && w.db.intents[o].status.Applied?
    ensures RequestOk(Refund(w.db.intents[o].user, o, Requested, 0, 0, 0, 0, 0), |w.db.refunds|, w.db.intents, w.provider, w.cancels, w.heard)
  {
    hide StillTrue, Sound;
    assert Backed(w.provider, w.db.intents[o]);
  }

  lemma RequestingKeepsRefunds(w: World, u: User, o: OrderId)
    requires RefundsOkIn(w) && MoneyOk(w.db.intents, w.provider, w.heard)
    ensures var e := Commit(w.db, RequestRefundTx(w.db, u, o));
            RefundsOk(e.refunds, e.guards, w.db.intents, w.provider, w.cancels, w.heard)
  {
    hide RequestsOk, GuardsOk, AnswersOk, OneOpenRequest, TransactionsUnique, MoneyOk, RequestOk, ConfirmedTotal, OpenRequest;
    if RequestRefundTx(w.db, u, o).Committed? {
      NewRequestIsOk(w, o);
      NewRequestKeepsRequests(w, Refund(u, o, Requested, 0, 0, 0, 0, 0));
      NewRequestKeepsAnswers(w, Refund(u, o, Requested, 0, 0, 0, 0, 0));
    }
  }

  // ---- the decision on a request -----------------------------------------------------------

  /** An answer that was read shows no less than it did: the capture it was read from is a prefix of
      the one there is now. */
  lemma SeenCapture(provider: Captures, p: Payment) returns (b: Settlement)
    requires StillTrue(provider, Seen(p)) && (p.key != 0 || p.cancels != [])
    ensures p.order in provider && provider[p.order].Captured? && b.Captured? && Follows(b, provider[p.order])
    ensures p == Observe(p.order, b) && Sound(b)
  {
    b :| Sound(b) && p == Observe(p.order, b) && Follows(b, provider[p.order]);
  }

  lemma SeenBalance(provider: Captures, keys: Keys, p: Payment, r: Refund, id: nat)
    requires StillTrue(provider, Seen(p)) && p.key != 0 && r.balanceBefore == p.balance
    requires ForRequest(id) in keys ==> !keys[ForRequest(id)].DoneAt?
    ensures p.order in provider && provider[p.order].Captured? && BalanceWasSeen(r, id, provider[p.order], keys)
  {
    var b := SeenCapture(provider, p);
    hide SumDone;
    var c := provider[p.order];
    var n := |b.cancels|;
    assert c.cancels[..n] == b.cancels && b.cancels[..n] == b.cancels;
    assert r.balanceBefore == BalanceAt(c, n);
  }

  lemma SettledKeyIsReviewed(w: World, r: nat)
    requires RefundsOkIn(w) && ForRequest(r) in w.cancels && w.cancels[ForRequest(r)].DoneAt?
    ensures r < |w.db.refunds| && Reviewed(w.db.refunds[r])
  {
    hide RequestsOk, GuardsOk, OneOpenRequest, TransactionsUnique;
    var at := w.cancels[ForRequest(r)];
    assert KeyOk(w.provider, w.heard, ForRequest(r), at);
    assert HeardOk(w.db.refunds, w.cancels, w.heard,
                   CancelAsked(ForRequest(r), at.order, w.provider[at.order].cancels[at.index].amount));
  }

  /** A request still under review has moved no money. */
  lemma UndecidedIsUnsettled(w: World, r: nat)
    requires RefundsOkIn(w) && r < |w.db.refunds| && !Reviewed(w.db.refunds[r])
    ensures ForRequest(r) in w.cancels ==> !w.cancels[ForRequest(r)].DoneAt?
  {
    hide RequestsOk, GuardsOk, OneOpenRequest, TransactionsUnique;
    var k := ForRequest(r);
    if k in w.cancels && w.cancels[k].DoneAt? { SettledKeyIsReviewed(w, r); }
  }

  lemma RejectionSucceeds(w: World, r: nat, now: Time)
    requires RefundsOkIn(w) && r < |w.db.refunds| && w.db.refunds[r].status.Requested?
    ensures Succeeds(w, r, w.db.refunds[r].(status := Rejected, reviewedAt := now), w.db.guards, w.heard)
  {
    hide AnswersOk, OneOpenRequest, TransactionsUnique, BalanceWasSeen, HasCancel;
    assert RequestOk(w.db.refunds[r], r, w.db.intents, w.provider, w.cancels, w.heard);
  }

  lemma ApprovalSucceeds(w: World, r: nat, next: Refund, p: Payment)
    requires RefundsOkIn(w) && r < |w.db.refunds| && w.db.refunds[r].status.Requested?
    requires next == w.db.refunds[r].(status := Processing, amount := next.amount, balanceBefore := p.balance, reviewedAt := next.reviewedAt)
    requires next.amount > 0 && StillTrue(w.provider, Seen(p)) && p.order == next.order && p.key != 0
    ensures Succeeds(w, r, next, w.db.guards[r := Guard(1, 0, 0)], w.heard)
  {
    UndecidedIsUnsettled(w, r);
    SeenBalance(w.provider, w.cancels, p, next, r);
    hide AnswersOk, OneOpenRequest, TransactionsUnique, BalanceWasSeen, HasCancel, StillTrue;
    assert RequestOk(w.db.refunds[r], r, w.db.intents, w.provider, w.cancels, w.heard);
  }

  lemma UndecidedIsUnguarded(w: World, r: nat)
    requires RefundsOkIn(w) && r < |w.db.refunds| && w.db.refunds[r].status.Requested?
    ensures GuardOf(w.db, r) == Guard(0, 0, 0)
  {}

  lemma DecisionSucceeds(w: World, a: RefundAction, e: Database)
    requires a.Deciding? && RefundEnabled(w, a) && RefundsOkIn(w) && MoneyOk(w.db.intents, w.provider, w.heard)
    requires RefundTx(w, a) == Committed(e)
    ensures Steps(w, a.r, e, HeardAfter(w, a))
  {
    hide RefundsOk, HasDependentUpgrade, StillTrue, Sound, Succeeds, LogsNoCharge, KeepsBooks, KeepsQuotes, KeepsSupport;
    UndecidedIsUnguarded(w, a.r);
    assert Backed(w.provider, w.db.intents[w.db.refunds[a.r].order]);
    if a.approve {
      ApprovalSucceeds(w, a.r, e.refunds[a.r], a.p);
    } else {
      RejectionSucceeds(w, a.r, a.now);
    }
  }

  /** The transaction found in an answer is a done cancel of the reviewed amount. */
  lemma ShownCancelStands(w: World, r: nat, p: Payment, transaction: Key)
    requires MoneyOk(w.db.intents, w.provider, w.heard) && KnownRequest(w.db, r) && Seen(p) in w.heard
    requires ShowsRefund(w.db, r, p, transaction)
    ensures var o := w.db.refunds[r].order;
            o in w.provider && w.provider[o].Captured? && HasCancel(w.provider[o].cancels, transaction, w.db.refunds[r].amount)
  {
    hide HasCancel, Sound, Backed;
    assert StillTrue(w.provider, Seen(p));
    assert p.cancels != [] by { HasCancelIsSome(p.cancels, transaction, w.db.refunds[r].amount); }
    var b := SeenCapture(w.provider, p);
    CancelsStay(b, w.provider[p.order], transaction, w.db.refunds[r].amount);
  }

  lemma HasCancelIsSome(cancels: seq<Cancel>, transaction: Key, amount: int)
    requires HasCancel(cancels, transaction, amount)
    ensures cancels != []
  {}

  lemma RecordingSucceeds(w: World, a: RefundAction, e: Database)
    requires a.Recording? && RefundEnabled(w, a) && RefundsOkIn(w) && MoneyOk(w.db.intents, w.provider, w.heard)
    requires RefundTx(w, a) == Committed(e)
    ensures Steps(w, a.r, e, HeardAfter(w, a))
  {
    hide AnswersOk, OneOpenRequest, TransactionsUnique, BalanceWasSeen, MoneyOk, HasCancel, TransactionFree;
    ShownCancelStands(w, a.r, a.p, a.transaction);
    assert RequestOk(w.db.refunds[a.r], a.r, w.db.intents, w.provider, w.cancels, w.heard);
    SameReview(w.db.refunds[a.r], e.refunds[a.r], a.r, w.provider[w.db.refunds[a.r].order], w.cancels);
  }

  lemma SameReview(r: Refund, next: Refund, id: nat, c: Settlement, keys: Keys)
    requires c.Captured? && BalanceWasSeen(r, id, c, keys) && next.balanceBefore == r.balanceBefore
    ensures BalanceWasSeen(next, id, c, keys)
  {}

  /** A definitive refusal whose read-back shows the balance the review saw is final: had the cancel
      gone through before the read, the balance would be lower. */
  lemma UntouchedBalanceIsRefused(w: World, r: nat, p: Payment)
    requires RefundsOkIn(w) && MoneyOk(w.db.intents, w.provider, w.heard) && r < |w.db.refunds|
    requires Reviewed(w.db.refunds[r]) && RefusedThenSeen(ForRequest(r), p) in w.heard
    requires p.order == w.db.refunds[r].order && p.balance == w.db.refunds[r].balanceBefore
    ensures ForRequest(r) in w.cancels && w.cancels[ForRequest(r)].RefusedForGood?
  {
    var request, k := w.db.refunds[r], ForRequest(r);
    assert HeardOk(w.db.refunds, w.cancels, w.heard, RefusedThenSeen(k, p));
    if w.cancels[k].DoneAt? {
      var at := w.cancels[k];
      assert KeyOk(w.provider, w.heard, k, at);
      assert HeardOk(w.db.refunds, w.cancels, w.heard, CancelAsked(k, at.order, w.provider[at.order].cancels[at.index].amount));
      assert RequestOk(request, r, w.db.intents, w.provider, w.cancels, w.heard);
      var c := w.provider[request.order];
      hide RefundsOk, RequestOk, SumDone;
      assert StillTrue(w.provider, Seen(p)) && Sound(c);
      var b := SeenCapture(w.provider, p);
      BalanceFellPast(b, c, at.index, request, r, w.cancels);
      assert false;
    }
  }

  lemma BalanceFellPast(b: Settlement, c: Settlement, index: nat, r: Refund, id: nat, keys: Keys)
    requires b.Captured? && c.Captured? && Follows(b, c) && Sound(b) && index < |b.cancels| && b.cancels[index].done
    requires BalanceWasSeen(r, id, c, keys) && ForRequest(id) in keys && keys[ForRequest(id)].DoneAt? && keys[ForRequest(id)].index == index
    ensures Balance(b) < r.balanceBefore
  {
    var n: nat :| n <= |c.cancels| && r.balanceBefore == BalanceAt(c, n) && n <= index;
    assert c.cancels[..n] == b.cancels[..n];
    SumDoneGrows(b.cancels[..n], b.cancels);
  }

  /** A processing request that ends: completed on its recorded transaction, or failed on a cancel
      refused for good. */
  lemma EndingSucceeds(w: World, id: nat, next: Refund, guards: map<nat, Guard>)
    requires RefundsOkIn(w) && id < |w.db.refunds| && w.db.refunds[id].status.Processing?
    requires next == w.db.refunds[id].(status := next.status, confirmed := next.confirmed)
    requires guards == w.db.guards[id := Guard(1, if next.status.Completed? then 1 else 0, if next.status.RefundFailed? then 1 else 0)]
    requires || (next.status.Completed? && next.transaction != 0 && next.confirmed == next.amount)
             || (next.status.RefundFailed? && ForRequest(id) in w.cancels && w.cancels[ForRequest(id)].RefusedForGood?)
    ensures Succeeds(w, id, next, guards, w.heard)
  {
    hide AnswersOk, OneOpenRequest, BalanceWasSeen, HasCancel, GuardsOk;
    var r := w.db.refunds[id];
    assert RequestOk(r, id, w.db.intents, w.provider, w.cancels, w.heard);
    SameReview(r, next, id, w.provider[r.order], w.cancels);
  }

  lemma ProcessingIsHeld(w: World, id: nat)
    requires RefundsOkIn(w) && id < |w.db.refunds| && w.db.refunds[id].status.Processing?
    ensures GuardOf(w.db, id) == Guard(1, 0, 0)
  {}

  lemma ReleasingSucceeds(w: World, a: RefundAction, e: Database)
    requires a.Releasing? && RefundEnabled(w, a) && RefundsOkIn(w) && MoneyOk(w.db.intents, w.provider, w.heard)
    requires RefundTx(w, a) == Committed(e)
    ensures Steps(w, a.r, e, HeardAfter(w, a))
  {
    hide RefundsOk, MoneyOk, Succeeds;
    UntouchedBalanceIsRefused(w, a.r, a.p);
    ProcessingIsHeld(w, a.r);
    EndingSucceeds(w, a.r, e.refunds[a.r], e.guards);
  }

  lemma CompletingWrites(w: World, a: RefundAction)
    requires a.Completing? && RefundEnabled(w, a) && RefundTx(w, a).Committed?
    ensures var d, e, r := w.db, RefundTx(w, a).db, a.r;
            if d.refunds[r].status.Completed? then e == d
            else d.refunds[r].status.Processing?
                 && e.refunds == d.refunds[r := d.refunds[r].(status := Completed, transaction := a.transaction, confirmed := d.refunds[r].amount)]
                 && e.guards == d.guards[r := GuardOf(d, r).(confirmed := GuardOf(d, r).confirmed + 1)]
  {
    hide Reverse, TransactionFree, ShowsRefund;
  }

  lemma RecordedAttempt(w: World, r: nat, transaction: Key)
    requires RefundsOkIn(w) && AttemptRecorded(r, transaction) in w.heard
    ensures transaction != 0 && r < |w.db.refunds| && w.db.refunds[r].transaction == transaction
  {
    assert HeardOk(w.db.refunds, w.cancels, w.heard, AttemptRecorded(r, transaction));
  }

  lemma CompletingSucceeds(w: World, a: RefundAction, e: Database)
    requires a.Completing? && RefundEnabled(w, a) && RefundsOkIn(w)
    requires RefundTx(w, a) == Committed(e) && e != w.db
    ensures Steps(w, a.r, e, HeardAfter(w, a))
  {
    CompletingWrites(w, a);
    RecordedAttempt(w, a.r, a.transaction);
    hide RefundsOk, Succeeds, RefundTx, ShowsRefund, KnownRequest;
    ProcessingIsHeld(w, a.r);
    EndingSucceeds(w, a.r, e.refunds[a.r], e.guards);
  }

  lemma RefundingSucceeds(w: World, a: RefundAction, e: Database)
    requires !a.Requesting? && RefundEnabled(w, a) && RefundsOkIn(w) && MoneyOk(w.db.intents, w.provider, w.heard)
    requires RefundTx(w, a) == Committed(e) && !(a.Completing? && e == w.db)
    ensures Steps(w, a.r, e, HeardAfter(w, a))
  {
    hide RefundsOk, MoneyOk, RefundEnabled, Succeeds;
    hide ReviewRefundTx, RecordAttemptTx, FailRefundTx, CompleteRefundTx, RequestRefundTx;
    match a
    case Deciding(_, _, _, _, _, _) => DecisionSucceeds(w, a, e);
    case Recording(_, _, _) => RecordingSucceeds(w, a, e);
    case Releasing(_, _) => ReleasingSucceeds(w, a, e);
    case Completing(_, _, _, _, _) => CompletingSucceeds(w, a, e);
  }

  lemma RefundingKeepsRefunds(w: World, a: RefundAction)
    requires RefundEnabled(w, a) && RefundsOkIn(w) && MoneyOk(w.db.intents, w.provider, w.heard)
    ensures RefundsOkIn(Do(w, Refunding(a)))
  {
    hide RefundsOk, MoneyOk, RefundEnabled, Succeeds;
    hide ReviewRefundTx, RecordAttemptTx, FailRefundTx, CompleteRefundTx, RequestRefundTx;
    var tx := RefundTx(w, a);
    if a.Requesting? {
      RequestingKeepsRefunds(w, a.u, a.o);
    } else if tx.Committed? && !(a.Completing? && tx.db == w.db) {
      RefundingSucceeds(w, a, tx.db);
      RewriteKeepsRefunds(w, a.r, tx.db.refunds[a.r], tx.db.guards, HeardAfter(w, a));
    }
  }

  lemma RefundingMovesOn(w: World, a: RefundAction)
    requires RefundEnabled(w, a) && RefundsOkIn(w) && MoneyOk(w.db.intents, w.provider, w.heard)
    ensures RequestsMoveOn(w.db.refunds, Commit(w.db, RefundTx(w, a)).refunds)
  {
    hide RefundsOk, MoneyOk, RefundEnabled, RequestMovesOn;
    hide ReviewRefundTx, RecordAttemptTx, FailRefundTx, CompleteRefundTx, OpenRequest, ConfirmedTotal, GuardMatches, RequestOk;
    var tx := RefundTx(w, a);
    if !a.Requesting? && tx.Committed? && !(a.Completing? && tx.db == w.db) { RefundingSucceeds(w, a, tx.db); }
    forall r | 0 <= r < |w.db.refunds| ensures RequestMovesOn(w.db.refunds[r], Commit(w.db, tx).refunds[r]) {
      RequestStaysPut(w.db.refunds[r]);
    }
  }

  // ---- what it means -----------------------------------------------------------------------

  /** Confirmed refunds never pass what the provider gave back, and that never passes the capture,
      which is the order's own amount. */
  lemma RefundsAreConserved(w: World, o: OrderId)
    requires RefundsOkIn(w) && MoneyOk(w.db.intents, w.provider, w.heard) && o in w.db.intents && w.db.intents[o].status.Applied?
    ensures o in w.provider && w.provider[o].Captured?
    ensures ConfirmedTotal(w.db.refunds, o) <= SumDone(w.provider[o].cancels) <= w.db.intents[o].krw
  {
    hide StillTrue, BalanceWasSeen, AnswersOk, GuardsOk, OneOpenRequest;
    var cancels := w.provider[o].cancels;
    assert Backed(w.provider, w.db.intents[o]) && Sound(w.provider[o]);
    forall r | 0 <= r < |w.db.refunds| && Counts(w.db.refunds[r], o)
      ensures HasCancel(cancels, w.db.refunds[r].transaction, w.db.refunds[r].confirmed)
    {
      assert RequestOk(w.db.refunds[r], r, w.db.intents, w.provider, w.cancels, w.heard);
    }
    forall r, t | 0 <= r < t < |w.db.refunds| && Counts(w.db.refunds[r], o) && Counts(w.db.refunds[t], o)
      ensures w.db.refunds[r].transaction != w.db.refunds[t].transaction
    {
      assert RequestOk(w.db.refunds[r], r, w.db.intents, w.provider, w.cancels, w.heard);
    }
    assert EachBacked(w.db.refunds, o, cancels);
    ConfirmedWithinCancels(w.db.refunds, o, cancels);
  }

  /** A completed request has its own done cancel of exactly the reviewed amount, which no other
      request names; a failed one's cancel was refused for good; and either way the funding it froze
      was settled exactly once, on the side the status says. */
  lemma RequestsAreSettledOnce(w: World, r: nat, t: nat)
    requires RefundsOkIn(w) && r < |w.db.refunds| && t < |w.db.refunds|
    ensures w.db.refunds[r].status.Completed? ==>
              && w.db.refunds[r].confirmed == w.db.refunds[r].amount > 0
              && w.db.refunds[r].order in w.provider && w.provider[w.db.refunds[r].order].Captured?
              && HasCancel(w.provider[w.db.refunds[r].order].cancels, w.db.refunds[r].transaction, w.db.refunds[r].amount)
              && (w.db.refunds[t].transaction == w.db.refunds[r].transaction ==> t == r)
    ensures w.db.refunds[r].status.RefundFailed? ==> ForRequest(r) in w.cancels && w.cancels[ForRequest(r)].RefusedForGood?
    ensures r in w.db.guards <==> Reviewed(w.db.refunds[r])
    ensures r in w.db.guards ==> w.db.guards[r] == Guard(1, if w.db.refunds[r].status.Completed? then 1 else 0,
                                                            if w.db.refunds[r].status.RefundFailed? then 1 else 0)
    ensures w.db.refunds[r].order == w.db.refunds[t].order && Waiting(w.db.refunds[r]) && Waiting(w.db.refunds[t]) ==> r == t
  {
    hide BalanceWasSeen, AnswersOk, HasCancel;
    assert RequestOk(w.db.refunds[r], r, w.db.intents, w.provider, w.cancels, w.heard);
  }

  /** The order still funds the account's active row at `at`. */
  predicate Funds(d: Database, i: Intent, at: Time) {
    && !i.kind.Pack? && i.user in d.subs && d.subs[i.user].active && d.subs[i.user].coverage == i.coverage
    && BeforeFundingEnd(d, i, at)
  }

  ghost predicate OnlyRow(d: Database, e: Database, u: User, row: Subscription) {
    e.subs == d.subs[u := row] && e.purchases == d.purchases
  }

  /** What a refund of `i` takes back. A base charge that still funds the row ends it there and then, an
      upgrade puts it back on the tier before it unless it was upgraded again, a credit pack's purchase is
      marked, and a charge that funds nothing any more leaves every row and tier alone. A master account
      stays one. */
  ghost predicate TakesBack(d: Database, e: Database, i: Intent, prior: Option<Plan>, at: Time) {
    if i.kind.Pack? then
      && RowsKept(d, e) && e.tiers == d.tiers
      && i.order in d.purchases && e.purchases == d.purchases[i.order := d.purchases[i.order].(refunded := true)]
    else if !Funds(d, i, at) || (i.kind.Upgrade? && (d.subs[i.user].tier != i.tier || prior.None?)) then
      RowsKept(d, e) && e.tiers == d.tiers && e.purchases == d.purchases
    else if i.kind.Upgrade? then
      && OnlyRow(d, e, i.user, d.subs[i.user].(tier := prior.value, updatedAt := d.nextStamp))
      && TierOf(e, i.user) == if TierOf(d, i.user).Master? then Master else prior.value
    else
      && OnlyRow(d, e, i.user, d.subs[i.user].(active := false, autoRenew := false, termEnd := at, nextGrant := at, updatedAt := d.nextStamp))
      && TierOf(e, i.user) == if TierOf(d, i.user).Master? then Master else Free
  }

  lemma ReversalTakesBack(d: Database, i: Intent, prior: Option<Plan>, at: Time)
    requires Reverse(d, i, prior, at).Committed? && forall u | u in d.subs :: d.subs[u].user == u
    ensures TakesBack(d, Reverse(d, i, prior, at).db, i, prior, at)
  {
    hide BeforeFundingEnd, KeepsBooks, KeepsOrders, KeepsQuotes, KeepsRefunds, KeepsSupport;
    if Funds(d, i, at) {
      var reversal := ReversalOf(d.subs[i.user], i, prior, at);
      if reversal.Rewrites? {
        RewrittenRow(d, reversal.row, i.user, reversal.tier);
        hide Rewritten, TierOf, Writes;
        assert Reverse(d, i, prior, at) == Committed(Rewritten(d, reversal.row, i.user, reversal.tier));
      }
    }
  }

  lemma RewrittenRow(d: Database, row: Subscription, u: User, tier: Plan)
    requires row.user == u
    ensures var e := Rewritten(d, row, u, tier);
            && e.subs == d.subs[u := row.(updatedAt := d.nextStamp)] && e.purchases == d.purchases
            && TierOf(e, u) == if TierOf(d, u).Master? then Master else tier
  {}

  lemma RefundReversesWhatItFunded(d: Database, r: nat, transaction: Key, prior: Option<Plan>, at: Time)
    requires r < |d.refunds| && d.refunds[r].status.Processing? && d.refunds[r].order in d.intents
    requires CompleteRefundTx(d, r, transaction, prior, at).Committed?
    requires forall u | u in d.subs :: d.subs[u].user == u
    ensures TakesBack(d, CompleteRefundTx(d, r, transaction, prior, at).db, d.intents[d.refunds[r].order], prior, at)
  {
    var i := d.intents[d.refunds[r].order];
    hide KeepsBooks, KeepsOrders, KeepsQuotes, KeepsRefunds, KeepsSupport;
    var held := d.(guards := d.guards[r := GuardOf(d, r).(confirmed := GuardOf(d, r).confirmed + 1)]);
    CompletedAfterReversal(d, r, transaction, prior, at);
    ReversalTakesBack(held, i, prior, at);
    hide CompleteRefundTx, Reverse, Funds;
    SameFunding(d, held, i, at);
  }

  lemma CompletedAfterReversal(d: Database, r: nat, transaction: Key, prior: Option<Plan>, at: Time)
    requires r < |d.refunds| && d.refunds[r].status.Processing? && d.refunds[r].order in d.intents
    requires CompleteRefundTx(d, r, transaction, prior, at).Committed?
    ensures var held := d.(guards := d.guards[r := GuardOf(d, r).(confirmed := GuardOf(d, r).confirmed + 1)]);
            var tx, e := Reverse(held, d.intents[d.refunds[r].order], prior, at), CompleteRefundTx(d, r, transaction, prior, at).db;
            tx.Committed? && RowsKept(tx.db, e) && e.tiers == tx.db.tiers && e.purchases == tx.db.purchases
  {
    hide Reverse, TransactionFree, LogsNoCharge;
  }

  lemma SameFunding(d: Database, e: Database, i: Intent, at: Time)
    requires e.intents == d.intents && e.subs == d.subs
    ensures Funds(e, i, at) == Funds(d, i, at)
  {}
}
