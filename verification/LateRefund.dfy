/** A run on which a refund ends a term it does not pay for: reverseRefundedEntitlements compares the
    refunded charge's funding with the instant its worker read, and the row may have been renewed since. */
module LateRefund {
  import opened Basics
  import opened Calendar
  import opened Pricing
  import opened Ledger
  import opened Protocol
  import opened Refunds
  import opened Subscriber

  const PRICE := 1900
  const TRANSACTION: Key := 7

  /** The provider's answer after the whole charge was cancelled. */
  const RETURNED := Payment(ORDER, 1, Canceled, PRICE, 0, true, [Cancel(TRANSACTION, PRICE, true)])

  /** The account asks for its money back, and the whole of it is approved. */
  lemma Approved(run: seq<Action>, w: World) returns (next: seq<Action>, after: World)
    requires Reaches(run, w) && w.clock == 0 && 0 in w.db.subs && Holds(w, w.db.subs[0], {ORDER}) && Untouched(w, Monthly)
    ensures Reaches(next, after) && after.clock == 0 && after.db.subs == w.db.subs && Holds(after, after.db.subs[0], {ORDER})
    ensures after.provider == map[ORDER := Captured(1, PRICE, true, [])] && after.cancels == map[]
    ensures ORDER in after.db.intents && after.db.intents[ORDER] == PaidOrder(Monthly)
    ensures after.db.refunds == [Refund(0, ORDER, Processing, PRICE, PRICE, 0, 0, 0)]
  {
    hide IsRun, After, ReviewRefundTx, CoverageEnd;
    next := Onward(run, w, Refunding(Requesting(0, ORDER)));
    after := Do(w, Refunding(Requesting(0, ORDER)));
    assert after.db == w.db.(refunds := [Refund(0, ORDER, Requested, 0, 0, 0, 0, 0)]);
    var payment := Payment(ORDER, 1, Done, PRICE, PRICE, true, []);
    DecisionGoesThrough(after.db, payment);
    var decide := Refunding(Deciding(0, true, PRICE, payment, Evidence(true, false), 0));
    next := Onward(next, after, decide);
    after := Do(after, decide);
  }

  lemma DecisionGoesThrough(d: Database, p: Payment)
    requires d.intents == map[ORDER := PaidOrder(Monthly)] && d.refunds == [Refund(0, ORDER, Requested, 0, 0, 0, 0, 0)] && d.guards == map[]
    requires p == Payment(ORDER, 1, Done, PRICE, PRICE, true, [])
    ensures ReviewRefundTx(d, 0, true, PRICE, p, Evidence(true, false), 0)
            == Committed(d.(refunds := [Refund(0, ORDER, Processing, PRICE, PRICE, 0, 0, 0)], guards := map[0 := Guard(1, 0, 0)]))
  {
    hide CoverageEnd, BeforeFundingEnd;
    assert !HasDependentUpgrade(d, PaidOrder(Monthly));
  }

  /** The provider gives it back, and the worker records the cancel it reads. */
  lemma Returned(run: seq<Action>, w: World) returns (next: seq<Action>, after: World)
    requires Reaches(run, w) && w.clock == 0 && ORDER in w.db.intents && w.db.intents[ORDER] == PaidOrder(Monthly)
    requires w.provider == map[ORDER := Captured(1, PRICE, true, [])] && w.cancels == map[]
    requires w.db.refunds == [Refund(0, ORDER, Processing, PRICE, PRICE, 0, 0, 0)]
    requires 0 in w.db.subs && Holds(w, w.db.subs[0], {ORDER})
    ensures 0 in after.db.subs && Holds(after, after.db.subs[0], {ORDER})
    ensures Reaches(next, after) && after.clock == 0 && w.heard <= after.heard && Seen(RETURNED) in after.heard
    ensures AttemptRecorded(0, TRANSACTION) in after.heard
    ensures after.db == w.db.(refunds := [Refund(0, ORDER, Processing, PRICE, PRICE, TRANSACTION, 0, 0)])
  {
    hide IsRun, After, CoverageEnd;
    next, after := Cancelled(run, w);
    ReturnedIsSeen();
    hide Observe;
    next := Onward(next, after, Env(HearPayment(ORDER)));
    after := Do(after, Env(HearPayment(ORDER)));
    next := Onward(next, after, Refunding(Recording(0, TRANSACTION, RETURNED)));
    after := Do(after, Refunding(Recording(0, TRANSACTION, RETURNED)));
  }

  lemma ReturnedIsSeen()
    ensures Observe(ORDER, Captured(1, PRICE, true, [Cancel(TRANSACTION, PRICE, true)])) == RETURNED
  {
    assert [Cancel(TRANSACTION, PRICE, true)][..0] == [] && SumDone([]) == 0;
  }

  lemma Cancelled(run: seq<Action>, w: World) returns (next: seq<Action>, after: World)
    requires Reaches(run, w) && w.provider == map[ORDER := Captured(1, PRICE, true, [])] && w.cancels == map[]
    requires w.db.refunds == [Refund(0, ORDER, Processing, PRICE, PRICE, 0, 0, 0)]
    ensures Reaches(next, after) && after.db == w.db && after.clock == w.clock && w.heard <= after.heard
    ensures after.provider == map[ORDER := Captured(1, PRICE, true, [Cancel(TRANSACTION, PRICE, true)])]
  {
    hide IsRun, After;
    next := Onward(run, w, Env(AskCancel(ForRequest(0), ORDER, PRICE)));
    after := Do(w, Env(AskCancel(ForRequest(0), ORDER, PRICE)));
    next := Onward(next, after, Env(CancelMoney(ORDER, ForRequest(0), TRANSACTION, PRICE)));
    after := Do(after, Env(CancelMoney(ORDER, ForRequest(0), TRANSACTION, PRICE)));
    assert [] + [Cancel(TRANSACTION, PRICE, true)] == [Cancel(TRANSACTION, PRICE, true)];
    assert after.provider[ORDER] == Captured(1, PRICE, true, [Cancel(TRANSACTION, PRICE, true)]);
  }

  /** The term ends, and the row is read by the pass. */
  lemma TermEnds(run: seq<Action>, w: World, end: Time) returns (next: seq<Action>, after: World)
    requires Reaches(run, w) && w.clock == 0 <= end && 0 in w.db.subs && Holds(w, w.db.subs[0], {ORDER})
    ensures Reaches(next, after) && after.db == w.db && after.clock == end && w.heard <= after.heard && Holds(after, w.db.subs[0], {ORDER})
    ensures RowRead(w.db.subs[0], end) in after.heard
  {
    hide IsRun, After;
    next := Onward(run, w, Env(Tick(end)));
    after := Do(w, Env(Tick(end)));
    next, after := RowIsRead(next, after, 0);
  }

  /** The worker read its instant before the term ended; its transaction comes after the renewal. */
  lemma Completes(w: World, end: Time)
    requires w.clock == end > 0 && 0 in w.db.subs && Holds(w, w.db.subs[0], {ORDER, Renewal(0, end)})
    requires end == CoverageEnd(0, 0, false) && ORDER in w.db.intents && w.db.intents[ORDER] == PaidOrder(Monthly)
    requires Renewal(0, end) in w.db.intents && w.db.intents[Renewal(0, end)].effectiveAt == end
    requires w.db.refunds == [Refund(0, ORDER, Processing, PRICE, PRICE, TRANSACTION, 0, 0)]
    requires Seen(RETURNED) in w.heard && AttemptRecorded(0, TRANSACTION) in w.heard
    ensures FundingStart(w.db.intents[ORDER]) == 0 && w.db.intents[Renewal(0, end)].status.Applied? && w.db.subs[0].active
    ensures Enabled(w, Refunding(Completing(0, TRANSACTION, RETURNED, None, end - 1)))
    ensures var e := Do(w, Refunding(Completing(0, TRANSACTION, RETURNED, None, end - 1))).db;
            0 in e.subs && !e.subs[0].active && e.subs[0].termEnd == end - 1
  {
    hide CoverageEnd, RowsKept, Reverse, BeforeFundingEnd, Funds, CompleteRefundTx, Upsert;
    assert HasCancel(RETURNED.cancels, TRANSACTION, PRICE) by { assert RETURNED.cancels[0] == Cancel(TRANSACTION, PRICE, true); }
    StillFunds(w.db, end);
    ReversalCommits(w.db, end - 1);
    RefundReversesWhatItFunded(w.db, 0, TRANSACTION, None, end - 1);
  }

  lemma StillFunds(d: Database, end: Time)
    requires end == CoverageEnd(0, 0, false) && d.intents.Keys == {ORDER, Renewal(0, end)} && d.intents[ORDER] == PaidOrder(Monthly)
    requires d.intents[Renewal(0, end)].effectiveAt == end
    requires 0 in d.subs && d.subs[0].active && d.subs[0].coverage == Paid(0, 0)
    ensures Funds(d, d.intents[ORDER], end - 1)
  {
    hide CoverageEnd;
    forall o | o in d.intents ensures o == ORDER || o == Renewal(0, end) { assert o in d.intents.Keys; }
  }

  lemma ReversalCommits(d: Database, at: Time)
    requires d.refunds == [Refund(0, ORDER, Processing, PRICE, PRICE, TRANSACTION, 0, 0)]
    requires ORDER in d.intents && d.intents[ORDER] == PaidOrder(Monthly)
    ensures CompleteRefundTx(d, 0, TRANSACTION, None, at).Committed?
  {
    hide CoverageEnd, BeforeFundingEnd, Rewritten, Log;
  }

  /** So a run leads to where completing the refund of the first charge ends the second term, which the
      applied renewal paid for. */
  lemma ARefundCanEndALaterTerm() returns (run: seq<Action>, w: World, end: Time)
    ensures Reaches(run, w) && Enabled(w, Refunding(Completing(0, TRANSACTION, RETURNED, None, end - 1)))
    ensures w.db.refunds[0].order == ORDER && ORDER in w.db.intents && FundingStart(w.db.intents[ORDER]) == 0
    ensures Renewal(0, end) in w.db.intents && w.db.intents[Renewal(0, end)].status.Applied?
    ensures 0 in w.db.subs && w.db.subs[0].active && 0 < w.db.subs[0].termStart == end < w.db.subs[0].termEnd
    ensures var e := Do(w, Refunding(Completing(0, TRANSACTION, RETURNED, None, end - 1))).db;
            0 in e.subs && !e.subs[0].active && e.subs[0].termEnd == end - 1
  {
    hide *;
    run, w := Subscribed(Monthly);
    end := w.db.subs[0].termEnd;
    TermsFollow(0, end);
    run, w := Approved(run, w);
    run, w := Returned(run, w);
    run, w := TermEnds(run, w, end);
    run, w := Renewed(run, w, end);
    Completes(w, end);
  }
}
