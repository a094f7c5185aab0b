/** A run on which a cancel takes the benefit boundary back: CancelSubscription writes back the row it
    read, and its version check does not see that the pass advanced the boundary since. */
module LateCancel {
  import opened Calendar
  import opened Pricing
  import opened Ledger
  import opened Protocol
  import opened Subscriber

  /** The first benefit month of an annual term ends inside it, and the next one later. */
  lemma MonthsOfTheTerm(anchor: Time)
    ensures anchor < WindowEnd(anchor, anchor) < CoverageEnd(anchor, anchor, true)
    ensures WindowEnd(anchor, anchor) < WindowEnd(anchor, WindowEnd(anchor, anchor))
  {
    hide *;
    BoundaryFallsInItsMonth(anchor, 0);
    AnchorIsOnGrid(anchor);
    TermFromBoundary(anchor, anchor, true);
    BoundariesIncrease(anchor, 1, 12);
    TermFromBoundary(anchor, WindowEnd(anchor, anchor), false);
    SameMonth(anchor);
  }

  lemma SameMonth(anchor: Time)
    ensures MonthOf(anchor) - MonthOf(anchor) == 0
  {}

  /** The row is read for the cancel, and by the pass once its benefit month is over. */
  lemma ReadTwice(run: seq<Action>, w: World, next: Time) returns (longer: seq<Action>, after: World)
    requires Reaches(run, w) && w.clock == 0 <= next && 0 in w.db.subs
    ensures Reaches(longer, after) && after.db == w.db && after.clock == next
    ensures RowRead(w.db.subs[0], 0) in after.heard && RowRead(w.db.subs[0], next) in after.heard
  {
    hide IsRun, After;
    longer, after := RowIsRead(run, w, 0);
    longer := Onward(longer, after, Env(Tick(next)));
    after := Do(after, Env(Tick(next)));
    longer, after := RowIsRead(longer, after, 0);
  }

  /** The pass advances the boundary. */
  lemma Advanced(run: seq<Action>, w: World, next: Time) returns (longer: seq<Action>, after: World)
    requires Reaches(run, w) && w.clock == next && 0 in w.db.subs && RowRead(w.db.subs[0], next) in w.heard
    requires var row := w.db.subs[0]; row.user == 0 && row.active && row.nextGrant == next < row.termEnd
    ensures Reaches(longer, after) && after.clock == next && after.heard == w.heard && 0 in after.db.subs
    ensures after.db.subs[0] == w.db.subs[0].(nextGrant := WindowEnd(w.db.subs[0].anchor, next)) && after.db.intents == w.db.intents
  {
    hide IsRun, After, WindowEnd;
    longer := Onward(run, w, Account(Advancing(w.db.subs[0], next, next)));
    after := Do(w, Account(Advancing(w.db.subs[0], next, next)));
  }

  /** The cancel goes through, on the row it read. */
  lemma GoesBack(d: Database, read: Subscription)
    requires read.user in d.subs && d.subs[read.user].updatedAt == read.updatedAt && read.autoRenew
    requires forall o | o in d.intents :: d.intents[o].status.Applied?
    ensures CancelTx(d, read).Committed? && read.user in CancelTx(d, read).db.subs
    ensures CancelTx(d, read).db.subs[read.user].nextGrant == read.nextGrant
  {}

  lemma Cancels(w: World, read: Subscription)
    requires 0 in w.db.subs && read.user == 0 && read.active && read.autoRenew && RowRead(read, 0) in w.heard
    requires w.db.subs[0].updatedAt == read.updatedAt && forall o | o in w.db.intents :: w.db.intents[o].status.Applied?
    ensures Enabled(w, Account(Cancelling(read, 0)))
    ensures var e := Do(w, Account(Cancelling(read, 0))).db; 0 in e.subs && e.subs[0].nextGrant == read.nextGrant && !e.subs[0].autoRenew
  {
    hide HasOpenOrder;
    GoesBack(w.db, read);
  }

  /** So a run leads to where a cancel, made on the row as it was before its benefit month was over, puts
      the boundary back to a month that has been granted. */
  lemma ACancelCanTakeBackAnAdvance() returns (run: seq<Action>, w: World, read: Subscription)
    ensures Reaches(run, w) && Enabled(w, Account(Cancelling(read, 0))) && CancelTx(w.db, read).Committed?
    ensures 0 in w.db.subs && w.db.subs[0].active && w.clock < w.db.subs[0].nextGrant
    ensures var e := Do(w, Account(Cancelling(read, 0))).db; 0 in e.subs && e.subs[0].nextGrant == w.clock < w.db.subs[0].nextGrant
  {
    hide *;
    run, w := Subscribed(Annual);
    read := w.db.subs[0];
    RowIsHeld(w);
    MonthsOfTheTerm(0);
    run, w := ReadTwice(run, w, read.nextGrant);
    run, w := Advanced(run, w, read.nextGrant);
    Cancels(w, read);
    GoesBack(w.db, read);
  }

  lemma RowIsHeld(w: World)
    requires 0 in w.db.subs && Holds(w, w.db.subs[0], {ORDER})
    ensures w.db.subs[0].user == 0 && w.db.subs[0].active && w.db.subs[0].anchor == 0
    ensures forall o | o in w.db.intents :: w.db.intents[o].status.Applied?
  {}
}
