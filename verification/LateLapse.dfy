/** A run on which a lapse drops a term that was just paid for: lapseCancelled writes back the row its
    pass read, and nothing in its transaction looks whether the row has been resumed and renewed. */
module LateLapse {
  import opened Basics
  import opened Calendar
  import opened Pricing
  import opened Ledger
  import opened Protocol
  import opened Subscriber

  lemma CancelRewrites(d: Database, s: Subscription)
    requires s.user in d.subs && d.subs[s.user] == s && s.autoRenew && forall o | o in d.intents :: d.intents[o].status.Applied?
    ensures var row := s.(autoRenew := false, scheduledTier := None, scheduledTerm := None, updatedAt := d.nextStamp);
            var e := Commit(d, CancelTx(d, s));
            e.subs == d.subs[s.user := row] && e == d.(subs := e.subs, history := e.history, nextStamp := e.nextStamp, events := e.events)
  {}

  lemma ResumeRewrites(d: Database, s: Subscription)
    requires s.user in d.subs && d.subs[s.user] == s && !s.autoRenew && forall o | o in d.intents :: d.intents[o].status.Applied?
    ensures var row := s.(autoRenew := true, updatedAt := d.nextStamp);
            var e := Commit(d, ResumeTx(d, s));
            e.subs == d.subs[s.user := row] && e == d.(subs := e.subs, history := e.history, nextStamp := e.nextStamp)
  {}

  lemma LapseEnds(d: Database, s: Subscription)
    requires s.user !in d.support && !TierOf(d, s.user).Master?
    ensures var e := Commit(d, LapseTx(d, s));
            e.subs == d.subs[s.user := s.(active := false, updatedAt := d.nextStamp)] && TierOf(e, s.user) == Free
  {}

  /** It cancels at once. */
  lemma Unrenewed(run: seq<Action>, w: World) returns (next: seq<Action>, after: World)
    requires Reaches(run, w) && w.clock == 0 && 0 in w.db.subs && w.db.subs[0].autoRenew && Holds(w, w.db.subs[0], {ORDER})
    ensures Reaches(next, after) && after.clock == 0 && 0 in after.db.subs && Holds(after, after.db.subs[0], {ORDER})
    ensures var row := after.db.subs[0]; !row.autoRenew && row.termEnd == w.db.subs[0].termEnd && row.term == w.db.subs[0].term && row.user == 0 && row.active
  {
    hide IsRun, After, CancelTx;
    var row := w.db.subs[0];
    CancelRewrites(w.db, row);
    next, after := RowIsRead(run, w, 0);
    next := Onward(next, after, Account(Cancelling(row, 0)));
    after := Do(after, Account(Cancelling(row, 0)));
  }

  /** The row is read at once, and again by the pass when the term has ended. */
  lemma Ended(run: seq<Action>, w: World, end: Time) returns (next: seq<Action>, after: World)
    requires Reaches(run, w) && w.clock == 0 <= end && 0 in w.db.subs && Holds(w, w.db.subs[0], {ORDER})
    ensures Reaches(next, after) && after.db == w.db && after.clock == end && Holds(after, w.db.subs[0], {ORDER})
    ensures RowRead(w.db.subs[0], 0) in after.heard && RowRead(w.db.subs[0], end) in after.heard
  {
    hide IsRun, After;
    next, after := RowIsRead(run, w, 0);
    next := Onward(next, after, Env(Tick(end)));
    after := Do(after, Env(Tick(end)));
    next, after := RowIsRead(next, after, 0);
  }

  /** A resume that read the row before the term's end goes through after it. */
  lemma Resumed(run: seq<Action>, w: World, end: Time) returns (next: seq<Action>, after: World)
    requires Reaches(run, w) && w.clock == end && 0 in w.db.subs && Holds(w, w.db.subs[0], {ORDER})
    requires RowRead(w.db.subs[0], 0) in w.heard && !w.db.subs[0].autoRenew && w.db.subs[0].termEnd == end
    ensures Reaches(next, after) && after.clock == end && w.heard <= after.heard
    ensures 0 in after.db.subs && Holds(after, after.db.subs[0], {ORDER}) && RowRead(after.db.subs[0], end) in after.heard
    ensures after.db.subs[0].autoRenew && after.db.subs[0].termEnd == end && after.db.subs[0].term == w.db.subs[0].term
  {
    hide IsRun, After, ResumeTx;
    ResumeRewrites(w.db, w.db.subs[0]);
    next := Onward(run, w, Account(Resuming(w.db.subs[0], 0)));
    after := Do(w, Account(Resuming(w.db.subs[0], 0)));
    next, after := RowIsRead(next, after, 0);
  }

  lemma Lapses(w: World, read: Subscription, end: Time)
    requires 0 in w.db.subs && Holds(w, w.db.subs[0], {ORDER, Renewal(0, end)}) && w.clock == end && RowRead(read, end) in w.heard
    requires read.user == 0 && read.active && read.termEnd == end
    ensures Enabled(w, Account(Lapsing(read, end, end)))
    ensures Renewal(0, end) in w.db.intents && w.db.intents[Renewal(0, end)].status.Applied?
    ensures w.db.subs[0].active && TierOf(w.db, 0) == Light
    ensures var lapsed := Do(w, Account(Lapsing(read, end, end))).db;
            0 in lapsed.subs && !lapsed.subs[0].active && lapsed.subs[0].termEnd == end && TierOf(lapsed, 0) == Free
  {
    hide LapseTx;
    LapseEnds(w.db, read);
    assert Renewal(0, end) in w.db.intents.Keys;
  }

  /** So a run leads to where the first pass, on the cancelled row it read, ends a term whose renewal
      was just applied. */
  lemma ALapseCanDropAPaidTerm() returns (run: seq<Action>, w: World, read: Subscription, end: Time)
    ensures Reaches(run, w) && !read.autoRenew && Enabled(w, Account(Lapsing(read, end, end)))
    ensures Renewal(0, end) in w.db.intents && w.db.intents[Renewal(0, end)].status.Applied?
    ensures 0 in w.db.subs && w.db.subs[0].active && end < w.db.subs[0].termEnd && TierOf(w.db, 0) == Light
    ensures var lapsed := Do(w, Account(Lapsing(read, end, end))).db;
            0 in lapsed.subs && !lapsed.subs[0].active && lapsed.subs[0].termEnd == end && TierOf(lapsed, 0) == Free
  {
    hide *;
    run, w := Subscribed(Monthly);
    end := w.db.subs[0].termEnd;
    TermsFollow(0, end);
    run, w := Unrenewed(run, w);
    run, w := Ended(run, w, end);
    read := w.db.subs[0];
    run, w := Resumed(run, w, end);
    run, w := Renewed(run, w, end);
    Lapses(w, read, end);
  }
}
