/** The fixed-window throttle of anonymous requests, and its sweep (backend/internal/auth/throttle.go).
    Instants and windows are nanoseconds. */
module Throttle {
  import opened Basics

  datatype Class = Login | Signup | Resend | ResetRequest | Reset | Google | Verify | Webhook | Misspelled(name: string)

  datatype Rule = Rule(max: nat, window: int)

  const MINUTE := 60_000_000_000
  const HOUR := 60 * MINUTE

  function RuleOf(class_: Class): (rule: Option<Rule>)
    ensures rule.Some? ==> rule.value.max > 0 && rule.value.window > 0
  {
    match class_
    case Login => Some(Rule(10, 5 * MINUTE))
    case Signup => Some(Rule(5, HOUR))
    case Resend => Some(Rule(5, HOUR))
    case ResetRequest => Some(Rule(5, HOUR))
    case Reset => Some(Rule(10, HOUR))
    case Google => Some(Rule(10, 5 * MINUTE))
    case Verify => Some(Rule(10, HOUR))
    case Webhook => Some(Rule(60, MINUTE))
    case Misspelled(_) => None
  }

  datatype Key = Key(class_: Class, ip: string)

  datatype Window = Window(count: nat, end: int)

  datatype Answer = Answer(retryAt: int, ok: bool)

  type Windows = map<Key, Window>

  // ---- one attempt, one sweep --------------------------------------------------------------

  predicate Live(windows: Windows, key: Key, now: int) { key in windows && now < windows[key].end }

  /** The window an attempt falls in. */
  function WindowAt(windows: Windows, key: Key, rule: Rule, now: int): Window {
    if Live(windows, key, now) then windows[key] else Window(0, now + rule.window)
  }

  function Attempt(windows: Windows, key: Key, now: int): (Windows, Answer) {
    var rule := RuleOf(key.class_);
    if rule.None? then (windows, Answer(0, false))
    else
      var w := WindowAt(windows, key, rule.value, now);
      if w.count >= rule.value.max then (windows[key := w], Answer(w.end, false))
      else (windows[key := w.(count := w.count + 1)], Answer(w.end, true))
  }

  function Swept(windows: Windows, now: int): Windows { map k | k in windows && now < windows[k].end :: windows[k] }

  class Throttle {
    var windows: Windows

    constructor ()
      ensures windows == map[]
    {
      windows := map[];
    }

    method Allow(class_: Class, ip: string, now: int) returns (answer: Answer)
      modifies this
      ensures (windows, answer) == Attempt(old(windows), Key(class_, ip), now)
    {
      var rule := RuleOf(class_);
      if rule.None? { return Answer(0, false); }
      var key := Key(class_, ip);
      var window: Window;
      if key in windows { window := windows[key]; }
      if key !in windows || now >= window.end { window := Window(0, now + rule.value.window); }
      if window.count >= rule.value.max {
        windows := windows[key := window];
        return Answer(window.end, false);
      }
      window := window.(count := window.count + 1);
      windows := windows[key := window];
      return Answer(window.end, true);
    }

    method Sweep(now: int)
      modifies this
      ensures windows == Swept(old(windows), now)
    {
      var keys := windows.Keys;
      while keys != {}
        invariant keys <= windows.Keys <= old(windows).Keys
        invariant forall k | k in windows :: windows[k] == old(windows)[k] && (k !in keys ==> now < windows[k].end)
        invariant forall k | k in old(windows) && k !in windows :: old(windows)[k].end <= now
        decreases |keys|
      {
        var key :| key in keys;
        keys := keys - {key};
        if now >= windows[key].end { windows := windows - {key}; }
      }
    }
  }

  // ---- sweeping changes no answer ----------------------------------------------------------

  /** The windows agree on every key whose window is still open at `now`. */
  ghost predicate SameFrom(a: Windows, b: Windows, now: int) {
    forall k: Key :: (Live(a, k, now) <==> Live(b, k, now)) && (Live(a, k, now) ==> a[k] == b[k])
  }

  datatype Step = Try(key: Key, at: int) | Sweep(at: int)

  function Do(windows: Windows, s: Step): Windows {
    match s
    case Try(key, at) => Attempt(windows, key, at).0
    case Sweep(at) => Swept(windows, at)
  }

  function After(run: seq<Step>): Windows {
    if run == [] then map[] else Do(After(run[..|run| - 1]), run[|run| - 1])
  }

  ghost predicate InOrder(run: seq<Step>) { forall i, j | 0 <= i < j < |run| :: run[i].at <= run[j].at }

  function Answers(run: seq<Step>): seq<Answer> {
    if run == [] then []
    else
      var front, last := run[..|run| - 1], run[|run| - 1];
      Answers(front) + if last.Try? then [Attempt(After(front), last.key, last.at).1] else []
  }

  function Unswept(run: seq<Step>): seq<Step> {
    if run == [] then []
    else Unswept(run[..|run| - 1]) + if run[|run| - 1].Try? then [run[|run| - 1]] else []
  }

  lemma AttemptAgrees(a: Windows, b: Windows, key: Key, now: int)
    requires SameFrom(a, b, now)
    ensures Attempt(a, key, now).1 == Attempt(b, key, now).1 && SameFrom(Attempt(a, key, now).0, Attempt(b, key, now).0, now)
  {
    assert Live(a, key, now) <==> Live(b, key, now);
  }

  lemma SweepAgrees(a: Windows, b: Windows, now: int)
    requires SameFrom(a, b, now)
    ensures SameFrom(Swept(a, now), b, now)
  {
    forall k: Key ensures Live(Swept(a, now), k, now) <==> Live(a, k, now) {}
    forall k: Key ensures (Live(Swept(a, now), k, now) <==> Live(b, k, now)) && (Live(Swept(a, now), k, now) ==> Swept(a, now)[k] == b[k]) {
      assert Live(a, k, now) <==> Live(b, k, now);
    }
  }

  lemma LaterAgrees(a: Windows, b: Windows, now: int, later: int)
    requires SameFrom(a, b, now) && now <= later
    ensures SameFrom(a, b, later)
  {
    forall k: Key ensures (Live(a, k, later) <==> Live(b, k, later)) && (Live(a, k, later) ==> a[k] == b[k]) {
      assert Live(a, k, now) <==> Live(b, k, now);
    }
  }

  /** For times that do not go back, interleaving sweeps anywhere changes no answer. */
  lemma {:induction false} SweepsChangeNothing(run: seq<Step>, now: int)
    requires InOrder(run) && forall i | 0 <= i < |run| :: run[i].at <= now
    ensures SameFrom(After(run), After(Unswept(run)), now) && Answers(run) == Answers(Unswept(run))
    decreases |run|
  {
    hide Attempt, Swept, SameFrom, InOrder;
    if run == [] {
      NothingAgrees(now);
    } else {
      var front, last := run[..|run| - 1], run[|run| - 1];
      FrontInOrder(run);
      SweepsChangeNothing(front, last.at);
      if last.Try? {
        AttemptAgrees(After(front), After(Unswept(front)), last.key, last.at);
        assert Unswept(run)[..|Unswept(run)| - 1] == Unswept(front);
      } else {
        SweepAgrees(After(front), After(Unswept(front)), last.at);
        assert Unswept(run) == Unswept(front);
      }
      LaterAgrees(After(run), After(Unswept(run)), last.at, now);
    }
  }

  lemma NothingAgrees(now: int)
    ensures SameFrom(map[], map[], now)
  {}

  lemma FrontInOrder(run: seq<Step>)
    requires InOrder(run) && run != []
    ensures var front := run[..|run| - 1]; InOrder(front) && forall i | 0 <= i < |front| :: front[i].at <= run[|run| - 1].at
  {}

  // ---- how much is admitted ----------------------------------------------------------------

  /** An admitted attempt, and the end of the window it was admitted in. */
  datatype Admission = Admission(at: int, end: int)

  function Admitted(run: seq<Step>, key: Key): seq<Admission> {
    if run == [] then []
    else
      var front, last := run[..|run| - 1], run[|run| - 1];
      if last.Try? && last.key == key && Attempt(After(front), key, last.at).1.ok
      then Admitted(front, key) + [Admission(last.at, Attempt(After(front), key, last.at).1.retryAt)]
      else Admitted(front, key)
  }

  /** Attempts are admitted inside their windows, and windows of a key follow one another, a full
      length apart. */
  ghost predicate Spaced(a: seq<Admission>, window: int) {
    && (forall i | 0 <= i < |a| :: a[i].end - window <= a[i].at < a[i].end)
    && (forall i, j | 0 <= i < j < |a| :: a[i].end == a[j].end || a[i].end <= a[j].end - window)
  }

  /** No window admits more than `max`. */
  ghost predicate Bounded(a: seq<Admission>, max: nat) {
    forall i | 0 <= i && i + max < |a| :: a[i].end != a[i + max].end
  }

  /** The stored window against what was admitted: every earlier window has closed, a whole length
      before the open one's end, and the open one's count is that of its admissions. */
  ghost predicate Tracks(windows: Windows, key: Key, a: seq<Admission>, rule: Rule, now: int) {
    && (forall i | 0 <= i < |a| :: a[i].end <= now || (key in windows && a[i].end == windows[key].end))
    && (Live(windows, key, now) ==>
          && windows[key].end - rule.window <= now
          && windows[key].count <= rule.max && windows[key].count <= |a|
          && (forall i | 0 <= i < |a| - windows[key].count :: a[i].end <= windows[key].end - rule.window)
          && (forall i | |a| - windows[key].count <= i < |a| :: a[i].end == windows[key].end))
  }

  lemma TimePasses(windows: Windows, key: Key, a: seq<Admission>, rule: Rule, now: int, later: int)
    requires Tracks(windows, key, a, rule, now) && now <= later
    ensures Tracks(windows, key, a, rule, later)
  {}

  lemma SweepTracks(windows: Windows, key: Key, a: seq<Admission>, rule: Rule, now: int)
    requires Tracks(windows, key, a, rule, now)
    ensures Tracks(Swept(windows, now), key, a, rule, now)
  {}

  /** One more admission, in a window every earlier admission is in or a whole length behind. */
  lemma OneMore(a: seq<Admission>, at: int, end: int, rule: Rule, count: nat)
    requires Spaced(a, rule.window) && Bounded(a, rule.max) && end - rule.window <= at < end && count < rule.max && count <= |a|
    requires forall i | 0 <= i < |a| - count :: a[i].end <= end - rule.window
    requires forall i | |a| - count <= i < |a| :: a[i].end == end
    requires rule.window > 0
    ensures Spaced(a + [Admission(at, end)], rule.window) && Bounded(a + [Admission(at, end)], rule.max)
  {
    var b := a + [Admission(at, end)];
    forall i | 0 <= i && i + rule.max < |b| ensures b[i].end != b[i + rule.max].end {
      if i + rule.max < |a| { assert a[i].end != a[i + rule.max].end; }
    }
  }

  lemma OpenWindowTracks(windows: Windows, key: Key, a: seq<Admission>, rule: Rule, now: int)
    requires rule.window > 0 && Tracks(windows, key, a, rule, now) && Spaced(a, rule.window) && Bounded(a, rule.max)
    requires Live(windows, key, now) && windows[key].count < rule.max
    ensures var w := windows[key];
            var b := a + [Admission(now, w.end)];
            Tracks(windows[key := w.(count := w.count + 1)], key, b, rule, now) && Spaced(b, rule.window) && Bounded(b, rule.max)
  {
    OneMore(a, now, windows[key].end, rule, windows[key].count);
    hide Spaced, Bounded;
  }

  lemma FreshWindowTracks(windows: Windows, key: Key, a: seq<Admission>, rule: Rule, now: int)
    requires rule.window > 0 && rule.max > 0 && Tracks(windows, key, a, rule, now) && Spaced(a, rule.window) && Bounded(a, rule.max)
    requires !Live(windows, key, now)
    ensures var b := a + [Admission(now, now + rule.window)];
            Tracks(windows[key := Window(1, now + rule.window)], key, b, rule, now) && Spaced(b, rule.window) && Bounded(b, rule.max)
  {
    OneMore(a, now, now + rule.window, rule, 0);
    hide Spaced, Bounded;
  }

  lemma AttemptTracks(windows: Windows, key: Key, a: seq<Admission>, rule: Rule, now: int)
    requires RuleOf(key.class_) == Some(rule) && Tracks(windows, key, a, rule, now) && Spaced(a, rule.window) && Bounded(a, rule.max)
    ensures var (next, answer) := Attempt(windows, key, now);
            var b := if answer.ok then a + [Admission(now, answer.retryAt)] else a;
            Tracks(next, key, b, rule, now) && Spaced(b, rule.window) && Bounded(b, rule.max)
  {
    hide RuleOf, Tracks, Spaced, Bounded;
    if !Live(windows, key, now) {
      FreshWindowTracks(windows, key, a, rule, now);
    } else if windows[key].count < rule.max {
      OpenWindowTracks(windows, key, a, rule, now);
    } else {
      assert windows[key := windows[key]] == windows;
    }
  }

  lemma OtherKeysTrack(windows: Windows, key: Key, other: Key, a: seq<Admission>, rule: Rule, now: int)
    requires Tracks(windows, key, a, rule, now) && other != key
    ensures Tracks(Attempt(windows, other, now).0, key, a, rule, now)
  {}

  lemma {:induction false} RunsAreTracked(run: seq<Step>, key: Key, rule: Rule, now: int)
    requires RuleOf(key.class_) == Some(rule) && InOrder(run) && forall i | 0 <= i < |run| :: run[i].at <= now
    ensures Tracks(After(run), key, Admitted(run, key), rule, now)
    ensures Spaced(Admitted(run, key), rule.window) && Bounded(Admitted(run, key), rule.max)
    decreases |run|
  {
    if run != [] {
      hide Attempt, Swept, Tracks, Spaced, Bounded, InOrder, RuleOf;
      var front, last := run[..|run| - 1], run[|run| - 1];
      FrontInOrder(run);
      RunsAreTracked(front, key, rule, last.at);
      var a := Admitted(front, key);
      if last.Sweep? {
        SweepTracks(After(front), key, a, rule, last.at);
      } else if last.key == key {
        AttemptTracks(After(front), key, a, rule, last.at);
      } else {
        OtherKeysTrack(After(front), key, last.key, a, rule, last.at);
      }
      TimePasses(After(run), key, Admitted(run, key), rule, last.at, now);
    }
  }

  lemma FarApart(a: seq<Admission>, rule: Rule, i: nat, j: nat)
    requires Spaced(a, rule.window) && Bounded(a, rule.max) && i + rule.max <= j < |a|
    ensures a[i].at < a[i].end <= a[j].end - rule.window <= a[j].at
  {
    assert a[i].end != a[i + rule.max].end;
  }

  /** Each window of a class and address admits at most `max` attempts, whatever is swept. */
  lemma WindowsAreBounded(run: seq<Step>, key: Key, rule: Rule, i: nat, j: nat)
    requires RuleOf(key.class_) == Some(rule) && InOrder(run)
    requires i <= j < |Admitted(run, key)| && Admitted(run, key)[i].end == Admitted(run, key)[j].end
    ensures j - i < rule.max
  {
    assert rule.window > 0;
    hide RuleOf, Spaced, Bounded, Tracks;
    RunsAreTracked(run, key, rule, run[|run| - 1].at);
    if i + rule.max <= j { FarApart(Admitted(run, key), rule, i, j); }
  }

  /** Any interval one window long, both ends included, admits at most twice `max` attempts. */
  lemma IntervalsAreBounded(run: seq<Step>, key: Key, rule: Rule, from: int, i: nat, j: nat)
    requires RuleOf(key.class_) == Some(rule) && InOrder(run)
    requires i <= j < |Admitted(run, key)| && from <= Admitted(run, key)[i].at && Admitted(run, key)[j].at <= from + rule.window
    ensures j - i < 2 * rule.max
  {
    hide RuleOf, Spaced, Bounded, Tracks;
    RunsAreTracked(run, key, rule, run[|run| - 1].at);
    if i + 2 * rule.max <= j {
      FarApart(Admitted(run, key), rule, i, i + rule.max);
      FarApart(Admitted(run, key), rule, i + rule.max, j);
    }
  }

  /** A refusal names the first instant at which the next attempt is admitted: every earlier one is
      refused again with the same answer. */
  lemma RetryAtAdmits(windows: Windows, key: Key, now: int, later: int)
    requires RuleOf(key.class_).Some? && !Attempt(windows, key, now).1.ok && now <= later
    ensures var (next, answer) := Attempt(windows, key, now);
            && now < answer.retryAt
            && (Attempt(next, key, later).1.ok <==> answer.retryAt <= later)
            && (later < answer.retryAt ==> Attempt(next, key, later) == (next, answer))
  {
    var (next, answer) := Attempt(windows, key, now);
    assert next[key := next[key]] == next;
  }

  /** An unknown class is always refused and never recorded. */
  lemma UnknownIsRefused(windows: Windows, key: Key, now: int)
    ensures RuleOf(key.class_).None? <==> key.class_.Misspelled?
    ensures key.class_.Misspelled? ==> Attempt(windows, key, now) == (windows, Answer(0, false))
  {}
}
