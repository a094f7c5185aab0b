/** The anchored calendar of a paid subscription (backend/internal/plan/period.go).

    An instant is a whole number of nanoseconds of Seoul wall-clock time, counted from the
    first day of year 0; the Seoul zone has a fixed offset, so shifting an instant by it loses
    nothing. A month is numbered `12 * year + (month - 1)`, which is the normalisation the
    source leaves to its date constructor. */
module Calendar {
  import opened Basics

  type Time = int

  const DAY := 86_400_000_000_000

  predicate IsLeap(year: int) {
    year % 4 == 0 && (year % 100 != 0 || year % 400 == 0)
  }

  const DAYS_IN_MONTH := [31, 28, 31, 30, 31, 30, 31, 31, 30, 31, 30, 31]

  function DaysIn(month: int): (days: int)
    ensures 28 <= days <= 31
  {
    if month % 12 == 1 && IsLeap(month / 12) then 29 else DAYS_IN_MONTH[month % 12]
  }

  /** The number of the month's first day: the months before it, one after another. */
  function FirstDay(month: int): int
    decreases if month < 0 then -month else month
  {
    if month == 0 then 0
    else if month > 0 then FirstDay(month - 1) + DaysIn(month - 1)
    else FirstDay(month + 1) - DaysIn(month)
  }

  lemma MonthsAbut(month: int)
    ensures FirstDay(month + 1) == FirstDay(month) + DaysIn(month)
  {}

  lemma {:induction false} FirstDayIncreases(month: int, later: int)
    requires month < later
    ensures FirstDay(month) + 28 * (later - month) <= FirstDay(later)
    decreases later - month
  {
    hide FirstDay, DaysIn;
    MonthsAbut(month);
    if month + 1 < later {
      FirstDayIncreases(month + 1, later);
    }
  }

  /** Walks from `guess` to the month holding `day`. */
  function MonthHolding(day: int, guess: int): (month: int)
    ensures FirstDay(month) <= day < FirstDay(month + 1)
    decreases if day < FirstDay(guess) then FirstDay(guess) - day
              else if day >= FirstDay(guess + 1) then day - FirstDay(guess) else 0
  {
    hide FirstDay, DaysIn;
    MonthsAbut(guess - 1);
    MonthsAbut(guess);
    if day < FirstDay(guess) then MonthHolding(day, guess - 1)
    else if day >= FirstDay(guess + 1) then MonthHolding(day, guess + 1)
    else guess
  }

  function MonthOf(at: Time): int {
    MonthHolding(at / DAY, 0)
  }

  lemma MonthIsUnique(at: Time, month: int)
    requires FirstDay(month) <= at / DAY < FirstDay(month + 1)
    ensures MonthOf(at) == month
  {
    hide FirstDay;
    var found := MonthOf(at);
    if found < month {
      if found + 1 < month { FirstDayIncreases(found + 1, month); }
    } else if month < found {
      if month + 1 < found { FirstDayIncreases(month + 1, found); }
    }
  }

  /** The day of the month, from 1. */
  function DayOf(at: Time): (day: int)
    ensures 1 <= day <= DaysIn(MonthOf(at))
  {
    hide FirstDay, DaysIn;
    MonthsAbut(MonthOf(at));
    at / DAY - FirstDay(MonthOf(at)) + 1
  }

  /** period.go: MonthBoundary. Every boundary comes from the original instant, so a day such as
      the 31st returns after a shorter month. */
  function MonthBoundary(anchor: Time, index: int): Time {
    var month := MonthOf(anchor) + index;
    (FirstDay(month) + Min(DayOf(anchor), DaysIn(month)) - 1) * DAY + anchor % DAY
  }

  /** The boundary numbered `index` falls in the month `index` months after the anchor's, on the
      anchor's own day or the month's last. */
  lemma BoundaryFallsInItsMonth(anchor: Time, index: int)
    ensures MonthOf(MonthBoundary(anchor, index)) == MonthOf(anchor) + index
    ensures DayOf(MonthBoundary(anchor, index)) == Min(DayOf(anchor), DaysIn(MonthOf(anchor) + index))
    ensures MonthBoundary(anchor, index) % DAY == anchor % DAY
    ensures MonthBoundary(anchor, 0) == anchor
  {
    hide FirstDay, DaysIn;
    var month := MonthOf(anchor) + index;
    var day := FirstDay(month) + Min(DayOf(anchor), DaysIn(month)) - 1;
    assert (day * DAY + anchor % DAY) / DAY == day;
    MonthsAbut(month);
    MonthIsUnique(MonthBoundary(anchor, index), month);
  }

  lemma LaterMonthIsLater(a: Time, b: Time)
    requires MonthOf(a) < MonthOf(b)
    ensures a < b
  {
    hide FirstDay;
    if MonthOf(a) + 1 < MonthOf(b) {
      FirstDayIncreases(MonthOf(a) + 1, MonthOf(b));
    }
  }

  /** The boundaries form a strictly increasing grid. */
  lemma BoundariesIncrease(anchor: Time, i: int, j: int)
    ensures i < j <==> MonthBoundary(anchor, i) < MonthBoundary(anchor, j)
  {
    hide MonthBoundary, MonthOf;
    BoundaryFallsInItsMonth(anchor, i);
    BoundaryFallsInItsMonth(anchor, j);
    if i < j {
      LaterMonthIsLater(MonthBoundary(anchor, i), MonthBoundary(anchor, j));
    } else if j < i {
      LaterMonthIsLater(MonthBoundary(anchor, j), MonthBoundary(anchor, i));
    }
  }

  /** The number of the benefit window `at` falls in: one correction of the month difference is
      enough. */
  function WindowIndex(anchor: Time, at: Time): (index: int)
    ensures MonthBoundary(anchor, index) <= at < MonthBoundary(anchor, index + 1)
  {
    hide MonthBoundary, MonthOf, DayOf;
    var index := MonthOf(at) - MonthOf(anchor);
    BoundaryFallsInItsMonth(anchor, index - 1);
    BoundaryFallsInItsMonth(anchor, index);
    BoundaryFallsInItsMonth(anchor, index + 1);
    assert MonthBoundary(anchor, index - 1) < at by {
      LaterMonthIsLater(MonthBoundary(anchor, index - 1), at);
    }
    assert at < MonthBoundary(anchor, index + 1) by {
      LaterMonthIsLater(at, MonthBoundary(anchor, index + 1));
    }
    if at < MonthBoundary(anchor, index) then index - 1 else index
  }

  /** period.go: BenefitWindow, as its two ends. */
  function WindowStart(anchor: Time, at: Time): Time { MonthBoundary(anchor, WindowIndex(anchor, at)) }

  function WindowEnd(anchor: Time, at: Time): Time { MonthBoundary(anchor, WindowIndex(anchor, at) + 1) }

  lemma WindowIsUnique(anchor: Time, at: Time, index: int)
    requires MonthBoundary(anchor, index) <= at < MonthBoundary(anchor, index + 1)
    ensures WindowIndex(anchor, at) == index
  {
    hide MonthBoundary, WindowIndex;
    var found := WindowIndex(anchor, at);
    BoundariesIncrease(anchor, found, index + 1);
    BoundariesIncrease(anchor, index, found + 1);
  }

  /** period.go: CoverageEnd, reached through types.go: TermEnd. */
  function CoverageEnd(anchor: Time, start: Time, annual: bool): Time {
    MonthBoundary(anchor, MonthOf(start) - MonthOf(anchor) + (if annual then 12 else 1))
  }

  predicate OnGrid(anchor: Time, at: Time) {
    at == MonthBoundary(anchor, MonthOf(at) - MonthOf(anchor))
  }

  /** From a grid point, a term ends one or twelve boundaries on and the next benefit month one
      boundary on, both on the grid and in that order. */
  lemma TermFromBoundary(anchor: Time, start: Time, annual: bool)
    requires OnGrid(anchor, start)
    ensures var k := MonthOf(start) - MonthOf(anchor);
            && CoverageEnd(anchor, start, annual) == MonthBoundary(anchor, k + if annual then 12 else 1)
            && WindowStart(anchor, start) == start
            && WindowEnd(anchor, start) == MonthBoundary(anchor, k + 1)
    ensures OnGrid(anchor, CoverageEnd(anchor, start, annual))
    ensures OnGrid(anchor, WindowEnd(anchor, start))
    ensures start < WindowEnd(anchor, start) <= CoverageEnd(anchor, start, annual)
  {
    hide MonthBoundary, MonthOf, WindowIndex, DayOf;
    var k := MonthOf(start) - MonthOf(anchor);
    BoundariesIncrease(anchor, k, k + 1);
    BoundariesIncrease(anchor, k + 1, k + 12);
    WindowIsUnique(anchor, start, k);
    BoundaryFallsInItsMonth(anchor, k + 1);
    BoundaryFallsInItsMonth(anchor, k + 12);
  }

  /** Advancing one window never passes a later grid point. */
  lemma NextBoundaryStaysWithin(anchor: Time, at: Time, end: Time)
    requires OnGrid(anchor, at) && OnGrid(anchor, end) && at < end
    ensures at < WindowEnd(anchor, at) <= end
    ensures OnGrid(anchor, WindowEnd(anchor, at))
  {
    hide MonthBoundary, MonthOf, WindowIndex;
    TermFromBoundary(anchor, at, false);
    var k, e := MonthOf(at) - MonthOf(anchor), MonthOf(end) - MonthOf(anchor);
    BoundariesIncrease(anchor, k, e);
    BoundariesIncrease(anchor, k + 1, e);
    BoundariesIncrease(anchor, e, k + 1);
  }

  /** Counting from a clamped boundary instead of the anchor gives the same grid point exactly when
      the clamped day is no shorter than the one the later month allows. */
  lemma ReanchoringLosesDays(anchor: Time, i: int, j: int)
    ensures MonthBoundary(MonthBoundary(anchor, i), j) == MonthBoundary(anchor, i + j)
            <==> Min(DayOf(anchor), DaysIn(MonthOf(anchor) + i + j)) <= DaysIn(MonthOf(anchor) + i)
  {
    hide FirstDay, DaysIn, MonthOf, DayOf;
    BoundaryFallsInItsMonth(anchor, i);
  }
}
