/**
 * The two ways the application steps a recurring item forward in time:
 * the projection loop of app/page.tsx, which re-applies the anchor's day of
 * month after every monthly step, and the "next payment" search of
 * components/ListItem.tsx, which steps with a bare `setMonth`/`setFullYear`.
 */
module Recurrence {
  import opened Calendar
  import opened Items
  import opened Stepping

  // ---------------------------------------------------------------------------
  // Projection stepping (app/page.tsx)

  /**
   * One step of the projection loop from the occurrence `cur` of an item whose
   * anchor falls on day `anchorDay`: a month on (through JavaScript's
   * roll-over), then the day set to the anchor day, or to the last day of the
   * month reached if the constructor reports that month shorter; or, yearly,
   * a bare year on.
   */
  function NextOccurrence(cur: Date, anchorDay: int, period: RecurringPeriod): (r: Date)
    requires Valid(cur) && 1 <= anchorDay <= 31
    ensures Valid(r) && Before(cur, r) && MonthIndex(cur) < MonthIndex(r)
  {
    if period == Monthly then
      var n := AddMonthJs(cur);
      var last := ConstructorMonthLength(n.year, n.month);
      var r := Date(n.year, n.month, if anchorDay > last then last else anchorDay);
      MonthIndexOrder(cur, r);
      r
    else
      AddYearJs(cur)
  }

  /** The projection step of an item whose anchor falls on day `anchorDay`. */
  function ProjectionStep(anchorDay: int, period: RecurringPeriod): (step: Date --> Date)
    requires 1 <= anchorDay <= 31
    ensures Advances(step)
  {
    (d: Date) requires Valid(d) => NextOccurrence(d, anchorDay, period)
  }

  /** The `k`-th occurrence of an item anchored at `anchor`; the 0-th is the anchor itself. */
  function NthOccurrence(anchor: Date, period: RecurringPeriod, k: nat): (r: Date)
    requires Valid(anchor)
    ensures Valid(r)
  {
    Iterate(anchor, ProjectionStep(anchor.day, period), k)
  }

  /** Each occurrence is one projection step after the previous one. */
  lemma NthOccurrenceStep(anchor: Date, period: RecurringPeriod, k: nat)
    requires Valid(anchor) && k > 0
    ensures NthOccurrence(anchor, period, k) == NextOccurrence(NthOccurrence(anchor, period, k - 1), anchor.day, period)
  {
  }

  /**
   * The dates on which an item anchored at `anchor` falls due up to and
   * including `target` (the `while (currentDate <= targetDate)` loop): nothing
   * when the anchor is later than the target, otherwise the anchor and each
   * following step while it is not later, strictly increasing.
   */
  function Occurrences(anchor: Date, period: RecurringPeriod, target: Date): (r: seq<CalendarDate>)
    requires Valid(anchor) && Valid(target)
    ensures |r| == 0 <==> Before(target, anchor)
    ensures |r| > 0 ==> r[0] == anchor
    ensures forall i {:trigger r[i]} :: 0 <= i < |r| ==> r[i] == NthOccurrence(anchor, period, i) && NotAfter(r[i], target)
    ensures Before(target, NthOccurrence(anchor, period, |r|))
    ensures forall i, j :: 0 <= i < j < |r| ==> Before(r[i], r[j])
  {
    Collect(anchor, ProjectionStep(anchor.day, period), target)
  }

  /**
   * The monthly step never clamps outside year 0: every monthly occurrence
   * keeps the anchor's day, which is the smaller of the anchor day and the
   * length of the month the step lands in; the step advances one month, or
   * two when the month in between is shorter than the anchor day. The one
   * progression left out passes through 29 January of year 0 (see
   * `YearZeroFebruaryClamps`).
   */
  lemma {:induction false} MonthlyOccurrenceDay(anchor: Date, k: nat)
    requires Valid(anchor)
    requires anchor.day != 29 || Before(Date(0, 1, 29), anchor)
    ensures NthOccurrence(anchor, Monthly, k).day == anchor.day
    ensures anchor.day <= MonthLength(MonthIndex(NthOccurrence(anchor, Monthly, k)))
    ensures k > 0 ==>
      var prev, r := NthOccurrence(anchor, Monthly, k - 1), NthOccurrence(anchor, Monthly, k);
      && r.day == Min(anchor.day, MonthLength(MonthIndex(r)))
      && MonthIndex(r) == MonthIndex(prev) + (if anchor.day <= MonthLength(MonthIndex(prev) + 1) then 1 else 2)
  {
    if k == 0 {
      MonthIndexOf(anchor.year, anchor.month);
    } else {
      MonthlyOccurrenceDay(anchor, k - 1);
      if anchor.day == 29 {
        OccurrencesStayAfter(anchor, Monthly, k - 1, Date(0, 1, 29));
      }
      MonthlyStepKeepsDay(NthOccurrence(anchor, Monthly, k - 1));
    }
  }

  /** Every occurrence is later than any date the anchor is later than. */
  lemma OccurrencesStayAfter(anchor: Date, period: RecurringPeriod, k: nat, d: Date)
    requires Valid(anchor) && Before(d, anchor)
    ensures Before(d, NthOccurrence(anchor, period, k))
  {
    if k > 0 {
      IterateIncreases(anchor, ProjectionStep(anchor.day, period), 0, k);
      BeforeTransitive(d, anchor, NthOccurrence(anchor, period, k));
    }
  }

  /**
   * One monthly step from a date whose day exists in its month lands on the
   * same day, except from 29 January of year 0 (see `YearZeroFebruaryClamps`).
   */
  lemma MonthlyStepKeepsDay(prev: Date)
    requires Valid(prev) && prev.day <= MonthLength(MonthIndex(prev))
    requires prev != Date(0, 1, 29)
    ensures var r := NextOccurrence(prev, prev.day, Monthly);
      && r.day == prev.day
      && prev.day <= MonthLength(MonthIndex(r))
      && MonthIndex(r) == MonthIndex(prev) + (if prev.day <= MonthLength(MonthIndex(prev) + 1) then 1 else 2)
  {
    var n := AddMonthJs(prev);
    MonthIndexOf(n.year, n.month);
    if prev.day > MonthLength(MonthIndex(prev) + 1) {
      ShortMonthIsFollowedByLongMonth(MonthIndex(prev) + 1);
    }
    assert prev.day <= DaysInMonth(n.year, n.month);
    YearZeroLeapDayHasOneSource(prev);
    assert prev.day <= ConstructorMonthLength(n.year, n.month);
    MonthlyStepIs(prev, prev.day);
  }

  /** The only date a month step takes to 29 February of year 0 is 29 January of year 0. */
  lemma YearZeroLeapDayHasOneSource(prev: Date)
    requires Valid(prev)
    ensures AddMonthJs(prev) == Date(0, 2, 29) ==> prev == Date(0, 1, 29)
  {
    MonthIndexOf(0, 1);
    MonthIndexOf(0, 2);
    MonthIndexOf(-1, 12);
  }

  /**
   * In year 0 the clamp does fire: 29 January steps to 29 February, which the
   * constructor, reading year 0 as 1900, reports past a 28-day February, so
   * the occurrence moves to the 28th; the next step is back on the 29th.
   */
  lemma YearZeroFebruaryClamps()
    ensures NextOccurrence(Date(0, 1, 29), 29, Monthly) == Date(0, 2, 28)
    ensures NextOccurrence(Date(0, 2, 28), 29, Monthly) == Date(0, 3, 29)
  {
    YearZeroJanuaryStep();
    YearZeroFebruaryStep();
  }

  lemma YearZeroJanuaryStep()
    ensures NextOccurrence(Date(0, 1, 29), 29, Monthly) == Date(0, 2, 28)
  {
    assert Valid(Date(0, 1, 29)) by { assert DaysInMonth(0, 1) == 31; }
    MonthlyStepIs(Date(0, 1, 29), 29);
    YearZeroLeapDayExists();
  }

  /** A monthly step is the month step with its day set to the anchor day, clamped to the constructor's month length. */
  lemma MonthlyStepIs(cur: Date, anchorDay: int)
    requires Valid(cur) && 1 <= anchorDay <= 31
    ensures var n := AddMonthJs(cur);
      NextOccurrence(cur, anchorDay, Monthly) == Date(n.year, n.month, Min(anchorDay, ConstructorMonthLength(n.year, n.month)))
  {
  }

  /** On the calendar, year 0 is a leap year, so a month on from 29 January is 29 February. */
  lemma YearZeroLeapDayExists()
    ensures AddMonthJs(Date(0, 1, 29)) == Date(0, 2, 29)
  {
    assert Valid(Date(0, 1, 29)) by { assert DaysInMonth(0, 1) == 31; }
    assert MonthIndex(Date(0, 1, 29)) + 1 == 1;
    assert YearOf(1) == 0 && MonthOf(1) == 2;
    assert MonthLength(1) == 29 by { assert IsLeapYear(0); }
    assert Overflow(1, 29) == Date(0, 2, 29);
  }

  lemma YearZeroFebruaryStep()
    ensures NextOccurrence(Date(0, 2, 28), 29, Monthly) == Date(0, 3, 29)
  {
    MonthIndexOf(0, 2);
    MonthIndexOf(0, 3);
    assert AddMonthJs(Date(0, 2, 28)) == Date(0, 3, 28);
    assert ConstructorMonthLength(0, 3) == DaysInMonth(0, 3) == 31;
    MonthlyStepIs(Date(0, 2, 28), 29);
  }

  function Min(a: int, b: int): int { if a <= b then a else b }

  /**
   * The calendar-ideal monthly schedule: `k` months after the anchor, on the
   * anchor's day or the last day of a shorter month.
   */
  function ClampedMonthly(anchor: Date, k: nat): Date
  {
    var mi := MonthIndex(anchor) + k;
    Date(YearOf(mi), MonthOf(mi), Min(anchor.day, MonthLength(mi)))
  }

  /** The calendar-ideal yearly schedule: same month and day, clamped in a short February. */
  function ClampedYearly(anchor: Date, k: nat): Date
    requires 1 <= anchor.month <= 12
  {
    Date(anchor.year + k, anchor.month, Min(anchor.day, DaysInMonth(anchor.year + k, anchor.month)))
  }

  /** When the anchor day exists in every month, the monthly loop follows the ideal schedule. */
  lemma {:induction false} MonthlyMatchesClampBelowDay29(anchor: Date, k: nat)
    requires Valid(anchor) && anchor.day <= 28
    ensures NthOccurrence(anchor, Monthly, k) == ClampedMonthly(anchor, k)
  {
    MonthIndexOf(anchor.year, anchor.month);
    if k > 0 {
      MonthlyMatchesClampBelowDay29(anchor, k - 1);
      MonthlyOccurrenceDay(anchor, k);
      var r := NthOccurrence(anchor, Monthly, k);
      MonthIndexOf(r.year, r.month);
    }
  }

  /** Unless the anchor is 29 February, the yearly loop follows the ideal schedule. */
  lemma {:induction false} YearlyMatchesClampOffLeapDay(anchor: Date, k: nat)
    requires Valid(anchor) && !(anchor.month == 2 && anchor.day == 29)
    ensures NthOccurrence(anchor, Yearly, k) == ClampedYearly(anchor, k)
    ensures NthOccurrence(anchor, Yearly, k) == Date(anchor.year + k, anchor.month, anchor.day)
  {
    if k > 0 {
      YearlyMatchesClampOffLeapDay(anchor, k - 1);
    }
  }

  /** A 29 February anchor falls due on 1 March of every later year, leap or not. */
  lemma {:induction false} LeapDayAnchorMovesToMarch(anchor: Date, k: nat)
    requires Valid(anchor) && anchor.month == 2 && anchor.day == 29 && k >= 1
    ensures NthOccurrence(anchor, Yearly, k) == Date(anchor.year + k, 3, 1)
  {
    NthOccurrenceStep(anchor, Yearly, k);
    if k > 1 {
      LeapDayAnchorMovesToMarch(anchor, k - 1);
    } else {
      assert IsLeapYear(anchor.year);
      assert !IsLeapYear(anchor.year + 1);
    }
  }

  /** A 31 January anchor skips February: its second occurrence is 31 March, not the clamped 29 February. */
  lemma MonthEndAnchorSkipsFebruary()
    ensures Occurrences(Date(2024, 1, 31), Monthly, Date(2024, 4, 30)) == [Date(2024, 1, 31), Date(2024, 3, 31)]
    ensures ClampedMonthly(Date(2024, 1, 31), 1) == Date(2024, 2, 29)
  {
    JanuaryEndOccurrences();
    OccurrencesAre(Date(2024, 1, 31), Monthly, Date(2024, 4, 30), [Date(2024, 1, 31), Date(2024, 3, 31)]);
    JanuaryEndClamps();
  }

  /** The idealised clamp takes 31 January 2024 to 29 February. */
  lemma JanuaryEndClamps()
    ensures ClampedMonthly(Date(2024, 1, 31), 1) == Date(2024, 2, 29)
  {
  }

  lemma JanuaryEndOccurrences()
    ensures NthOccurrence(Date(2024, 1, 31), Monthly, 0) == Date(2024, 1, 31)
    ensures NthOccurrence(Date(2024, 1, 31), Monthly, 1) == Date(2024, 3, 31)
    ensures NthOccurrence(Date(2024, 1, 31), Monthly, 2) == Date(2024, 5, 31)
  {
    var a := Date(2024, 1, 31);
    FirstOccurrenceIsAnchor(a, Monthly);
    JanuaryEndStep();
    MarchEndStep();
    NthOccurrenceStep(a, Monthly, 1);
    NthOccurrenceStep(a, Monthly, 2);
  }

  /** A leap-day anchor followed to 1 March 2023 falls due on 1 March in each later year. */
  lemma LeapDayAnchorExample()
    ensures Occurrences(Date(2020, 2, 29), Yearly, Date(2023, 3, 1))
         == [Date(2020, 2, 29), Date(2021, 3, 1), Date(2022, 3, 1), Date(2023, 3, 1)]
  {
    var ds := [Date(2020, 2, 29), Date(2021, 3, 1), Date(2022, 3, 1), Date(2023, 3, 1)];
    LeapDayYears();
    assert forall i :: 1 <= i < 4 ==> ds[i] == Date(2020 + i, 3, 1);
    OccurrencesAre(Date(2020, 2, 29), Yearly, Date(2023, 3, 1), ds);
  }

  lemma LeapDayYears()
    ensures NthOccurrence(Date(2020, 2, 29), Yearly, 0) == Date(2020, 2, 29)
    ensures forall k :: 1 <= k <= 4 ==> NthOccurrence(Date(2020, 2, 29), Yearly, k) == Date(2020 + k, 3, 1)
  {
    FirstOccurrenceIsAnchor(Date(2020, 2, 29), Yearly);
    forall k | 1 <= k <= 4 {
      LeapDayAnchorMovesToMarch(Date(2020, 2, 29), k);
    }
  }

  /** Dates that are the first occurrences, all on or before the target, with the next one past it, are the occurrences. */
  lemma OccurrencesAre(anchor: Date, period: RecurringPeriod, target: Date, ds: seq<Date>)
    requires Valid(anchor) && Valid(target)
    requires forall i :: 0 <= i < |ds| ==> NthOccurrence(anchor, period, i) == ds[i] && NotAfter(ds[i], target)
    requires Before(target, NthOccurrence(anchor, period, |ds|))
    ensures Occurrences(anchor, period, target) == ds
  {
    OccurrencesLength(anchor, period, target, |ds|);
  }

  lemma FirstOccurrenceIsAnchor(anchor: Date, period: RecurringPeriod)
    requires Valid(anchor)
    ensures NthOccurrence(anchor, period, 0) == anchor
  {
  }

  /** The number of occurrences is the number of steps that stay on or before the target. */
  lemma OccurrencesLength(anchor: Date, period: RecurringPeriod, target: Date, n: nat)
    requires Valid(anchor) && Valid(target)
    requires forall i :: 0 <= i < n ==> NotAfter(NthOccurrence(anchor, period, i), target)
    requires Before(target, NthOccurrence(anchor, period, n))
    ensures |Occurrences(anchor, period, target)| == n
  {
    var step := ProjectionStep(anchor.day, period);
    forall i | 0 <= i < n
      ensures NotAfter(Iterate(anchor, step, i), target)
    {
      assert Iterate(anchor, step, i) == NthOccurrence(anchor, period, i);
    }
    assert Iterate(anchor, step, n) == NthOccurrence(anchor, period, n);
    CollectLengthUnique(anchor, step, target, n);
  }

  lemma JanuaryEndStep()
    ensures NextOccurrence(Date(2024, 1, 31), 31, Monthly) == Date(2024, 3, 31)
  {
    assert AddMonthJs(Date(2024, 1, 31)) == Date(2024, 3, 2);
  }

  lemma MarchEndStep()
    ensures NextOccurrence(Date(2024, 3, 31), 31, Monthly) == Date(2024, 5, 31)
  {
    assert AddMonthJs(Date(2024, 3, 31)) == Date(2024, 5, 1);
  }

  // ---------------------------------------------------------------------------
  // Next-payment search (components/ListItem.tsx)

  /** One step of the next-payment search: a bare `setMonth(+1)` or `setFullYear(+1)`. */
  function PlainStep(period: RecurringPeriod): (step: Date --> Date)
    ensures Advances(step)
  {
    (d: Date) requires Valid(d) => if period == Monthly then AddMonthJs(d) else AddYearJs(d)
  }

  /** The anchor advanced by `k` plain steps. */
  function PlainNth(anchor: Date, period: RecurringPeriod, k: nat): (r: Date)
    requires Valid(anchor)
    ensures Valid(r)
  {
    Iterate(anchor, PlainStep(period), k)
  }

  /** Each plain step is a bare `setMonth(+1)` or `setFullYear(+1)` of the previous date. */
  lemma PlainNthStep(anchor: Date, period: RecurringPeriod, k: nat)
    requires Valid(anchor) && k > 0
    ensures var prev := PlainNth(anchor, period, k - 1);
      PlainNth(anchor, period, k) == if period == Monthly then AddMonthJs(prev) else AddYearJs(prev)
  {
  }

  /**
   * The first of the anchor, the anchor plus one step, plus two steps, ...
   * that is strictly later than `reference`, with the number of steps taken.
   */
  method NextDueDate(anchor: Date, period: RecurringPeriod, reference: Date) returns (next: Date, ghost steps: nat)
    requires Valid(anchor) && Valid(reference)
    ensures Valid(next) && Before(reference, next)
    ensures next == PlainNth(anchor, period, steps)
    ensures forall j :: 0 <= j < steps ==> NotAfter(PlainNth(anchor, period, j), reference)
    ensures Before(reference, anchor) ==> next == anchor
  {
    next, steps := FindAfter(anchor, PlainStep(period), reference);
  }

  /** The plain monthly step drifts: from 31 January 2023 it reaches 3 March, then 3 April. */
  lemma PlainMonthlyDrifts()
    ensures PlainNth(Date(2023, 1, 31), Monthly, 1) == Date(2023, 3, 3)
    ensures PlainNth(Date(2023, 1, 31), Monthly, 2) == Date(2023, 4, 3)
  {
    assert PlainNth(Date(2023, 1, 31), Monthly, 0) == Date(2023, 1, 31);
    JanuaryEndOverflows();
    PlainNthStep(Date(2023, 1, 31), Monthly, 1);
    MarchThirdStep();
    PlainNthStep(Date(2023, 1, 31), Monthly, 2);
  }

  /** 31 January 2023 plus a month is 31 February, which JavaScript rolls over to 3 March. */
  lemma JanuaryEndOverflows()
    ensures AddMonthJs(Date(2023, 1, 31)) == Date(2023, 3, 3)
  {
  }

  /** 3 March 2023 plus a month is 3 April. */
  lemma MarchThirdStep()
    ensures AddMonthJs(Date(2023, 3, 3)) == Date(2023, 4, 3)
  {
  }
}
