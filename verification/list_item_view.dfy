/**
 * What a row of components/ListItem.tsx shows besides the name and amount:
 * the next payment date of a subscription or revenue, in a short or a long
 * form, the period in words and the currency symbol. The date search is the
 * plain `setMonth`/`setFullYear` progression of the Recurrence module; the
 * locale rendering of the chosen form is not modelled, only which form is
 * chosen and which date it shows.
 */
module ListItemView {
  import opened Wrappers
  import opened Calendar
  import opened Items
  import opened Stepping
  import opened Recurrence

  /**
   * The due-date line: the day and short month name ("21 Aug") when the
   * date falls in the reference year, day, month and year ("14.08.2026")
   * otherwise; "Invalid Date" for a date text that does not parse; nothing.
   */
  datatype DueLabel =
    | DayMonth(day: int, month: int)
    | DayMonthYear(day: int, month: int, year: int)
    | InvalidDate
    | Blank

  /** The form a found date is shown in, relative to the reference year. */
  function LabelFor(next: Date, reference: Date): (l: DueLabel)
    ensures l.DayMonth? <==> next.year == reference.year
    ensures l.DayMonth? || l.DayMonthYear?
    ensures l.DayMonthYear? ==> l == DayMonthYear(next.day, next.month, next.year)
    ensures l.DayMonth? ==> l == DayMonth(next.day, next.month)
  {
    if next.year == reference.year then DayMonth(next.day, next.month)
    else DayMonthYear(next.day, next.month, next.year)
  }

  /** The date a label shows, completed with the reference year for the short form. */
  function LabelDate(l: DueLabel, reference: Date): Option<Date>
  {
    match l
    case DayMonth(day, month) => Some(Date(reference.year, month, day))
    case DayMonthYear(day, month, year) => Some(Date(year, month, day))
    case _ => None
  }

  /** A label read with its reference year names the date it was made from. */
  lemma LabelNamesItsDate(next: Date, reference: Date)
    ensures LabelDate(LabelFor(next, reference), reference) == Some(next)
  {
  }

  /**
   * `next` is the first date of the plain progression from `anchor` that is
   * strictly later than `reference`.
   */
  ghost predicate FirstAfter(anchor: Date, period: RecurringPeriod, reference: Date, next: Date)
    requires Valid(anchor)
  {
    exists k: nat ::
      && next == PlainNth(anchor, period, k)
      && Before(reference, next)
      && forall j :: 0 <= j < k ==> NotAfter(PlainNth(anchor, period, j), reference)
  }

  /** At most one date is the first one after the reference. */
  lemma FirstAfterUnique(anchor: Date, period: RecurringPeriod, reference: Date, a: Date, b: Date)
    requires Valid(anchor)
    requires FirstAfter(anchor, period, reference, a) && FirstAfter(anchor, period, reference, b)
    ensures a == b
  {
  }

  /** The search from an anchor, with its result named by `FirstAfter`. */
  method SearchFrom(anchor: CalendarDate, period: RecurringPeriod, reference: CalendarDate) returns (next: Date)
    ensures Valid(next) && Before(reference, next)
    ensures FirstAfter(anchor, period, reference, next)
    ensures Before(reference, anchor) ==> next == anchor
  {
    ghost var steps;
    next, steps := NextDueDate(anchor, period, reference);
  }

  /**
   * `getNextPaymentDate`: the first date of the progression from the
   * subscription's date that is later than the reference, shown relative to
   * the reference year; a date text that does not parse leaves the date
   * invalid, the search loop never runs and the label is "Invalid Date".
   */
  method NextPaymentLabel(sub: SubscriptionItem, reference: CalendarDate) returns (shown: DueLabel, next: Option<Date>)
    ensures next.Some? <==> ParseIsoDate(sub.repetitionDate).Some?
    ensures next.None? ==> shown == InvalidDate
    ensures next.Some? ==>
      && FirstAfter(ParseIsoDate(sub.repetitionDate).value, sub.period, reference, next.value)
      && shown == LabelFor(next.value, reference)
      && (shown.DayMonth? <==> next.value.year == reference.year)
  {
    match ParseIsoDate(sub.repetitionDate)
    case None =>
      shown, next := InvalidDate, None;
    case Some(anchor) =>
      var d := SearchFrom(anchor, sub.period, reference);
      shown, next := LabelFor(d, reference), Some(d);
  }

  /**
   * `getNextRevenueDate`: nothing for a missing or empty date; a one-time
   * revenue shows its own date while it is still ahead and nothing after; a
   * recurring one is searched like a subscription.
   */
  method NextRevenueLabel(rev: RevenueItem, reference: CalendarDate) returns (shown: DueLabel, next: Option<Date>)
    ensures !IsSet(rev.repetitionDate) ==> shown == Blank && next == None
    ensures next.Some? ==> IsSet(rev.repetitionDate) && ParseIsoDate(rev.repetitionDate.value).Some?
    ensures next.Some? ==> shown == LabelFor(next.value, reference) && Before(reference, next.value)
    ensures IsSet(rev.repetitionDate) && rev.period.Once? ==>
      var parsed := ParseIsoDate(rev.repetitionDate.value);
      && (next.Some? <==> parsed.Some? && Before(reference, parsed.value))
      && (next.Some? ==> next.value == parsed.value)
      && (next.None? ==> shown == Blank)
    ensures IsSet(rev.repetitionDate) && !rev.period.Once? ==>
      var parsed := ParseIsoDate(rev.repetitionDate.value);
      && (next.Some? <==> parsed.Some?)
      && (next.None? ==> shown == InvalidDate)
      && (next.Some? ==> FirstAfter(parsed.value, rev.period, reference, next.value))
  {
    if !IsSet(rev.repetitionDate) {
      return Blank, None;
    }
    var parsed := ParseIsoDate(rev.repetitionDate.value);
    match rev.period
    case Once =>
      if parsed.Some? && Before(reference, parsed.value) {
        shown, next := LabelFor(parsed.value, reference), parsed;
      } else {
        shown, next := Blank, None;
      }
    case Monthly =>
      shown, next := RecurringLabel(parsed, Monthly, reference);
    case Yearly =>
      shown, next := RecurringLabel(parsed, Yearly, reference);
  }

  /** The search and label for a recurring date that may not have parsed. */
  method RecurringLabel(parsed: Option<Date>, period: RecurringPeriod, reference: CalendarDate) returns (shown: DueLabel, next: Option<Date>)
    requires parsed.Some? ==> Valid(parsed.value)
    ensures next.Some? <==> parsed.Some?
    ensures next.None? ==> shown == InvalidDate
    ensures next.Some? ==> FirstAfter(parsed.value, period, reference, next.value)
                           && Before(reference, next.value) && shown == LabelFor(next.value, reference)
  {
    match parsed
    case None =>
      shown, next := InvalidDate, None;
    case Some(anchor) =>
      var d := SearchFrom(anchor, period, reference);
      shown, next := LabelFor(d, reference), Some(d);
  }

  /**
   * A recurring item whose date is still ahead shows that date, and the
   * subscription and revenue searches agree on the same date and period.
   */
  lemma AnchorAheadIsShown(anchor: CalendarDate, period: RecurringPeriod, reference: CalendarDate, next: Date)
    requires Before(reference, anchor)
    requires FirstAfter(anchor, period, reference, next)
    ensures next == anchor
  {
    assert PlainNth(anchor, period, 0) == anchor;
    assert FirstAfter(anchor, period, reference, anchor);
    FirstAfterUnique(anchor, period, reference, next, anchor);
  }

  // ---------------------------------------------------------------------------
  // Period text and currency symbol

  /** `getPeriodText` on the stored period text. */
  function PeriodText(period: string): (r: string)
    ensures r != "" <==> exists p: Period :: period == p.Name()
    ensures period == "monthly" ==> r == "per month"
    ensures period == "yearly" ==> r == "per year"
    ensures period == "once" ==> r == "once"
  {
    assert Monthly.Name() == "monthly" && Yearly.Name() == "yearly" && Once.Name() == "once";
    match period
    case "monthly" => "per month"
    case "yearly" => "per year"
    case "once" => "once"
    case _ => ""
  }

  /** Different periods read differently. */
  lemma PeriodTextDistinguishes(p: Period, q: Period)
    requires PeriodText(p.Name()) == PeriodText(q.Name())
    ensures p == q
  {
  }

  /** `getCurrencySymbol`: euro and hryvnia signs, and the dollar sign for every other code. */
  function CurrencySymbol(currency: string): (r: string)
    ensures r == "€" <==> currency == "EUR"
    ensures r == "₴" <==> currency == "UAH"
    ensures r == "$" <==> currency != "EUR" && currency != "UAH"
  {
    if currency == "EUR" then "€"
    else if currency == "UAH" then "₴"
    else "$"
  }
}
