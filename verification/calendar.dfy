/**
 * Calendar dates as (year, month, day) triples in the proleptic Gregorian
 * calendar, with the normalisation JavaScript's `Date` applies when a setter
 * produces a day past the end of a month, and the ISO `YYYY-MM-DD` text form.
 */
module Calendar {
  import opened Wrappers
  import opened Text

  /** A calendar day; `month` is 1-based, unlike JavaScript's `getMonth()`. */
  datatype Date = Date(year: int, month: int, day: int)

  predicate IsLeapYear(y: int)
  {
    y % 4 == 0 && (y % 100 != 0 || y % 400 == 0)
  }

  function DaysInMonth(y: int, m: int): (n: int)
    requires 1 <= m <= 12
    ensures 28 <= n <= 31
    ensures m == 2 ==> n <= 29 && (n == 29 <==> IsLeapYear(y))
  {
    if m == 2 then (if IsLeapYear(y) then 29 else 28)
    else if m == 4 || m == 6 || m == 9 || m == 11 then 30
    else 31
  }

  /**
   * The month length the application reads as `new Date(y, m, 0).getDate()`:
   * the multi-argument constructor takes a year 0 to 99 as 1900 to 1999, so
   * it differs from the calendar only in February of year 0.
   */
  function ConstructorMonthLength(y: int, m: int): (n: int)
    requires 1 <= m <= 12
    ensures n == DaysInMonth(y, m) <==> !(y == 0 && m == 2)
    ensures y == 0 && m == 2 ==> n == 28
  {
    assert 1 <= y <= 99 ==> IsLeapYear(y + 1900) == IsLeapYear(y) by {
      if 1 <= y <= 99 { CenturyShiftKeepsLeap(y); }
    }
    DaysInMonth(if 0 <= y <= 99 then y + 1900 else y, m)
  }

  /** Of the years 0 to 99, only year 0 changes leap status when moved to 1900 to 1999. */
  lemma CenturyShiftKeepsLeap(y: int)
    requires 1 <= y <= 99
    ensures IsLeapYear(y + 1900) == IsLeapYear(y)
  {
    assert (y + 1900) % 4 == y % 4;
    assert (y + 1900) % 100 != 0 && y % 100 != 0;
  }

  predicate Valid(d: Date)
  {
    1 <= d.month <= 12 && 1 <= d.day <= DaysInMonth(d.year, d.month)
  }

  /** A day that exists on the calendar. */
  type CalendarDate = d: Date | Valid(d) witness Date(1970, 1, 1)

  /** `a` is strictly earlier than `b` (JavaScript's `a < b` on two dates at the same time of day). */
  predicate Before(a: Date, b: Date)
  {
    a.year < b.year
    || (a.year == b.year && (a.month < b.month || (a.month == b.month && a.day < b.day)))
  }

  /** `a <= b` on dates. */
  predicate NotAfter(a: Date, b: Date)
  {
    !Before(b, a)
  }

  lemma BeforeTransitive(a: Date, b: Date, c: Date)
    requires Before(a, b) && Before(b, c)
    ensures Before(a, c)
  {
  }

  /** Months counted from January of year 0; consecutive months differ by one. */
  function MonthIndex(d: Date): int
  {
    d.year * 12 + d.month - 1
  }

  function YearOf(mi: int): int { mi / 12 }

  function MonthOf(mi: int): (m: int)
    ensures 1 <= m <= 12
  {
    mi % 12 + 1
  }

  /** The length of the month with index `mi`. */
  function MonthLength(mi: int): (n: int)
    ensures 28 <= n <= 31
  {
    DaysInMonth(YearOf(mi), MonthOf(mi))
  }

  lemma MonthIndexOf(y: int, m: int)
    requires 1 <= m <= 12
    ensures YearOf(y * 12 + m - 1) == y && MonthOf(y * 12 + m - 1) == m
  {
  }

  /** A later month index means a later date, and a date no later than another has no later month. */
  lemma MonthIndexOrder(a: Date, b: Date)
    requires Valid(a) && Valid(b)
    ensures MonthIndex(a) < MonthIndex(b) ==> Before(a, b)
    ensures NotAfter(a, b) ==> MonthIndex(a) <= MonthIndex(b)
  {
  }

  /** A date no later than another lies in the same or an earlier month. */
  lemma NotAfterMonthIndex(a: Date, b: Date)
    requires Valid(a) && Valid(b) && NotAfter(a, b)
    ensures MonthIndex(a) <= MonthIndex(b)
  {
  }

  /** Every month shorter than 31 days is followed by a 31-day month. */
  lemma ShortMonthIsFollowedByLongMonth(mi: int)
    requires MonthLength(mi) < 31
    ensures MonthLength(mi + 1) == 31
  {
    assert MonthOf(mi) < 12;
    assert YearOf(mi + 1) == YearOf(mi) && MonthOf(mi + 1) == MonthOf(mi) + 1;
  }

  /**
   * JavaScript's MakeDay for a day of the month between 1 and 31: day `day` of
   * the month with index `mi`; past the end of a short month the surplus days
   * roll into the following month.
   */
  function Overflow(mi: int, day: int): (r: Date)
    requires 1 <= day <= 31
    ensures Valid(r)
    ensures day <= MonthLength(mi) ==> MonthIndex(r) == mi && r.day == day
    ensures day > MonthLength(mi) ==> MonthIndex(r) == mi + 1 && r.day == day - MonthLength(mi)
  {
    var n := MonthLength(mi);
    if day <= n then Date(YearOf(mi), MonthOf(mi), day)
    else Date(YearOf(mi + 1), MonthOf(mi + 1), day - n)
  }

  /**
   * `d.setMonth(d.getMonth() + 1)`: the same day of the next month, or, when
   * the next month is too short, the surplus days into the month after it.
   */
  function AddMonthJs(d: Date): (r: Date)
    requires Valid(d)
    ensures Valid(r) && Before(d, r)
    ensures d.day <= MonthLength(MonthIndex(d) + 1) ==> MonthIndex(r) == MonthIndex(d) + 1 && r.day == d.day
    ensures d.day > MonthLength(MonthIndex(d) + 1) ==>
              MonthIndex(r) == MonthIndex(d) + 2 && r.day == d.day - MonthLength(MonthIndex(d) + 1)
  {
    var r := Overflow(MonthIndex(d) + 1, d.day);
    MonthIndexOrder(d, r);
    r
  }

  /**
   * `d.setFullYear(d.getFullYear() + 1)`: the same month and day a year later;
   * 29 February becomes 1 March when the next year is not a leap year.
   */
  function AddYearJs(d: Date): (r: Date)
    requires Valid(d)
    ensures Valid(r) && Before(d, r)
    ensures !(d.month == 2 && d.day == 29 && !IsLeapYear(d.year + 1)) ==> r == Date(d.year + 1, d.month, d.day)
    ensures d.month == 2 && d.day == 29 && !IsLeapYear(d.year + 1) ==> r == Date(d.year + 1, 3, 1)
  {
    MonthIndexOf(d.year + 1, d.month);
    assert MonthIndex(d) + 12 == (d.year + 1) * 12 + d.month - 1;
    MonthIndexOf(d.year + 1, 3);
    Overflow(MonthIndex(d) + 12, d.day)
  }

  // ---------------------------------------------------------------------------
  // ISO text form

  /** The four-digit (or signed six-digit) year of `Date.prototype.toISOString`. */
  function IsoYear(y: int): string
  {
    if 0 <= y <= 9999 then ZeroPad(y, 4)
    else if y < 0 then "-" + ZeroPad(-y, 6)
    else "+" + ZeroPad(y, 6)
  }

  /** The date part `YYYY-MM-DD` of `toISOString()`, which the application uses as a date stamp. */
  function IsoDate(d: Date): (r: string)
    requires Valid(d)
    ensures |r| >= 10 && r[|r| - 6] == '-' && r[|r| - 3] == '-'
    ensures |r| == 10 <==> 0 <= d.year <= 9999
  {
    PadTwo(d.month);
    PadTwo(d.day);
    IsoYearLength(d.year);
    DashedShape(IsoYear(d.year), ZeroPad(d.month, 2), ZeroPad(d.day, 2));
    IsoYear(d.year) + "-" + ZeroPad(d.month, 2) + "-" + ZeroPad(d.day, 2)
  }

  /** The year field has four characters exactly for the years 0 to 9999, and never fewer. */
  lemma IsoYearLength(y: int)
    ensures |IsoYear(y)| >= 4 && (|IsoYear(y)| == 4 <==> 0 <= y <= 9999)
  {
    if 0 <= y <= 9999 { PadFour(y); }
  }

  /** Joining a year field with two two-character fields puts the dashes third and sixth from the end. */
  lemma DashedShape(y: string, m: string, dd: string)
    requires |m| == 2 && |dd| == 2
    ensures var r := y + "-" + m + "-" + dd;
            |r| == |y| + 6 && r[|r| - 6] == '-' && r[|r| - 3] == '-'
  {
  }

  /** `YYYYMMDD`: the ISO date with its dashes removed. */
  function CompactIsoDate(d: Date): (r: string)
    requires Valid(d)
    ensures |r| == |IsoDate(d)| - 2
    ensures IsoDate(d) == r[..|r| - 4] + "-" + r[|r| - 4..|r| - 2] + "-" + r[|r| - 2..]
  {
    PadTwo(d.month);
    PadTwo(d.day);
    var y, m, dd := IsoYear(d.year), ZeroPad(d.month, 2), ZeroPad(d.day, 2);
    var r := y + m + dd;
    assert r[..|r| - 4] == y && r[|r| - 4..|r| - 2] == m && r[|r| - 2..] == dd;
    r
  }

  /**
   * Reads the calendar day of an ISO date string `YYYY-MM-DD`, optionally
   * followed by a time part starting with `T` whose content is not examined
   * (an offset in it is ignored); anything else, or a day that does not
   * exist, is an invalid date.
   */
  function ParseIsoDate(s: string): (r: Option<Date>)
    ensures r.Some? ==> Valid(r.value) && 0 <= r.value.year <= 9999
  {
    if |s| >= 10 && AllDigits(s[..4]) && s[4] == '-' && AllDigits(s[5..7]) && s[7] == '-'
       && AllDigits(s[8..10]) && (|s| == 10 || s[10] == 'T')
    then
      var d := Date(DigitsValue(s[..4]), DigitsValue(s[5..7]), DigitsValue(s[8..10]));
      DigitsValueBound(s[..4]);
      if Valid(d) then Some(d) else None
    else None
  }

  lemma Pow10Values()
    ensures Pow10(2) == 100 && Pow10(4) == 10000
  {
  }

  lemma PadTwo(n: nat)
    requires n < 100
    ensures |ZeroPad(n, 2)| == 2 && DigitsValue(ZeroPad(n, 2)) == n
  {
    Pow10Values();
    ZeroPadLength(n, 2);
    ZeroPadValue(n, 2);
  }

  lemma PadFour(n: nat)
    requires n < 10000
    ensures |ZeroPad(n, 4)| == 4 && DigitsValue(ZeroPad(n, 4)) == n
  {
    Pow10Values();
    ZeroPadLength(n, 4);
    ZeroPadValue(n, 4);
  }

  /** Formatting a date of a four-digit year and reading it back gives the date, with or without a time part. */
  lemma IsoDateRoundTrip(d: Date, time: string)
    requires Valid(d) && 0 <= d.year <= 9999
    requires time == [] || time[0] == 'T'
    ensures ParseIsoDate(IsoDate(d) + time) == Some(d)
  {
    PadFour(d.year);
    PadTwo(d.month);
    PadTwo(d.day);
    var y, m, dd := ZeroPad(d.year, 4), ZeroPad(d.month, 2), ZeroPad(d.day, 2);
    assert IsoDate(d) + time == y + "-" + m + "-" + dd + time;
    IsoFields(y, m, dd, time);
  }

  /** The fields of a `YYYY-MM-DD` text followed by a suffix sit at their fixed offsets. */
  lemma IsoFields(y: string, m: string, dd: string, time: string)
    requires |y| == 4 && |m| == 2 && |dd| == 2
    ensures var s := y + "-" + m + "-" + dd + time;
            |s| == 10 + |time| && s[..4] == y && s[4] == '-' && s[5..7] == m && s[7] == '-'
            && s[8..10] == dd && s[10..] == time
  {
    var s := y + "-" + m + "-" + dd + time;
    assert s[..4] == y && s[5..7] == m && s[8..10] == dd && s[10..] == time;
  }

  /** A digit string re-rendered from its value at its own width is the same string. */
  lemma ZeroPadOfDigits(t: string)
    requires 1 <= |t| && AllDigits(t)
    ensures ZeroPad(DigitsValue(t), |t|) == t
  {
    DigitsValueBound(t);
    ZeroPadLength(DigitsValue(t), |t|);
    ZeroPadValue(DigitsValue(t), |t|);
    DigitsValueInjective(ZeroPad(DigitsValue(t), |t|), t);
  }

  /** Every string the parser accepts as exactly `YYYY-MM-DD` is the ISO form of the date it reads. */
  lemma ParseIsoDateCanonical(s: string)
    requires |s| == 10 && ParseIsoDate(s).Some?
    ensures IsoDate(ParseIsoDate(s).value) == s
  {
    var d := ParseIsoDate(s).value;
    var ys, ms, ds := s[..4], s[5..7], s[8..10];
    assert s == ys + "-" + ms + "-" + ds by {
      assert s[4] == '-' && s[7] == '-';
      assert s[..5] == ys + "-";
      assert s[..7] == s[..5] + ms;
      assert s[..8] == s[..7] + "-";
      assert s == s[..8] + ds;
    }
    assert d == Date(DigitsValue(ys), DigitsValue(ms), DigitsValue(ds));
    assert IsoYear(d.year) == ys by { ZeroPadOfDigits(ys); }
    assert ZeroPad(d.month, 2) == ms by { ZeroPadOfDigits(ms); }
    assert ZeroPad(d.day, 2) == ds by { ZeroPadOfDigits(ds); }
  }

  /** Equal-width zero-padded numbers compare as strings the way the numbers compare. */
  lemma PaddedCompare(x: nat, y: nat, w: nat)
    requires 1 <= w && x < Pow10(w) && y < Pow10(w)
    ensures |ZeroPad(x, w)| == w
    ensures LexLess(ZeroPad(x, w), ZeroPad(y, w)) <==> x < y
    ensures ZeroPad(x, w) == ZeroPad(y, w) <==> x == y
  {
    ZeroPadLength(x, w);
    ZeroPadLength(y, w);
    ZeroPadValue(x, w);
    ZeroPadValue(y, w);
    LexLessDigits(ZeroPad(x, w), ZeroPad(y, w));
  }

  /** Two `-`-joined strings with equally long fields compare on the first differing field. */
  lemma JoinedCompare(y1: string, m1: string, d1: string, y2: string, m2: string, d2: string)
    requires |y1| == |y2| && |m1| == |m2|
    ensures LexLess(y1 + "-" + m1 + "-" + d1, y2 + "-" + m2 + "-" + d2) <==>
              LexLess(y1, y2) || (y1 == y2 && (LexLess(m1, m2) || (m1 == m2 && LexLess(d1, d2))))
  {
    var r1, r2 := "-" + m1 + "-" + d1, "-" + m2 + "-" + d2;
    assert y1 + "-" + m1 + "-" + d1 == y1 + r1;
    assert y2 + "-" + m2 + "-" + d2 == y2 + r2;
    LexLessConcat(y1, r1, y2, r2);
    assert r1 == "-" + (m1 + ("-" + d1)) && r2 == "-" + (m2 + ("-" + d2));
    LexLessConcat("-", m1 + ("-" + d1), "-", m2 + ("-" + d2));
    LexLessConcat(m1, "-" + d1, m2, "-" + d2);
    LexLessConcat("-", d1, "-", d2);
  }

  /** The ISO form of a date of a four-digit year determines the date. */
  lemma IsoDateInjective(a: Date, b: Date)
    requires Valid(a) && Valid(b) && 0 <= a.year <= 9999 && 0 <= b.year <= 9999
    requires IsoDate(a) == IsoDate(b)
    ensures a == b
  {
    IsoDateRoundTrip(a, []);
    IsoDateRoundTrip(b, []);
    assert IsoDate(a) + [] == IsoDate(a) && IsoDate(b) + [] == IsoDate(b);
  }

  /**
   * For dates of four-digit years, comparing ISO date strings as JavaScript
   * compares strings agrees with comparing the dates.
   */
  lemma IsoDateLess(a: Date, b: Date)
    requires Valid(a) && Valid(b) && 0 <= a.year <= 9999 && 0 <= b.year <= 9999
    ensures LexLess(IsoDate(a), IsoDate(b)) <==> Before(a, b)
  {
    var ya, ma, da := ZeroPad(a.year, 4), ZeroPad(a.month, 2), ZeroPad(a.day, 2);
    var yb, mb, db := ZeroPad(b.year, 4), ZeroPad(b.month, 2), ZeroPad(b.day, 2);
    var fieldwise := LexLess(ya, yb) || (ya == yb && (LexLess(ma, mb) || (ma == mb && LexLess(da, db))));
    IsoDateFieldwise(a, b);
    assert fieldwise <==> Before(a, b) by {
      Pow10Values();
      PaddedCompare(a.year, b.year, 4);
      PaddedCompare(a.month, b.month, 2);
      PaddedCompare(a.day, b.day, 2);
    }
  }

  /** ISO texts of four-digit years compare on their first differing field. */
  lemma IsoDateFieldwise(a: Date, b: Date)
    requires Valid(a) && Valid(b) && 0 <= a.year <= 9999 && 0 <= b.year <= 9999
    ensures var ya, ma, da := ZeroPad(a.year, 4), ZeroPad(a.month, 2), ZeroPad(a.day, 2);
            var yb, mb, db := ZeroPad(b.year, 4), ZeroPad(b.month, 2), ZeroPad(b.day, 2);
            LexLess(IsoDate(a), IsoDate(b)) <==>
              LexLess(ya, yb) || (ya == yb && (LexLess(ma, mb) || (ma == mb && LexLess(da, db))))
  {
    PadFour(a.year);
    PadFour(b.year);
    PadTwo(a.month);
    PadTwo(b.month);
    var ya, ma, da := ZeroPad(a.year, 4), ZeroPad(a.month, 2), ZeroPad(a.day, 2);
    var yb, mb, db := ZeroPad(b.year, 4), ZeroPad(b.month, 2), ZeroPad(b.day, 2);
    assert IsoDate(a) == ya + "-" + ma + "-" + da && IsoDate(b) == yb + "-" + mb + "-" + db;
    JoinedCompare(ya, ma, da, yb, mb, db);
  }

  /** For dates of four-digit years, `<=` on ISO date strings is `<=` on the dates. */
  lemma IsoDateOrder(a: Date, b: Date)
    requires Valid(a) && Valid(b) && 0 <= a.year <= 9999 && 0 <= b.year <= 9999
    ensures LexLessEq(IsoDate(a), IsoDate(b)) <==> NotAfter(a, b)
  {
    IsoDateLess(a, b);
    if IsoDate(a) == IsoDate(b) {
      IsoDateInjective(a, b);
    }
  }

  /** The compact form of a date of a four-digit year has eight digits: year, month and day fields. */
  lemma CompactIsoDateFields(d: Date)
    requires Valid(d) && 0 <= d.year <= 9999
    ensures var c := CompactIsoDate(d);
            |c| == 8 && AllDigits(c)
            && DigitsValue(c[..4]) == d.year && DigitsValue(c[4..6]) == d.month && DigitsValue(c[6..]) == d.day
  {
    PadFour(d.year);
    PadTwo(d.month);
    PadTwo(d.day);
    var c := CompactIsoDate(d);
    assert c[..4] == ZeroPad(d.year, 4);
    assert c[4..6] == ZeroPad(d.month, 2);
    assert c[6..] == ZeroPad(d.day, 2);
  }

  /** The compact form of a date of a four-digit year determines the date. */
  lemma CompactIsoDateInjective(a: Date, b: Date)
    requires Valid(a) && Valid(b) && 0 <= a.year <= 9999 && 0 <= b.year <= 9999
    requires CompactIsoDate(a) == CompactIsoDate(b)
    ensures a == b
  {
    CompactIsoDateFields(a);
    CompactIsoDateFields(b);
  }
}
