/**
 * The two loop shapes the application runs over dates, stated once for any
 * step that moves a date into a later month: collecting every date of the
 * progression up to a target (the projection loop), and finding the first
 * date of the progression after a reference (the next-payment search).
 */
module Stepping {
  import opened Calendar

  /** `step` maps every valid date to a valid date of a later month. */
  ghost predicate Advances(step: Date --> Date)
  {
    forall d {:trigger step.requires(d)} :: Valid(d) ==> step.requires(d) && Valid(step(d)) && MonthIndex(d) < MonthIndex(step(d))
  }

  /** `start` advanced by `k` steps. */
  function Iterate(start: Date, step: Date --> Date, k: nat): (r: Date)
    requires Valid(start) && Advances(step)
    ensures Valid(r)
  {
    if k == 0 then start else step(Iterate(start, step, k - 1))
  }

  /** Each step lands on a later date, so the progression strictly increases. */
  lemma {:induction false} IterateIncreases(start: Date, step: Date --> Date, i: nat, j: nat)
    requires Valid(start) && Advances(step) && i < j
    ensures Before(Iterate(start, step, i), Iterate(start, step, j))
    decreases j
  {
    var prev := Iterate(start, step, j - 1);
    MonthIndexOrder(prev, step(prev));
    if i < j - 1 {
      IterateIncreases(start, step, i, j - 1);
      BeforeTransitive(Iterate(start, step, i), prev, Iterate(start, step, j));
    }
  }

  /** How many dates of the progression, from its `k`-th on, are not later than `target`. */
  function CountFrom(start: Date, step: Date --> Date, target: Date, k: nat): (n: nat)
    requires Valid(start) && Valid(target) && Advances(step)
    ensures forall j :: k <= j < k + n ==> NotAfter(Iterate(start, step, j), target)
    ensures Before(target, Iterate(start, step, k + n))
    decreases MonthIndex(target) - MonthIndex(Iterate(start, step, k))
  {
    var cur := Iterate(start, step, k);
    if Before(target, cur) then 0
    else
      NotAfterMonthIndex(cur, target);
      var rest := CountFrom(start, step, target, k + 1);
      CountStep(start, step, target, k, rest);
      1 + rest
  }

  /** A date not after the target in front of a run of such dates lengthens the run by one. */
  lemma CountStep(start: Date, step: Date --> Date, target: Date, k: nat, rest: nat)
    requires Valid(start) && Advances(step)
    requires NotAfter(Iterate(start, step, k), target)
    requires forall j :: k + 1 <= j < k + 1 + rest ==> NotAfter(Iterate(start, step, j), target)
    ensures forall j :: k <= j < k + 1 + rest ==> NotAfter(Iterate(start, step, j), target)
  {
  }

  /**
   * The progression from `start` while it is not later than `target`: empty
   * when `start` is already later, strictly increasing, and stopping just
   * before the first date past the target.
   */
  function Collect(start: Date, step: Date --> Date, target: Date): (r: seq<CalendarDate>)
    requires Valid(start) && Valid(target) && Advances(step)
    ensures |r| == 0 <==> Before(target, start)
    ensures |r| > 0 ==> r[0] == start
    ensures forall i {:trigger r[i]} :: 0 <= i < |r| ==> r[i] == Iterate(start, step, i) && NotAfter(r[i], target)
    ensures Before(target, Iterate(start, step, |r|))
    ensures forall i, j :: 0 <= i < j < |r| ==> Before(r[i], r[j])
  {
    var n := CountFrom(start, step, target, 0);
    var r := seq(n, i requires 0 <= i < n => Iterate(start, step, i));
    forall i, j | 0 <= i < j < |r| ensures Before(r[i], r[j]) {
      IterateIncreases(start, step, i, j);
    }
    r
  }

  /** The count of dates in a collected progression is the only one meeting its contract. */
  lemma CollectLengthUnique(start: Date, step: Date --> Date, target: Date, n: nat)
    requires Valid(start) && Valid(target) && Advances(step)
    requires forall i :: 0 <= i < n ==> NotAfter(Iterate(start, step, i), target)
    requires Before(target, Iterate(start, step, n))
    ensures |Collect(start, step, target)| == n
  {
  }

  /**
   * The first date of the progression from `start` that is strictly later
   * than `reference`, and the number of steps taken to reach it.
   */
  method FindAfter(start: Date, step: Date --> Date, reference: Date) returns (next: Date, ghost steps: nat)
    requires Valid(start) && Valid(reference) && Advances(step)
    ensures Valid(next) && Before(reference, next)
    ensures next == Iterate(start, step, steps)
    ensures forall j :: 0 <= j < steps ==> NotAfter(Iterate(start, step, j), reference)
    ensures Before(reference, start) ==> next == start
  {
    next := start;
    steps := 0;
    while NotAfter(next, reference)
      invariant Valid(next) && next == Iterate(start, step, steps)
      invariant forall j :: 0 <= j < steps ==> NotAfter(Iterate(start, step, j), reference)
      decreases MonthIndex(reference) - MonthIndex(next)
    {
      NotAfterMonthIndex(next, reference);
      SearchStep(start, step, reference, steps);
      next := step(next);
      steps := steps + 1;
    }
  }

  /** One more step of the search keeps every date it passed over not after the reference. */
  lemma SearchStep(start: Date, step: Date --> Date, reference: Date, k: nat)
    requires Valid(start) && Advances(step)
    requires forall j :: 0 <= j < k ==> NotAfter(Iterate(start, step, j), reference)
    requires NotAfter(Iterate(start, step, k), reference)
    ensures Iterate(start, step, k + 1) == step(Iterate(start, step, k))
    ensures forall j :: 0 <= j < k + 1 ==> NotAfter(Iterate(start, step, j), reference)
  {
  }

  /** The number of steps the search takes is the only one meeting its contract. */
  lemma FindStepsUnique(start: Date, step: Date --> Date, reference: Date, k1: nat, k2: nat)
    requires Valid(start) && Advances(step)
    requires Before(reference, Iterate(start, step, k1))
    requires forall j :: 0 <= j < k1 ==> NotAfter(Iterate(start, step, j), reference)
    requires Before(reference, Iterate(start, step, k2))
    requires forall j :: 0 <= j < k2 ==> NotAfter(Iterate(start, step, j), reference)
    ensures k1 == k2
  {
  }
}
