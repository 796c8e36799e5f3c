/**
 * The cost aggregation engine of usecases/service/subscription.go: a
 * subscription is clamped to the query period, billed for every calendar
 * month of the clamped range (both ends included), and the costs of the rows
 * are summed.
 */
module CostEngine {
  import opened Wrappers
  import opened Domain

  /** maxTime: the later of the two dates (the second one when they are equal). */
  function MaxTime(a: Date, b: Date): (r: Date)
    ensures r == a || r == b
    ensures !Before(r, a) && !Before(r, b)
  {
    if After(a, b) then a else b
  }

  /** minTime: the earlier of the two dates (the second one when they are equal). */
  function MinTime(a: Date, b: Date): (r: Date)
    ensures r == a || r == b
    ensures !After(r, a) && !After(r, b)
  {
    if Before(a, b) then a else b
  }

  /** countMonths: calendar months from `start` to `end`, both included. */
  function CountMonths(start: Date, end: Date): (n: int)
    ensures n == MonthIndex(end) - MonthIndex(start) + 1
  {
    (end.year - start.year) * 12 + (end.month - start.month) + 1
  }

  /** The first billed month: the later of the subscription's start and the period's start. */
  function BillingStart(sub: Subscription, periodStart: Date): (d: Date)
    ensures d == sub.startDate || d == periodStart
    ensures !Before(d, sub.startDate) && !Before(d, periodStart)
  {
    MaxTime(sub.startDate, periodStart)
  }

  /** The last billed month: an open-ended subscription runs to the period's end. */
  function BillingEnd(sub: Subscription, periodEnd: Date): (d: Date)
    ensures sub.endDate.None? ==> d == periodEnd
    ensures sub.endDate.Some? ==> d == sub.endDate.value || d == periodEnd
    ensures sub.endDate.Some? ==> !After(d, sub.endDate.value) && !After(d, periodEnd)
  {
    match sub.endDate
    case Some(end) => MinTime(end, periodEnd)
    case None => periodEnd
  }

  /** costForPeriod */
  function CostForPeriod(sub: Subscription, periodStart: Date, periodEnd: Date): (c: int)
    ensures Before(BillingEnd(sub, periodEnd), BillingStart(sub, periodStart)) ==> c == 0
    ensures sub.price >= 0 ==> c >= 0
  {
    var start := BillingStart(sub, periodStart);
    var end := BillingEnd(sub, periodEnd);
    if Before(end, start) then 0
    else
      var months := CountMonths(start, end);
      assert months >= 1;
      months * sub.price
  }

  /**
   * Reference definition: the month indices in which the subscription is
   * active and which lie inside the period.
   */
  ghost function BilledMonths(sub: Subscription, periodStart: Date, periodEnd: Date): set<int>
  {
    set m: int | MonthIndex(periodStart) <= m <= MonthIndex(periodEnd) && ActiveIn(sub, m)
  }

  /** The subscription runs during month `m`: on or after its start and, if it has one, up to its end. */
  predicate ActiveIn(sub: Subscription, m: int)
  {
    MonthIndex(sub.startDate) <= m && (sub.endDate.Some? ==> m <= MonthIndex(sub.endDate.value))
  }

  predicate Within(lo: int, hi: int, m: int) { lo <= m <= hi }

  ghost function Span(lo: int, hi: int): set<int>
  {
    set m: int | lo <= m <= hi && Within(lo, hi, m)
  }

  lemma {:induction false} SpanSize(lo: int, hi: int)
    ensures |Span(lo, hi)| == if hi < lo then 0 else hi - lo + 1
    decreases hi - lo
  {
    if hi < lo {
      assert Span(lo, hi) == {};
    } else {
      assert Span(lo, hi) == Span(lo, hi - 1) + {hi};
      SpanSize(lo, hi - 1);
    }
  }

  /** The billed months are exactly the months from the clamped start to the clamped end. */
  lemma BilledMonthsAreClampedSpan(sub: Subscription, periodStart: Date, periodEnd: Date)
    ensures BilledMonths(sub, periodStart, periodEnd)
         == Span(MonthIndex(BillingStart(sub, periodStart)), MonthIndex(BillingEnd(sub, periodEnd)))
  {
    var lo := MonthIndex(BillingStart(sub, periodStart));
    var hi := MonthIndex(BillingEnd(sub, periodEnd));
    forall m | m in BilledMonths(sub, periodStart, periodEnd)
      ensures m in Span(lo, hi)
    {
      assert ActiveIn(sub, m);
      assert Within(lo, hi, m);
    }
    forall m | m in Span(lo, hi)
      ensures m in BilledMonths(sub, periodStart, periodEnd)
    {
      assert Within(lo, hi, m);
      assert ActiveIn(sub, m);
    }
  }

  /** The cost is the number of billed months times the price. */
  lemma CostIsPriceTimesBilledMonths(sub: Subscription, periodStart: Date, periodEnd: Date)
    ensures CostForPeriod(sub, periodStart, periodEnd) == |BilledMonths(sub, periodStart, periodEnd)| * sub.price
  {
    var start, end := BillingStart(sub, periodStart), BillingEnd(sub, periodEnd);
    BilledMonthsAreClampedSpan(sub, periodStart, periodEnd);
    SpanSize(MonthIndex(start), MonthIndex(end));
    if Before(end, start) {
      assert |BilledMonths(sub, periodStart, periodEnd)| == 0;
    } else {
      assert |BilledMonths(sub, periodStart, periodEnd)| == CountMonths(start, end);
    }
  }

  /** An open-ended subscription is billed through the last month of the period. */
  lemma OpenEndedBilledThroughPeriodEnd(sub: Subscription, periodStart: Date, periodEnd: Date)
    requires sub.endDate.None?
    requires !After(sub.startDate, periodEnd) && !After(periodStart, periodEnd)
    ensures BillingEnd(sub, periodEnd) == periodEnd
    ensures CostForPeriod(sub, periodStart, periodEnd)
         == (MonthIndex(periodEnd) - MonthIndex(BillingStart(sub, periodStart)) + 1) * sub.price
    ensures MonthIndex(periodEnd) in BilledMonths(sub, periodStart, periodEnd)
  {
  }

  /** A subscription that starts and ends in one month inside the period costs its price once. */
  lemma SingleMonthCostsPrice(sub: Subscription, periodStart: Date, periodEnd: Date)
    requires sub.endDate == Some(sub.startDate)
    requires !Before(sub.startDate, periodStart) && !After(sub.startDate, periodEnd)
    ensures CostForPeriod(sub, periodStart, periodEnd) == sub.price
  {
  }

  /**
   * A subscription that does not overlap the period costs nothing, whether or
   * not the store's overlap filter was applied.
   */
  lemma NoOverlapCostsNothing(sub: Subscription, periodStart: Date, periodEnd: Date)
    requires After(sub.startDate, periodEnd) || (sub.endDate.Some? && Before(sub.endDate.value, periodStart))
    ensures CostForPeriod(sub, periodStart, periodEnd) == 0
    ensures BilledMonths(sub, periodStart, periodEnd) == {}
  {
  }

  /** A subscription that overlaps a well-formed period is billed for at least one month. */
  lemma OverlapBillsAtLeastOneMonth(sub: Subscription, periodStart: Date, periodEnd: Date)
    requires !After(periodStart, periodEnd)
    requires sub.endDate.Some? ==> !Before(sub.endDate.value, sub.startDate)
    requires !After(sub.startDate, periodEnd) && (sub.endDate.None? || !Before(sub.endDate.value, periodStart))
    ensures |BilledMonths(sub, periodStart, periodEnd)| >= 1
  {
    var lo := MonthIndex(BillingStart(sub, periodStart));
    assert lo in BilledMonths(sub, periodStart, periodEnd);
  }

  /** The total: the costs of the rows, summed in row order as GetTotalCost's loop does. */
  function SumCosts(rows: seq<Subscription>, periodStart: Date, periodEnd: Date): int
  {
    if rows == [] then 0
    else SumCosts(rows[..|rows| - 1], periodStart, periodEnd) + CostForPeriod(rows[|rows| - 1], periodStart, periodEnd)
  }

  lemma {:induction false} SumCostsAppend(a: seq<Subscription>, b: seq<Subscription>, periodStart: Date, periodEnd: Date)
    ensures SumCosts(a + b, periodStart, periodEnd) == SumCosts(a, periodStart, periodEnd) + SumCosts(b, periodStart, periodEnd)
    decreases |b|
  {
    if b == [] {
      assert a + b == a;
    } else {
      assert (a + b)[..|a + b| - 1] == a + b[..|b| - 1];
      SumCostsAppend(a, b[..|b| - 1], periodStart, periodEnd);
    }
  }

  /** The total does not depend on the order in which the rows arrive. */
  lemma {:induction false} SumCostsPermutation(a: seq<Subscription>, b: seq<Subscription>, periodStart: Date, periodEnd: Date)
    requires multiset(a) == multiset(b)
    ensures SumCosts(a, periodStart, periodEnd) == SumCosts(b, periodStart, periodEnd)
    decreases |a|
  {
    if a == [] {
      assert |b| == |multiset(b)| == 0;
    } else {
      var n := |a| - 1;
      var x := a[n];
      assert a == a[..n] + [x];
      assert x in multiset(b);
      var j :| 0 <= j < |b| && b[j] == x;
      var rest := b[..j] + b[j + 1..];
      assert b == b[..j] + [x] + b[j + 1..];
      assert multiset(a) == multiset(a[..n]) + multiset{x};
      assert multiset(b) == multiset(b[..j]) + multiset{x} + multiset(b[j + 1..]);
      assert multiset(rest) == multiset(b[..j]) + multiset(b[j + 1..]);
      assert multiset(a[..n]) == multiset(a) - multiset{x};
      assert multiset(rest) == multiset(b) - multiset{x};
      SumCostsPermutation(a[..n], rest, periodStart, periodEnd);
      SumCostsAppend(b[..j] + [x], b[j + 1..], periodStart, periodEnd);
      SumCostsAppend(b[..j], b[j + 1..], periodStart, periodEnd);
      assert (b[..j] + [x])[..|b[..j] + [x]| - 1] == b[..j];
    }
  }

  /** With no negative price among the rows, the total is never negative. */
  lemma {:induction false} SumCostsNonNegative(rows: seq<Subscription>, periodStart: Date, periodEnd: Date)
    requires forall i :: 0 <= i < |rows| ==> rows[i].price >= 0
    ensures SumCosts(rows, periodStart, periodEnd) >= 0
    decreases |rows|
  {
    if rows != [] {
      SumCostsNonNegative(rows[..|rows| - 1], periodStart, periodEnd);
    }
  }

  lemma SumOfTwo(a: Subscription, b: Subscription, periodStart: Date, periodEnd: Date)
    ensures SumCosts([a, b], periodStart, periodEnd)
         == CostForPeriod(a, periodStart, periodEnd) + CostForPeriod(b, periodStart, periodEnd)
  {
    assert [a, b][..1] == [a];
    assert [a][..0] == [];
    assert SumCosts([a], periodStart, periodEnd) == CostForPeriod(a, periodStart, periodEnd);
  }

  /**
   * Example: A = Netflix, 500 a month, 2023-01 to 2023-03; B = Spotify, 200 a
   * month, from 2023-02 with no end. Over 2023-01..2023-02, A costs 2 * 500 and
   * B 1 * 200.
   */
  lemma TwoSubscriptionsExample(a: Subscription, b: Subscription)
    requires a.price == 500
    requires a.startDate == Date(2023, 1) && a.endDate == Some(Date(2023, 3))
    requires b.price == 200
    requires b.startDate == Date(2023, 2) && b.endDate == None
    ensures SumCosts([a, b], Date(2023, 1), Date(2023, 2)) == 1200
  {
    var ps, pe := Date(2023, 1), Date(2023, 2);
    assert CostForPeriod(a, ps, pe) == 1000 by {
      assert BillingStart(a, ps) == ps && BillingEnd(a, pe) == pe;
      assert CountMonths(ps, pe) == 2;
    }
    assert CostForPeriod(b, ps, pe) == 200 by {
      assert BillingStart(b, ps) == pe && BillingEnd(b, pe) == pe;
      assert CountMonths(pe, pe) == 1;
    }
    SumOfTwo(a, b, ps, pe);
  }
}
