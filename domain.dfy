/**
 * Domain values: subscriptions, the two filters, and calendar months.
 *
 * Every date in the system comes from parseMonthYear with layout "01-2006",
 * so it is the first day of a month; a date is therefore a year and a month,
 * and dates compare by their month index year*12 + (month - 1).
 */
module Domain {
  import opened Wrappers

  const UuidBound := 0x1_0000_0000_0000_0000_0000_0000_0000_0000

  /** A 128-bit UUID. */
  type Uuid = n: int | 0 <= n < UuidBound

  /** uuid.Nil, the all-zero UUID. */
  const NilUuid: Uuid := 0

  type MonthOfYear = m: int | 1 <= m <= 12 witness 1

  datatype Date = Date(year: int, month: MonthOfYear)

  /** time.Time{}: January of year 1. */
  const ZeroDate := Date(1, 1)

  /** The number of months since January of year 0. */
  function MonthIndex(d: Date): int
  {
    d.year * 12 + (d.month - 1)
  }

  /**
   * The month with a given index. Dafny's `/` and `%` are Euclidean; with the
   * positive divisor 12 they floor, as this needs for years before 0.
   */
  function DateOfIndex(i: int): Date
  {
    Date(i / 12, i % 12 + 1)
  }

  /** Month indices number the months one to one. */
  lemma MonthIndexRoundTrip(d: Date, i: int)
    ensures DateOfIndex(MonthIndex(d)) == d
    ensures MonthIndex(DateOfIndex(i)) == i
  {
    var r := d.month - 1;
    assert 0 <= r < 12;
    DivModUnique(MonthIndex(d), d.year, r);
  }

  lemma DivModUnique(n: int, q: int, r: int)
    requires n == q * 12 + r && 0 <= r < 12
    ensures n / 12 == q && n % 12 == r
  {
    var q', r' := n / 12, n % 12;
    assert n == q' * 12 + r' && 0 <= r' < 12;
  }

  /** time.Time.Before on first-of-month dates: an earlier year, or the same year and an earlier month. */
  predicate Before(a: Date, b: Date)
    ensures Before(a, b) <==> a.year < b.year || (a.year == b.year && a.month < b.month)
  {
    MonthIndex(a) < MonthIndex(b)
  }

  /** time.Time.After: the mirror image of Before, so no date is both before and after another. */
  predicate After(a: Date, b: Date)
    ensures After(a, b) <==> Before(b, a)
    ensures After(a, b) <==> a.year > b.year || (a.year == b.year && a.month > b.month)
  {
    MonthIndex(b) < MonthIndex(a)
  }

  /** domain.Subscription without CreatedAt and UpdatedAt, which no modelled code sets. */
  datatype Subscription = Subscription(
    id: Uuid,
    serviceName: string,
    price: int,
    userId: Uuid,
    startDate: Date,
    endDate: Option<Date>)

  /** The Go zero value domain.Subscription{}. */
  const ZeroSubscription := Subscription(NilUuid, "", 0, NilUuid, ZeroDate, None)

  /** domain.SubscriptionFilter: every field optional (a nil pointer in Go). */
  datatype SubscriptionFilter = SubscriptionFilter(
    userId: Option<Uuid>,
    serviceName: Option<string>,
    price: Option<int>,
    startDate: Option<Date>,
    endDate: Option<Date>)

  const EmptyFilter := SubscriptionFilter(None, None, None, None, None)

  /** domain.TotalCostFilter: a required period and two optional equalities. */
  datatype TotalCostFilter = TotalCostFilter(
    startDate: Date,
    endDate: Date,
    userId: Option<Uuid>,
    serviceName: Option<string>)

  /** A caller's `*domain.Subscription`, which Create and Delete write through. */
  class SubscriptionRef {
    var sub: Subscription

    constructor (s: Subscription)
      ensures sub == s
    {
      sub := s;
    }
  }
}
