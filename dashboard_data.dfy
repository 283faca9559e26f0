/** The dashboard hook: trend percentages against the previous period, the digital-revenue
    sum, the comparison date of each timeframe, the expense filters, the hourly revenue
    buckets from 8 to 20 h and the top five frequent clients. */
module DashboardData {
  import opened Seqs
  import opened Calendar
  import opened Records
  import opened Text
  import opened MetricsStorage

  datatype TimeFrame = Daily | Weekly | Monthly

  // ---- trend percentages ----

  /** `Math.round(num / den)` on the exact quotient: the nearest integer, halves rounded up. The
      application divides in double precision, which can land just off an exact half. */
  function RoundQuotient(num: int, den: int): (r: int)
    requires den != 0
    ensures den > 0 ==> (2 * r - 1) * den <= 2 * num < (2 * r + 1) * den
    ensures den < 0 ==> (2 * r - 1) * -den <= -2 * num < (2 * r + 1) * -den
  {
    var n, d := if den > 0 then 2 * num + den else -2 * num - den, if den > 0 then 2 * den else -2 * den;
    var q := n / d;
    assert q * d <= n < q * d + d;
    q
  }

  /** `calculatePercentage`: the change from `previous` to `current` in whole percent; from 0 it
      is 100 for any rise and 0 otherwise. */
  function CalculatePercentage(current: int, previous: int): (r: int)
    ensures previous == 0 ==> (r == 100 <==> current > 0) && (r == 0 <==> current <= 0)
    ensures previous > 0 ==> (2 * r - 1) * previous <= 200 * (current - previous) < (2 * r + 1) * previous
    ensures previous < 0 ==> (2 * r - 1) * -previous <= -200 * (current - previous) < (2 * r + 1) * -previous
  {
    if previous == 0 then (if current > 0 then 100 else 0)
    else RoundQuotient((current - previous) * 100, previous)
  }

  /** No change is a trend of 0, whatever the value. */
  lemma {:induction false} PercentageOfNoChange(v: int)
    ensures CalculatePercentage(v, v) == 0
  {
    var r := CalculatePercentage(v, v);
    if v != 0 {
      var d := if v > 0 then v else -v;
      assert (2 * r - 1) * d <= 0 < (2 * r + 1) * d;
      if r > 0 {
        MulMonotone(1, 2 * r - 1, d);
      } else if r < 0 {
        MulMonotone(2 * r + 1, -1, d);
      }
    }
  }

  /** Multiplying by a positive number keeps the order. */
  lemma {:induction false} MulMonotone(a: int, b: int, p: int)
    requires p > 0 && a <= b
    ensures a * p <= b * p
  {
    assert b * p - a * p == (b - a) * p;
  }

  /** From a positive previous value the trend is positive exactly when the rise is at least half
      a percent of it, so a rise of less than half a percent shows as 0. */
  lemma {:induction false} PercentagePositiveIff(current: int, previous: int)
    requires previous > 0
    ensures CalculatePercentage(current, previous) > 0 <==> 200 * (current - previous) >= previous
  {
    var r := CalculatePercentage(current, previous);
    if r > 0 {
      MulMonotone(1, 2 * r - 1, previous);
    } else {
      MulMonotone(2 * r + 1, 1, previous);
    }
  }

  /** From a positive previous value a larger current value never shows a smaller trend. */
  lemma {:induction false} PercentageMonotone(a: int, b: int, previous: int)
    requires previous > 0 && a <= b
    ensures CalculatePercentage(a, previous) <= CalculatePercentage(b, previous)
  {
    var ra := CalculatePercentage(a, previous);
    var rb := CalculatePercentage(b, previous);
    if ra > rb {
      MulMonotone(2 * rb + 1, 2 * ra - 1, previous);
    }
  }

  /** A rise the trend shows as positive: at least half a percent over a positive previous
      value, or any rise from 0. */
  predicate ShowsRise(current: int, previous: int)
  {
    (previous > 0 && 200 * (current - previous) >= previous) || (previous == 0 && current > 0)
  }

  /** For a non-negative previous value the trend is positive exactly when it shows a rise. */
  lemma {:induction false} PercentagePositiveWhen(current: int, previous: int)
    ensures previous >= 0 ==> (CalculatePercentage(current, previous) > 0 <==> ShowsRise(current, previous))
  {
    if previous > 0 {
      PercentagePositiveIff(current, previous);
    }
  }

  /** The four trends of `calculateTrends`. */
  datatype Trends = Trends(revenue: int, valets: int, cash: int, digital: int)

  /** What the trends read from a period's metrics. */
  datatype PeriodTotals = PeriodTotals(totalSales: int, totalValets: int, paymentBreakdown: PaymentBreakdown)

  /** `debit + mercadopago + cuentadni`: every bucket but cash. */
  function DigitalRevenue(b: PaymentBreakdown): (r: int)
    ensures b.cash + r == BucketTotal(b)
  {
    b.debit + b.mercadopago + b.cuentadni
  }

  /** When every counted ticket has a payment method, cash plus digital revenue is the total. */
  lemma {:induction false} CashPlusDigitalIsSales(tickets: seq<Ticket>, b: PaymentBreakdown)
    requires forall m :: Bucket(b, m) == SumOf(Filter(tickets, PaidWith(m)), TotalOf)
    requires forall i :: 0 <= i < |tickets| ==> tickets[i].paymentMethod.Some?
    ensures b.cash + DigitalRevenue(b) == SumOf(tickets, TotalOf)
  {
    BucketsSumToSales(tickets, b);
  }

  /** `calculateTrends`: revenue, valets, cash and digital revenue, each compared with the
      previous period. */
  function CalculateTrends(current: PeriodTotals, previous: PeriodTotals): (t: Trends)
    ensures current == previous ==> t == Trends(0, 0, 0, 0)
    ensures previous.totalSales >= 0 ==> (t.revenue > 0 <==> ShowsRise(current.totalSales, previous.totalSales))
    ensures previous.totalValets >= 0 ==> (t.valets > 0 <==> ShowsRise(current.totalValets, previous.totalValets))
    ensures previous.paymentBreakdown.cash >= 0 ==>
      (t.cash > 0 <==> ShowsRise(current.paymentBreakdown.cash, previous.paymentBreakdown.cash))
    ensures DigitalRevenue(previous.paymentBreakdown) >= 0 ==>
      (t.digital > 0 <==> ShowsRise(DigitalRevenue(current.paymentBreakdown), DigitalRevenue(previous.paymentBreakdown)))
  {
    PercentagePositiveWhen(current.totalSales, previous.totalSales);
    PercentagePositiveWhen(current.totalValets, previous.totalValets);
    PercentagePositiveWhen(current.paymentBreakdown.cash, previous.paymentBreakdown.cash);
    PercentagePositiveWhen(DigitalRevenue(current.paymentBreakdown), DigitalRevenue(previous.paymentBreakdown));
    PercentageOfNoChange(current.totalSales);
    PercentageOfNoChange(current.totalValets);
    PercentageOfNoChange(current.paymentBreakdown.cash);
    PercentageOfNoChange(DigitalRevenue(current.paymentBreakdown));
    Trends(
      CalculatePercentage(current.totalSales, previous.totalSales),
      CalculatePercentage(current.totalValets, previous.totalValets),
      CalculatePercentage(current.paymentBreakdown.cash, previous.paymentBreakdown.cash),
      CalculatePercentage(DigitalRevenue(current.paymentBreakdown), DigitalRevenue(previous.paymentBreakdown)))
  }

  // ---- the comparison period ----

  /** `previousDay.setDate(selectedDate.getDate() - 1)`. */
  function PreviousDay(date: int): int
  {
    SetDate(date, CivilOf(date).day - 1)
  }

  /** `previousWeek.setDate(selectedDate.getDate() - 7)`. */
  function PreviousWeekDate(date: int): int
  {
    SetDate(date, CivilOf(date).day - 7)
  }

  /** The daily and weekly comparisons go back exactly one and seven days, time of day kept. */
  lemma {:induction false} PreviousDayAndWeek(date: int)
    ensures DayOf(PreviousDay(date)) == DayOf(date) - 1 && TimeInDay(PreviousDay(date)) == TimeInDay(date)
    ensures DayOf(PreviousWeekDate(date)) == DayOf(date) - 7 && TimeInDay(PreviousWeekDate(date)) == TimeInDay(date)
    ensures WeekFirstDay(PreviousWeekDate(date)) == WeekFirstDay(date) - 7
  {
    SetDateMovesDays(date, -1);
    SetDateMovesDays(date, -7);
    var d := DayOf(date);
    assert Weekday(d - 7) == Weekday(d) by {
      assert (d - 7 + 6) % 7 == (d + 6) % 7 by { StepDivBy7(d - 1); }
    }
  }

  /** Moving back seven days keeps the remainder modulo 7. */
  lemma {:induction false} StepDivBy7(x: int)
    ensures x % 7 == (x + 7) % 7
  {
  }

  /** `previousMonth.setMonth(selectedDate.getMonth() - 1)`, as written: the same day of the
      month in the month before, overflowing when that month is shorter. */
  function PreviousMonthAsWritten(date: int): int
  {
    SetMonth(date, CivilOf(date).month - 1)
  }

  /** On the 31st of March the written comparison date is the 2nd or 3rd of March, so the month
      is compared with itself. */
  lemma {:induction false} PreviousMonthOverflows(y: int)
    ensures CivilOf(MakeDate(y, 2, 31)) == Civil(y, 2, 31)
    ensures CivilOf(PreviousMonthAsWritten(MakeDate(y, 2, 31))) == Civil(y, 2, MarchOverflowDay(y))
  {
    MarchThirtyFirst(y);
    MarchOverflow(MakeDate(y, 2, 31), y);
    FebruaryThirtyFirstAt(PreviousMonthAsWritten(MakeDate(y, 2, 31)), y);
  }

  lemma {:induction false} MarchThirtyFirst(y: int)
    ensures CivilOf(MakeDate(y, 2, 31)) == Civil(y, 2, 31) && TimeInDay(MakeDate(y, 2, 31)) == 0
  {
    var n := DayNumber(Civil(y, 2, 31));
    assert MakeDate(y, 2, 31) == n * MsPerDay by { MakeDayInMonth(y, 2, 31); }
    CivilAt(MakeDate(y, 2, 31), n, Civil(y, 2, 31), 0);
  }

  /** From midnight on the 31st of March, `setMonth(1)` asks for the 31st of February, which is
      the 2nd or 3rd of March. */
  lemma {:induction false} MarchOverflow(t: int, y: int)
    requires CivilOf(t) == Civil(y, 2, 31) && TimeInDay(t) == 0
    ensures PreviousMonthAsWritten(t) == MakeDay(y, 1, 31) * MsPerDay
  {
  }

  /** Midnight of the 31st of February is midnight of the 2nd or 3rd of March. */
  lemma {:induction false} FebruaryThirtyFirstAt(p: int, y: int)
    requires p == MakeDay(y, 1, 31) * MsPerDay
    ensures CivilOf(p) == Civil(y, 2, MarchOverflowDay(y))
  {
    var back := Civil(y, 2, MarchOverflowDay(y));
    var n := DayNumber(back);
    assert ValidCivil(back) && p == n * MsPerDay + 0 by { FebruaryThirtyFirst(y); }
    CivilAt(p, n, back, 0);
  }

  /** The day of March that the 31st of February lands on. */
  function MarchOverflowDay(y: int): int
  {
    if IsLeapYear(y) then 2 else 3
  }

  lemma {:induction false} FebruaryThirtyFirst(y: int)
    ensures MakeDay(y, 1, 31) == DayNumber(Civil(y, 2, MarchOverflowDay(y)))
    ensures ValidCivil(Civil(y, 2, MarchOverflowDay(y)))
  {
    MakeDayInMonth(y, 1, 31);
  }

  /** The comparison month, as evidently intended: the 1st of the month before the selected
      date's month, which is all the monthly metrics read from it. */
  function PreviousMonth(date: int): int
  {
    var c := CivilOf(date);
    MakeDate(c.year, c.month - 1, 1)
  }

  /** The corrected comparison date lies in the calendar month before the selected date's. */
  lemma {:induction false} PreviousMonthIsPrevious(date: int)
    ensures CivilOf(PreviousMonth(date)) ==
      Civil(YearBefore(CivilOf(date).year, CivilOf(date).month), MonthBefore(CivilOf(date).month), 1)
  {
    var c := CivilOf(date);
    DayOfMonthBefore(PreviousMonth(date), c.year, c.month, 1, 0);
  }

  /** The written comparison is right up to the 28th: then it is the same day of the previous
      month. */
  lemma {:induction false} PreviousMonthAsWrittenAgrees(date: int)
    requires CivilOf(date).day <= 28
    ensures CivilOf(PreviousMonthAsWritten(date)) ==
      Civil(YearBefore(CivilOf(date).year, CivilOf(date).month), MonthBefore(CivilOf(date).month), CivilOf(date).day)
  {
    var c := CivilOf(date);
    DayOfMonthBefore(PreviousMonthAsWritten(date), c.year, c.month, c.day, TimeInDay(date));
  }

  /** `new Date(y, m - 1, d)` at `ms` past midnight, for a day the month before has, reads back
      as that day of the month before. */
  lemma {:induction false} DayOfMonthBefore(t: int, y: int, m: int, d: int, ms: int)
    requires 0 <= m < 12 && 1 <= d <= 28 && 0 <= ms < MsPerDay
    requires t == MakeDay(y, m - 1, d) * MsPerDay + ms
    ensures CivilOf(t) == Civil(YearBefore(y, m), MonthBefore(m), d)
  {
    var c := Civil(YearBefore(y, m), MonthBefore(m), d);
    var n := DayNumber(c);
    MakeDayMonthBefore(y, m, d);
    CivilAt(t, n, c, ms);
  }

  /** The date whose metrics the trends compare against, as the dashboard computes it. */
  function PreviousPeriod(timeFrame: TimeFrame, date: int): int
  {
    match timeFrame
    case Daily => PreviousDay(date)
    case Weekly => PreviousWeekDate(date)
    case Monthly => PreviousMonthAsWritten(date)
  }

  /** The comparison date with the monthly case corrected. */
  function PreviousPeriodIntended(timeFrame: TimeFrame, date: int): int
  {
    match timeFrame
    case Daily => PreviousDay(date)
    case Weekly => PreviousWeekDate(date)
    case Monthly => PreviousMonth(date)
  }

  /** The daily and weekly comparison dates are one and seven days back at the same time of
      day, in both versions. The monthly one as written is the same day of the previous month
      up to the 28th; the corrected one is always in the previous month. */
  lemma {:induction false} PreviousPeriodCases(timeFrame: TimeFrame, date: int)
    ensures timeFrame != Monthly ==> PreviousPeriod(timeFrame, date) == PreviousPeriodIntended(timeFrame, date)
    ensures timeFrame == Daily ==>
      DayOf(PreviousPeriod(timeFrame, date)) == DayOf(date) - 1 && TimeInDay(PreviousPeriod(timeFrame, date)) == TimeInDay(date)
    ensures timeFrame == Weekly ==>
      DayOf(PreviousPeriod(timeFrame, date)) == DayOf(date) - 7 && TimeInDay(PreviousPeriod(timeFrame, date)) == TimeInDay(date)
    ensures timeFrame == Monthly && CivilOf(date).day <= 28 ==>
      CivilOf(PreviousPeriod(timeFrame, date)) ==
        Civil(YearBefore(CivilOf(date).year, CivilOf(date).month), MonthBefore(CivilOf(date).month), CivilOf(date).day)
    ensures timeFrame == Monthly ==>
      CivilOf(PreviousPeriodIntended(timeFrame, date)) ==
        Civil(YearBefore(CivilOf(date).year, CivilOf(date).month), MonthBefore(CivilOf(date).month), 1)
  {
    match timeFrame
    case Daily => PreviousDayAndWeek(date);
    case Weekly => PreviousDayAndWeek(date);
    case Monthly =>
      PreviousMonthIsPrevious(date);
      if CivilOf(date).day <= 28 {
        PreviousMonthAsWrittenAgrees(date);
      }
  }

  // ---- expense filters ----

  function ExpenseOnDay(ref: int): Expense -> bool
  {
    (e: Expense) => SameCalendarDay(e.date, ref)
  }

  function ExpenseInRange(lo: int, hi: int): Expense -> bool
  {
    (e: Expense) => lo <= e.date <= hi
  }

  /** The daily expenses: same year, month and day as the selected date. */
  function DayExpenses(all: seq<Expense>, date: int): seq<Expense>
  {
    Filter(all, ExpenseOnDay(date))
  }

  /** The weekly expenses: the Sunday-start week window of the weekly metrics. */
  function WeekExpenses(all: seq<Expense>, date: int): seq<Expense>
  {
    Filter(all, ExpenseInRange(StartOfWeek(date), EndOfWeek(date)))
  }

  /** The monthly expenses as written: up to `new Date(year, month + 1, 0)`, which is 00:00 of
      the last day of the month. */
  function MonthExpensesAsWritten(all: seq<Expense>, date: int): seq<Expense>
  {
    Filter(all, ExpenseInRange(StartOfMonth(date), MonthEndAsWritten(date)))
  }

  /** `new Date(year, month + 1, 0)`. */
  function MonthEndAsWritten(date: int): int
  {
    var c := CivilOf(date);
    MakeDate(c.year, c.month + 1, 0)
  }

  /** The monthly expenses as evidently intended: the whole calendar month, up to 23:59:59.999
      of its last day, the window the monthly metrics use. */
  function MonthExpenses(all: seq<Expense>, date: int): seq<Expense>
  {
    Filter(all, ExpenseInRange(StartOfMonth(date), EndOfMonth(date)))
  }

  /** Each filter keeps exactly the expenses of its period, in their stored order. */
  lemma {:induction false} ExpenseFilters(all: seq<Expense>, date: int, e: Expense)
    ensures e in DayExpenses(all, date) <==> e in all && CivilOf(e.date) == CivilOf(date)
    ensures e in WeekExpenses(all, date) <==> e in all && WeekFirstDay(date) <= DayOf(e.date) <= WeekFirstDay(date) + 6
    ensures e in MonthExpenses(all, date) <==>
      e in all && CivilOf(e.date).year == CivilOf(date).year && CivilOf(e.date).month == CivilOf(date).month
    ensures IsSubsequence(DayExpenses(all, date), all) && IsSubsequence(WeekExpenses(all, date), all)
    ensures IsSubsequence(MonthExpenses(all, date), all)
  {
    FilterMembership(all, ExpenseOnDay(date), e);
    FilterMembership(all, ExpenseInRange(StartOfWeek(date), EndOfWeek(date)), e);
    FilterMembership(all, ExpenseInRange(StartOfMonth(date), EndOfMonth(date)), e);
    WeekWindow(date);
    MonthShape(date);
    FilterIsSubsequence(all, ExpenseOnDay(date));
    FilterIsSubsequence(all, ExpenseInRange(StartOfWeek(date), EndOfWeek(date)));
    FilterIsSubsequence(all, ExpenseInRange(StartOfMonth(date), EndOfMonth(date)));
  }

  /** An expense made after midnight on the last day of the month belongs to the month but the
      written filter drops it. */
  lemma {:induction false} MonthExpensesMissLastDay(date: int, e: Expense)
    requires DayOf(e.date) == MonthLastDay(date) && TimeInDay(e.date) > 0
    ensures CivilOf(e.date).year == CivilOf(date).year && CivilOf(e.date).month == CivilOf(date).month
    ensures MonthExpenses([e], date) == [e]
    ensures MonthExpensesAsWritten([e], date) == []
  {
    var c := CivilOf(date);
    var last := MonthLastDay(date);
    assert StartOfMonth(date) <= e.date <= EndOfMonth(date) by {
      MonthBounds(date);
      WithinDays(e.date, MonthFirstDay(date), last);
    }
    assert CivilOf(e.date).year == c.year && CivilOf(e.date).month == c.month by { MonthShape(date); }
    assert MonthEndAsWritten(date) < e.date by {
      assert MonthEndAsWritten(date) == EndOfMonth(date) - MsPerDay + 1;
      MonthEndBounds(date);
      DayOfBounds(e.date);
    }
    FilterSingleton(e, ExpenseInRange(StartOfMonth(date), EndOfMonth(date)));
    FilterSingleton(e, ExpenseInRange(StartOfMonth(date), MonthEndAsWritten(date)));
  }

  // ---- hourly revenue ----

  /** The chart covers the hours 8 to 20 inclusive, 13 buckets. */
  const FirstHour := 8
  const LastHour := 20
  const HourCount := LastHour - FirstHour + 1

  /** Tickets made during hour `h` of their day. */
  function AtHour(h: int): Ticket -> bool
  {
    (t: Ticket) => Hours(t.date) == h
  }

  /** Tickets made from hour `lo` up to, but not including, hour `hi`. */
  function InHours(lo: int, hi: int): Ticket -> bool
  {
    (t: Ticket) => lo <= Hours(t.date) < hi
  }

  /** The revenue of hour `h`: the totals of the tickets made during it. */
  function HourRevenue(tickets: seq<Ticket>, h: int): int
  {
    SumOf(Filter(tickets, AtHour(h)), TotalOf)
  }

  /** The axis label of hour `h`. */
  function HourLabel(h: nat): string
  {
    ToDecimal(h) + ":00"
  }

  function Amount(x: int): int { x }

  /** `generateHourlyRevenueData`: 13 buckets for the hours 8 to 20, each starting at 0; every
      ticket made in one of those hours adds its total to its hour's bucket and any other ticket
      is ignored. The buckets are listed in hour order, as the dictionary's integer keys are. */
  method GenerateHourlyRevenueData(tickets: seq<Ticket>) returns (labels: seq<string>, data: seq<int>)
    ensures |labels| == HourCount && |data| == HourCount
    ensures forall k :: 0 <= k < HourCount ==> labels[k] == HourLabel(FirstHour + k)
    ensures forall k :: 0 <= k < HourCount ==> data[k] == HourRevenue(tickets, FirstHour + k)
  {
    labels, data := [], [];
    for h := FirstHour to LastHour + 1
      invariant |labels| == |data| == h - FirstHour
      invariant forall k :: 0 <= k < |labels| ==> labels[k] == HourLabel(FirstHour + k)
      invariant forall k :: 0 <= k < |data| ==> data[k] == 0
    {
      labels, data := labels + [HourLabel(h)], data + [0];
    }
    assert tickets[..0] == [];
    for i := 0 to |tickets|
      invariant |data| == HourCount
      invariant forall k :: 0 <= k < HourCount ==> data[k] == HourRevenue(tickets[..i], FirstHour + k)
    {
      var t := tickets[i];
      var hour := Hours(t.date);
      if FirstHour <= hour <= LastHour {
        data := data[hour - FirstHour := data[hour - FirstHour] + t.total];
      }
      HourStep(tickets, i);
    }
    assert tickets[..|tickets|] == tickets;
  }

  /** Adding ticket `i` moves exactly its own hour's bucket, by its total. */
  lemma {:induction false} HourStep(tickets: seq<Ticket>, i: nat)
    requires i < |tickets|
    ensures forall h ::
      HourRevenue(tickets[..i + 1], h) ==
        HourRevenue(tickets[..i], h) + (if Hours(tickets[i].date) == h then tickets[i].total else 0)
  {
    PrefixStep(tickets, i);
    forall h
      ensures HourRevenue(tickets[..i + 1], h) ==
        HourRevenue(tickets[..i], h) + (if Hours(tickets[i].date) == h then tickets[i].total else 0)
    {
      FilterStep(tickets[..i], tickets[i], AtHour(h), TotalOf);
    }
  }

  /** The buckets add up to the sales made between 8:00 and 20:59:59.999: no ticket of those
      hours is lost and none is counted twice. */
  lemma {:induction false} HourlyBucketsAddUp(tickets: seq<Ticket>, data: seq<int>)
    requires |data| == HourCount
    requires forall k :: 0 <= k < HourCount ==> data[k] == HourRevenue(tickets, FirstHour + k)
    ensures SumOf(data, Amount) == SumOf(Filter(tickets, InHours(FirstHour, LastHour + 1)), TotalOf)
  {
    HourPrefixAddsUp(tickets, data, FirstHour, HourCount);
    assert data[..HourCount] == data;
  }

  lemma {:induction false} HourPrefixAddsUp(tickets: seq<Ticket>, data: seq<int>, lo: int, n: nat)
    requires n <= |data|
    requires forall k :: 0 <= k < n ==> data[k] == HourRevenue(tickets, lo + k)
    ensures SumOf(data[..n], Amount) == SumOf(Filter(tickets, InHours(lo, lo + n)), TotalOf)
  {
    if n == 0 {
      assert data[..0] == [];
      FilterNoneKept(tickets, InHours(lo, lo));
    } else {
      assert SumOf(data[..n], Amount) == SumOf(data[..n - 1], Amount) + data[n - 1] by {
        assert data[..n][..n - 1] == data[..n - 1];
      }
      HourPrefixAddsUp(tickets, data, lo, n - 1);
      SumOfFilterSplit(tickets, InHours(lo, lo + n), InHours(lo, lo + n - 1), AtHour(lo + n - 1), TotalOf);
    }
  }

  // ---- frequent clients ----

  /** One row of the frequent-client table. */
  datatype ClientEntry = ClientEntry(phone: string, name: string, visits: nat)

  /** The dictionary lookup `clientVisits[phone]`: the position of the entry for `phone`. */
  function IndexOfPhone(entries: seq<ClientEntry>, phone: string): (r: Option<nat>)
    ensures r.Some? ==> r.value < |entries| && entries[r.value].phone == phone
    ensures r.None? ==> forall i :: 0 <= i < |entries| ==> entries[i].phone != phone
  {
    if entries == [] then None
    else if entries[|entries| - 1].phone == phone then Some(|entries| - 1)
    else IndexOfPhone(entries[..|entries| - 1], phone)
  }

  /** One step of the grouping loop: a phone seen for the first time gets an entry with the
      ticket's name and no visits, then the phone's entry gains one visit. */
  function AddVisit(entries: seq<ClientEntry>, t: Ticket): seq<ClientEntry>
  {
    match IndexOfPhone(entries, t.phone)
    case None => entries + [ClientEntry(t.phone, t.name, 1)]
    case Some(i) => entries[i := entries[i].(visits := entries[i].visits + 1)]
  }

  /** The dictionary after grouping `tickets`, in the order the phones first appear. */
  function Visits(tickets: seq<Ticket>): seq<ClientEntry>
  {
    if tickets == [] then [] else AddVisit(Visits(tickets[..|tickets| - 1]), tickets[|tickets| - 1])
  }

  /** What the grouping promises: one entry per phone, for exactly the phones of the tickets,
      each counting that phone's tickets and named after the first of them. */
  predicate Summarises(entries: seq<ClientEntry>, tickets: seq<Ticket>)
  {
    DistinctPhones(entries) && CountsVisits(entries, tickets) && CoversTickets(entries, tickets)
  }

  predicate DistinctPhones(entries: seq<ClientEntry>)
  {
    forall i, j :: 0 <= i < j < |entries| ==> entries[i].phone != entries[j].phone
  }

  predicate CountsVisits(entries: seq<ClientEntry>, tickets: seq<Ticket>)
  {
    forall i :: 0 <= i < |entries| ==> EntryCounts(entries[i], tickets)
  }

  predicate CoversTickets(entries: seq<ClientEntry>, tickets: seq<Ticket>)
  {
    forall k :: 0 <= k < |tickets| ==> IndexOfPhone(entries, tickets[k].phone).Some?
  }

  lemma {:induction false} VisitsSummarise(tickets: seq<Ticket>)
    ensures Summarises(Visits(tickets), tickets)
    decreases |tickets|
  {
    if tickets != [] {
      var init, t := tickets[..|tickets| - 1], tickets[|tickets| - 1];
      assert tickets == init + [t];
      VisitsSummarise(init);
      AddVisitDistinct(Visits(init), t);
      AddVisitCounts(Visits(init), init, t);
      AddVisitCovers(Visits(init), init, t);
    }
  }

  lemma {:induction false} AddVisitDistinct(entries: seq<ClientEntry>, t: Ticket)
    requires DistinctPhones(entries)
    ensures DistinctPhones(AddVisit(entries, t))
  {
  }

  lemma {:induction false} AddVisitCounts(entries: seq<ClientEntry>, tickets: seq<Ticket>, t: Ticket)
    requires Summarises(entries, tickets)
    ensures CountsVisits(AddVisit(entries, t), tickets + [t])
  {
    var r := AddVisit(entries, t);
    forall i | 0 <= i < |r|
      ensures EntryCounts(r[i], tickets + [t])
    {
      AddVisitEntry(entries, tickets, t, i);
    }
  }

  predicate EntryCounts(e: ClientEntry, tickets: seq<Ticket>)
  {
    e.visits == Count(tickets, HasPhone(e.phone)) &&
    Filter(tickets, HasPhone(e.phone)) != [] &&
    e.name == Filter(tickets, HasPhone(e.phone))[0].name
  }

  lemma {:induction false} AddVisitEntry(entries: seq<ClientEntry>, tickets: seq<Ticket>, t: Ticket, i: nat)
    requires Summarises(entries, tickets) && i < |AddVisit(entries, t)|
    ensures EntryCounts(AddVisit(entries, t)[i], tickets + [t])
  {
    var r := AddVisit(entries, t);
    var ph := r[i].phone;
    FilterStep(tickets, t, HasPhone(ph), TotalOf);
    match IndexOfPhone(entries, t.phone)
    case None =>
      if i == |entries| {
        NewPhoneUnseen(entries, tickets, t.phone);
      } else {
        assert r[i] == entries[i] && EntryCounts(entries[i], tickets);
      }
    case Some(j) =>
      if i == j {
        assert EntryCounts(entries[j], tickets);
      } else {
        assert r[i] == entries[i] && EntryCounts(entries[i], tickets);
        assert ph != t.phone;
      }
  }

  lemma {:induction false} AddVisitCovers(entries: seq<ClientEntry>, tickets: seq<Ticket>, t: Ticket)
    requires CoversTickets(entries, tickets)
    ensures CoversTickets(AddVisit(entries, t), tickets + [t])
  {
    var r := AddVisit(entries, t);
    var s := tickets + [t];
    forall k | 0 <= k < |s|
      ensures IndexOfPhone(r, s[k].phone).Some?
    {
      var ix := IndexOfPhone(entries, s[k].phone);
      if k < |tickets| {
        assert s[k] == tickets[k];
        PhoneFound(r, ix.value, s[k].phone);
      } else {
        PhoneFound(r, if ix.Some? then ix.value else |entries|, t.phone);
      }
    }
  }

  /** A phone without an entry belongs to none of the grouped tickets. */
  lemma {:induction false} NewPhoneUnseen(entries: seq<ClientEntry>, tickets: seq<Ticket>, phone: string)
    requires CoversTickets(entries, tickets) && IndexOfPhone(entries, phone).None?
    ensures Filter(tickets, HasPhone(phone)) == []
  {
    forall k | 0 <= k < |tickets|
      ensures !HasPhone(phone)(tickets[k])
    {
      var j := IndexOfPhone(entries, tickets[k].phone).value;
      assert entries[j].phone == tickets[k].phone;
    }
    FilterNoneKept(tickets, HasPhone(phone));
  }

  /** A phone that has an entry is found by the lookup. */
  lemma {:induction false} PhoneFound(entries: seq<ClientEntry>, i: nat, phone: string)
    requires i < |entries| && entries[i].phone == phone
    ensures IndexOfPhone(entries, phone).Some?
  {
  }

  /** The grouping loop of `getFrequentClients`: a new phone gets an entry with the ticket's name
      and 0 visits, then the phone's entry is incremented. */
  method GroupVisits(tickets: seq<Ticket>) returns (entries: seq<ClientEntry>)
    ensures entries == Visits(tickets)
    ensures Summarises(entries, tickets)
  {
    entries := [];
    assert tickets[..0] == [];
    for i := 0 to |tickets|
      invariant entries == Visits(tickets[..i])
    {
      var t := tickets[i];
      var ix := IndexOfPhone(entries, t.phone);
      ghost var before := entries;
      if ix.None? {
        entries := entries + [ClientEntry(t.phone, t.name, 0)];
        ix := Some(|entries| - 1);
      }
      entries := entries[ix.value := entries[ix.value].(visits := entries[ix.value].visits + 1)];
      assert entries == AddVisit(before, t);
      assert tickets[..i + 1][..i] == tickets[..i];
    }
    assert tickets[..|tickets|] == tickets;
    VisitsSummarise(tickets);
  }

  /** Entries in order of decreasing visits. */
  predicate SortedByVisits(s: seq<ClientEntry>)
  {
    forall i, j :: 0 <= i < j < |s| ==> s[i].visits >= s[j].visits
  }

  /** Places `e` before the first entry with no more visits than it, so entries with equal
      visits keep their relative order. */
  function InsertByVisits(e: ClientEntry, s: seq<ClientEntry>): seq<ClientEntry>
  {
    if s == [] || e.visits >= s[0].visits then [e] + s else [s[0]] + InsertByVisits(e, s[1..])
  }

  /** `.sort((a, b) => b.visits - a.visits)`, a stable sort by decreasing visits. */
  function SortByVisits(s: seq<ClientEntry>): seq<ClientEntry>
  {
    if s == [] then [] else InsertByVisits(s[0], SortByVisits(s[1..]))
  }

  lemma {:induction false} InsertByVisitsSorts(e: ClientEntry, s: seq<ClientEntry>)
    requires SortedByVisits(s)
    ensures SortedByVisits(InsertByVisits(e, s))
    ensures multiset(InsertByVisits(e, s)) == multiset(s) + multiset{e}
    ensures |InsertByVisits(e, s)| == |s| + 1
    ensures InsertByVisits(e, s) != [] && InsertByVisits(e, s)[0] in {e, if s == [] then e else s[0]}
  {
    if s == [] || e.visits >= s[0].visits {
      ConsSorted(e, s);
    } else {
      var r := InsertByVisits(e, s[1..]);
      InsertByVisitsSorts(e, s[1..]);
      assert s[1..] != [] ==> s[0].visits >= s[1].visits;
      ConsSorted(s[0], r);
      assert multiset(s) == multiset{s[0]} + multiset(s[1..]) by { assert s == [s[0]] + s[1..]; }
    }
  }

  /** A list stays sorted when an entry with at least the visits of its head is put in front. */
  lemma {:induction false} ConsSorted(x: ClientEntry, s: seq<ClientEntry>)
    requires SortedByVisits(s) && (s == [] || x.visits >= s[0].visits)
    ensures SortedByVisits([x] + s)
  {
    var r := [x] + s;
    forall i, j | 0 <= i < j < |r|
      ensures r[i].visits >= r[j].visits
    {
      assert r[j] == s[j - 1];
      if i > 0 {
        assert r[i] == s[i - 1];
      } else {
        assert s[0].visits >= s[j - 1].visits;
      }
    }
  }

  /** The sort orders the entries by decreasing visits and only rearranges them. */
  lemma {:induction false} SortByVisitsSorts(s: seq<ClientEntry>)
    ensures SortedByVisits(SortByVisits(s))
    ensures multiset(SortByVisits(s)) == multiset(s)
    ensures |SortByVisits(s)| == |s|
  {
    if s != [] {
      var rest := SortByVisits(s[1..]);
      SortByVisitsSorts(s[1..]);
      InsertByVisitsSorts(s[0], rest);
      assert multiset(s) == multiset(s[1..]) + multiset{s[0]} by { assert s == [s[0]] + s[1..]; }
    }
  }

  /** `.slice(0, 5)` of the sorted entries. */
  function TopClients(entries: seq<ClientEntry>): seq<ClientEntry>
  {
    var sorted := SortByVisits(entries);
    sorted[..if |sorted| < 5 then |sorted| else 5]
  }

  /** The top list holds the five most visited clients (all of them when there are fewer), in
      order of decreasing visits: it is drawn from the entries, and every entry left out has no
      more visits than any entry kept. */
  lemma {:induction false} TopClientsAreTop(entries: seq<ClientEntry>)
    ensures |TopClients(entries)| == if |entries| < 5 then |entries| else 5
    ensures SortedByVisits(TopClients(entries))
    ensures multiset(TopClients(entries)) <= multiset(entries)
    ensures forall x, y :: x in TopClients(entries) && y in multiset(entries) - multiset(TopClients(entries)) ==>
      y.visits <= x.visits
  {
    var sorted := SortByVisits(entries);
    SortByVisitsSorts(entries);
    var k := if |sorted| < 5 then |sorted| else 5;
    assert TopClients(entries) == sorted[..k];
    SplitSorted(sorted, k);
  }

  /** Cutting a sorted list leaves in front exactly the entries with the most visits. */
  lemma {:induction false} SplitSorted(s: seq<ClientEntry>, k: nat)
    requires SortedByVisits(s) && k <= |s|
    ensures SortedByVisits(s[..k])
    ensures multiset(s[..k]) <= multiset(s) && multiset(s) - multiset(s[..k]) == multiset(s[k..])
    ensures forall x, y :: x in s[..k] && y in multiset(s) - multiset(s[..k]) ==> y.visits <= x.visits
  {
    var front, back := s[..k], s[k..];
    assert multiset(s) == multiset(front) + multiset(back) by { assert s == front + back; }
    assert SortedByVisits(front) by {
      forall i, j | 0 <= i < j < k ensures front[i].visits >= front[j].visits {
        assert front[i] == s[i] && front[j] == s[j];
      }
    }
    forall x, y | x in front && y in multiset(s) - multiset(front)
      ensures y.visits <= x.visits
    {
      assert y in back by { assert y in multiset(back); }
      SortedCut(s, k);
    }
  }

  lemma {:induction false} SortedCut(s: seq<ClientEntry>, k: nat)
    requires SortedByVisits(s) && k <= |s|
    ensures forall x, y :: x in s[..k] && y in s[k..] ==> y.visits <= x.visits
  {
    forall x, y | x in s[..k] && y in s[k..]
      ensures y.visits <= x.visits
    {
      var i :| 0 <= i < k && s[..k][i] == x;
      var j :| 0 <= j < |s| - k && s[k..][j] == y;
      assert s[i] == x && s[k + j] == y;
    }
  }

  /** `getFrequentClients`: at most five clients, the most visited first, each with the number
      of tickets carrying its phone and the name on the first of them. */
  method GetFrequentClients(tickets: seq<Ticket>) returns (top: seq<ClientEntry>)
    ensures top == TopClients(Visits(tickets))
    ensures |top| <= 5 && SortedByVisits(top)
    ensures forall i :: 0 <= i < |top| ==> EntryCounts(top[i], tickets)
  {
    var entries := GroupVisits(tickets);
    top := TopClients(entries);
    TopClientsAreTop(entries);
    forall i | 0 <= i < |top|
      ensures EntryCounts(top[i], tickets)
    {
      assert top[i] in multiset(entries);
    }
  }
}
