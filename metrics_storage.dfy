/** The local-storage fallbacks of the metrics store: the tickets of a day, of a Sunday-start
    week or of a calendar month, summed into valets, sales, four payment-method buckets,
    per-item dry-cleaning rollups and per-day or per-week breakdowns. */
module MetricsStorage {
  import opened Seqs
  import opened Calendar
  import opened Records

  datatype PaymentBreakdown = PaymentBreakdown(cash: int, debit: int, mercadopago: int, cuentadni: int)

  /** One row of the dry-cleaning rollup. */
  datatype ItemSummary = ItemSummary(name: string, quantity: int, sales: int)

  /** One entry of a week's `dailyBreakdown`. */
  datatype DayEntry = DayEntry(date: int, sales: int, valets: int)

  /** One entry of a month's `weeklyBreakdown`. */
  datatype WeekEntry = WeekEntry(weekNumber: int, sales: int, valets: int)

  datatype DailyMetrics = DailyMetrics(
    totalValets: int, totalSales: int, paymentBreakdown: PaymentBreakdown,
    dryCleaningItems: seq<ItemSummary>)

  datatype WeeklyMetrics = WeeklyMetrics(
    totalValets: int, totalSales: int, paymentBreakdown: PaymentBreakdown,
    dailyBreakdown: seq<DayEntry>, dryCleaningItems: seq<ItemSummary>)

  datatype MonthlyMetrics = MonthlyMetrics(
    totalValets: int, totalSales: int, paymentBreakdown: PaymentBreakdown,
    weeklyBreakdown: seq<WeekEntry>, dryCleaningItems: seq<ItemSummary>)

  // ---- ticket accessors and selectors ----

  function TotalOf(t: Ticket): int { t.total }

  function ValetsOf(t: Ticket): int { t.valetQuantity }

  function HasPaymentMethod(t: Ticket): bool { t.paymentMethod.Some? }

  function PaidWith(m: PaymentMethod): Ticket -> bool
  {
    (t: Ticket) => t.paymentMethod == Some(m)
  }

  /** Tickets whose date has the same year, month and day as `ref`. */
  function OnDay(ref: int): Ticket -> bool
  {
    (t: Ticket) => SameCalendarDay(t.date, ref)
  }

  /** Tickets dated between `lo` and `hi`, both included. */
  function InRange(lo: int, hi: int): Ticket -> bool
  {
    (t: Ticket) => lo <= t.date <= hi
  }

  // ---- payment-method buckets ----

  /** `paymentBreakdown[m]`. */
  function Bucket(b: PaymentBreakdown, m: PaymentMethod): int
  {
    match m
    case Cash => b.cash
    case Debit => b.debit
    case MercadoPago => b.mercadopago
    case CuentaDni => b.cuentadni
  }

  function BucketTotal(b: PaymentBreakdown): int
  {
    b.cash + b.debit + b.mercadopago + b.cuentadni
  }

  function CreateEmptyPaymentBreakdown(): (b: PaymentBreakdown)
    ensures forall m :: Bucket(b, m) == 0
  {
    PaymentBreakdown(0, 0, 0, 0)
  }

  /** `paymentBreakdown[m] += amount`: only bucket `m` moves. */
  function AddToBucket(b: PaymentBreakdown, m: PaymentMethod, amount: int): (r: PaymentBreakdown)
    ensures Bucket(r, m) == Bucket(b, m) + amount
    ensures forall m' :: m' != m ==> Bucket(r, m') == Bucket(b, m')
  {
    match m
    case Cash => b.(cash := b.cash + amount)
    case Debit => b.(debit := b.debit + amount)
    case MercadoPago => b.(mercadopago := b.mercadopago + amount)
    case CuentaDni => b.(cuentadni := b.cuentadni + amount)
  }

  /** The `forEach` that adds every ticket's total to the bucket of its payment method,
      skipping tickets without one. */
  method AccumulatePayments(tickets: seq<Ticket>) returns (b: PaymentBreakdown)
    ensures forall m :: Bucket(b, m) == SumOf(Filter(tickets, PaidWith(m)), TotalOf)
    ensures BucketTotal(b) == SumOf(Filter(tickets, HasPaymentMethod), TotalOf)
  {
    b := CreateEmptyPaymentBreakdown();
    var i := 0;
    assert tickets[..0] == [];
    while i < |tickets|
      invariant 0 <= i <= |tickets|
      invariant forall m :: Bucket(b, m) == SumOf(Filter(tickets[..i], PaidWith(m)), TotalOf)
    {
      var t := tickets[i];
      ghost var before := b;
      if t.paymentMethod.Some? {
        b := AddToBucket(b, t.paymentMethod.value, t.total);
      }
      assert forall m :: Bucket(b, m) == Bucket(before, m) + (if t.paymentMethod == Some(m) then t.total else 0);
      PrefixStep(tickets, i);
      PaymentStep(tickets[..i], t);
      assert forall m :: Bucket(b, m) == SumOf(Filter(tickets[..i] + [t], PaidWith(m)), TotalOf);
      i := i + 1;
    }
    assert tickets[..|tickets|] == tickets;
    PaymentBucketsAddUp(tickets);
    assert Bucket(b, Cash) == b.cash && Bucket(b, Debit) == b.debit;
    assert Bucket(b, MercadoPago) == b.mercadopago && Bucket(b, CuentaDni) == b.cuentadni;
  }

  /** Appending a ticket adds its total to the sum of its own method and to no other. */
  lemma {:induction false} PaymentStep(s: seq<Ticket>, x: Ticket)
    ensures forall m :: SumOf(Filter(s + [x], PaidWith(m)), TotalOf)
                        == SumOf(Filter(s, PaidWith(m)), TotalOf) + (if x.paymentMethod == Some(m) then x.total else 0)
  {
    forall m ensures SumOf(Filter(s + [x], PaidWith(m)), TotalOf)
                     == SumOf(Filter(s, PaidWith(m)), TotalOf) + (if x.paymentMethod == Some(m) then x.total else 0)
    {
      FilterStep(s, x, PaidWith(m), TotalOf);
    }
  }

  /** Every ticket with a method lands in exactly one bucket, so the four bucket sums add up to
      the sales of the tickets that have a method. */
  lemma {:induction false} PaymentBucketsAddUp(tickets: seq<Ticket>)
    ensures SumOf(Filter(tickets, PaidWith(Cash)), TotalOf) + SumOf(Filter(tickets, PaidWith(Debit)), TotalOf)
            + SumOf(Filter(tickets, PaidWith(MercadoPago)), TotalOf) + SumOf(Filter(tickets, PaidWith(CuentaDni)), TotalOf)
            == SumOf(Filter(tickets, HasPaymentMethod), TotalOf)
    decreases |tickets|
  {
    if tickets != [] {
      var p := tickets[..|tickets| - 1];
      var x := tickets[|tickets| - 1];
      assert tickets == p + [x];
      PaymentBucketsAddUp(p);
      FilterStep(p, x, HasPaymentMethod, TotalOf);
      PaymentStep(p, x);
      var own := if x.paymentMethod.Some? then x.total else 0;
      assert (if x.paymentMethod == Some(Cash) then x.total else 0) + (if x.paymentMethod == Some(Debit) then x.total else 0)
             + (if x.paymentMethod == Some(MercadoPago) then x.total else 0) + (if x.paymentMethod == Some(CuentaDni) then x.total else 0)
             == own by {
        match x.paymentMethod {
          case None =>
          case Some(m) => match m { case Cash => case Debit => case MercadoPago => case CuentaDni => }
        }
      }
    }
  }

  /** When every counted ticket has a payment method, the four buckets sum to the total sales. */
  lemma {:induction false} BucketsSumToSales(tickets: seq<Ticket>, b: PaymentBreakdown)
    requires forall m :: Bucket(b, m) == SumOf(Filter(tickets, PaidWith(m)), TotalOf)
    requires forall i :: 0 <= i < |tickets| ==> tickets[i].paymentMethod.Some?
    ensures BucketTotal(b) == SumOf(tickets, TotalOf)
  {
    PaymentBucketsAddUp(tickets);
    FilterAllKept(tickets, HasPaymentMethod);
    assert Bucket(b, Cash) == b.cash && Bucket(b, Debit) == b.debit;
    assert Bucket(b, MercadoPago) == b.mercadopago && Bucket(b, CuentaDni) == b.cuentadni;
  }

  // ---- dry-cleaning rollup ----

  function LineQuantity(it: DryCleaningItem): int { it.quantity }

  function LineSales(it: DryCleaningItem): int { it.price * it.quantity }

  function Named(n: string): DryCleaningItem -> bool
  {
    (it: DryCleaningItem) => it.name == n
  }

  /** The dry-cleaning lines of a ticket; a ticket without any contributes none. */
  function LinesOf(t: Ticket): seq<DryCleaningItem>
  {
    match t.dryCleaningItems
    case None => []
    case Some(items) => items
  }

  /** All dry-cleaning lines of the tickets, ticket by ticket. */
  function AllLines(tickets: seq<Ticket>): seq<DryCleaningItem>
    decreases |tickets|
  {
    if tickets == [] then [] else AllLines(tickets[..|tickets| - 1]) + LinesOf(tickets[|tickets| - 1])
  }

  function HasLines(t: Ticket): bool { LinesOf(t) != [] }

  /** Tickets without dry-cleaning lines contribute nothing to the rollup. */
  lemma {:induction false} ItemlessTicketsContributeNothing(tickets: seq<Ticket>)
    ensures AllLines(Filter(tickets, HasLines)) == AllLines(tickets)
    decreases |tickets|
  {
    if tickets != [] {
      var p := tickets[..|tickets| - 1];
      var x := tickets[|tickets| - 1];
      ItemlessTicketsContributeNothing(p);
      var fp := Filter(p, HasLines);
      if HasLines(x) {
        assert Filter(tickets, HasLines) == fp + [x];
        assert (fp + [x])[..|fp + [x]| - 1] == fp;
      } else {
        assert Filter(tickets, HasLines) == fp + [];
        assert fp + [] == fp;
        assert AllLines(tickets) == AllLines(p) + [];
      }
    }
  }

  /** The `Map.get(name)` lookup: the position of the summary named `n`, or `|acc|` when
      there is none. */
  function IndexOfName(acc: seq<ItemSummary>, n: string): (k: nat)
    ensures k <= |acc|
    ensures k < |acc| ==> acc[k].name == n
    ensures forall j :: 0 <= j < k ==> acc[j].name != n
    decreases |acc|
  {
    if acc == [] then 0 else if acc[0].name == n then 0 else 1 + IndexOfName(acc[1..], n)
  }

  /** The position of the first line named `n`, or `|items|` when there is none. */
  function FirstLine(items: seq<DryCleaningItem>, n: string): (k: nat)
    ensures k <= |items|
    ensures k < |items| ==> items[k].name == n
    ensures forall j :: 0 <= j < k ==> items[j].name != n
    decreases |items|
  {
    if items == [] then 0
    else
      var p := items[..|items| - 1];
      var k := FirstLine(p, n);
      if k < |p| then k else if items[|items| - 1].name == n then |p| else |items|
  }

  /** One step of the rollup: add the line to the summary of its name, or append a new
      summary when the name has not been seen. */
  function AddLine(acc: seq<ItemSummary>, it: DryCleaningItem): seq<ItemSummary>
  {
    var k := IndexOfName(acc, it.name);
    if k < |acc| then acc[k := ItemSummary(it.name, acc[k].quantity + it.quantity, acc[k].sales + LineSales(it))]
    else acc + [ItemSummary(it.name, it.quantity, LineSales(it))]
  }

  function Rollup(items: seq<DryCleaningItem>): seq<ItemSummary>
    decreases |items|
  {
    if items == [] then [] else AddLine(Rollup(items[..|items| - 1]), items[|items| - 1])
  }

  /** Every name appears at most once. */
  ghost predicate DistinctNames(r: seq<ItemSummary>)
  {
    forall i, j :: 0 <= i < j < |r| ==> r[i].name != r[j].name
  }

  /** A name has a summary exactly when some line carries it. */
  ghost predicate CoversNames(r: seq<ItemSummary>, items: seq<DryCleaningItem>)
  {
    forall n :: IndexOfName(r, n) < |r| <==> FirstLine(items, n) < |items|
  }

  /** Each summary holds the sums of its lines' quantities and of their price times quantity. */
  ghost predicate SumsMatch(r: seq<ItemSummary>, items: seq<DryCleaningItem>)
  {
    forall k :: 0 <= k < |r| ==>
      r[k].quantity == SumOf(Filter(items, Named(r[k].name)), LineQuantity)
      && r[k].sales == SumOf(Filter(items, Named(r[k].name)), LineSales)
  }

  /** Summaries are ordered by the first appearance of their names among the lines. */
  ghost predicate FirstAppearanceOrder(r: seq<ItemSummary>, items: seq<DryCleaningItem>)
  {
    forall i, j :: 0 <= i < j < |r| ==> FirstLine(items, r[i].name) < FirstLine(items, r[j].name)
  }

  /** The rollup's meaning: every name once, in order of first appearance, each with the sums
      of its lines' quantities and of their price times quantity. */
  ghost predicate Summarises(r: seq<ItemSummary>, items: seq<DryCleaningItem>)
  {
    DistinctNames(r) && CoversNames(r, items) && SumsMatch(r, items) && FirstAppearanceOrder(r, items)
  }

  lemma {:induction false} RollupSummarises(items: seq<DryCleaningItem>)
    ensures Summarises(Rollup(items), items)
    decreases |items|
  {
    if items != [] {
      var p := items[..|items| - 1];
      var x := items[|items| - 1];
      assert items == p + [x];
      RollupSummarises(p);
      var acc := Rollup(p);
      if IndexOfName(acc, x.name) < |acc| {
        ExistingNames(acc, p, x);
        ExistingSums(acc, p, x);
      } else {
        NewNames(acc, p, x);
        NewOrder(acc, p, x);
        NewSums(acc, p, x);
      }
    }
  }

  /** Looking up a name only depends on the names. */
  lemma {:induction false} IndexOfSameNames(a: seq<ItemSummary>, b: seq<ItemSummary>, n: string)
    requires |a| == |b| && forall j :: 0 <= j < |a| ==> a[j].name == b[j].name
    ensures IndexOfName(a, n) == IndexOfName(b, n)
  {
    assert forall j :: 0 <= j < |a| ==> (a[j].name == n <==> b[j].name == n);
  }

  /** Looking up a name after appending one summary. */
  lemma {:induction false} IndexOfAppend(a: seq<ItemSummary>, s: ItemSummary, n: string)
    ensures IndexOfName(a + [s], n) ==
      if IndexOfName(a, n) < |a| then IndexOfName(a, n) else if s.name == n then |a| else |a| + 1
  {
    assert forall j :: 0 <= j < |a| ==> (a + [s])[j] == a[j];
    assert (a + [s])[|a|] == s;
  }

  /** Looking up the first line of a name after appending one line. */
  lemma {:induction false} FirstLineAppend(p: seq<DryCleaningItem>, x: DryCleaningItem, n: string)
    ensures FirstLine(p + [x], n) ==
      if FirstLine(p, n) < |p| then FirstLine(p, n) else if x.name == n then |p| else |p| + 1
  {
    assert (p + [x])[..|p + [x]| - 1] == p;
  }

  /** Summaries of a covered list only carry names that occur among the lines. */
  lemma {:induction false} CoveredNameOccurs(acc: seq<ItemSummary>, p: seq<DryCleaningItem>, j: int)
    requires CoversNames(acc, p)
    requires 0 <= j < |acc|
    ensures FirstLine(p, acc[j].name) < |p|
  {
    assert IndexOfName(acc, acc[j].name) <= j;
  }

  /** Adding a line with a known name: names, coverage and order are unchanged. */
  lemma {:induction false} ExistingNames(acc: seq<ItemSummary>, p: seq<DryCleaningItem>, x: DryCleaningItem)
    requires DistinctNames(acc) && CoversNames(acc, p) && FirstAppearanceOrder(acc, p)
    requires IndexOfName(acc, x.name) < |acc|
    ensures DistinctNames(AddLine(acc, x)) && CoversNames(AddLine(acc, x), p + [x])
    ensures FirstAppearanceOrder(AddLine(acc, x), p + [x])
  {
    var r := AddLine(acc, x);
    assert forall j :: 0 <= j < |r| ==> r[j].name == acc[j].name;
    assert FirstLine(p, x.name) < |p|;
    forall n ensures IndexOfName(r, n) < |r| <==> FirstLine(p + [x], n) < |p + [x]| {
      IndexOfSameNames(r, acc, n);
      FirstLineAppend(p, x, n);
    }
    forall j | 0 <= j < |r| ensures FirstLine(p + [x], r[j].name) == FirstLine(p, acc[j].name) {
      CoveredNameOccurs(acc, p, j);
      FirstLineAppend(p, x, acc[j].name);
    }
  }

  /** Adding a line with a known name adds its quantity and sales to that name's summary only. */
  lemma {:induction false} ExistingSums(acc: seq<ItemSummary>, p: seq<DryCleaningItem>, x: DryCleaningItem)
    requires DistinctNames(acc) && SumsMatch(acc, p)
    requires IndexOfName(acc, x.name) < |acc|
    ensures SumsMatch(AddLine(acc, x), p + [x])
  {
    var k := IndexOfName(acc, x.name);
    var r := AddLine(acc, x);
    forall j | 0 <= j < |r|
      ensures r[j].quantity == SumOf(Filter(p + [x], Named(r[j].name)), LineQuantity)
      ensures r[j].sales == SumOf(Filter(p + [x], Named(r[j].name)), LineSales)
    {
      assert r[j].name == acc[j].name;
      assert Named(r[j].name)(x) <==> j == k;
      FilterStep(p, x, Named(r[j].name), LineQuantity);
      FilterStep(p, x, Named(r[j].name), LineSales);
    }
  }

  /** Adding a line with a new name appends its summary at the end: names stay distinct and
      the new name is now covered. */
  lemma {:induction false} NewNames(acc: seq<ItemSummary>, p: seq<DryCleaningItem>, x: DryCleaningItem)
    requires DistinctNames(acc) && CoversNames(acc, p)
    requires IndexOfName(acc, x.name) == |acc|
    ensures DistinctNames(AddLine(acc, x)) && CoversNames(AddLine(acc, x), p + [x])
  {
    var s := ItemSummary(x.name, x.quantity, LineSales(x));
    assert AddLine(acc, x) == acc + [s];
    forall n ensures IndexOfName(acc + [s], n) < |acc| + 1 <==> FirstLine(p + [x], n) < |p| + 1 {
      IndexOfAppend(acc, s, n);
      FirstLineAppend(p, x, n);
    }
  }

  /** The appended summary's name first appears at the new line, after every earlier name. */
  lemma {:induction false} NewOrder(acc: seq<ItemSummary>, p: seq<DryCleaningItem>, x: DryCleaningItem)
    requires CoversNames(acc, p) && FirstAppearanceOrder(acc, p)
    requires IndexOfName(acc, x.name) == |acc|
    ensures FirstAppearanceOrder(AddLine(acc, x), p + [x])
  {
    var s := ItemSummary(x.name, x.quantity, LineSales(x));
    var r := acc + [s];
    assert AddLine(acc, x) == r;
    assert FirstLine(p, x.name) == |p|;
    FirstLineAppend(p, x, x.name);
    forall j | 0 <= j < |acc| ensures FirstLine(p + [x], r[j].name) == FirstLine(p, acc[j].name) < |p| {
      CoveredNameOccurs(acc, p, j);
      FirstLineAppend(p, x, acc[j].name);
    }
  }

  /** A line with a new name starts a summary holding just its own quantity and sales. */
  lemma {:induction false} NewSums(acc: seq<ItemSummary>, p: seq<DryCleaningItem>, x: DryCleaningItem)
    requires CoversNames(acc, p) && SumsMatch(acc, p)
    requires IndexOfName(acc, x.name) == |acc|
    ensures SumsMatch(AddLine(acc, x), p + [x])
  {
    var r := AddLine(acc, x);
    assert FirstLine(p, x.name) == |p|;
    NameAbsent(p, x.name);
    forall j | 0 <= j < |r|
      ensures r[j].quantity == SumOf(Filter(p + [x], Named(r[j].name)), LineQuantity)
      ensures r[j].sales == SumOf(Filter(p + [x], Named(r[j].name)), LineSales)
    {
      NewSumsAt(acc, p, x, j);
    }
  }

  /** A name no line carries selects no lines. */
  lemma {:induction false} NameAbsent(p: seq<DryCleaningItem>, n: string)
    requires FirstLine(p, n) == |p|
    ensures Filter(p, Named(n)) == []
  {
    forall i | 0 <= i < |p| ensures !Named(n)(p[i]) { }
    FilterNoneKept(p, Named(n));
  }

  /** One summary of `NewSums`. */
  lemma {:induction false} NewSumsAt(acc: seq<ItemSummary>, p: seq<DryCleaningItem>, x: DryCleaningItem, j: int)
    requires SumsMatch(acc, p) && Filter(p, Named(x.name)) == []
    requires IndexOfName(acc, x.name) == |acc| && 0 <= j <= |acc|
    ensures var r := AddLine(acc, x);
      r[j].quantity == SumOf(Filter(p + [x], Named(r[j].name)), LineQuantity)
      && r[j].sales == SumOf(Filter(p + [x], Named(r[j].name)), LineSales)
  {
    var r := AddLine(acc, x);
    FilterStep(p, x, Named(r[j].name), LineQuantity);
    FilterStep(p, x, Named(r[j].name), LineSales);
    if j < |acc| {
      assert r[j] == acc[j];
      assert r[j].name != x.name;
    }
  }


  lemma {:induction false} RollupStep(s: seq<DryCleaningItem>, x: DryCleaningItem)
    ensures Rollup(s + [x]) == AddLine(Rollup(s), x)
  {
    assert (s + [x])[..|s|] == s;
  }

  lemma {:induction false} RollupPrefixStep(done: seq<DryCleaningItem>, lines: seq<DryCleaningItem>, j: nat)
    requires j < |lines|
    ensures Rollup(done + lines[..j + 1]) == AddLine(Rollup(done + lines[..j]), lines[j])
  {
    assert done + lines[..j + 1] == (done + lines[..j]) + [lines[j]];
    RollupStep(done + lines[..j], lines[j]);
  }

  lemma {:induction false} AllLinesStep(tickets: seq<Ticket>, i: nat)
    requires i < |tickets|
    ensures AllLines(tickets[..i + 1]) == AllLines(tickets[..i]) + LinesOf(tickets[i])
  {
    assert tickets[..i + 1][..i] == tickets[..i];
  }

  /** The inner `forEach` over one ticket's lines: each line is added to the summary of its
      name, or starts a new summary at the end. */
  method AddLines(acc: seq<ItemSummary>, ghost done: seq<DryCleaningItem>, lines: seq<DryCleaningItem>)
    returns (r: seq<ItemSummary>)
    requires acc == Rollup(done)
    ensures r == Rollup(done + lines)
  {
    r := acc;
    var j := 0;
    assert done + lines[..0] == done;
    while j < |lines|
      invariant 0 <= j <= |lines|
      invariant r == Rollup(done + lines[..j])
    {
      var it := lines[j];
      ghost var before := r;
      var k := IndexOfName(r, it.name);
      if k < |r| {
        r := r[k := ItemSummary(it.name, r[k].quantity + it.quantity, r[k].sales + it.price * it.quantity)];
      } else {
        r := r + [ItemSummary(it.name, it.quantity, it.price * it.quantity)];
      }
      assert r == AddLine(before, it);
      assert r == Rollup(done + lines[..j + 1]) by { RollupPrefixStep(done, lines, j); }
      j := j + 1;
    }
    assert lines[..|lines|] == lines;
  }

  /** `compileDryCleaningItems` and the rollups inlined in the three fallbacks: a `Map` from
      item name to quantity and sales, filled line by line and read back in insertion order. */
  method CompileDryCleaningItems(tickets: seq<Ticket>) returns (r: seq<ItemSummary>)
    ensures r == Rollup(AllLines(tickets))
    ensures Summarises(r, AllLines(tickets))
  {
    r := [];
    var i := 0;
    while i < |tickets|
      invariant 0 <= i <= |tickets|
      invariant r == Rollup(AllLines(tickets[..i]))
    {
      r := AddLines(r, AllLines(tickets[..i]), LinesOf(tickets[i]));
      AllLinesStep(tickets, i);
      i := i + 1;
    }
    assert tickets[..|tickets|] == tickets;
    RollupSummarises(AllLines(tickets));
  }

  // ---- daily fallback ----

  /** `getDailyMetricsFromLocalStorage`: the tickets of the reference date's calendar day. */
  method DailyMetricsFromLocal(tickets: seq<Ticket>, date: int) returns (m: DailyMetrics)
    ensures var day := Filter(tickets, OnDay(date));
      && m.totalValets == SumOf(day, ValetsOf)
      && m.totalSales == SumOf(day, TotalOf)
      && (forall pm :: Bucket(m.paymentBreakdown, pm) == SumOf(Filter(day, PaidWith(pm)), TotalOf))
      && m.dryCleaningItems == Rollup(AllLines(day))
  {
    var day := Filter(tickets, OnDay(date));
    var payments := AccumulatePayments(day);
    var items := CompileDryCleaningItems(day);
    m := DailyMetrics(SumOf(day, ValetsOf), SumOf(day, TotalOf), payments, items);
  }

  /** A ticket is counted for the day exactly when its date has the reference date's year,
      month and day, which is exactly when it lies between 00:00 and 23:59:59.999 of that day;
      the counted tickets keep their order. */
  lemma {:induction false} DailySelection(tickets: seq<Ticket>, date: int, t: Ticket)
    ensures t in Filter(tickets, OnDay(date)) <==> t in tickets && CivilOf(t.date) == CivilOf(date)
    ensures CivilOf(t.date) == CivilOf(date) <==> StartOfDay(date) <= t.date <= EndOfDay(date)
    ensures IsSubsequence(Filter(tickets, OnDay(date)), tickets)
  {
    FilterMembership(tickets, OnDay(date), t);
    SameCalendarDayIff(t.date, date);
    WithinDays(t.date, DayOf(date), DayOf(date));
    FilterIsSubsequence(tickets, OnDay(date));
  }

  // ---- weekly fallback ----

  /** Day number of the Sunday on or before `date`. */
  function WeekFirstDay(date: int): int
  {
    DayOf(date) - Weekday(DayOf(date))
  }

  /** `startOfWeek`: `setDate(getDate() - getDay())`, then `setHours(0, 0, 0, 0)`. */
  function StartOfWeek(date: int): int
  {
    StartOfDay(SetDate(date, CivilOf(date).day - Weekday(DayOf(date))))
  }

  /** `endOfWeek`: `setDate(getDate() + 6)` on `startOfWeek`, then `setHours(23, 59, 59, 999)`. */
  function EndOfWeek(date: int): int
  {
    var s := StartOfWeek(date);
    EndOfDay(SetDate(s, CivilOf(s).day + 6))
  }

  /** The week window runs from 00:00 on the Sunday on or before the reference date to the last
      millisecond of the Saturday after it; a date-time lies in it exactly when its day does. */
  lemma {:induction false} WeekWindow(date: int)
    ensures Weekday(WeekFirstDay(date)) == 0
    ensures WeekFirstDay(date) <= DayOf(date) <= WeekFirstDay(date) + 6
    ensures StartOfWeek(date) == WeekFirstDay(date) * MsPerDay
    ensures EndOfWeek(date) == (WeekFirstDay(date) + 6) * MsPerDay + MsPerDay - 1
    ensures forall t :: StartOfWeek(date) <= t <= EndOfWeek(date) <==> WeekFirstDay(date) <= DayOf(t) <= WeekFirstDay(date) + 6
  {
    var d := WeekFirstDay(date);
    SundayOnOrBefore(DayOf(date));
    var back := AddDays(date, -Weekday(DayOf(date)));
    SetDateMovesDays(date, -Weekday(DayOf(date)));
    assert DayOf(back) == d;
    var s := StartOfWeek(date);
    assert s == d * MsPerDay;
    assert DayOf(s) == d by { DayOfBounds(s); }
    SetDateMovesDays(s, 6);
    assert DayOf(AddDays(s, 6)) == d + 6;
    assert EndOfWeek(date) == (d + 6) * MsPerDay + MsPerDay - 1;
    forall t ensures StartOfWeek(date) <= t <= EndOfWeek(date) <==> d <= DayOf(t) <= d + 6 {
      WithinDays(t, d, d + 6);
    }
  }

  /** The `dailyBreakdown` entry of the day containing `day`. */
  function DayTotals(week: seq<Ticket>, day: int): DayEntry
  {
    var onDay := Filter(week, OnDay(day));
    DayEntry(day, SumOf(onDay, TotalOf), SumOf(onDay, ValetsOf))
  }

  function EntrySales(e: DayEntry): int { e.sales }

  function EntryValets(e: DayEntry): int { e.valets }

  /** Tickets whose day number lies in `first .. first + k - 1`. */
  function InDays(first: int, k: int): Ticket -> bool
  {
    (t: Ticket) => first <= DayOf(t.date) < first + k
  }

  /** Day `a + k - 1` splits the days `a .. a + k - 1` into the first `k - 1` days and itself. */
  lemma {:induction false} LastDaySplit(week: seq<Ticket>, a: int, k: int, d: int)
    requires 1 <= k && DayOf(d) == a + k - 1
    ensures forall i :: 0 <= i < |week| ==> (InDays(a, k)(week[i]) <==> InDays(a, k - 1)(week[i]) || OnDay(d)(week[i]))
    ensures forall i :: 0 <= i < |week| ==> !(InDays(a, k - 1)(week[i]) && OnDay(d)(week[i]))
  {
    forall i | 0 <= i < |week|
      ensures InDays(a, k)(week[i]) <==> InDays(a, k - 1)(week[i]) || OnDay(d)(week[i])
      ensures !(InDays(a, k - 1)(week[i]) && OnDay(d)(week[i]))
    {
      var x := week[i];
      SameCalendarDayIff(x.date, d);
      assert InDays(a, k)(x) == (a <= DayOf(x.date) < a + k);
      assert InDays(a, k - 1)(x) == (a <= DayOf(x.date) < a + k - 1);
      assert OnDay(d)(x) == SameCalendarDay(x.date, d);
    }
  }

  /** Per-day sums over consecutive days from `start` add up to the sum over those days. */
  lemma {:induction false} DaySumsAddUp(week: seq<Ticket>, start: int, entries: seq<DayEntry>, f: Ticket -> int, g: DayEntry -> int)
    requires forall i :: 0 <= i < |entries| ==> g(entries[i]) == SumOf(Filter(week, OnDay(AddDays(start, i))), f)
    ensures SumOf(entries, g) == SumOf(Filter(week, InDays(DayOf(start), |entries|)), f)
    decreases |entries|
  {
    var k := |entries|;
    var a := DayOf(start);
    if k == 0 {
      FilterNoneKept(week, InDays(a, 0));
    } else {
      var init := entries[..k - 1];
      assert forall i :: 0 <= i < |init| ==> init[i] == entries[i];
      DaySumsAddUp(week, start, init, f, g);
      var d := AddDays(start, k - 1);
      SetDateMovesDays(start, k - 1);
      LastDaySplit(week, a, k, d);
      SumOfFilterSplit(week, InDays(a, k), InDays(a, k - 1), OnDay(d), f);
    }
  }

  /** Every windowed ticket falls on exactly one of the seven days, so the per-day sales and
      valets add up to the week's totals. */
  lemma {:induction false} WeekDaysAddUp(tickets: seq<Ticket>, date: int, entries: seq<DayEntry>)
    requires |entries| == 7
    requires forall i :: 0 <= i < 7 ==>
      entries[i] == DayTotals(Filter(tickets, InRange(StartOfWeek(date), EndOfWeek(date))), AddDays(StartOfWeek(date), i))
    ensures var week := Filter(tickets, InRange(StartOfWeek(date), EndOfWeek(date)));
      SumOf(entries, EntrySales) == SumOf(week, TotalOf) && SumOf(entries, EntryValets) == SumOf(week, ValetsOf)
  {
    var start := StartOfWeek(date);
    var week := Filter(tickets, InRange(start, EndOfWeek(date)));
    WeekIsSevenDays(tickets, date);
    DaySumsAddUp(week, start, entries, TotalOf, EntrySales);
    DaySumsAddUp(week, start, entries, ValetsOf, EntryValets);
  }

  /** Every ticket of the week window falls on one of the seven days from its Sunday. */
  lemma {:induction false} WeekIsSevenDays(tickets: seq<Ticket>, date: int)
    ensures var week := Filter(tickets, InRange(StartOfWeek(date), EndOfWeek(date)));
      Filter(week, InDays(DayOf(StartOfWeek(date)), 7)) == week
  {
    var start := StartOfWeek(date);
    var week := Filter(tickets, InRange(start, EndOfWeek(date)));
    WeekWindow(date);
    assert DayOf(start) == WeekFirstDay(date) by { DayOfBounds(start); }
    forall i | 0 <= i < |week| ensures InDays(DayOf(start), 7)(week[i]) {
      FilterMembership(tickets, InRange(start, EndOfWeek(date)), week[i]);
    }
    FilterAllKept(week, InDays(DayOf(start), 7));
  }

  /** The day loop of `getWeeklyMetricsFromLocalStorage`: seven entries, one per day from
      `start`, each summing the week's tickets of that calendar day. */
  method DailyBreakdown(week: seq<Ticket>, start: int) returns (daily: seq<DayEntry>)
    ensures |daily| == 7
    ensures forall i :: 0 <= i < 7 ==> daily[i] == DayTotals(week, AddDays(start, i))
  {
    daily := [];
    var i := 0;
    while i < 7
      invariant 0 <= i <= 7 && |daily| == i
      invariant forall k :: 0 <= k < i ==> daily[k] == DayTotals(week, AddDays(start, k))
    {
      var current := SetDate(start, CivilOf(start).day + i);
      SetDateMovesDays(start, i);
      var dayTickets := Filter(week, OnDay(current));
      daily := daily + [DayEntry(current, SumOf(dayTickets, TotalOf), SumOf(dayTickets, ValetsOf))];
      i := i + 1;
    }
  }

  /** `getWeeklyMetricsFromLocalStorage`: the tickets of the Sunday-start week containing the
      reference date, with one breakdown entry per day, Sunday to Saturday. */
  method WeeklyMetricsFromLocal(tickets: seq<Ticket>, date: int) returns (m: WeeklyMetrics)
    ensures var week := Filter(tickets, InRange(StartOfWeek(date), EndOfWeek(date)));
      && m.totalValets == SumOf(week, ValetsOf)
      && m.totalSales == SumOf(week, TotalOf)
      && (forall pm :: Bucket(m.paymentBreakdown, pm) == SumOf(Filter(week, PaidWith(pm)), TotalOf))
      && m.dryCleaningItems == Rollup(AllLines(week))
      && |m.dailyBreakdown| == 7
      && (forall i :: 0 <= i < 7 ==> m.dailyBreakdown[i] == DayTotals(week, AddDays(StartOfWeek(date), i)))
      && SumOf(m.dailyBreakdown, EntrySales) == m.totalSales
      && SumOf(m.dailyBreakdown, EntryValets) == m.totalValets
  {
    var start := StartOfWeek(date);
    var week := Filter(tickets, InRange(start, EndOfWeek(date)));
    var payments := AccumulatePayments(week);
    var daily := DailyBreakdown(week, start);
    var items := CompileDryCleaningItems(week);
    m := WeeklyMetrics(SumOf(week, ValetsOf), SumOf(week, TotalOf), payments, daily, items);
    WeekDaysAddUp(tickets, date, daily);
  }

  // ---- monthly fallback ----

  /** `startOfMonth`: `new Date(year, month, 1)`. */
  function StartOfMonth(date: int): int
  {
    var c := CivilOf(date);
    MakeDate(c.year, c.month, 1)
  }

  /** `endOfMonth`: `new Date(year, month + 1, 0, 23, 59, 59, 999)`. */
  function EndOfMonth(date: int): int
  {
    var c := CivilOf(date);
    MakeDay(c.year, c.month + 1, 0) * MsPerDay + MsPerDay - 1
  }

  /** `firstDay`: the weekday of the 1st of the month. */
  function FirstWeekday(date: int): int
  {
    var c := CivilOf(date);
    Weekday(MakeDay(c.year, c.month, 1))
  }

  /** `totalDays`: `new Date(year, month + 1, 0).getDate()`. */
  function TotalDays(date: int): int
  {
    var c := CivilOf(date);
    CivilFromDayNumber(MakeDay(c.year, c.month + 1, 0)).day
  }

  /** `totalWeeks`: `Math.ceil((firstDay + totalDays) / 7)`, for a non-negative numerator. */
  function TotalWeeks(date: int): int
  {
    (FirstWeekday(date) + TotalDays(date) + 6) / 7
  }

  /** `weekStart` of week `w` from the month's start `som` and the weekday `firstDay` of its 1st:
      day `1 + 7w - firstDay` of the month at 00:00, raised to `som` when it falls before it. */
  function WeekStartFrom(som: int, firstDay: int, w: int): int
  {
    var s := SetDate(som, 1 + w * 7 - firstDay);
    if s < som then som else s
  }

  /** `weekEnd` from `weekStart`: six days later, still at 00:00, lowered to the month's end `eom`
      when it falls after it. */
  function WeekEndFrom(weekStart: int, eom: int): int
  {
    var e := SetDate(weekStart, CivilOf(weekStart).day + 6);
    if e > eom then eom else e
  }

  function MonthWeekStart(date: int, w: int): int
  {
    WeekStartFrom(StartOfMonth(date), FirstWeekday(date), w)
  }

  function MonthWeekEnd(date: int, w: int): int
  {
    WeekEndFrom(MonthWeekStart(date, w), EndOfMonth(date))
  }

  /** A `weeklyBreakdown` entry: the sales and valets of the tickets dated `lo .. hi`. */
  function WeekSums(month: seq<Ticket>, lo: int, hi: int, number: int): WeekEntry
  {
    var inWeek := Filter(month, InRange(lo, hi));
    WeekEntry(number, SumOf(inWeek, TotalOf), SumOf(inWeek, ValetsOf))
  }

  /** Day number of the 1st of the reference date's month. */
  function MonthFirstDay(date: int): int
  {
    var c := CivilOf(date);
    DayNumber(Civil(c.year, c.month, 1))
  }

  /** Number of days in the reference date's month. */
  function MonthLength(date: int): int
  {
    var c := CivilOf(date);
    DaysInMonth(c.year, c.month)
  }

  /** The month window runs from 00:00 on the 1st to the last millisecond of the month's last
      day, `totalDays` is the month's length and `firstDay` the weekday of its 1st. */
  lemma {:induction false} MonthBounds(date: int)
    ensures 28 <= TotalDays(date) == MonthLength(date) <= 31
    ensures StartOfMonth(date) == MonthFirstDay(date) * MsPerDay
    ensures EndOfMonth(date) == (MonthFirstDay(date) + MonthLength(date) - 1) * MsPerDay + MsPerDay - 1
    ensures FirstWeekday(date) == Weekday(MonthFirstDay(date))
  {
    MonthStartBounds(date);
    MonthEndBounds(date);
  }

  lemma {:induction false} MonthStartBounds(date: int)
    ensures StartOfMonth(date) == MonthFirstDay(date) * MsPerDay
    ensures FirstWeekday(date) == Weekday(MonthFirstDay(date))
  {
    FirstOfMonth(CivilOf(date).year, CivilOf(date).month);
  }

  lemma {:induction false} MonthEndBounds(date: int)
    ensures 28 <= TotalDays(date) == MonthLength(date) <= 31
    ensures EndOfMonth(date) == (MonthFirstDay(date) + MonthLength(date) - 1) * MsPerDay + MsPerDay - 1
  {
    LastOfMonth(CivilOf(date).year, CivilOf(date).month);
  }

  /** The day before the next month's 1st is the last day of month `m`, `n` days after its 1st. */
  lemma {:induction false} LastOfMonth(y: int, m: int)
    requires 0 <= m < 12
    ensures MakeDay(y, m + 1, 0) == DayNumber(Civil(y, m, 1)) + DaysInMonth(y, m) - 1
    ensures CivilFromDayNumber(MakeDay(y, m + 1, 0)) == Civil(y, m, DaysInMonth(y, m))
    ensures 28 <= DaysInMonth(y, m) <= 31
  {
    DayZeroOfNextMonth(y, m);
    CivilRoundTrip(Civil(y, m, DaysInMonth(y, m)));
  }

  /** A date-time lies in the month window exactly when its calendar year and month are the
      reference date's. */
  lemma {:induction false} MonthShape(date: int)
    ensures forall t :: StartOfMonth(date) <= t <= EndOfMonth(date) <==>
      CivilOf(t).year == CivilOf(date).year && CivilOf(t).month == CivilOf(date).month
  {
    var c := CivilOf(date);
    var f := MonthFirstDay(date);
    var n := MonthLength(date);
    MonthBounds(date);
    forall t ensures StartOfMonth(date) <= t <= EndOfMonth(date) <==> CivilOf(t).year == c.year && CivilOf(t).month == c.month {
      WithinDays(t, f, f + n - 1);
      MonthMembership(c.year, c.month, DayOf(t));
    }
  }

  /** Day `k` lies in month `m` of year `y` exactly when it lies between that month's first and
      last day numbers. */
  lemma {:induction false} MonthMembership(y: int, m: int, k: int)
    requires 0 <= m < 12
    ensures DayNumber(Civil(y, m, 1)) <= k <= DayNumber(Civil(y, m, 1)) + DaysInMonth(y, m) - 1 <==>
      CivilFromDayNumber(k).year == y && CivilFromDayNumber(k).month == m
  {
    var f := DayNumber(Civil(y, m, 1));
    var c := CivilFromDayNumber(k);
    if f <= k <= f + DaysInMonth(y, m) - 1 {
      var here := Civil(y, m, k - f + 1);
      CivilRoundTrip(here);
    }
    if c.year == y && c.month == m {
      assert k == f + c.day - 1;
    }
  }

  /** A month spans four to six `weeklyBreakdown` weeks, and the weeks reach its last day. */
  lemma {:induction false} MonthWeekCount(date: int)
    ensures 4 <= TotalWeeks(date) <= 6
    ensures FirstWeekday(date) + MonthLength(date) <= 7 * TotalWeeks(date)
    ensures 7 * (TotalWeeks(date) - 1) < FirstWeekday(date) + MonthLength(date)
  {
    MonthBounds(date);
  }

  /** Day number on which week `w`'s window starts: day `1 + 7w - firstDay` of the month, or the
      1st for week 0. */
  function MonthWeekFirstDay(date: int, w: int): int
  {
    if w == 0 then MonthFirstDay(date) else MonthFirstDay(date) + 7 * w - FirstWeekday(date)
  }

  /** Day number of the month's last day. */
  function MonthLastDay(date: int): int
  {
    MonthFirstDay(date) + MonthLength(date) - 1
  }

  /** 00:00 on the first day of week `w`. */
  function MonthWeekLo(date: int, w: int): int
  {
    MonthWeekFirstDay(date, w) * MsPerDay
  }

  /** 00:00 six days after week `w`'s first day, or `endOfMonth` when that passes the month. */
  function MonthWeekHi(date: int, w: int): int
  {
    if MonthWeekFirstDay(date, w) + 6 > MonthLastDay(date) then EndOfMonth(date)
    else (MonthWeekFirstDay(date, w) + 6) * MsPerDay
  }

  /** The `weeklyBreakdown` entry of week `w` (numbered from 1), over the window that
      `MonthWeekWindow` shows the week loop computes. */
  function WeekTotals(month: seq<Ticket>, date: int, w: int): WeekEntry
  {
    WeekSums(month, MonthWeekLo(date, w), MonthWeekHi(date, w), w + 1)
  }

  /** Week `w`'s window starts at 00:00 of its first day and ends at 00:00 six days later, or at
      `endOfMonth` when that would pass the month's last day; every week starts inside the month. */
  lemma {:induction false} MonthWeekWindow(date: int, w: int)
    requires 0 <= w < TotalWeeks(date)
    ensures MonthFirstDay(date) <= MonthWeekFirstDay(date, w) <= MonthLastDay(date)
    ensures MonthWeekStart(date, w) == MonthWeekLo(date, w)
    ensures MonthWeekEnd(date, w) == MonthWeekHi(date, w)
  {
    MonthWeekCount(date);
    MonthWeekStartIs(date, w);
    MonthWeekEndIs(date, w);
  }

  /** The 1st of the month at 00:00 has day-of-month 1. */
  lemma {:induction false} StartOfMonthFirst(date: int)
    ensures DayOf(StartOfMonth(date)) == MonthFirstDay(date) && TimeInDay(StartOfMonth(date)) == 0
    ensures CivilOf(StartOfMonth(date)).day == 1
  {
    var c := CivilOf(date);
    MonthStartBounds(date);
    DaySplit(StartOfMonth(date), MonthFirstDay(date), 0);
    CivilRoundTrip(Civil(c.year, c.month, 1));
  }

  lemma {:induction false} MonthWeekStartIs(date: int, w: int)
    requires 0 <= w
    ensures MonthWeekStart(date, w) == MonthWeekLo(date, w)
  {
    var som, f, fd := StartOfMonth(date), MonthFirstDay(date), FirstWeekday(date);
    assert som == f * MsPerDay && 0 <= fd < 7 by { MonthStartBounds(date); }
    assert CivilOf(som).day == 1 by { StartOfMonthFirst(date); }
    WeekStartFromFirst(som, f, fd, w);
  }

  /** From 00:00 on the 1st of a month whose 1st is day `f` with weekday `fd`, `weekStart` of
      week `w` is 00:00 of day `f + 7w - fd`, or of day `f` for week 0. */
  lemma {:induction false} WeekStartFromFirst(som: int, f: int, fd: int, w: int)
    requires som == f * MsPerDay && CivilOf(som).day == 1 && 0 <= fd < 7 && 0 <= w
    ensures WeekStartFrom(som, fd, w) == (if w == 0 then f else f + 7 * w - fd) * MsPerDay
  {
    SetDateMovesDays(som, 7 * w - fd);
    var s := SetDate(som, 1 + w * 7 - fd);
    assert s == (f + 7 * w - fd) * MsPerDay;
    if w == 0 {
      assert s < som <==> fd > 0;
    } else {
      assert som <= s;
    }
  }


  /** 00:00 of day `a` is after the last millisecond of day `b` exactly when `a` is later. */
  lemma {:induction false} MidnightAfter(a: int, b: int)
    ensures a * MsPerDay > b * MsPerDay + MsPerDay - 1 <==> a > b
  {
    if a > b {
      assert a * MsPerDay >= (b + 1) * MsPerDay;
    } else {
      assert a * MsPerDay <= b * MsPerDay;
    }
  }

  lemma {:induction false} MonthWeekEndIs(date: int, w: int)
    requires 0 <= w
    ensures MonthWeekEnd(date, w) == MonthWeekHi(date, w)
  {
    MonthWeekStartIs(date, w);
    MonthEndBounds(date);
    WeekEndFromMidnight(MonthWeekStart(date, w), MonthWeekFirstDay(date, w), EndOfMonth(date), MonthLastDay(date));
  }

  /** From 00:00 of day `s`, `weekEnd` is 00:00 of day `s + 6`, or the last millisecond of day
      `last` when that is earlier. */
  lemma {:induction false} WeekEndFromMidnight(ws: int, s: int, eom: int, last: int)
    requires ws == s * MsPerDay && eom == last * MsPerDay + MsPerDay - 1
    ensures WeekEndFrom(ws, eom) == if s + 6 > last then eom else (s + 6) * MsPerDay
  {
    DaySplit(ws, s, 0);
    SetDateMovesDays(ws, 6);
    assert SetDate(ws, CivilOf(ws).day + 6) == (s + 6) * MsPerDay;
    MidnightAfter(s + 6, last);
  }



  /** When the month does not start on a Sunday, week 1 starts before week 0 ends, so tickets of
      the overlapping days count in both weeks. */
  lemma {:induction false} MonthFirstWeeksOverlap(date: int)
    ensures FirstWeekday(date) > 0 <==> MonthWeekStart(date, 1) <= MonthWeekEnd(date, 0)
  {
    var f, fd := MonthFirstDay(date), FirstWeekday(date);
    assert MonthWeekStart(date, 1) == (f + 7 - fd) * MsPerDay by { MonthWeekStartIs(date, 1); }
    assert MonthWeekEnd(date, 0) == (f + 6) * MsPerDay by {
      MonthEndBounds(date);
      MonthWeekEndIs(date, 0);
    }
    assert 0 <= fd < 7;
    if fd > 0 {
      assert (f + 7 - fd) * MsPerDay <= (f + 6) * MsPerDay;
    } else {
      assert (f + 7 - fd) * MsPerDay > (f + 6) * MsPerDay;
    }
  }

  /** A date-time later than 00:00 on the seventh day of week `w` (not the last week) lies outside
      week `v`'s window. */
  lemma {:induction false} OutsideWeek(date: int, w: int, v: int, t: int)
    requires 1 <= w && w + 1 < TotalWeeks(date) && 0 <= v < TotalWeeks(date)
    requires DayOf(t) == MonthWeekFirstDay(date, w) + 6 && TimeInDay(t) > 0
    ensures !(MonthWeekStart(date, v) <= t <= MonthWeekEnd(date, v))
  {
    MonthWeekWindow(date, w + 1);
    MonthWeekWindow(date, v);
    DayOfBounds(t);
    var sv := MonthWeekFirstDay(date, v);
    if v <= w {
      assert sv + 6 <= DayOf(t);
      assert MonthWeekEnd(date, v) == (sv + 6) * MsPerDay;
    } else {
      assert sv >= DayOf(t) + 1;
    }
  }

  /** A week that is not the last one ends at 00:00 of its seventh day, and the next week starts
      the day after, so a ticket later on that day lies in the month but in no week's window. */
  lemma {:induction false} MonthWeekEndGap(date: int, w: int, t: int)
    requires 1 <= w && w + 1 < TotalWeeks(date)
    requires DayOf(t) == MonthWeekFirstDay(date, w) + 6 && TimeInDay(t) > 0
    ensures StartOfMonth(date) <= t <= EndOfMonth(date)
    ensures forall v :: 0 <= v < TotalWeeks(date) ==> !(MonthWeekStart(date, v) <= t <= MonthWeekEnd(date, v))
  {
    MonthBounds(date);
    MonthWeekWindow(date, w + 1);
    WithinDays(t, MonthFirstDay(date), MonthLastDay(date));
    forall v | 0 <= v < TotalWeeks(date)
      ensures !(MonthWeekStart(date, v) <= t <= MonthWeekEnd(date, v))
    {
      OutsideWeek(date, w, v, t);
    }
  }

  /** The `weeklyBreakdown` entries of weeks `0 .. n - 1`, in order. */
  function FirstWeeks(month: seq<Ticket>, date: int, n: nat): (r: seq<WeekEntry>)
    ensures |r| == n
  {
    if n == 0 then [] else FirstWeeks(month, date, n - 1) + [WeekTotals(month, date, n - 1)]
  }

  /** Entry `k` of the first `n` weeks is week `k`'s totals. */
  lemma {:induction false} FirstWeeksIndex(month: seq<Ticket>, date: int, n: nat)
    ensures forall k :: 0 <= k < n ==> FirstWeeks(month, date, n)[k] == WeekTotals(month, date, k)
  {
    if n > 0 {
      FirstWeeksIndex(month, date, n - 1);
      var init := FirstWeeks(month, date, n - 1);
      var last := WeekTotals(month, date, n - 1);
      assert FirstWeeks(month, date, n) == init + [last];
      forall k | 0 <= k < n ensures FirstWeeks(month, date, n)[k] == WeekTotals(month, date, k) {
        if k < n - 1 {
          assert (init + [last])[k] == init[k];
        }
      }
    }
  }

  /** With non-negative ticket totals, no week's sales exceed the month's. */
  lemma {:induction false} WeekSalesBounded(month: seq<Ticket>, date: int, w: int)
    requires forall i :: 0 <= i < |month| ==> month[i].total >= 0
    ensures 0 <= WeekTotals(month, date, w).sales <= SumOf(month, TotalOf)
  {
    SumOfFilterBounded(month, InRange(MonthWeekLo(date, w), MonthWeekHi(date, w)), TotalOf);
  }

  /** `weekStart` of week `w` in the week loop of `getMonthlyMetricsFromLocalStorage`. */
  method WeekStartAt(som: int, firstDay: int, w: int) returns (weekStart: int)
    ensures weekStart == WeekStartFrom(som, firstDay, w)
  {
    var s := SetDate(som, 1 + w * 7 - firstDay);
    weekStart := s;
    if s < som {
      weekStart := som;
    }
  }

  /** `weekEnd` of a week in the week loop of `getMonthlyMetricsFromLocalStorage`. */
  method WeekEndAt(weekStart: int, eom: int) returns (weekEnd: int)
    ensures weekEnd == WeekEndFrom(weekStart, eom)
  {
    var e := SetDate(weekStart, CivilOf(weekStart).day + 6);
    weekEnd := e;
    if e > eom {
      weekEnd := eom;
    }
  }

  /** One pass of the week loop of `getMonthlyMetricsFromLocalStorage`: week `w`'s window and
      the sales and valets of the month's tickets inside it. */
  method WeekEntryAt(month: seq<Ticket>, date: int, w: int) returns (entry: WeekEntry)
    requires 0 <= w < TotalWeeks(date)
    ensures entry == WeekTotals(month, date, w)
  {
    var som := StartOfMonth(date);
    var eom := EndOfMonth(date);
    var firstDay := FirstWeekday(date);
    var weekStart := WeekStartAt(som, firstDay, w);
    var weekEnd := WeekEndAt(weekStart, eom);
    MonthWeekWindow(date, w);
    var weekTickets := Filter(month, InRange(weekStart, weekEnd));
    entry := WeekEntry(w + 1, SumOf(weekTickets, TotalOf), SumOf(weekTickets, ValetsOf));
  }

  /** The week loop of `getMonthlyMetricsFromLocalStorage`: one entry per week of the month,
      each summing the month's tickets inside that week's window. */
  method MonthWeeks(month: seq<Ticket>, date: int) returns (weekly: seq<WeekEntry>)
    ensures TotalWeeks(date) >= 0 && weekly == FirstWeeks(month, date, TotalWeeks(date))
  {
    var totalWeeks := TotalWeeks(date);
    weekly := [];
    var w := 0;
    while w < totalWeeks
      invariant 0 <= w <= totalWeeks && weekly == FirstWeeks(month, date, w)
    {
      var entry := WeekEntryAt(month, date, w);
      weekly := weekly + [entry];
      w := w + 1;
    }
  }

  /** `getMonthlyMetricsFromLocalStorage`: the tickets of the reference date's calendar month,
      with one breakdown entry per week of the month as the source lays the weeks out. */
  method MonthlyMetricsFromLocal(tickets: seq<Ticket>, date: int) returns (m: MonthlyMetrics)
    ensures var month := Filter(tickets, InRange(StartOfMonth(date), EndOfMonth(date)));
      && m.totalValets == SumOf(month, ValetsOf)
      && m.totalSales == SumOf(month, TotalOf)
      && (forall pm :: Bucket(m.paymentBreakdown, pm) == SumOf(Filter(month, PaidWith(pm)), TotalOf))
      && m.dryCleaningItems == Rollup(AllLines(month))
      && TotalWeeks(date) >= 0
      && m.weeklyBreakdown == FirstWeeks(month, date, TotalWeeks(date))
  {
    var som := StartOfMonth(date);
    var eom := EndOfMonth(date);
    var month := Filter(tickets, InRange(som, eom));
    var payments := AccumulatePayments(month);
    var weekly := MonthWeeks(month, date);
    var items := CompileDryCleaningItems(month);
    m := MonthlyMetrics(SumOf(month, ValetsOf), SumOf(month, TotalOf), payments, weekly, items);
  }
}
