/** The read side of the data store (src/db/queries.ts): the list queries as filter-and-sort
    specifications, and the monthly financial summary folded from the orders paid in a month. */
module Queries {
  import opened Wrappers
  import opened Schema
  import opened Seqs
  import Sorting

  /*** Rounding ***/

  /** JavaScript's `Math.round`: the nearest integer, a half rounded up (towards +infinity). */
  function Round(x: real): (r: int)
    ensures r as real <= x + 0.5 < r as real + 1.0
  {
    (x + 0.5).Floor
  }

  lemma RoundUnique(x: real, q: int)
    requires q as real <= x + 0.5 < q as real + 1.0
    ensures Round(x) == q
  {
  }

  lemma UnitInterval(y: real, d: real, m: real)
    requires d > 0.0 && 0.0 <= m < d && y * d == m
    ensures 0.0 <= y < 1.0
  {
  }

  /** Rounding a fraction n/d (d even) is integer division of n + d/2 by d. */
  lemma {:induction false} RoundOfRatio(x: real, n: int, d: int)
    requires d > 0 && d % 2 == 0
    requires x * d as real == n as real
    ensures Round(x) == (n + d / 2) / d
  {
    var q := (n + d / 2) / d;
    var m := (n + d / 2) % d;
    assert n + d / 2 == q * d + m && 0 <= m < d;
    var y := x + 0.5 - q as real;
    assert y * d as real == (x + 0.5) * d as real - (q * d) as real;
    UnitInterval(y, d as real, m as real);
    RoundUnique(x, q);
  }

  /*** Rates ***/

  const SelfEmploymentTaxRate: real := 0.153
  const PersonalIncomeTaxRate: real := 0.1
  const StateIncomeTaxRate: real := 0.02
  /** The combined income tax rate, 27.3%. */
  const TaxRate: real := SelfEmploymentTaxRate + PersonalIncomeTaxRate + StateIncomeTaxRate
  /** The rate used to estimate the sales tax of an order whose stored sales tax is 0. */
  const EstimatedSalesTaxRate: real := 0.0635
  const PayoutShare: real := 0.65
  const ReinvestShare: real := 0.35
  /** The `salesTaxRate` strings of the two tax buckets. */
  const GeneralRate: string := "6.35"
  const MealRate: string := "7.35"

  /*** getOrderPaymentsBetweenDates ***/

  /** The order was paid within the inclusive window [start, end]; a missing payment date
      compares as SQL NULL and matches neither bound. */
  predicate PaidBetween(o: Order, start: Timestamp, end: Timestamp) {
    o.paymentDate.Some? && start <= o.paymentDate.value <= end
  }

  /** The rows whose payment date lies in [start, end]. Postgres returns them in no particular
      order; the model keeps table order, and the summary below is proved not to depend on it. */
  function OrderPaymentsBetweenDates(table: seq<Order>, start: Timestamp, end: Timestamp): (r: seq<Order>)
    ensures forall o :: multiset(r)[o] == if PaidBetween(o, start, end) then multiset(table)[o] else 0
    ensures forall o :: o in r ==> o.paymentDate.Some? && start <= o.paymentDate.value <= end
  {
    var inWindow := o => PaidBetween(o, start, end);
    FilterMultiset(table, inWindow);
    Filter(table, inWindow)
  }

  /*** getMonthlyFinancials ***/

  /** The twelve figures of a month, in cents. */
  datatype Financials = Financials(
    grossRevenue: int,
    stripeSales: int,
    cashSales: int,
    generalSalesGrossRevenue: int,
    mealSalesGrossRevenue: int,
    generalSalesTax: int,
    mealsSalesTax: int,
    taxes: int,
    salesTax: int,
    grossPayout: int,
    netPayout: int,
    reinvest: int)

  const NoFinancials := Financials(0, 0, 0, 0, 0, 0, 0, 0, 0, 0, 0, 0)

  function TotalOf(o: Order): int { o.total }
  function ExcludingTaxOf(o: Order): int { o.totalExcludingTax }
  function StoredTaxOf(o: Order): int { o.salesTax }

  /** The total of an order that has no stored sales tax (the column is NOT NULL, so "no
      tax" is a stored 0, which is falsy in JavaScript), and 0 for every other order. */
  function UntaxedTotalOf(o: Order): int { if o.salesTax == 0 then o.total else 0 }

  /** One order's share of the sales tax: the stored tax, or an estimate at 6.35% of the total. */
  function SalesTaxTerm(o: Order): real {
    if o.salesTax != 0 then o.salesTax as real else o.total as real * EstimatedSalesTaxRate
  }

  /** The net (total less stored sales tax) of an order paid by the given method, else 0. */
  function NetPaidBy(o: Order, paymentMethod: string): int {
    if o.paymentMethod == Some(paymentMethod) then o.total - o.salesTax else 0
  }
  function StripeNetOf(o: Order): int { NetPaidBy(o, "stripe") }
  function CashNetOf(o: Order): int { NetPaidBy(o, "cash") }

  /** The tax-excluded revenue and the stored tax of an order in the given rate bucket, else 0. */
  function RevenueAtRate(o: Order, rate: string): int {
    if o.salesTaxRate == rate then o.totalExcludingTax else 0
  }
  function TaxAtRate(o: Order, rate: string): int {
    if o.salesTaxRate == rate then o.salesTax else 0
  }
  function GeneralRevenueOf(o: Order): int { RevenueAtRate(o, GeneralRate) }
  function MealRevenueOf(o: Order): int { RevenueAtRate(o, MealRate) }
  function GeneralTaxOf(o: Order): int { TaxAtRate(o, GeneralRate) }
  function MealTaxOf(o: Order): int { TaxAtRate(o, MealRate) }

  /** The net of an order paid neither by "stripe" nor by "cash" (or not at all), else 0. */
  function OtherMethodNetOf(o: Order): int {
    if o.paymentMethod != Some("stripe") && o.paymentMethod != Some("cash") then o.total - o.salesTax else 0
  }

  /** The stored tax of an order in neither rate bucket, else 0. */
  function OtherRateTaxOf(o: Order): int {
    if o.salesTaxRate != GeneralRate && o.salesTaxRate != MealRate then o.salesTax else 0
  }

  function PayoutTerm(o: Order): real { o.totalExcludingTax as real * PayoutShare }
  function ReinvestTerm(o: Order): real { o.totalExcludingTax as real * ReinvestShare }

  /** The folds of getMonthlyFinancials over the orders of the month, each rounded once at the end. */
  function Summarize(orders: seq<Order>): Financials
  {
    var grossRevenueExcludingTax := Sum(orders, ExcludingTaxOf);
    var grossPayout := Round(RealSum(orders, PayoutTerm));
    var taxes := Round(grossRevenueExcludingTax as real * TaxRate);
    Financials(
      grossRevenue := Sum(orders, TotalOf),
      stripeSales := Sum(orders, StripeNetOf),
      cashSales := Sum(orders, CashNetOf),
      generalSalesGrossRevenue := Sum(orders, GeneralRevenueOf),
      mealSalesGrossRevenue := Sum(orders, MealRevenueOf),
      generalSalesTax := Sum(orders, GeneralTaxOf),
      mealsSalesTax := Sum(orders, MealTaxOf),
      taxes := taxes,
      salesTax := Round(RealSum(orders, SalesTaxTerm)),
      grossPayout := grossPayout,
      netPayout := grossPayout - taxes,
      reinvest := Round(RealSum(orders, ReinvestTerm)))
  }

  /** getMonthlyFinancials(date): the summary of the orders paid between the start and the end
      of the month of `date`. The calendar functions of date-fns are parameters. */
  function MonthlyFinancials(table: seq<Order>, date: Timestamp,
                             startOfMonth: Timestamp -> Timestamp,
                             endOfMonth: Timestamp -> Timestamp): Financials
  {
    Summarize(OrderPaymentsBetweenDates(table, startOfMonth(date), endOfMonth(date)))
  }

  /*** Properties of the summary ***/

  /** The sales tax total is the stored tax of all orders plus 6.35% of the totals of the
      orders without stored tax, rounded once for the whole month. */
  lemma SalesTaxRule(s: seq<Order>)
    ensures Summarize(s).salesTax
         == Round(Sum(s, StoredTaxOf) as real + Sum(s, UntaxedTotalOf) as real * EstimatedSalesTaxRate)
  {
    var stored: Order -> real := o => StoredTaxOf(o) as real * 1.0;
    var estimated: Order -> real := o => UntaxedTotalOf(o) as real * EstimatedSalesTaxRate;
    RealSumAdditive(s, SalesTaxTerm, stored, estimated);
    RealSumScaled(s, stored, StoredTaxOf, 1.0);
    RealSumScaled(s, estimated, UntaxedTotalOf, EstimatedSalesTaxRate);
  }

  /** When every order carries its own sales tax, the sales tax total is their exact sum. */
  lemma {:induction false} SalesTaxWithoutEstimate(s: seq<Order>)
    requires forall i :: 0 <= i < |s| ==> s[i].salesTax != 0
    ensures Summarize(s).salesTax == Sum(s, StoredTaxOf)
  {
    var stored := Sum(s, StoredTaxOf);
    SalesTaxRule(s);
    SumZero(s, UntaxedTotalOf);
    assert Sum(s, UntaxedTotalOf) as real * EstimatedSalesTaxRate == 0.0;
    RoundUnique(stored as real, stored);
    assert Summarize(s).salesTax == Round(stored as real);
  }

  /** The payout figures in whole cents, with S the tax-excluded revenue of the month:
      the gross payout is 65% of S, the reinvestment 35% of S, the income taxes 27.3% of S,
      each rounded half up, and the net payout is the gross payout less the taxes. */
  lemma PayoutClosedForm(s: seq<Order>)
    ensures var S := Sum(s, ExcludingTaxOf);
      && Summarize(s).grossPayout == (13 * S + 10) / 20
      && Summarize(s).reinvest == (7 * S + 10) / 20
      && Summarize(s).taxes == (273 * S + 500) / 1000
      && Summarize(s).netPayout == Summarize(s).grossPayout - Summarize(s).taxes
  {
    var S := Sum(s, ExcludingTaxOf);
    RealSumScaled(s, PayoutTerm, ExcludingTaxOf, PayoutShare);
    RoundOfRatio(S as real * PayoutShare, 13 * S, 20);
    RealSumScaled(s, ReinvestTerm, ExcludingTaxOf, ReinvestShare);
    RoundOfRatio(S as real * ReinvestShare, 7 * S, 20);
    RoundOfRatio(S as real * TaxRate, 273 * S, 1000);
  }

  /** The 65% and 35% parts are rounded separately, both halves up, so together they are the
      tax-excluded revenue, or one cent more exactly when 65% of it ends in half a cent. */
  lemma PayoutSplit(s: seq<Order>)
    ensures var S := Sum(s, ExcludingTaxOf);
      Summarize(s).grossPayout + Summarize(s).reinvest == S + (if S % 20 == 10 then 1 else 0)
  {
    PayoutClosedForm(s);
    HalfCentSplit(Sum(s, ExcludingTaxOf));
  }

  lemma HalfCentSplit(S: int)
    ensures (13 * S + 10) / 20 + (7 * S + 10) / 20 == S + (if S % 20 == 10 then 1 else 0)
  {
  }

  /** Stripe and cash sales use the stored sales tax, with no estimate, and every order paid
      some other way (or not at all) is in neither: the three parts add up to the gross revenue
      less the stored sales tax. */
  lemma {:induction false} PaymentMethodPartition(s: seq<Order>)
    ensures Summarize(s).stripeSales + Summarize(s).cashSales + Sum(s, OtherMethodNetOf)
         == Summarize(s).grossRevenue - Sum(s, StoredTaxOf)
  {
    var other := OtherMethodNetOf;
    var stripeOrCash := o => StripeNetOf(o) + CashNetOf(o);
    var net := o => TotalOf(o) - StoredTaxOf(o);
    SumAdditive(s, stripeOrCash, StripeNetOf, CashNetOf);
    SumAdditive(s, net, stripeOrCash, other);
    var minusTax := o => -StoredTaxOf(o);
    SumAdditive(s, net, TotalOf, minusTax);
    SumNegate(s, StoredTaxOf, minusTax);
  }

  lemma {:induction false} SumNegate(s: seq<Order>, f: Order -> int, g: Order -> int)
    requires forall o :: g(o) == -f(o)
    ensures Sum(s, g) == -Sum(s, f)
  {
    if s != [] {
      SumNegate(s[1..], f, g);
    }
  }

  /** The two rate buckets are disjoint and take only orders whose rate string is exactly
      "6.35" or "7.35": their stored taxes plus the tax of all other orders is the stored tax
      total, and with non-negative amounts the two revenue buckets together do not exceed the
      tax-excluded revenue. */
  lemma {:induction false} RateBuckets(s: seq<Order>)
    ensures Summarize(s).generalSalesTax + Summarize(s).mealsSalesTax + Sum(s, OtherRateTaxOf)
         == Sum(s, StoredTaxOf)
    ensures (forall i :: 0 <= i < |s| ==> s[i].totalExcludingTax >= 0) ==>
      Summarize(s).generalSalesGrossRevenue + Summarize(s).mealSalesGrossRevenue <= Sum(s, ExcludingTaxOf)
  {
    var otherTax := OtherRateTaxOf;
    var bucketTax := o => GeneralTaxOf(o) + MealTaxOf(o);
    SumAdditive(s, bucketTax, GeneralTaxOf, MealTaxOf);
    SumAdditive(s, StoredTaxOf, bucketTax, otherTax);
    var bucketRevenue := o => GeneralRevenueOf(o) + MealRevenueOf(o);
    SumAdditive(s, bucketRevenue, GeneralRevenueOf, MealRevenueOf);
    if forall i :: 0 <= i < |s| ==> s[i].totalExcludingTax >= 0 {
      SumMonotone(s, bucketRevenue, ExcludingTaxOf);
    }
  }

  /** The summary depends only on which orders there are, not on the order the database
      returns them in. */
  lemma SummarizePermutation(s: seq<Order>, t: seq<Order>)
    requires multiset(s) == multiset(t)
    ensures Summarize(s) == Summarize(t)
  {
    SumPermutation(s, t, TotalOf);
    SumPermutation(s, t, StripeNetOf);
    SumPermutation(s, t, CashNetOf);
    SumPermutation(s, t, GeneralRevenueOf);
    SumPermutation(s, t, MealRevenueOf);
    SumPermutation(s, t, GeneralTaxOf);
    SumPermutation(s, t, MealTaxOf);
    SumPermutation(s, t, ExcludingTaxOf);
    SumPermutation(s, t, StoredTaxOf);
    SumPermutation(s, t, UntaxedTotalOf);
    SalesTaxRule(s);
    SalesTaxRule(t);
    PayoutClosedForm(s);
    PayoutClosedForm(t);
  }

  /** Only the orders paid within the month contribute: two tables that hold the same orders
      paid in that window give the same figures, whatever else they hold. */
  lemma OnlyMonthPaymentsCount(t1: seq<Order>, t2: seq<Order>, date: Timestamp,
                               startOfMonth: Timestamp -> Timestamp, endOfMonth: Timestamp -> Timestamp)
    requires forall o :: PaidBetween(o, startOfMonth(date), endOfMonth(date)) ==> multiset(t1)[o] == multiset(t2)[o]
    ensures MonthlyFinancials(t1, date, startOfMonth, endOfMonth) == MonthlyFinancials(t2, date, startOfMonth, endOfMonth)
  {
    var start, end := startOfMonth(date), endOfMonth(date);
    var w1 := OrderPaymentsBetweenDates(t1, start, end);
    var w2 := OrderPaymentsBetweenDates(t2, start, end);
    assert forall o :: multiset(w1)[o] == multiset(w2)[o];
    assert multiset(w1) == multiset(w2);
    SummarizePermutation(w1, w2);
  }

  /** A month without payments has all twelve figures 0. */
  lemma {:induction false} EmptyMonthIsZero(table: seq<Order>, date: Timestamp,
                         startOfMonth: Timestamp -> Timestamp, endOfMonth: Timestamp -> Timestamp)
    requires forall i :: 0 <= i < |table| ==> !PaidBetween(table[i], startOfMonth(date), endOfMonth(date))
    ensures MonthlyFinancials(table, date, startOfMonth, endOfMonth) == NoFinancials
  {
    var w := OrderPaymentsBetweenDates(table, startOfMonth(date), endOfMonth(date));
    assert forall o :: multiset(w)[o] == 0;
    assert multiset(w) == multiset{};
    assert |w| == |multiset(w)| == 0;
    RoundUnique(0.0, 0);
  }

  /** The sales tax estimate is rounded once over the month, not once per order: two untaxed
      orders of 10 cents give 1 cent of sales tax, whereas rounding each order's 0.635 cents would
      give 1 cent per order, 2 in all. */
  lemma SalesTaxRoundedOnce()
    ensures var o := Order(1, "c", None, None, None, "complete", 0, "6.35", 10, 10, "paid",
                           Some("cash"), Some(0), None, 0, 0);
      && Summarize([o, o]).salesTax == 1
      && Round(SalesTaxTerm(o)) + Round(SalesTaxTerm(o)) == 2
  {
    var o := Order(1, "c", None, None, None, "complete", 0, "6.35", 10, 10, "paid",
                   Some("cash"), Some(0), None, 0, 0);
    SalesTaxRule([o, o]);
    RoundUnique(1.27, 1);
    RoundUnique(0.635, 1);
  }

  /*** List queries ***/

  /** Postgres `ORDER BY due_date ASC`: earlier due dates first, missing due dates last. */
  predicate DueDateLe(a: Order, b: Order) {
    match (a.dueDate, b.dueDate)
    case (Some(x), Some(y)) => x <= y
    case (_, None) => true
    case (None, Some(_)) => false
  }

  lemma DueDateOrder()
    ensures Sorting.TotalPreorder(DueDateLe)
  {
  }

  predicate IsPending(o: Order) { o.orderStatus == "pending" }

  /** getPendingOrders: every order whose status is "pending", each once, by ascending due date. */
  function PendingOrders(table: seq<Order>): (r: seq<Order>)
    ensures Sorting.SortedBy(r, DueDateLe)
    ensures forall o :: multiset(r)[o] == if o.orderStatus == "pending" then multiset(table)[o] else 0
  {
    DueDateOrder();
    FilterMultiset(table, IsPending);
    Sorting.Sort(Filter(table, IsPending), DueDateLe)
  }

  predicate DrawDateLe(a: Draw, b: Draw) { a.date <= b.date }
  predicate IsLiveDraw(d: Draw) { !d.deleted }

  /** getDraws: every draw that is not soft-deleted, by ascending date. */
  function Draws(table: seq<Draw>): (r: seq<Draw>)
    ensures Sorting.SortedBy(r, DrawDateLe)
    ensures forall d :: multiset(r)[d] == if !d.deleted then multiset(table)[d] else 0
  {
    assert Sorting.TotalPreorder(DrawDateLe);
    FilterMultiset(table, IsLiveDraw);
    Sorting.Sort(Filter(table, IsLiveDraw), DrawDateLe)
  }

  predicate ExpenseDateGe(a: Expense, b: Expense) { a.date >= b.date }

  /** getExpenses: every expense, latest first. */
  function Expenses(table: seq<Expense>): (r: seq<Expense>)
    ensures forall i, j :: 0 <= i < j < |r| ==> r[i].date >= r[j].date
    ensures multiset(r) == multiset(table)
  {
    assert Sorting.TotalPreorder(ExpenseDateGe);
    Sorting.Sort(table, ExpenseDateGe)
  }
}
