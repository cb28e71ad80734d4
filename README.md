# sb-suite order finances in Dafny

This project models the money-handling core of sb-suite. sb-suite is a small-business dashboard
built on Next.js and Drizzle over Postgres. It records customer orders (entered in the app, or
seeded from Stripe invoices by a script), owner draws and expenses, and shows monthly financial
figures. The model covers four
pieces:

- **Monthly figures** (`Queries`, from `src/db/queries.ts`). `getMonthlyFinancials` picks the
  orders whose payment date falls in the calendar month of a date. It folds them into twelve
  figures, all in integer cents:
  - gross revenue;
  - Stripe and cash sales, net of stored sales tax;
  - revenue and stored tax of the general (6.35%) and meal (7.35%) buckets;
  - the sales tax total;
  - income taxes at 15.3% + 10% + 2%;
  - a 65% gross payout, the net payout, and a 35% reinvestment.

  This module also models the list queries:
  - `getOrderPaymentsBetweenDates`;
  - `getPendingOrders`, by ascending due date with missing dates last;
  - `getDraws`, live draws by ascending date;
  - `getExpenses`, by descending date.
- **Order updates** (`Actions`, from `src/db/actions.ts`). `updateOrder` works on the `orders`
  table. The table is a class holding a map from id to row. The method fails with
  "Order not found" and leaves the table unchanged when no row has the id. Otherwise it merges
  the supplied due date and status over the stored row. When it completes an order that has no
  due date and none was supplied, it stamps the request time as the due date.
- **Seeding from Stripe** (`Seed`, from `src/db/seed.ts`). The seed script maps invoices and
  charges to order rows:
  - draft and void invoices are dropped;
  - succeeded charges are sorted latest first, and the first charge of an invoice dates its
    payment;
  - the rate is "7.35" when any line mentions cookies, else the invoice's default rate, else
    "6.35";
  - the payment method is "stripe" or "cash" depending on the amounts;
  - Stripe's second timestamps become milliseconds.
- **Month picker** (`FinanceCards`, from `src/components/finance-cards.tsx`). `uniqueMonths`
  offers the distinct month starts of the due dates of paid orders, latest first. The
  accumulation loop is a method over a sequence. The final sort is an in-place insertion sort
  on an array.

Shared pieces:
- `Schema` holds the table rows.
- `Seqs` holds filter, map and sum folds with their lemmas.
- `Sorting` is a stable insertion sort by a total preorder, proved sorted and a permutation.
- `Wrappers` holds `Option` and `Outcome`.

How values are represented:
- Timestamps are integer milliseconds.
- JavaScript numbers are exact integers for amounts, and Dafny `real` (exact rationals) for the
  rate products.
- `Math.round(x)` is `floor(x + 1/2)`.
- date-fns `startOfMonth`/`endOfMonth` and `Number.prototype.toFixed(2)` are function
  parameters.
- The clock (`new Date()`) is a `now` parameter.

Two behaviours of the code are easy to misread, and the model follows the code:
- The sales-tax estimate is rounded once over the whole month, not once per order. The
  estimate also applies to any order whose stored `salesTax` is 0: the column is `NOT NULL`,
  and 0 is falsy. `Queries.SalesTaxRoundedOnce` exhibits an input where per-order rounding
  would give a different figure.
- An invoice line with no description counts as mentioning cookies. The reason is that
  `undefined !== null` holds. `Seed.CookieClassification` states this.

## Model

| member | source | states |
|---|---|---|
| Queries.Round | src/db/queries.ts:110-117 | `Math.round`: the unique integer r with r <= x + 1/2 < r + 1 (halves round up) |
| Queries.OrderPaymentsBetweenDates | src/db/queries.ts:37-47 | the result holds exactly the orders with a payment date inside the inclusive window, each as often as in the table, and nothing else |
| Queries.MonthlyFinancials | src/db/queries.ts:49-133 | `getMonthlyFinancials`: the summary of the orders paid in the month of the date; it has no contract of its own, and `OnlyMonthPaymentsCount` and `EmptyMonthIsZero` describe it |
| Queries.Summarize | src/db/queries.ts:63-132 | the twelve folds over the month's orders; no contract of its own, described by `SalesTaxRule`, `SalesTaxWithoutEstimate`, `PaymentMethodPartition`, `RateBuckets`, `PayoutClosedForm`, `PayoutSplit` and `SummarizePermutation` |
| Queries.OnlyMonthPaymentsCount | src/db/queries.ts:55-61 | the monthly figures depend only on the orders paid between the start and the end of the month: two tables agreeing on those give equal figures |
| Queries.EmptyMonthIsZero | src/db/queries.ts:49-133 | a month in which no order was paid has all twelve figures 0 |
| Queries.SummarizePermutation | src/db/queries.ts:58-61 | the figures are invariant under any reordering of the orders the unordered query returns |
| Queries.SalesTaxRule | src/db/queries.ts:63-69 | sales tax = round(sum of stored tax + 6.35% of the totals of orders whose stored tax is 0), rounded once over the month |
| Queries.SalesTaxWithoutEstimate | src/db/queries.ts:63-69 | when every order has non-zero stored tax, the sales tax figure is exactly the sum of the stored taxes |
| Queries.SalesTaxRoundedOnce | src/db/queries.ts:63-69 | two untaxed 10-cent orders give 1 cent of sales tax, whereas rounding each order would give 2 |
| Queries.PaymentMethodPartition | src/db/queries.ts:70-84 | Stripe sales + cash sales + the net of orders paid otherwise = gross revenue minus stored sales tax (the buckets are disjoint and use stored tax only) |
| Queries.RateBuckets | src/db/queries.ts:85-108 | general tax + meal tax + tax of other rate strings = stored tax total; with non-negative amounts, general + meal revenue <= tax-excluded revenue |
| Queries.PayoutClosedForm | src/db/queries.ts:105-117 | with S the tax-excluded revenue: gross payout = round(0.65 S), reinvest = round(0.35 S), taxes = round(0.273 S) as exact integer formulas, net payout = gross payout - taxes |
| Queries.PayoutSplit | src/db/queries.ts:110-117 | gross payout + reinvestment = S, or S + 1 exactly when 65% of S ends in half a cent (S mod 20 = 10) |
| Queries.PendingOrders | src/db/queries.ts:24-35 | exactly the orders with status "pending", as a permutation of them, sorted by due date ascending with missing due dates last |
| Queries.Draws | src/db/queries.ts:135-146 | exactly the draws not soft-deleted, as a permutation, sorted by ascending date |
| Queries.Expenses | src/db/queries.ts:148-158 | a permutation of all expenses, sorted by descending date |
| Actions.UpdatedRow | src/db/actions.ts:19-26 | only dueDate and orderStatus change; a supplied status replaces the stored one; a supplied due date wins over the stored one; the request time fills the due date only when completing with no date stored or supplied |
| Actions.NowOnlyFillsMissingDate | src/db/actions.ts:24-26 | the request time appears as due date only via the completion stamp, and an update that does not complete keeps the merged date |
| Actions.UpdatedRowIdempotent | src/db/actions.ts:19-26 | applying the same update twice with the same time gives the row it gives once |
| Actions.OrderStore.UpdateOrder | src/db/actions.ts:14-34 | unknown id: fails with "Order not found" and the table is unchanged; known id: succeeds and the table becomes `UpdatedTable` of the old one (only that row changes, to its updated row); ids stay primary keys |
| Actions.UpdatedTable | src/db/actions.ts:28-31 | the update keeps the set of ids and every other row, and the row with the id becomes its merged row |
| Actions.UpdateIdempotent | src/db/actions.ts:14-31 | repeating an update with the same time leaves the table as the first update left it |
| Actions.CompleteTwice | src/db/actions.ts:20-26 | completing an order without a due date stamps the first request's time, and a second completion keeps it |
| Seed.ValidCharges | src/db/seed.ts:30-35 | a permutation of the succeeded charges (each as often as in the list), sorted latest first |
| Seed.FindCharge | src/db/seed.ts:41-43 | a found charge is the first charge of the list that belongs to the invoice; none found means no charge of the list belongs to it |
| Seed.FindFirstIsLatest | src/db/seed.ts:41-43 | in a list sorted latest first, the first charge of an invoice is created no earlier than any other charge of it |
| Seed.PaymentChargeIsLatest | src/db/seed.ts:30-43 | the dating charge is a succeeded charge of the invoice created no earlier than any other, and there is none exactly when the invoice has no succeeded charge |
| Seed.SalesTaxRateFor | src/db/seed.ts:44-62 | the row lands in the meal bucket ("7.35") iff a line mentions cookies or the invoice's own rate prints as "7.35"; in the general bucket ("6.35") iff no line mentions cookies and the invoice has no truthy own rate or one that prints as "6.35"; any other string is the invoice's own rate via toFixed(2) |
| Seed.PaymentMethodFor | src/db/seed.ts:66-71 | "stripe" iff paid with nothing remaining; "cash" iff paid, something remaining and an amount due; no method otherwise |
| Seed.ToOrder | src/db/seed.ts:41-78 | the row pushed for one invoice; no contract of its own, described field by field by `SeededOrderFields` |
| Seed.SeedOrders | src/db/seed.ts:26-79 | the rows the seed inserts, one per listed invoice in list order; no contract of its own, described by `SeedConcat`, `SeedSingle`, `SeededOrderFields` and `CashOrdersAreDated`, and computed by `BuildOrders` |
| Seed.BuildOrders | src/db/seed.ts:26-79 | the loop pushes one row per non-draft, non-void invoice, in list order, equal to the seeding function's rows |
| Seed.SeedConcat | src/db/seed.ts:39-79 | the rows for a concatenated invoice list are the rows of each part, concatenated |
| Seed.SeedSingle | src/db/seed.ts:26-28 | a draft or void invoice yields no row; any other exactly its own row |
| Seed.SeededOrderFields | src/db/seed.ts:47-77 | every field of a seeded row: copied or 0-defaulted amounts, due date in ms only when paid, status complete iff due before now, payment date from the invoice's latest succeeded charge, else the due date of a paid invoice with an amount due |
| Seed.CashOrdersAreDated | src/db/seed.ts:66-76 | every seeded cash order has a payment date |
| Seed.CookieClassification | src/db/seed.ts:44-46 | a line without a description forces the meal rate; the match ignores case ("Chocolate COOKIES" matches, "Cake" does not) |
| FinanceCards.SortDescending | src/components/finance-cards.tsx:68 | sorts the month starts in place, latest first, as a permutation of the input |
| FinanceCards.CollectMonths | src/components/finance-cards.tsx:50-67 | the accumulated list has no duplicates and holds exactly the month starts of the due dates of the paid orders that have one |
| FinanceCards.UniqueMonths | src/components/finance-cards.tsx:48-70 | the offered months are strictly descending and are exactly the month starts of due dates of orders that have a payment date, at most one per such order |
| FinanceCards.MonthListDetermined | src/components/finance-cards.tsx:68 | two strictly descending month lists with the same members are equal, so the picker's list is fully determined by its contract |

## Left out

- Caching and revalidation (`unstable_cache`, `revalidatePath`) are left out. They change when
  data is read, not what it is.
- Database and Stripe I/O, connections and errors are left out. Tables are sequences whose row
  order is unspecified; only the contracts' ordering keys are promised. Postgres's order
  between rows with equal keys is not modelled, since the model's stable sort is one admissible
  choice.
- Floating point is left out. Amounts are exact integers and rate products exact rationals.
  The rates 0.0635, 0.65, 0.35 and 0.153 + 0.1 + 0.02 are not exactly representable as IEEE
  doubles, so a product that is exactly a half cent here can land just below or above it in
  JavaScript, and `Math.round` can then differ by one cent.
- Calendar arithmetic is left out. date-fns `startOfMonth`, `endOfMonth`, time zones, and the
  label text (`format(..., 'MMM yyyy')`) of a month entry are not modelled; the calendar
  functions are parameters, and only the month value is modelled.
- `Number.prototype.toFixed(2)` is a parameter, not modelled digit by digit.
- Stripe pagination is left out: the seed reads only the first 100 invoices and charges, and
  the cookie test sees only the first page of each invoice's line items (`invoice.lines.data`);
  the model takes whatever lists it is given.
- Insert-time failures are left out: a seed row with a missing customer name or invoice status
  (stored as the payment status) would violate a `NOT NULL` column, and the amount columns are
  Postgres `integer`, so an amount above 2^31 - 1 fails the insert, while the model's `int` is
  unbounded.
- The seed's two database statements are left out: it deletes every order (seed.ts:20) and
  later inserts the new rows (seed.ts:81) as two separate statements, with no transaction
  between them; the model only computes the rows to insert.
- `getOrder` and `getOrders` are left out: both read the table unchanged. `getOrder` is the
  `in`/lookup inside `OrderStore.UpdateOrder`.
- The other order, draw and expense mutations, the API routes and the dashboard pages are not
  part of this model.
- Seed.BuildOrders: the clock is read once, as `now`, for the whole loop, whereas seed.ts:53
  evaluates `new Date()` anew for every invoice; an invoice due between two of those readings
  could be classified differently.
- The read-then-write race of `updateOrder`, between `getOrder` and the `UPDATE`, is not
  modelled, since the method is atomic here.
- Seed.SalesTaxRateFor: `/cookie/i` is modelled with ASCII case folding. This is exact for the
  letters of "cookie" under a non-Unicode regular expression.
