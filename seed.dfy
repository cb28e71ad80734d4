/** The seed script of src/db/seed.ts without its I/O: Stripe invoices and charges (the results
    of the two list calls) become the rows inserted into the `orders` table. Stripe times are in
    seconds; the rows hold milliseconds. */
module Seed {
  import opened Wrappers
  import opened Schema
  import opened Seqs
  import Sorting

  /** An invoice line; only its description is read. */
  datatype LineItem = LineItem(description: Option<string>)

  /** A default tax rate of an invoice; only its effective percentage is read. */
  datatype TaxRate = TaxRate(effectivePercentage: Option<real>)

  /** The fields of a Stripe invoice that the seed reads. `dueDate` is in seconds. */
  datatype Invoice = Invoice(
    id: string,
    status: Option<string>,
    paid: bool,
    dueDate: Option<int>,
    tax: Option<int>,
    total: int,
    totalExcludingTax: Option<int>,
    amountDue: int,
    amountRemaining: int,
    lines: seq<LineItem>,
    defaultTaxRates: seq<TaxRate>,
    customerName: Option<string>,
    customerEmail: Option<string>,
    description: Option<string>)

  /** The fields of a Stripe charge that the seed reads. `created` is in seconds. */
  datatype Charge = Charge(invoice: Option<string>, status: string, created: int)

  /** An `orders` row as the seed inserts it; the database adds the id and the timestamps. */
  datatype NewOrder = NewOrder(
    customerName: Option<string>,
    customerEmail: Option<string>,
    description: Option<string>,
    dueDate: Option<Timestamp>,
    orderStatus: string,
    salesTax: int,
    salesTaxRate: string,
    total: int,
    totalExcludingTax: int,
    paymentStatus: Option<string>,
    paymentMethod: Option<string>,
    paymentDate: Option<Timestamp>,
    stripeInvoiceId: string)

  /*** Selecting invoices and charges ***/

  /** Draft and void invoices are skipped; every other status, a missing one included, is kept. */
  predicate IsListed(inv: Invoice) {
    inv.status != Some("draft") && inv.status != Some("void")
  }

  predicate Succeeded(c: Charge) { c.status == "succeeded" }

  /** Charges by descending creation time (`(a, b) => b.created - a.created`). */
  predicate CreatedLater(a: Charge, b: Charge) { a.created >= b.created }

  /** The succeeded charges, latest first; ties keep their list order, as JavaScript's sort is stable. */
  function ValidCharges(charges: seq<Charge>): (r: seq<Charge>)
    ensures forall i, j :: 0 <= i < j < |r| ==> r[i].created >= r[j].created
    ensures multiset(r) == multiset(Filter(charges, Succeeded))
    // a consequence of the multiset clause, stated for callers that look up single charges
    ensures forall c :: c in r <==> c in charges && c.status == "succeeded"
  {
    assert Sorting.TotalPreorder(CreatedLater);
    var succeeded := Filter(charges, Succeeded);
    var sorted := Sorting.Sort(succeeded, CreatedLater);
    assert forall c :: c in sorted <==> c in succeeded by {
      forall c ensures c in sorted <==> c in multiset(succeeded) {
        assert c in sorted <==> c in multiset(sorted);
      }
    }
    sorted
  }

  /** `charges.find(charge => charge.invoice === invoiceId)`: the first charge of the invoice. */
  function FindCharge(charges: seq<Charge>, invoiceId: string): (r: Option<Charge>)
    ensures r.Some? ==> r.value in charges && r.value.invoice == Some(invoiceId)
    ensures r.None? ==> forall c :: c in charges ==> c.invoice != Some(invoiceId)
    // `find` returns the first match
    ensures r.Some? ==> exists k :: 0 <= k < |charges| && charges[k] == r.value
                          && forall j :: 0 <= j < k ==> charges[j].invoice != Some(invoiceId)
  {
    if charges == [] then None
    else if charges[0].invoice == Some(invoiceId) then Some(charges[0])
    else FindCharge(charges[1..], invoiceId)
  }

  /** In a list sorted latest first, the first charge of an invoice is one of its latest. */
  lemma {:induction false} FindFirstIsLatest(charges: seq<Charge>, invoiceId: string)
    requires forall i, j :: 0 <= i < j < |charges| ==> charges[i].created >= charges[j].created
    ensures FindCharge(charges, invoiceId).Some? ==>
      forall c :: c in charges && c.invoice == Some(invoiceId) ==> c.created <= FindCharge(charges, invoiceId).value.created
  {
    if charges != [] && charges[0].invoice != Some(invoiceId) {
      FindFirstIsLatest(charges[1..], invoiceId);
    }
  }

  /** The charge that dates an invoice's payment is a succeeded charge of that invoice created no
      earlier than any other; there is none exactly when the invoice has no succeeded charge. */
  lemma PaymentChargeIsLatest(charges: seq<Charge>, invoiceId: string)
    ensures var found := FindCharge(ValidCharges(charges), invoiceId);
      && (found.None? <==> forall c :: c in charges && c.status == "succeeded" ==> c.invoice != Some(invoiceId))
      && (found.Some? ==>
            && found.value in charges && found.value.status == "succeeded"
            && found.value.invoice == Some(invoiceId)
            && forall c :: c in charges && c.status == "succeeded" && c.invoice == Some(invoiceId)
                 ==> c.created <= found.value.created)
  {
    FindFirstIsLatest(ValidCharges(charges), invoiceId);
  }

  /*** Classifying one invoice ***/

  /** `/cookie/i` folds case for ASCII letters only; no other character folds to a letter of
      "cookie" under a non-Unicode JavaScript regular expression. */
  function LowerAscii(c: char): char {
    if 'A' <= c <= 'Z' then (c as int + 32) as char else c
  }

  predicate CookieAt(s: string, i: int)
    requires 0 <= i <= |s| - 6
  {
    forall k :: 0 <= k < 6 ==> LowerAscii(s[i + k]) == "cookie"[k]
  }

  /** `s.match(/cookie/i) !== null`. */
  predicate HasCookie(s: string) {
    exists i :: 0 <= i <= |s| - 6 && CookieAt(s, i)
  }

  /** `line.description?.match(/cookie/i) !== null`: a missing description gives `undefined`,
      which is not `null`, so such a line counts too. */
  predicate MentionsCookie(line: LineItem) {
    line.description.None? || HasCookie(line.description.value)
  }

  predicate ContainsCookie(inv: Invoice) {
    exists i :: 0 <= i < |inv.lines| && MentionsCookie(inv.lines[i])
  }

  /** The first default tax rate has a truthy (present and non-zero) effective percentage. */
  predicate HasDefaultRate(inv: Invoice) {
    |inv.defaultTaxRates| > 0
    && inv.defaultTaxRates[0].effectivePercentage.Some?
    && inv.defaultTaxRates[0].effectivePercentage.value != 0.0
  }

  /** The sales tax rate string of the order: meals ("7.35") when any line mentions cookies,
      else the invoice's own default rate printed with two decimals (`toFixed(2)`, a parameter
      here), else the general rate "6.35". */
  function SalesTaxRateFor(inv: Invoice, toFixed2: real -> string): (rate: string)
    // the meal bucket of the monthly figures: a cookie line, or an own rate printed as "7.35"
    ensures rate == "7.35" <==>
              ContainsCookie(inv)
              || (HasDefaultRate(inv) && toFixed2(inv.defaultTaxRates[0].effectivePercentage.value) == "7.35")
    // the general bucket: no cookie line, and no own rate or one printed as "6.35"
    ensures rate == "6.35" <==>
              !ContainsCookie(inv)
              && (!HasDefaultRate(inv) || toFixed2(inv.defaultTaxRates[0].effectivePercentage.value) == "6.35")
    // any other rate string is the invoice's own rate
    ensures rate != "7.35" && rate != "6.35" ==>
              HasDefaultRate(inv) && rate == toFixed2(inv.defaultTaxRates[0].effectivePercentage.value)
  {
    if ContainsCookie(inv) then "7.35"
    else if HasDefaultRate(inv) then toFixed2(inv.defaultTaxRates[0].effectivePercentage.value)
    else "6.35"
  }

  /** "stripe" for a paid invoice with nothing remaining, "cash" for a paid invoice that still
      shows an amount remaining but had an amount due, and no method otherwise. */
  function PaymentMethodFor(inv: Invoice): (m: Option<string>)
    ensures m == Some("stripe") <==> inv.status == Some("paid") && inv.amountRemaining == 0
    ensures m == Some("cash") <==> inv.status == Some("paid") && inv.amountRemaining != 0 && inv.amountDue > 0
    ensures m.None? <==> inv.status != Some("paid") || (inv.amountRemaining != 0 && inv.amountDue <= 0)
  {
    if inv.status == Some("paid") && inv.amountRemaining == 0 then Some("stripe")
    else if inv.status == Some("paid") && inv.amountDue > 0 then Some("cash")
    else None
  }

  /** `invoice.due_date! * 1000`: a missing due date multiplies as `null`, which is 0. */
  function DueMillis(inv: Invoice): Timestamp {
    (if inv.dueDate.Some? then inv.dueDate.value else 0) * 1000
  }

  /** The payment time: the creation time of the invoice's charge, else the due date of a paid
      invoice with an amount due, else none. */
  function PaymentDateFor(inv: Invoice, charge: Option<Charge>): Option<Timestamp> {
    if charge.Some? then Some(charge.value.created * 1000)
    else if inv.status == Some("paid") && inv.amountDue > 0 then Some(DueMillis(inv))
    else None
  }

  /** "complete" once the due date has passed, else "pending". */
  function OrderStatusFor(inv: Invoice, now: Timestamp): string {
    if DueMillis(inv) < now then "complete" else "pending"
  }

  /** The row the loop pushes for one invoice. */
  function ToOrder(inv: Invoice, validCharges: seq<Charge>, now: Timestamp, toFixed2: real -> string): NewOrder {
    NewOrder(
      customerName := inv.customerName,
      customerEmail := inv.customerEmail,
      description := inv.description,
      dueDate := if inv.paid then Some(DueMillis(inv)) else None,
      orderStatus := OrderStatusFor(inv, now),
      salesTax := if inv.tax.Some? then inv.tax.value else 0,
      salesTaxRate := SalesTaxRateFor(inv, toFixed2),
      total := inv.total,
      totalExcludingTax := if inv.totalExcludingTax.Some? then inv.totalExcludingTax.value else 0,
      paymentStatus := inv.status,
      paymentMethod := PaymentMethodFor(inv),
      paymentDate := PaymentDateFor(inv, FindCharge(validCharges, inv.id)),
      stripeInvoiceId := inv.id)
  }

  /** The row builder of the loop, given the charges selected before it. */
  function RowFor(validCharges: seq<Charge>, now: Timestamp, toFixed2: real -> string): Invoice -> NewOrder {
    inv => ToOrder(inv, validCharges, now, toFixed2)
  }

  /** The rows the seed inserts: one per listed invoice, in list order. */
  function SeedOrders(invoices: seq<Invoice>, charges: seq<Charge>, now: Timestamp,
                      toFixed2: real -> string): seq<NewOrder>
  {
    Map(Filter(invoices, IsListed), RowFor(ValidCharges(charges), now, toFixed2))
  }

  /** The body of the seed script between the two list calls and the insert. */
  method BuildOrders(invoices: seq<Invoice>, charges: seq<Charge>, now: Timestamp,
                     toFixed2: real -> string) returns (ordersData: seq<NewOrder>)
    ensures ordersData == SeedOrders(invoices, charges, now, toFixed2)
  {
    var validInvoices := Filter(invoices, IsListed);
    var validCharges := ValidCharges(charges);
    ordersData := [];
    for i := 0 to |validInvoices|
      invariant |ordersData| == i
      invariant forall k :: 0 <= k < i ==> ordersData[k] == ToOrder(validInvoices[k], validCharges, now, toFixed2)
    {
      var invoice := validInvoices[i];
      ordersData := ordersData + [ToOrder(invoice, validCharges, now, toFixed2)];
    }
  }

  /*** Properties of the seeded rows ***/

  /** Seeding is done invoice by invoice: the rows of a longer list are the rows of its parts,
      in the same order. */
  lemma SeedConcat(s: seq<Invoice>, t: seq<Invoice>, charges: seq<Charge>, now: Timestamp,
                   toFixed2: real -> string)
    ensures SeedOrders(s + t, charges, now, toFixed2)
         == SeedOrders(s, charges, now, toFixed2) + SeedOrders(t, charges, now, toFixed2)
  {
    FilterConcat(s, t, IsListed);
    MapConcat(Filter(s, IsListed), Filter(t, IsListed), RowFor(ValidCharges(charges), now, toFixed2));
  }

  /** A listed invoice gives exactly one row, any other invoice none. */
  lemma SeedSingle(inv: Invoice, charges: seq<Charge>, now: Timestamp, toFixed2: real -> string)
    ensures SeedOrders([inv], charges, now, toFixed2)
         == (if IsListed(inv) then [ToOrder(inv, ValidCharges(charges), now, toFixed2)] else [])
  {
    assert [inv][1..] == [];
  }

  /** The fields of the row seeded from a listed invoice. */
  lemma SeededOrderFields(inv: Invoice, charges: seq<Charge>, now: Timestamp, toFixed2: real -> string)
    ensures var o := ToOrder(inv, ValidCharges(charges), now, toFixed2);
      // copied, or defaulted to 0 when Stripe has no value
      && o.total == inv.total && o.stripeInvoiceId == inv.id && o.paymentStatus == inv.status
      && o.customerName == inv.customerName && o.customerEmail == inv.customerEmail
      && o.description == inv.description
      && o.salesTax == (if inv.tax.Some? then inv.tax.value else 0)
      && o.totalExcludingTax == (if inv.totalExcludingTax.Some? then inv.totalExcludingTax.value else 0)
      // the two fields the monthly figures bucket on
      && o.salesTaxRate == SalesTaxRateFor(inv, toFixed2)
      && o.paymentMethod == PaymentMethodFor(inv)
      // the due date is recorded only for a paid invoice, in milliseconds
      && o.dueDate == (if inv.paid then Some(DueMillis(inv)) else None)
      && (o.orderStatus == "complete" <==> DueMillis(inv) < now)
      && (o.orderStatus == "pending" <==> DueMillis(inv) >= now)
      // dated by the latest succeeded charge of the invoice, if any
      && ((exists c :: c in charges && c.status == "succeeded" && c.invoice == Some(inv.id)) ==>
            && o.paymentDate.Some?
            && (exists c :: c in charges && c.status == "succeeded" && c.invoice == Some(inv.id)
                  && o.paymentDate.value == c.created * 1000)
            && forall c :: c in charges && c.status == "succeeded" && c.invoice == Some(inv.id)
                  ==> c.created * 1000 <= o.paymentDate.value)
      // otherwise by the due date of a paid invoice with an amount due
      && ((forall c :: c in charges && c.status == "succeeded" ==> c.invoice != Some(inv.id)) ==>
            o.paymentDate == if inv.status == Some("paid") && inv.amountDue > 0 then Some(DueMillis(inv)) else None)
  {
    PaymentChargeIsLatest(charges, inv.id);
  }

  /** A cash order always carries a payment date, so it falls in some month of the summary. */
  lemma CashOrdersAreDated(invoices: seq<Invoice>, charges: seq<Charge>, now: Timestamp,
                           toFixed2: real -> string)
    ensures forall o :: o in SeedOrders(invoices, charges, now, toFixed2) && o.paymentMethod == Some("cash")
              ==> o.paymentDate.Some?
  {
  }

  /** A line without a description counts as mentioning cookies, and the match ignores case. */
  lemma CookieClassification(inv: Invoice, toFixed2: real -> string)
    ensures (exists i :: 0 <= i < |inv.lines| && inv.lines[i].description.None?) ==>
              SalesTaxRateFor(inv, toFixed2) == "7.35"
    ensures HasCookie("Chocolate COOKIES") && !HasCookie("Cake")
  {
    assert CookieAt("Chocolate COOKIES", 10);
  }
}
