/** The rows of the three tables of the data store (src/db/schema.ts). */
module Schema {
  import opened Wrappers

  /** A point in time, in milliseconds since the epoch (a JavaScript `Date`'s `getTime()`). */
  type Timestamp = int

  /** A row of the `orders` table. Money is in integer cents. `salesTaxRate` is a Postgres
      `decimal`, which the driver hands back as a string such as "6.35". */
  datatype Order = Order(
    id: int,
    customerName: string,
    customerEmail: Option<string>,
    description: Option<string>,
    dueDate: Option<Timestamp>,
    orderStatus: string,
    salesTax: int,
    salesTaxRate: string,
    total: int,
    totalExcludingTax: int,
    paymentStatus: string,
    paymentMethod: Option<string>,
    paymentDate: Option<Timestamp>,
    stripeInvoiceId: Option<string>,
    createdAt: Timestamp,
    updatedAt: Timestamp)

  /** A row of the `draws` table: a personal income draw, soft-deleted through `deleted`. */
  datatype Draw = Draw(
    id: int,
    amount: int,
    date: Timestamp,
    deleted: bool,
    createdAt: Timestamp,
    updatedAt: Timestamp)

  /** A row of the `expenses` table. */
  datatype Expense = Expense(
    id: int,
    amount: int,
    date: Timestamp,
    description: string,
    receipt: Option<string>,
    createdAt: Timestamp,
    updatedAt: Timestamp)
}
