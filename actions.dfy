/** The order mutation of src/db/actions.ts: `updateOrder` merges a supplied due date and
    status over the stored row and stamps the completion time on an order that has no due date. */
module Actions {
  import opened Wrappers
  import opened Schema

  /** The statuses the request schema accepts. */
  datatype Status = Pending | Complete

  /** The string stored in the `order_status` column for a status. */
  function StatusName(s: Status): (name: string)
    ensures name == "pending" <==> s == Pending
    ensures name == "complete" <==> s == Complete
  {
    match s
    case Pending => "pending"
    case Complete => "complete"
  }

  /** The validated body of an update: both fields optional. */
  datatype UpdateOrder = UpdateOrder(dueDate: Option<Timestamp>, status: Option<Status>)

  const OrderNotFound: string := "Order not found"

  /** The row after an update, with `now` the time of the request. */
  function UpdatedRow(o: Order, data: UpdateOrder, now: Timestamp): (r: Order)
    // only the due date and the status change
    ensures r == o.(dueDate := r.dueDate, orderStatus := r.orderStatus)
    // a supplied status replaces the stored one
    ensures r.orderStatus == if data.status.Some? then StatusName(data.status.value) else o.orderStatus
    // a supplied due date wins, then the stored one; "now" only fills a missing date on completion
    ensures data.dueDate.Some? ==> r.dueDate == data.dueDate
    ensures data.dueDate.None? && o.dueDate.Some? ==> r.dueDate == o.dueDate
    ensures data.dueDate.None? && o.dueDate.None? ==>
              r.dueDate == if data.status == Some(Complete) then Some(now) else None
  {
    var dueDate := if data.dueDate.Some? then data.dueDate else o.dueDate;
    var orderStatus := if data.status.Some? then StatusName(data.status.value) else o.orderStatus;
    var stamped := if data.status == Some(Complete) && o.dueDate.None? && data.dueDate.None?
                   then Some(now) else dueDate;
    o.(dueDate := stamped, orderStatus := orderStatus)
  }

  /** "now" never replaces a due date that is stored or supplied, and an update that does not
      complete the order never invents one. */
  lemma NowOnlyFillsMissingDate(o: Order, data: UpdateOrder, now: Timestamp)
    ensures UpdatedRow(o, data, now).dueDate == Some(now) && data.dueDate != Some(now) && o.dueDate != Some(now)
            ==> data.status == Some(Complete) && o.dueDate.None? && data.dueDate.None?
    ensures data.status != Some(Complete) ==>
              UpdatedRow(o, data, now).dueDate == (if data.dueDate.Some? then data.dueDate else o.dueDate)
  {
  }

  /** Applying the same update twice with the same "now" gives the row it gives once. */
  lemma UpdatedRowIdempotent(o: Order, data: UpdateOrder, now: Timestamp)
    ensures UpdatedRow(UpdatedRow(o, data, now), data, now) == UpdatedRow(o, data, now)
  {
  }

  /** The `orders` table, keyed by id. */
  class OrderStore {
    var rows: map<int, Order>

    /** Every row is stored under its own id (the primary key). */
    ghost predicate Valid()
      reads this
    {
      forall id :: id in rows ==> rows[id].id == id
    }

    constructor (initial: map<int, Order>)
      requires forall id :: id in initial ==> initial[id].id == id
      ensures Valid() && rows == initial
    {
      rows := initial;
    }

    /** updateOrder(orderId, data): fails with "Order not found" and changes nothing when no row
        has the id; otherwise rewrites that one row and no other. */
    method UpdateOrder(orderId: int, data: UpdateOrder, now: Timestamp) returns (outcome: Outcome<string>)
      requires Valid()
      modifies this
      ensures Valid()
      ensures orderId !in old(rows) ==> outcome == Fail(OrderNotFound) && rows == old(rows)
      ensures orderId in old(rows) ==>
                outcome == Pass && rows == UpdatedTable(old(rows), orderId, data, now)
    {
      if orderId !in rows {
        return Fail(OrderNotFound);
      }
      var order := rows[orderId];
      var dueDate := if data.dueDate.Some? then data.dueDate else order.dueDate;
      var orderStatus := if data.status.Some? then StatusName(data.status.value) else order.orderStatus;
      if data.status == Some(Complete) && order.dueDate.None? && data.dueDate.None? {
        dueDate := Some(now);
      }
      rows := rows[orderId := order.(dueDate := dueDate, orderStatus := orderStatus)];
      return Pass;
    }
  }

  /** The table after a successful update (the state `OrderStore.UpdateOrder` leaves behind). */
  function UpdatedTable(rows: map<int, Order>, orderId: int, data: UpdateOrder, now: Timestamp): (r: map<int, Order>)
    requires orderId in rows
    ensures r.Keys == rows.Keys
    ensures forall id :: id in rows && id != orderId ==> r[id] == rows[id]
    ensures r[orderId] == UpdatedRow(rows[orderId], data, now)
  {
    rows[orderId := UpdatedRow(rows[orderId], data, now)]
  }

  /** Repeating an update with the same "now" leaves the table as the first update left it. */
  lemma UpdateIdempotent(rows: map<int, Order>, orderId: int, data: UpdateOrder, now: Timestamp)
    requires orderId in rows
    ensures var once := UpdatedTable(rows, orderId, data, now);
      UpdatedTable(once, orderId, data, now) == once
  {
    UpdatedRowIdempotent(rows[orderId], data, now);
  }

  /** A caller's view: completing an order without a due date stamps the request time, and a
      second completion keeps that date. */
  method CompleteTwice(store: OrderStore, orderId: int, now: Timestamp, later: Timestamp)
    returns (first: Outcome<string>, second: Outcome<string>)
    requires store.Valid() && orderId in store.rows && store.rows[orderId].dueDate.None?
    modifies store
    ensures first == Pass && second == Pass
    ensures store.Valid() && orderId in store.rows
    ensures store.rows[orderId].dueDate == Some(now) && store.rows[orderId].orderStatus == "complete"
  {
    var data := UpdateOrder(None, Some(Complete));
    first := store.UpdateOrder(orderId, data, now);
    second := store.UpdateOrder(orderId, data, later);
  }
}
