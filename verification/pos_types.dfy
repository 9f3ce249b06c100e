/**
 * The records of the point-of-sale store: dining tables own seats ("customers"),
 * seats own order lines, and settled seats become history records.
 * Money is a natural number of minor currency units (paise), never a float.
 */
module PosTypes {

  /** A catalogue entry as the menu shows it; its fields are copied into an order line. */
  datatype MenuItem = MenuItem(id: int, name: string, price: nat, category: string)

  /** One menu item on a seat's bill: a snapshot of the item plus a quantity. */
  datatype OrderLine = OrderLine(id: int, name: string, price: nat, category: string, qty: nat)

  /** A seat at a table. `id` is the creation timestamp, `name` the display name. */
  datatype Customer = Customer(id: int, name: string, orders: seq<OrderLine>)

  /** A dining table record as stored under its key `id`. */
  datatype Table = Table(id: int, customers: seq<Customer>)

  /** An immutable entry of the sales log, written when a seat is paid for. */
  datatype HistoryRecord = HistoryRecord(
    date: string,
    tableId: int,
    customerName: string,
    items: seq<OrderLine>,
    total: nat)
}
