/**
 * Totals and read-only queries over one table: the seat total, the table total,
 * the quantity shown on a menu card, and the dashboard's "occupied" rule.
 */
module Totals {
  import opened PosTypes
  import opened Seqs

  /** What one order line costs: price times quantity. */
  function LineAmount(l: OrderLine): nat
  {
    l.price * l.qty
  }

  /** One more unit on a line adds its price to the line's amount. */
  lemma {:induction false} LineAmountNextQty(l: OrderLine)
    ensures LineAmount(l.(qty := l.qty + 1)) == LineAmount(l) + l.price
  {
    assert l.price * (l.qty + 1) == l.price * l.qty + l.price;
  }

  /** `calculateCustomerTotal`: the seat's lines summed left to right. */
  function CustomerTotal(c: Customer): nat
  {
    Sum(c.orders, LineAmount)
  }

  /** `calculateTableTotal` for a table that exists: its seat totals summed. */
  function TableTotal(t: Table): nat
  {
    Sum(t.customers, CustomerTotal)
  }

  /** `calculateTableTotal(table)` where the table may be missing: a missing table totals 0. */
  function TableTotalOf(tables: map<int, Table>, id: int): nat
  {
    if id in tables then TableTotal(tables[id]) else 0
  }

  /** What a history record says it is worth. */
  function RecordTotal(r: HistoryRecord): nat
  {
    r.total
  }

  /** Every order line of every seat, seat after seat. */
  function AllOrders(cs: seq<Customer>): seq<OrderLine>
    decreases |cs|
  {
    if cs == [] then [] else AllOrders(cs[..|cs| - 1]) + cs[|cs| - 1].orders
  }

  /** The table total is the sum of price times quantity over every line of every seat. */
  lemma {:induction false} TableTotalIsSumOfLines(t: Table)
    ensures TableTotal(t) == Sum(AllOrders(t.customers), LineAmount)
  {
    SeatsTotalIsSumOfLines(t.customers);
  }

  lemma {:induction false} SeatsTotalIsSumOfLines(cs: seq<Customer>)
    ensures Sum(cs, CustomerTotal) == Sum(AllOrders(cs), LineAmount)
    decreases |cs|
  {
    if cs != [] {
      var init := cs[..|cs| - 1];
      SeatsTotalIsSumOfLines(init);
      SumAppend(AllOrders(init), cs[|cs| - 1].orders, LineAmount);
    }
  }

  /** A seat totals 0 exactly when each of its lines is free or has quantity 0. */
  lemma {:induction false} CustomerTotalZeroIff(c: Customer)
    ensures CustomerTotal(c) == 0 <==>
      forall i :: 0 <= i < |c.orders| ==> c.orders[i].price == 0 || c.orders[i].qty == 0
  {
    SumZeroIff(c.orders, LineAmount);
    assert forall i :: 0 <= i < |c.orders| ==>
      (LineAmount(c.orders[i]) == 0 <==> c.orders[i].price == 0 || c.orders[i].qty == 0);
  }

  /** A table totals 0 exactly when each of its seats totals 0. */
  lemma {:induction false} TableTotalZeroIff(t: Table)
    ensures TableTotal(t) == 0 <==> forall i :: 0 <= i < |t.customers| ==> CustomerTotal(t.customers[i]) == 0
  {
    SumZeroIff(t.customers, CustomerTotal);
  }

  /** The menu id an order line was made from. */
  function LineId(l: OrderLine): int
  {
    l.id
  }

  /**
   * `findIndex(o => o.id === itemId)`: the first line carrying the item id, or -1.
   * `find` in `getItemQty` returns the line at this same position.
   */
  function FindLine(orders: seq<OrderLine>, itemId: int): (k: int)
    ensures -1 <= k < |orders|
    ensures 0 <= k ==> orders[k].id == itemId && forall j :: 0 <= j < k ==> orders[j].id != itemId
    ensures k == -1 <==> forall j :: 0 <= j < |orders| ==> orders[j].id != itemId
  {
    FindIndex(orders, LineId, itemId)
  }

  /** No line before position `j` carries the id of the line at `j`. */
  predicate FirstWithId(orders: seq<OrderLine>, j: nat)
    requires j < |orders|
  {
    forall i :: 0 <= i < j ==> orders[i].id != orders[j].id
  }

  /** `getItemQty` for a seat that exists: the quantity of the item's first line, 0 if it has none. */
  function ItemQty(orders: seq<OrderLine>, itemId: int): (q: nat)
    ensures (forall j :: 0 <= j < |orders| ==> orders[j].id != itemId) ==> q == 0
    ensures forall j :: 0 <= j < |orders| && orders[j].id == itemId && FirstWithId(orders, j) ==> q == orders[j].qty
  {
    var k := FindLine(orders, itemId);
    if k >= 0 then orders[k].qty else 0
  }

  /** Two order lists with the same ids position by position find the same line. */
  lemma {:induction false} FindLineSameIds(a: seq<OrderLine>, b: seq<OrderLine>, itemId: int)
    requires |a| == |b|
    requires forall j :: 0 <= j < |a| ==> a[j].id == b[j].id
    ensures FindLine(a, itemId) == FindLine(b, itemId)
  {
  }

  /** The seats the dashboard counts as guests: those whose order list is not empty. */
  function SeatsWithOrders(cs: seq<Customer>): (r: seq<Customer>)
    ensures |r| <= |cs|
    ensures forall c :: c in r ==> c in cs && c.orders != []
    decreases |cs|
  {
    if cs == [] then []
    else
      var last := cs[|cs| - 1];
      SeatsWithOrders(cs[..|cs| - 1]) + (if last.orders != [] then [last] else [])
  }

  /** Every seat with a non-empty order list is kept by the filter. */
  lemma {:induction false} SeatsWithOrdersKeepsOrdering(cs: seq<Customer>)
    ensures forall i :: 0 <= i < |cs| && cs[i].orders != [] ==> cs[i] in SeatsWithOrders(cs)
    decreases |cs|
  {
    if cs != [] {
      var init := cs[..|cs| - 1];
      SeatsWithOrdersKeepsOrdering(init);
      assert forall i :: 0 <= i < |init| ==> init[i] == cs[i];
    }
  }

  /** The reference count: the seats with a non-empty order list, counted from the front. */
  function SeatsOrdering(cs: seq<Customer>): nat
    decreases |cs|
  {
    if cs == [] then 0 else (if cs[0].orders != [] then 1 else 0) + SeatsOrdering(cs[1..])
  }

  /** Counting from the front agrees with peeling off the last seat. */
  lemma {:induction false} SeatsOrderingSnoc(cs: seq<Customer>)
    requires cs != []
    ensures SeatsOrdering(cs) == SeatsOrdering(cs[..|cs| - 1]) + (if cs[|cs| - 1].orders != [] then 1 else 0)
    decreases |cs|
  {
    if |cs| > 1 {
      var init := cs[..|cs| - 1];
      SeatsOrderingSnoc(cs[1..]);
      assert cs[1..][..|cs| - 2] == init[1..];
      assert init[0] == cs[0];
    }
  }

  /** The "N Guests" card counts exactly the seats whose order list is not empty. */
  lemma {:induction false} GuestCountCountsSeats(t: Table)
    ensures GuestCount(t) == SeatsOrdering(t.customers)
  {
    SeatsWithOrdersCount(t.customers);
  }

  lemma {:induction false} SeatsWithOrdersCount(cs: seq<Customer>)
    ensures |SeatsWithOrders(cs)| == SeatsOrdering(cs)
    decreases |cs|
  {
    if cs != [] {
      SeatsWithOrdersCount(cs[..|cs| - 1]);
      SeatsOrderingSnoc(cs);
    }
  }

  /** The guest count shown on a dashboard card. */
  function GuestCount(t: Table): nat
  {
    |SeatsWithOrders(t.customers)|
  }

  /** A table is shown occupied only when some seat has ordered something. */
  predicate IsOccupied(t: Table)
  {
    GuestCount(t) > 0
  }

  lemma {:induction false} SeatsWithOrdersEmptyIff(cs: seq<Customer>)
    ensures SeatsWithOrders(cs) == [] <==> forall i :: 0 <= i < |cs| ==> cs[i].orders == []
    decreases |cs|
  {
    if cs != [] {
      var init := cs[..|cs| - 1];
      SeatsWithOrdersEmptyIff(init);
      assert forall i :: 0 <= i < |init| ==> init[i] == cs[i];
    }
  }

  /** The occupied rule in both directions: some seat exists whose order list is non-empty. */
  lemma {:induction false} OccupiedIff(t: Table)
    ensures IsOccupied(t) <==> exists i :: 0 <= i < |t.customers| && t.customers[i].orders != []
  {
    SeatsWithOrdersEmptyIff(t.customers);
  }

  /** Money is owed only at an occupied table (the converse fails for free items). */
  lemma {:induction false} PositiveTotalIsOccupied(t: Table)
    ensures TableTotal(t) > 0 ==> IsOccupied(t)
  {
    TableTotalZeroIff(t);
    OccupiedIff(t);
    if TableTotal(t) > 0 {
      var i :| 0 <= i < |t.customers| && CustomerTotal(t.customers[i]) != 0;
      var c := t.customers[i];
      assert c.orders != [] by {
        assert c.orders == [] ==> CustomerTotal(c) == 0;
      }
    }
  }

  /**
   * Emptying the orders of one seat that had ordered lowers the guest count by
   * exactly one; emptying a seat that had not ordered leaves it as it was.
   */
  lemma {:induction false} GuestCountAfterClearingSeat(cs: seq<Customer>, i: nat)
    requires i < |cs|
    ensures |SeatsWithOrders(cs[i := cs[i].(orders := [])])| ==
      |SeatsWithOrders(cs)| - (if cs[i].orders != [] then 1 else 0)
    decreases |cs|
  {
    var n := |cs| - 1;
    var cs' := cs[i := cs[i].(orders := [])];
    var init, init' := cs[..n], cs'[..n];
    var last, last' := cs[n], cs'[n];
    assert SeatsWithOrders(cs) == SeatsWithOrders(init) + (if last.orders != [] then [last] else []);
    assert SeatsWithOrders(cs') == SeatsWithOrders(init') + (if last'.orders != [] then [last'] else []);
    if i == n {
      assert init' == init;
    } else {
      assert init' == init[i := init[i].(orders := [])];
      GuestCountAfterClearingSeat(init, i);
    }
  }
}
