/**
 * The pure part of the order handlers: how a seat's order list or a table's
 * seat list is rebuilt before the table record is written back.
 */
module Orders {
  import opened PosTypes
  import opened Seqs
  import opened Totals

  /**
   * The shape every seat's order list keeps: each quantity is at least 1
   * (a line reaching 0 is removed) and each menu id appears at most once.
   */
  predicate WellFormedOrders(orders: seq<OrderLine>)
  {
    && (forall i :: 0 <= i < |orders| ==> orders[i].qty >= 1)
    && (forall i, j :: 0 <= i < j < |orders| ==> orders[i].id != orders[j].id)
  }

  predicate TableWellFormed(t: Table)
  {
    forall i :: 0 <= i < |t.customers| ==> WellFormedOrders(t.customers[i].orders)
  }

  /** `{ ...item, qty: 1 }`: a snapshot of the menu item with quantity 1. */
  function NewLine(item: MenuItem): OrderLine
  {
    OrderLine(item.id, item.name, item.price, item.category, 1)
  }

  /** True when the seat already has a line for the item id. */
  predicate HasLine(orders: seq<OrderLine>, itemId: int)
  {
    exists j :: 0 <= j < |orders| && orders[j].id == itemId
  }

  /**
   * `addItemToOrder` on one seat: the first line with the item's id gains one
   * unit, otherwise a fresh line with quantity 1 goes at the end.
   */
  function AddItem(orders: seq<OrderLine>, item: MenuItem): seq<OrderLine>
  {
    var k := FindLine(orders, item.id);
    if k >= 0 then orders[k := orders[k].(qty := orders[k].qty + 1)]
    else orders + [NewLine(item)]
  }

  /**
   * What adding does to a seat: with a line for the id, that line alone gains one
   * unit and keeps its snapshot; without one, a new line of quantity 1 is appended.
   * Lines for other ids are untouched.
   */
  lemma {:induction false} AddItemSpec(orders: seq<OrderLine>, item: MenuItem)
    ensures var r := AddItem(orders, item);
      && |r| == (if HasLine(orders, item.id) then |orders| else |orders| + 1)
      && (forall j :: 0 <= j < |orders| && orders[j].id != item.id ==> r[j] == orders[j])
      && (!HasLine(orders, item.id) ==> r[..|orders|] == orders && r[|orders|] == NewLine(item))
      && (HasLine(orders, item.id) ==>
            var k := FindLine(orders, item.id);
            r[k] == orders[k].(qty := orders[k].qty + 1))
  {
  }

  /** The quantity the menu card shows for the item rises by exactly one. */
  lemma {:induction false} AddItemQty(orders: seq<OrderLine>, item: MenuItem)
    ensures ItemQty(AddItem(orders, item), item.id) == ItemQty(orders, item.id) + 1
  {
    var r := AddItem(orders, item);
    var k := FindLine(orders, item.id);
    if k >= 0 {
      assert r == orders[k := orders[k].(qty := orders[k].qty + 1)];
      FindLineSameIds(r, orders, item.id);
    } else {
      assert r == orders + [NewLine(item)];
      assert forall j :: 0 <= j < |orders| ==> r[j] == orders[j];
      assert r[|orders|].id == item.id;
      assert FindLine(r, item.id) == |orders|;
    }
  }

  /**
   * `decreaseItemQuantity` on one seat: the first line with the id loses one unit
   * if it has more than one, and is spliced out if it has one; with no such line
   * the list is returned as it was (the handler then writes nothing).
   */
  function DecreaseItem(orders: seq<OrderLine>, itemId: int): seq<OrderLine>
  {
    var k := FindLine(orders, itemId);
    if k < 0 then orders
    else if orders[k].qty > 1 then orders[k := orders[k].(qty := orders[k].qty - 1)]
    else RemoveAt(orders, k)
  }

  /**
   * What decreasing does to a seat: nothing without a line for the id; otherwise
   * that line loses one unit while it has more than one, and is removed at one,
   * the other lines keeping their order.
   */
  lemma {:induction false} DecreaseItemSpec(orders: seq<OrderLine>, itemId: int)
    ensures var r := DecreaseItem(orders, itemId);
      && (!HasLine(orders, itemId) ==> r == orders)
      && (HasLine(orders, itemId) ==>
            var k := FindLine(orders, itemId);
            if orders[k].qty > 1 then
              |r| == |orders| && r[k] == orders[k].(qty := orders[k].qty - 1) &&
              forall j :: 0 <= j < |orders| && j != k ==> r[j] == orders[j]
            else
              |r| == |orders| - 1 &&
              (forall j :: 0 <= j < k ==> r[j] == orders[j]) &&
              (forall j :: k <= j < |r| ==> r[j] == orders[j + 1]))
  {
  }

  /** Adding keeps the order list well formed: no duplicate id, no zero quantity. */
  lemma {:induction false} AddItemKeepsWellFormed(orders: seq<OrderLine>, item: MenuItem)
    requires WellFormedOrders(orders)
    ensures WellFormedOrders(AddItem(orders, item))
  {
  }

  /** Decreasing keeps the order list well formed: a line at quantity 1 is removed, never left at 0. */
  lemma {:induction false} DecreaseItemKeepsWellFormed(orders: seq<OrderLine>, itemId: int)
    requires WellFormedOrders(orders)
    ensures WellFormedOrders(DecreaseItem(orders, itemId))
    ensures forall j :: 0 <= j < |DecreaseItem(orders, itemId)| ==> DecreaseItem(orders, itemId)[j].qty != 0
  {
  }

  /** The price one more unit of the item costs the seat: its line's snapshot price, or the menu price for a new line. */
  function AddedPrice(orders: seq<OrderLine>, item: MenuItem): nat
  {
    var k := FindLine(orders, item.id);
    if k >= 0 then orders[k].price else item.price
  }

  /** The price one unit less of the item takes off the seat: its line's snapshot price, or 0 without a line. */
  function RemovedPrice(orders: seq<OrderLine>, itemId: int): nat
  {
    var k := FindLine(orders, itemId);
    if k >= 0 then orders[k].price else 0
  }

  /**
   * Adding raises the seat total by the price on the item's line: the snapshot
   * price of an existing line, or the menu price of a new one.
   */
  lemma {:induction false} AddItemRaisesTotal(orders: seq<OrderLine>, item: MenuItem)
    ensures Sum(AddItem(orders, item), LineAmount) == Sum(orders, LineAmount) + AddedPrice(orders, item)
  {
    var k := FindLine(orders, item.id);
    if k >= 0 {
      var line := orders[k];
      var line' := line.(qty := line.qty + 1);
      assert AddItem(orders, item) == orders[k := line'];
      LineAmountNextQty(line);
      SumUpdate(orders, k, line', LineAmount);
    } else {
      var line := NewLine(item);
      assert AddItem(orders, item) == orders + [line];
      assert LineAmount(line) == item.price;
      SumAppend(orders, [line], LineAmount);
      SumSingleton(line, LineAmount);
    }
  }

  /** Decreasing lowers the seat total by the price of the matched line, or leaves it when there is none. */
  lemma {:induction false} DecreaseItemLowersTotal(orders: seq<OrderLine>, itemId: int)
    requires WellFormedOrders(orders)
    ensures Sum(DecreaseItem(orders, itemId), LineAmount) + RemovedPrice(orders, itemId) == Sum(orders, LineAmount)
  {
    var k := FindLine(orders, itemId);
    if k >= 0 {
      var line := orders[k];
      if line.qty > 1 {
        var line' := line.(qty := line.qty - 1);
        assert DecreaseItem(orders, itemId) == orders[k := line'];
        LineAmountNextQty(line');
        assert line'.(qty := line'.qty + 1) == line;
        SumUpdate(orders, k, line', LineAmount);
      } else {
        assert line.qty == 1;
        assert DecreaseItem(orders, itemId) == RemoveAt(orders, k);
        SumRemoveAt(orders, k, LineAmount);
      }
    }
  }

  /** On a well-formed list, the quantity shown for the item drops by one, never below 0. */
  lemma {:induction false} DecreaseItemQty(orders: seq<OrderLine>, itemId: int)
    requires WellFormedOrders(orders)
    ensures ItemQty(DecreaseItem(orders, itemId), itemId) == if ItemQty(orders, itemId) > 0 then ItemQty(orders, itemId) - 1 else 0
  {
    var k := FindLine(orders, itemId);
    var r := DecreaseItem(orders, itemId);
    DecreaseItemSpec(orders, itemId);
    if k >= 0 {
      if orders[k].qty > 1 {
        FindLineSameIds(r, orders, itemId);
      } else {
        assert forall j :: 0 <= j < |r| ==> r[j].id != itemId;
      }
    }
  }

  /** Adding an item and then decreasing the same item restores the order list exactly. */
  lemma {:induction false} AddThenDecrease(orders: seq<OrderLine>, item: MenuItem)
    requires WellFormedOrders(orders)
    ensures DecreaseItem(AddItem(orders, item), item.id) == orders
  {
    var k := FindLine(orders, item.id);
    var added := AddItem(orders, item);
    AddItemSpec(orders, item);
    if k >= 0 {
      FindLineSameIds(added, orders, item.id);
      assert added[k := added[k].(qty := added[k].qty - 1)] == orders;
    } else {
      assert added == orders + [NewLine(item)];
      assert forall j :: 0 <= j < |orders| ==> added[j] == orders[j];
      assert FindLine(added, item.id) == |orders|;
      assert RemoveAt(added, |orders|) == orders;
    }
  }

  /** The menu card's plus button pressed `n` times. */
  function AddTimes(orders: seq<OrderLine>, item: MenuItem, n: nat): seq<OrderLine>
  {
    if n == 0 then orders else AddItem(AddTimes(orders, item, n - 1), item)
  }

  /** The menu card's minus button pressed `n` times. */
  function DecreaseTimes(orders: seq<OrderLine>, itemId: int, n: nat): seq<OrderLine>
    decreases n
  {
    if n == 0 then orders else DecreaseTimes(DecreaseItem(orders, itemId), itemId, n - 1)
  }

  lemma {:induction false} AddTimesKeepsWellFormed(orders: seq<OrderLine>, item: MenuItem, n: nat)
    requires WellFormedOrders(orders)
    ensures WellFormedOrders(AddTimes(orders, item, n))
  {
    if n > 0 {
      AddTimesKeepsWellFormed(orders, item, n - 1);
      AddItemKeepsWellFormed(AddTimes(orders, item, n - 1), item);
    }
  }

  /** One plus press undone by one minus press peels one round off the repeated presses. */
  lemma {:induction false} AddThenDecreaseOnce(orders: seq<OrderLine>, item: MenuItem, n: nat)
    requires n > 0 && WellFormedOrders(AddTimes(orders, item, n - 1))
    ensures DecreaseTimes(AddTimes(orders, item, n), item.id, n) ==
      DecreaseTimes(AddTimes(orders, item, n - 1), item.id, n - 1)
  {
    AddThenDecrease(AddTimes(orders, item, n - 1), item);
  }

  /** Pressing plus `n` times and then minus `n` times restores the order list: nothing is left at quantity 0. */
  lemma {:induction false} AddThenDecreaseTimes(orders: seq<OrderLine>, item: MenuItem, n: nat)
    requires WellFormedOrders(orders)
    ensures DecreaseTimes(AddTimes(orders, item, n), item.id, n) == orders
  {
    if n > 0 {
      AddTimesKeepsWellFormed(orders, item, n - 1);
      AddThenDecreaseOnce(orders, item, n);
      AddThenDecreaseTimes(orders, item, n - 1);
    }
  }

  /** Replaces the order list of seat `seat`, as the handlers' `newCustomers[i] = { ...customer, orders }` does. */
  function WithSeatOrders(t: Table, seat: nat, orders: seq<OrderLine>): (r: Table)
    requires seat < |t.customers|
    ensures r.id == t.id && |r.customers| == |t.customers|
    ensures forall i :: 0 <= i < |t.customers| && i != seat ==> r.customers[i] == t.customers[i]
    ensures r.customers[seat].orders == orders
    ensures r.customers[seat].id == t.customers[seat].id && r.customers[seat].name == t.customers[seat].name
  {
    t.(customers := t.customers[seat := t.customers[seat].(orders := orders)])
  }

  /** Rewriting one seat's orders changes the table total by the change in that seat's total. */
  lemma {:induction false} WithSeatOrdersTotal(t: Table, seat: nat, orders: seq<OrderLine>)
    requires seat < |t.customers|
    ensures TableTotal(WithSeatOrders(t, seat, orders)) + CustomerTotal(t.customers[seat]) ==
      TableTotal(t) + Sum(orders, LineAmount)
  {
    SumUpdate(t.customers, seat, t.customers[seat].(orders := orders), CustomerTotal);
  }

  lemma {:induction false} WithSeatOrdersWellFormed(t: Table, seat: nat, orders: seq<OrderLine>)
    requires seat < |t.customers|
    requires TableWellFormed(t) && WellFormedOrders(orders)
    ensures TableWellFormed(WithSeatOrders(t, seat, orders))
  {
  }

  /** The decimal digits of `n`, as a template literal prints a non-negative integer. */
  function NatToString(n: nat): (s: string)
    ensures |s| >= 1
    ensures forall i :: 0 <= i < |s| ==> '0' <= s[i] <= '9'
    decreases n
  {
    if n < 10 then ["0123456789"[n]] else NatToString(n / 10) + ["0123456789"[n % 10]]
  }

  /** Reads a string of decimal digits back as a number. */
  function DigitsValue(s: string): nat
    requires forall i :: 0 <= i < |s| ==> '0' <= s[i] <= '9'
    decreases |s|
  {
    if s == [] then 0 else DigitsValue(s[..|s| - 1]) * 10 + (s[|s| - 1] as int - '0' as int)
  }

  /** The digit character printed for `d` reads back as `d`. */
  lemma {:induction false} DigitRoundTrip(d: nat)
    requires d < 10
    ensures "0123456789"[d] as int - '0' as int == d
  {
    if d < 5 {
      if d == 0 {} else if d == 1 {} else if d == 2 {} else if d == 3 {} else {}
    } else {
      if d == 5 {} else if d == 6 {} else if d == 7 {} else if d == 8 {} else {}
    }
  }

  /** The printed digits read back as the number printed. */
  lemma {:induction false} NatToStringRoundTrip(n: nat)
    ensures DigitsValue(NatToString(n)) == n
    decreases n
  {
    var s := NatToString(n);
    if n < 10 {
      DigitRoundTrip(n);
      assert s[..0] == [];
    } else {
      NatToStringRoundTrip(n / 10);
      DigitRoundTrip(n % 10);
      assert s[..|s| - 1] == NatToString(n / 10);
    }
  }

  /** The display name of a new seat created when `n - 1` seats exist. */
  function SeatName(n: nat): string
  {
    "Seat " + NatToString(n)
  }

  /** Two seat names are equal only when they were made from equal numbers. */
  lemma {:induction false} SeatNameInjective(m: nat, n: nat)
    ensures SeatName(m) == SeatName(n) <==> m == n
  {
    if SeatName(m) == SeatName(n) {
      assert NatToString(m) == SeatName(m)[5..];
      assert NatToString(n) == SeatName(n)[5..];
      NatToStringRoundTrip(m);
      NatToStringRoundTrip(n);
    }
  }

  /** `addCustomer`'s new seat list: one empty seat appended, named after the current count plus one. */
  function AddSeat(cs: seq<Customer>, now: int): (r: seq<Customer>)
    ensures |r| == |cs| + 1 && r[..|cs|] == cs
    ensures r[|cs|].orders == [] && r[|cs|].id == now
    ensures r[|cs|].name == SeatName(|cs| + 1)
  {
    cs + [Customer(now, SeatName(|cs| + 1), [])]
  }

  /** A new seat has ordered nothing: the table total and the seats counted as guests stay as they were. */
  lemma {:induction false} AddSeatKeepsTotals(cs: seq<Customer>, now: int)
    ensures Sum(AddSeat(cs, now), CustomerTotal) == Sum(cs, CustomerTotal)
    ensures SeatsWithOrders(AddSeat(cs, now)) == SeatsWithOrders(cs)
  {
    var r := AddSeat(cs, now);
    assert r[..|r| - 1] == cs;
  }

  /** Splicing a line out keeps the list well formed, and no line for its item remains. */
  lemma {:induction false} RemoveLineKeepsWellFormed(orders: seq<OrderLine>, i: nat)
    requires i < |orders| && WellFormedOrders(orders)
    ensures WellFormedOrders(RemoveAt(orders, i))
    ensures ItemQty(RemoveAt(orders, i), orders[i].id) == 0
  {
    var r := RemoveAt(orders, i);
    forall j | 0 <= j < |r| ensures r[j].id != orders[i].id {
      if j < i {
        assert r[j] == orders[j];
      } else {
        assert r[j] == orders[j + 1];
      }
    }
  }

  /**
   * Seat names come from the current count, not a counter: when the last seat
   * carries the name its position gives it and an earlier seat is removed, the
   * next seat added gets the same name as that last seat.
   */
  lemma {:induction false} SeatNamesCanRepeat(cs: seq<Customer>, removed: nat, now: int)
    requires removed < |cs| - 1
    requires cs[|cs| - 1].name == SeatName(|cs|)
    ensures var r := AddSeat(RemoveAt(cs, removed), now);
      r[|r| - 1].name == r[|r| - 2].name
  {
  }

  // ---------------------------------------------------------------------------
  // The table record each handler writes back

  /** The record `addItemToOrder` writes for seat `seat`. */
  function AddItemAt(t: Table, seat: nat, item: MenuItem): Table
    requires seat < |t.customers|
  {
    WithSeatOrders(t, seat, AddItem(t.customers[seat].orders, item))
  }

  /**
   * Adding an item to a seat keeps the table well formed, raises the seat's
   * quantity for the item by one and the table total by the price on its line.
   */
  lemma {:induction false} AddItemAtSpec(t: Table, seat: nat, item: MenuItem)
    requires seat < |t.customers| && TableWellFormed(t)
    ensures var r := AddItemAt(t, seat, item);
      var orders := t.customers[seat].orders;
      && r.id == t.id && |r.customers| == |t.customers| && TableWellFormed(r)
      && ItemQty(r.customers[seat].orders, item.id) == ItemQty(orders, item.id) + 1
      && TableTotal(r) == TableTotal(t) + AddedPrice(orders, item)
  {
    var orders := t.customers[seat].orders;
    var updated := AddItem(orders, item);
    AddItemQty(orders, item);
    AddItemKeepsWellFormed(orders, item);
    AddItemRaisesTotal(orders, item);
    WithSeatOrdersTotal(t, seat, updated);
    WithSeatOrdersWellFormed(t, seat, updated);
  }

  /** The record `decreaseItemQuantity` writes for seat `seat` when the seat has a line for the item. */
  function DecreaseItemAt(t: Table, seat: nat, itemId: int): Table
    requires seat < |t.customers|
  {
    WithSeatOrders(t, seat, DecreaseItem(t.customers[seat].orders, itemId))
  }

  /**
   * Decreasing keeps the table well formed, lowers the seat's quantity for the
   * item by one (never below 0) and the table total by the price on its line.
   */
  lemma {:induction false} DecreaseItemAtSpec(t: Table, seat: nat, itemId: int)
    requires seat < |t.customers| && TableWellFormed(t)
    ensures var r := DecreaseItemAt(t, seat, itemId);
      var orders := t.customers[seat].orders;
      && r.id == t.id && |r.customers| == |t.customers| && TableWellFormed(r)
      && ItemQty(r.customers[seat].orders, itemId) ==
           (if ItemQty(orders, itemId) > 0 then ItemQty(orders, itemId) - 1 else 0)
      && TableTotal(r) + RemovedPrice(orders, itemId) == TableTotal(t)
  {
    var orders := t.customers[seat].orders;
    var updated := DecreaseItem(orders, itemId);
    DecreaseItemQty(orders, itemId);
    DecreaseItemKeepsWellFormed(orders, itemId);
    DecreaseItemLowersTotal(orders, itemId);
    WithSeatOrdersTotal(t, seat, updated);
    WithSeatOrdersWellFormed(t, seat, updated);
  }

  /** The record `deleteItem` writes: line `index` of seat `seat` spliced out. */
  function DeleteLineAt(t: Table, seat: nat, index: nat): Table
    requires seat < |t.customers| && index < |t.customers[seat].orders|
  {
    WithSeatOrders(t, seat, RemoveAt(t.customers[seat].orders, index))
  }

  /**
   * Deleting a line keeps the table well formed, lowers the table total by the
   * line's whole amount and leaves the seat with no line for that item.
   */
  lemma {:induction false} DeleteLineAtSpec(t: Table, seat: nat, index: nat)
    requires seat < |t.customers| && index < |t.customers[seat].orders| && TableWellFormed(t)
    ensures var r := DeleteLineAt(t, seat, index);
      var orders := t.customers[seat].orders;
      && r.id == t.id && |r.customers| == |t.customers| && TableWellFormed(r)
      && ItemQty(r.customers[seat].orders, orders[index].id) == 0
      && TableTotal(r) + LineAmount(orders[index]) == TableTotal(t)
  {
    var orders := t.customers[seat].orders;
    var updated := RemoveAt(orders, index);
    RemoveLineKeepsWellFormed(orders, index);
    SumRemoveAt(orders, index, LineAmount);
    WithSeatOrdersTotal(t, seat, updated);
    WithSeatOrdersWellFormed(t, seat, updated);
  }

  /** The record `payForSeat` writes: seat `seat` kept, its orders emptied. */
  function ClearSeat(t: Table, seat: nat): Table
    requires seat < |t.customers|
  {
    WithSeatOrders(t, seat, [])
  }

  /**
   * Clearing a seat keeps the table well formed, lowers the table total by the
   * seat's total and, when the seat had ordered, the guest count by one.
   */
  lemma {:induction false} ClearSeatSpec(t: Table, seat: nat)
    requires seat < |t.customers| && TableWellFormed(t)
    ensures var r := ClearSeat(t, seat);
      && r.id == t.id && |r.customers| == |t.customers| && TableWellFormed(r)
      && TableTotal(r) + CustomerTotal(t.customers[seat]) == TableTotal(t)
      && GuestCount(r) == GuestCount(t) - (if t.customers[seat].orders != [] then 1 else 0)
  {
    WithSeatOrdersTotal(t, seat, []);
    WithSeatOrdersWellFormed(t, seat, []);
    GuestCountAfterClearingSeat(t.customers, seat);
    assert ClearSeat(t, seat).customers == t.customers[seat := t.customers[seat].(orders := [])];
  }

  /** The record `removeCustomer` writes: every seat but `index`, via the filter the handler uses. */
  function RemoveSeatAt(t: Table, index: int): Table
  {
    t.(customers := KeepOthers(t.customers, index))
  }

  /**
   * Removing an existing seat splices it out, keeps the table well formed and
   * lowers the table total by that seat's total.
   */
  lemma {:induction false} RemoveSeatAtSpec(t: Table, index: nat)
    requires index < |t.customers| && TableWellFormed(t)
    ensures var r := RemoveSeatAt(t, index);
      && r.id == t.id && r.customers == RemoveAt(t.customers, index) && TableWellFormed(r)
      && TableTotal(r) + CustomerTotal(t.customers[index]) == TableTotal(t)
  {
    KeepOthersRemovesIndex(t.customers, index);
    SumRemoveAt(t.customers, index, CustomerTotal);
  }

  /** The record `addCustomer` writes: one empty seat appended. */
  function AddCustomerTo(t: Table, now: int): Table
  {
    t.(customers := AddSeat(t.customers, now))
  }

  /** A new seat keeps the table well formed and changes neither the table total nor the guest count. */
  lemma {:induction false} AddCustomerToSpec(t: Table, now: int)
    requires TableWellFormed(t)
    ensures var r := AddCustomerTo(t, now);
      && r.id == t.id && TableWellFormed(r)
      && TableTotal(r) == TableTotal(t) && GuestCount(r) == GuestCount(t)
  {
    AddSeatKeepsTotals(t.customers, now);
  }
}
