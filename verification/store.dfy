/**
 * The order store as the point-of-sale screen drives it: the `diningTables`
 * object store keyed by table id and the append-only `history` store, with one
 * method per handler. Each handler rebuilds a table record from the current
 * one and writes it back whole, as `db.diningTables.put` does.
 *
 * Which table and seat the screen has open, the confirmation dialog's answer,
 * `Date.now()` and the locale date string are parameters.
 */
module PosStore {
  import opened PosTypes
  import opened Seqs
  import opened Totals
  import opened Orders
  import opened Settlement
  import opened HistoryStats

  /** How many tables the floor is seeded with. */
  const InitialTableCount: nat := 10

  /** `INITIAL_TABLES` for a floor of `n` tables: ids 1 to n in order, none with a seat. */
  function TablesUpTo(n: nat): (ts: seq<Table>)
    ensures |ts| == n
    ensures forall i :: 0 <= i < n ==> ts[i].id == i + 1 && ts[i].customers == []
    decreases n
  {
    if n == 0 then [] else TablesUpTo(n - 1) + [Table(n, [])]
  }

  function InitialTables(): seq<Table>
  {
    TablesUpTo(InitialTableCount)
  }

  /** `bulkPut`: each record stored under its id, a later record replacing an earlier one. */
  function BulkPut(m: map<int, Table>, ts: seq<Table>): map<int, Table>
    decreases |ts|
  {
    if ts == [] then m else BulkPut(m, ts[..|ts| - 1])[ts[|ts| - 1].id := ts[|ts| - 1]]
  }

  /** Seeding an empty store puts exactly the tables 1 to n, each empty and stored under its own id. */
  lemma {:induction false} SeedTables(n: nat)
    ensures var m := BulkPut(map[], TablesUpTo(n));
      && (forall id :: id in m <==> 1 <= id <= n)
      && (forall id :: id in m ==> m[id] == Table(id, []))
  {
    SeedTablesKeys(n);
    SeedTablesValues(n);
  }

  /** One more table seeded adds the entry for id `n` to the tables before it. */
  lemma {:induction false} SeedTablesStep(n: nat)
    requires n > 0
    ensures BulkPut(map[], TablesUpTo(n)) == BulkPut(map[], TablesUpTo(n - 1))[n := Table(n, [])]
  {
    var ts := TablesUpTo(n);
    assert ts[..n - 1] == TablesUpTo(n - 1);
  }

  lemma {:induction false} SeedTablesKeys(n: nat)
    ensures forall id :: id in BulkPut(map[], TablesUpTo(n)) <==> 1 <= id <= n
    decreases n
  {
    if n > 0 {
      SeedTablesKeys(n - 1);
      SeedTablesStep(n);
    }
  }

  lemma {:induction false} SeedTablesValues(n: nat)
    ensures var m := BulkPut(map[], TablesUpTo(n));
      forall id :: id in m ==> m[id] == Table(id, [])
    decreases n
  {
    if n > 0 {
      SeedTablesValues(n - 1);
      SeedTablesStep(n);
    }
  }

  /** Every table is stored under its own id and keeps well-formed seats. */
  predicate TablesValid(tables: map<int, Table>)
  {
    forall id :: id in tables ==> tables[id].id == id && TableWellFormed(tables[id])
  }

  /** `put` of a well-formed record under its own id keeps the table store valid. */
  lemma {:induction false} PutTable(tables: map<int, Table>, t: Table)
    requires TablesValid(tables) && TableWellFormed(t)
    ensures TablesValid(tables[t.id := t])
  {
  }

  class Store {
    /** The `diningTables` store: table records keyed by their id. */
    var tables: map<int, Table>
    /** The `history` store in insertion order (ascending auto-increment key). */
    var history: seq<HistoryRecord>

    /**
     * Every table is stored under its own id and keeps well-formed seats; every
     * log entry carries a positive total equal to the sum of its lines.
     */
    ghost predicate Valid()
      reads this
    {
      && TablesValid(tables)
      && (forall k :: 0 <= k < |history| ==> RecordConsistent(history[k]))
    }

    /** The seat the order screen has open exists. */
    predicate HasSeat(tableId: int, seat: nat)
      reads this
    {
      tableId in tables && seat < |tables[tableId].customers|
    }

    /** A fresh database: both stores empty. */
    constructor()
      ensures Valid()
      ensures tables == map[] && history == []
    {
      tables := map[];
      history := [];
    }

    /** `initDb`: seed the ten empty tables when the table store holds no record. */
    method InitDb()
      requires Valid()
      modifies this
      ensures Valid()
      ensures old(tables) == map[] ==>
        (forall id :: id in tables <==> 1 <= id <= InitialTableCount) &&
        (forall id :: id in tables ==> tables[id] == Table(id, []))
      ensures old(tables) != map[] ==> tables == old(tables)
      ensures history == old(history)
    {
      if |tables| == 0 {
        SeedTables(InitialTableCount);
        assert tables == map[];
        tables := BulkPut(tables, InitialTables());
      }
    }

    /** `getItemQty` for the open seat: the quantity on the item's line, 0 when the seat does not exist. */
    function ItemQtyAt(tableId: int, seat: nat, itemId: int): (q: nat)
      reads this
      ensures !HasSeat(tableId, seat) ==> q == 0
      ensures HasSeat(tableId, seat) && !HasLine(tables[tableId].customers[seat].orders, itemId) ==> q == 0
    {
      if HasSeat(tableId, seat) then ItemQty(tables[tableId].customers[seat].orders, itemId) else 0
    }

    /**
     * `addCustomer`: a missing table is left alone; otherwise an empty seat named
     * after the current seat count plus one is appended. Nothing owed changes.
     */
    method AddCustomer(tableId: int, now: int)
      requires Valid()
      modifies this
      ensures Valid()
      ensures tableId in old(tables) ==> tables == old(tables)[tableId := AddCustomerTo(old(tables)[tableId], now)]
      ensures tableId !in old(tables) ==> tables == old(tables)
      ensures history == old(history)
      ensures TableTotalOf(tables, tableId) == old(TableTotalOf(tables, tableId))
      ensures tableId in old(tables) ==> GuestCount(tables[tableId]) == old(GuestCount(tables[tableId]))
    {
      if tableId !in tables {
        return;
      }
      var table := tables[tableId];
      AddCustomerToSpec(table, now);
      PutTable(tables, AddCustomerTo(table, now));
      tables := tables[tableId := AddCustomerTo(table, now)];
    }

    /** `handleTableClick`: opening a table with no seat gives it its first seat, "Seat 1". */
    method OpenTable(tableId: int, now: int)
      requires Valid()
      modifies this
      ensures Valid()
      ensures tableId in old(tables) && old(tables)[tableId].customers == [] ==>
        tables == old(tables)[tableId := Table(tableId, [Customer(now, SeatName(1), [])])]
      ensures !(tableId in old(tables) && old(tables)[tableId].customers == []) ==> tables == old(tables)
      ensures history == old(history)
    {
      if tableId in tables && |tables[tableId].customers| == 0 {
        AddCustomer(tableId, now);
      }
    }

    /**
     * `addItemToOrder` on the open seat: one more unit of the item, on its
     * existing line or on a new line of quantity 1. The shown quantity rises by
     * one and the table total by the price on that line.
     */
    method AddItemToOrder(tableId: int, seat: nat, item: MenuItem)
      requires Valid()
      modifies this
      ensures Valid()
      ensures old(HasSeat(tableId, seat)) ==>
        tables == old(tables)[tableId := AddItemAt(old(tables)[tableId], seat, item)]
      ensures !old(HasSeat(tableId, seat)) ==> tables == old(tables)
      ensures history == old(history)
      ensures old(HasSeat(tableId, seat)) ==>
        ItemQtyAt(tableId, seat, item.id) == old(ItemQtyAt(tableId, seat, item.id)) + 1
      ensures old(HasSeat(tableId, seat)) ==>
        TableTotalOf(tables, tableId) == old(TableTotalOf(tables, tableId) + AddedPrice(tables[tableId].customers[seat].orders, item))
    {
      if !HasSeat(tableId, seat) {
        return;
      }
      var table := tables[tableId];
      ghost var qty := ItemQty(table.customers[seat].orders, item.id);
      assert ItemQtyAt(tableId, seat, item.id) == qty;
      var updated := AddItemAt(table, seat, item);
      AddItemAtSpec(table, seat, item);
      PutTable(tables, updated);
      tables := tables[tableId := updated];
      assert tables[tableId] == updated;
      assert ItemQtyAt(tableId, seat, item.id) == qty + 1;
    }

    /**
     * `decreaseItemQuantity` on the open seat: with a line for the item, one unit
     * less (the line goes at quantity 1) and the table total drops by its price;
     * without one, nothing is written. The shown quantity never goes below 0.
     */
    method DecreaseItemQuantity(tableId: int, seat: nat, itemId: int)
      requires Valid()
      modifies this
      ensures Valid()
      ensures old(HasSeat(tableId, seat)) && old(HasLine(tables[tableId].customers[seat].orders, itemId)) ==>
        tables == old(tables)[tableId := DecreaseItemAt(old(tables)[tableId], seat, itemId)]
      ensures !(old(HasSeat(tableId, seat)) && old(HasLine(tables[tableId].customers[seat].orders, itemId))) ==>
        tables == old(tables)
      ensures history == old(history)
      ensures ItemQtyAt(tableId, seat, itemId) ==
        if old(ItemQtyAt(tableId, seat, itemId)) > 0 then old(ItemQtyAt(tableId, seat, itemId)) - 1 else 0
      ensures old(HasSeat(tableId, seat)) ==>
        TableTotalOf(tables, tableId) + old(RemovedPrice(tables[tableId].customers[seat].orders, itemId)) ==
          old(TableTotalOf(tables, tableId))
    {
      if !HasSeat(tableId, seat) {
        return;
      }
      var table := tables[tableId];
      var k := FindLine(table.customers[seat].orders, itemId);
      if k >= 0 {
        var updated := DecreaseItemAt(table, seat, itemId);
        DecreaseItemAtSpec(table, seat, itemId);
        PutTable(tables, updated);
        tables := tables[tableId := updated];
      }
    }

    /**
     * `deleteItem` on the open seat: once confirmed, the line at `itemIndex` is
     * spliced out, whatever its quantity, and the table total drops by its amount.
     * A missing seat or line makes the handler fail before asking, so nothing changes.
     */
    method DeleteItem(tableId: int, seat: nat, itemIndex: int, confirmed: bool)
      requires Valid()
      modifies this
      ensures Valid()
      ensures old(HasSeat(tableId, seat)) && 0 <= itemIndex < |old(tables)[tableId].customers[seat].orders| && confirmed ==>
        var orders := old(tables)[tableId].customers[seat].orders;
        && tables == old(tables)[tableId := DeleteLineAt(old(tables)[tableId], seat, itemIndex)]
        && TableTotalOf(tables, tableId) + LineAmount(orders[itemIndex]) == old(TableTotalOf(tables, tableId))
        && ItemQtyAt(tableId, seat, orders[itemIndex].id) == 0
      ensures !(old(HasSeat(tableId, seat)) && 0 <= itemIndex < |old(tables)[tableId].customers[seat].orders| && confirmed) ==>
        tables == old(tables)
      ensures history == old(history)
    {
      if !HasSeat(tableId, seat) || itemIndex < 0 || itemIndex >= |tables[tableId].customers[seat].orders| {
        return;
      }
      if !confirmed {
        return;
      }
      var table := tables[tableId];
      var updated := DeleteLineAt(table, seat, itemIndex);
      DeleteLineAtSpec(table, seat, itemIndex);
      PutTable(tables, updated);
      tables := tables[tableId := updated];
    }

    /**
     * `removeCustomer`: once confirmed, the seat at `index` and its orders are
     * dropped, later seats moving up one place; the table total drops by that
     * seat's total. A missing seat makes the handler fail before asking.
     */
    method RemoveCustomer(tableId: int, index: int, confirmed: bool)
      requires Valid()
      modifies this
      ensures Valid()
      ensures tableId in old(tables) && 0 <= index < |old(tables)[tableId].customers| && confirmed ==>
        var cs := old(tables)[tableId].customers;
        && tables == old(tables)[tableId := old(tables)[tableId].(customers := RemoveAt(cs, index))]
        && TableTotalOf(tables, tableId) + CustomerTotal(cs[index]) == old(TableTotalOf(tables, tableId))
      ensures !(tableId in old(tables) && 0 <= index < |old(tables)[tableId].customers| && confirmed) ==>
        tables == old(tables)
      ensures history == old(history)
    {
      if tableId !in tables || index < 0 || index >= |tables[tableId].customers| {
        return;
      }
      if !confirmed {
        return;
      }
      var table := tables[tableId];
      var updated := RemoveSeatAt(table, index);
      RemoveSeatAtSpec(table, index);
      PutTable(tables, updated);
      tables := tables[tableId := updated];
    }

    /** `addToHistory`: append the seat's record to the log unless the seat totals 0. */
    method AddToHistory(c: Customer, tableId: int, date: string)
      requires Valid()
      modifies this
      ensures Valid()
      ensures history == old(history) + SeatReceipt(c, tableId, date)
      ensures tables == old(tables)
    {
      if CustomerTotal(c) == 0 {
        return;
      }
      history := history + [RecordFor(c, tableId, date)];
    }

    /**
     * `payForSeat`: once confirmed, a seat owing money is logged and its orders
     * cleared. Money moves from the table to the log: the logged revenue plus
     * what the table owes is the same before and after.
     */
    method PayForSeat(tableId: int, seat: nat, confirmed: bool, date: string)
      requires Valid()
      modifies this
      ensures Valid()
      ensures old(HasSeat(tableId, seat)) && old(CustomerTotal(tables[tableId].customers[seat])) > 0 && confirmed ==>
        && history == old(history) + [RecordFor(old(tables)[tableId].customers[seat], tableId, date)]
        && tables == old(tables)[tableId := ClearSeat(old(tables)[tableId], seat)]
      ensures !(old(HasSeat(tableId, seat)) && old(CustomerTotal(tables[tableId].customers[seat])) > 0 && confirmed) ==>
        history == old(history) && tables == old(tables)
      ensures Sum(history, RecordTotal) + TableTotalOf(tables, tableId) ==
        old(Sum(history, RecordTotal) + TableTotalOf(tables, tableId))
    {
      if !HasSeat(tableId, seat) {
        return;
      }
      var table := tables[tableId];
      var c := table.customers[seat];
      if CustomerTotal(c) == 0 || !confirmed {
        return;
      }
      ghost var before := history;
      AddToHistory(c, tableId, date);
      SumAppend(before, [RecordFor(c, tableId, date)], RecordTotal);
      SumSingleton(RecordFor(c, tableId, date), RecordTotal);
      var updated := ClearSeat(table, seat);
      ClearSeatSpec(table, seat);
      PutTable(tables, updated);
      tables := tables[tableId := updated];
    }

    /**
     * `payForTable`: once confirmed, a table owing money logs one record per seat
     * with a non-zero total, in seat order, and is left with no seats. The log
     * grows by exactly what the table owed.
     */
    method PayForTable(tableId: int, confirmed: bool, date: string)
      requires Valid()
      modifies this
      ensures Valid()
      ensures old(TableTotalOf(tables, tableId)) > 0 && confirmed ==>
        && history == old(history) + Receipts(old(tables)[tableId].customers, tableId, date)
        && tables == old(tables)[tableId := old(tables)[tableId].(customers := [])]
        && Sum(history, RecordTotal) == old(Sum(history, RecordTotal) + TableTotalOf(tables, tableId))
        && TableTotalOf(tables, tableId) == 0
      ensures !(old(TableTotalOf(tables, tableId)) > 0 && confirmed) ==>
        history == old(history) && tables == old(tables)
    {
      if TableTotalOf(tables, tableId) == 0 || !confirmed {
        return;
      }
      var table := tables[tableId];
      ghost var before := history;
      LogReceipts(table.customers, tableId, date);
      ReceiptsRevenue(table.customers, tableId, date);
      SumAppend(before, Receipts(table.customers, tableId, date), RecordTotal);
      var emptied := table.(customers := []);
      PutTable(tables, emptied);
      tables := tables[tableId := emptied];
    }

    /** `payForTable`'s loop: `addToHistory` for each seat in turn, tables untouched. */
    method LogReceipts(cs: seq<Customer>, tableId: int, date: string)
      requires Valid()
      modifies this
      ensures Valid()
      ensures history == old(history) + Receipts(cs, tableId, date)
      ensures tables == old(tables)
    {
      for i := 0 to |cs|
        invariant Valid()
        invariant history == old(history) + Receipts(cs[..i], tableId, date)
        invariant tables == old(tables)
      {
        AddToHistory(cs[i], tableId, date);
        ReceiptsStep(cs, i, tableId, date);
      }
      assert cs[..|cs|] == cs;
    }

    /**
     * The statistics block of the history screen, over the log newest first.
     * The item revenues add up to the total revenue, since every entry's total
     * is the sum of its lines.
     */
    method Report() returns (report: HistoryReport)
      requires Valid()
      ensures report.totalRevenue == Sum(history, RecordTotal)
      ensures report.totalOrders == |history|
      ensures report.avgOrderValue == AverageOrderValue(report.totalRevenue, report.totalOrders)
      ensures report.groups == GroupByDate(Reverse(history)) && report.daysTracked == |report.groups|
      ensures report.topItems == TopItems(ItemStats(Reverse(history)))
      ensures Sum(ItemStats(Reverse(history)), StatRevenue) == report.totalRevenue
    {
      var newestFirst := Reverse(history);
      report := BuildReport(newestFirst);
      SumReverse(history, RecordTotal);
      ItemRevenueIsTotalRevenue(newestFirst) by {
        forall i | 0 <= i < |newestFirst|
          ensures newestFirst[i].total == Sum(newestFirst[i].items, LineAmount)
        {
          assert RecordConsistent(history[|history| - 1 - i]);
        }
      }
    }
  }
}
