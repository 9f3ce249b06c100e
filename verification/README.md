# Restaurant POS order state, modelled in Dafny

The point-of-sale database declares four stores (`src/db.js:4-9`). Two of
them, `diningTables` and `history`, become the fields of `Store`: a table
store whose records hold their seats in order and each seat its order lines,
and an append-only log of settled bills. `menuItems` and `settings` are left
out. This project models the part of `src/App.jsx` that reads and changes
that state:

- the seed of ten empty tables;
- the seat and table totals;
- the quantity shown on a menu card;
- the "occupied" rule of the dashboard;
- the order handlers (add a seat, add an item, decrease an item, delete a
  line, remove a seat);
- settlement (log one seat, pay for one seat, pay for the whole table);
- the statistics block of the history screen (revenue, order count, average,
  grouping by day, per-item counts and revenue, the five best sellers).

Layout, one module per file:

| file | module | contents |
|---|---|---|
| `pos_types.dfy` | `PosTypes` | the records |
| `seqs.dfy` | `Seqs` | left-to-right sums, the keyed search `FindIndex`, splicing, filtering by index, reversal |
| `totals.dfy` | `Totals` | totals, line lookup, occupancy |
| `orders.dfy` | `Orders` | how each handler rebuilds a seat's lines or a table record |
| `settlement.dfy` | `Settlement` | the records a payment appends |
| `history_stats.dfy` | `HistoryStats` | the history statistics |
| `store.dfy` | `PosStore` | class `Store` |

`PosStore.Store` holds two fields:

- `tables: map<int, Table>` is the table store keyed by id, where `put` replaces a record.
- `history: seq<HistoryRecord>` is the log in key order.

It has one method per handler. `Store.Valid()` is the invariant every handler keeps:

- each table is stored under its own id;
- every seat's lines have quantity at least 1 and distinct menu ids;
- every logged record has a positive total equal to the sum of its lines.

Money is modelled as whole minor units (`nat`), so sums are exact. The average
order value is an exact `real` quotient. The screen's state enters as method
parameters:

- the open table and seat;
- the confirmation dialog's answer;
- `Date.now()`;
- the locale date string.

Seat names come from the current seat count plus one (`src/App.jsx:138,145`).
After "Seat 2" of three seats is removed, a new seat is named "Seat 3",
beside the existing "Seat 3"; `Orders.SeatNamesCanRepeat` states this.

The history screen lists its days, and its per-item entries, in the order
the log first mentions them; the top five keep that order among items that
sold the same number of units.

## Model

| member | source | states |
|---|---|---|
| PosStore.TablesUpTo | src/App.jsx:31-34 | the seed list has n tables; table i+1 sits at position i and has no seat |
| PosStore.SeedTables | src/App.jsx:69-74 | `bulkPut` of the seed into an empty store stores exactly ids 1..n, each as an empty table under its own id |
| PosStore.BulkPut | src/App.jsx:72 | `bulkPut` of the seed; `PosStore.SeedTables` states which ids it stores and what |
| PosStore.Store.InitDb | src/App.jsx:66-88 | an empty table store is seeded with tables 1..10, all empty; a non-empty one and the log are left as they were |
| PosStore.Store.ItemQtyAt | src/App.jsx:317-321 | the menu-card quantity is 0 when there is no open seat or the seat has no line for the item |
| PosStore.Store.OpenTable | src/App.jsx:121-132 | opening a table with no seats gives it exactly one empty seat "Seat 1"; otherwise nothing changes |
| PosStore.Store.AddCustomer | src/App.jsx:134-157 | a missing table is ignored; otherwise the record is rewritten with one empty seat appended; table total, guest count and log unchanged |
| PosStore.Store.AddItemToOrder | src/App.jsx:160-184 | with an open seat, the item's shown quantity rises by one and the table total by the price on its line; otherwise nothing changes |
| PosStore.Store.DecreaseItemQuantity | src/App.jsx:187-209 | nothing is written without a line for the item; the shown quantity drops by one but never below 0; the table total drops by that line's price |
| PosStore.Store.DeleteItem | src/App.jsx:212-230 | once confirmed, the line at the index is spliced out; the table total drops by its whole amount; no line for that item remains; otherwise nothing changes |
| PosStore.Store.RemoveCustomer | src/App.jsx:232-247 | once confirmed, the seat at the index is spliced out with its orders and the total drops by its total; otherwise nothing changes |
| PosStore.Store.AddToHistory | src/App.jsx:251-263 | the log grows by the seat's receipt (nothing for a seat totalling 0); tables unchanged |
| PosStore.Store.PayForSeat | src/App.jsx:265-282 | a confirmed seat owing money is logged once and its orders emptied; logged revenue plus table total is conserved |
| PosStore.Store.PayForTable | src/App.jsx:284-303 | a confirmed table owing money logs one record per paying seat in seat order; it is left with no seats; revenue rises by exactly the old table total |
| PosStore.Store.LogReceipts | src/App.jsx:292-294 | the loop appends, seat after seat, exactly what `addToHistory` appends for each; tables unchanged |
| PosStore.Store.Report | src/App.jsx:41 | the statistics over the log read newest first; item revenues add up to total revenue |
| Totals.TableTotalIsSumOfLines | src/App.jsx:307-314 | the table total is price times quantity summed over every line of every seat |
| Totals.CustomerTotalZeroIff | src/App.jsx:307-309 | a seat totals 0 exactly when each of its lines is free or has quantity 0 |
| Totals.TableTotalZeroIff | src/App.jsx:311-314 | a table totals 0 exactly when each seat totals 0 |
| Totals.CustomerTotal | src/App.jsx:307-309 | `getCustomerTotal`; `Totals.CustomerTotalZeroIff` states when it is 0 and `Totals.TableTotalIsSumOfLines` what it sums |
| Totals.TableTotal | src/App.jsx:311-314 | `getTableTotal`; `Totals.TableTotalIsSumOfLines` and `Totals.TableTotalZeroIff` state it |
| Totals.TableTotalOf | src/App.jsx:311-314 | the total of the table stored under an id, 0 for a missing id; the store's handlers state how it changes |
| Totals.FindLine | src/App.jsx:167 | `findIndex`: the first position carrying the id, or -1 exactly when no line carries it |
| Totals.ItemQty | src/App.jsx:317-321 | `getItemQty`: the first matching line's quantity, 0 when no line matches |
| Totals.SeatsWithOrdersEmptyIff | src/App.jsx:876 | no seat counts as a guest exactly when every seat's order list is empty |
| Totals.SeatsWithOrders | src/App.jsx:876 | every seat kept has a non-empty order list; `Totals.SeatsWithOrdersKeepsOrdering` gives the converse and `Totals.SeatsWithOrdersEmptyIff` states when there are none |
| Totals.SeatsWithOrdersKeepsOrdering | src/App.jsx:876 | every seat whose order list is not empty is kept by the filter |
| Totals.GuestCount | src/App.jsx:876-878 | the number of such seats; `Totals.GuestCountAfterClearingSeat` states how payment changes it |
| Totals.GuestCountCountsSeats | src/App.jsx:876-878 | the guest count is exactly the number of seats whose order list is not empty, counted one by one |
| Totals.IsOccupied | src/App.jsx:874-878 | the dashboard's occupied flag; `Totals.OccupiedIff` and `Totals.PositiveTotalIsOccupied` state it |
| Totals.OccupiedIff | src/App.jsx:874-878 | a table is occupied exactly when some seat has a non-empty order list |
| Totals.PositiveTotalIsOccupied | src/App.jsx:874-878 | a table that owes money is shown occupied |
| Totals.GuestCountAfterClearingSeat | src/App.jsx:876-878 | emptying a seat that had ordered lowers the guest count by one; emptying one that had not leaves it |
| Orders.AddItemSpec | src/App.jsx:167-181 | with a line for the id, that line alone gains a unit; without one, a quantity-1 snapshot of the menu item is appended; other lines unchanged |
| Orders.AddItem | src/App.jsx:167-181 | the rebuilt order list; `Orders.AddItemSpec`, `Orders.AddItemQty` and `Orders.AddItemRaisesTotal` state it |
| Orders.AddItemQty | src/App.jsx:167-181 | the quantity shown for the item rises by exactly one |
| Orders.AddItemKeepsWellFormed | src/App.jsx:167-181 | adding keeps quantities at least 1 and menu ids unique |
| Orders.AddItemRaisesTotal | src/App.jsx:167-181 | the seat total rises by the line's snapshot price, or by the menu price for a new line (one more unit adds exactly the line's price to its amount, `Totals.LineAmountNextQty`) |
| Orders.DecreaseItemSpec | src/App.jsx:193-205 | no line, no change; quantity above 1 loses a unit in place; quantity 1 is spliced out, the others keeping their order |
| Orders.DecreaseItem | src/App.jsx:193-205 | the rebuilt order list; `Orders.DecreaseItemSpec`, `Orders.DecreaseItemQty` and `Orders.DecreaseItemLowersTotal` state it |
| Orders.DecreaseItemKeepsWellFormed | src/App.jsx:195-205 | decreasing keeps the list well formed and never leaves a line at quantity 0 |
| Orders.DecreaseItemLowersTotal | src/App.jsx:195-205 | the seat total drops by the matched line's price, or not at all without a line |
| Orders.DecreaseItemQty | src/App.jsx:187-209 | the shown quantity drops by one and never goes below 0 |
| Orders.AddThenDecrease | src/App.jsx:160-209 | plus then minus on the same item restores the order list exactly |
| Orders.AddThenDecreaseTimes | src/App.jsx:160-209 | n plus presses followed by n minus presses restore the order list exactly |
| Orders.WithSeatOrders | src/App.jsx:175 | the rebuilt record keeps the table id, every other seat, and the seat's id and name; only its order list is replaced |
| Orders.WithSeatOrdersTotal | src/App.jsx:311-314 | rewriting one seat's orders changes the table total by exactly the change in that seat's total |
| Orders.NatToString | src/App.jsx:145 | the printed seat number is a non-empty run of decimal digits |
| Orders.NatToStringRoundTrip | src/App.jsx:145 | the printed digits read back as the number printed |
| Orders.SeatNameInjective | src/App.jsx:138-145 | two seat names are equal exactly when made from equal counts |
| Orders.AddSeat | src/App.jsx:138-149 | the seat list gains one seat at the end, with no orders, the current time as id and the name "Seat n+1"; earlier seats unchanged |
| Orders.AddSeatKeepsTotals | src/App.jsx:138-149 | a new seat changes neither the sum of seat totals nor which seats count as guests |
| Orders.SeatNamesCanRepeat | src/App.jsx:138-145 | after removing a seat other than the last, the next seat added repeats the last seat's name |
| Orders.RemoveLineKeepsWellFormed | src/App.jsx:222-223 | splicing a line out keeps the list well formed and leaves no line for its item |
| Orders.AddItemAtSpec | src/App.jsx:160-184 | the record written keeps its id, seat count and well-formedness; the seat's quantity rises by one, the table total by the line price |
| Orders.AddItemAt | src/App.jsx:183 | the record `addItemToOrder` writes; `Orders.AddItemAtSpec` states it |
| Orders.DecreaseItemAtSpec | src/App.jsx:187-209 | the record written keeps its id, seat count and well-formedness; the quantity drops by one floored at 0, the total by the line price |
| Orders.DecreaseItemAt | src/App.jsx:207 | the record `decreaseItemQuantity` writes; `Orders.DecreaseItemAtSpec` states it |
| Orders.DeleteLineAtSpec | src/App.jsx:220-225 | the record written keeps its id and well-formedness; the total drops by the line's amount; no line for that item remains |
| Orders.DeleteLineAt | src/App.jsx:225 | the record `deleteItem` writes; `Orders.DeleteLineAtSpec` states it |
| Orders.ClearSeatSpec | src/App.jsx:274-277 | the record written keeps its seats; the total drops by the seat total; the guest count drops by one if the seat had ordered |
| Orders.ClearSeat | src/App.jsx:277 | the record `payForSeat` writes; `Orders.ClearSeatSpec` states it |
| Orders.RemoveSeatAtSpec | src/App.jsx:240-241 | filtering out an existing index splices out that seat; the total drops by its total |
| Orders.RemoveSeatAt | src/App.jsx:241 | the record `removeCustomer` writes; `Orders.RemoveSeatAtSpec` states it |
| Orders.AddCustomerToSpec | src/App.jsx:139-151 | the record written keeps its id and well-formedness, its total and its guest count |
| Orders.AddCustomerTo | src/App.jsx:151 | the record `addCustomer` writes; `Orders.AddCustomerToSpec` states it |
| Seqs.KeepOthersRemovesIndex | src/App.jsx:240 | `filter((_, i) => i !== index)` with an index in range is the splice at that index |
| Seqs.KeepOthersOutOfRange | src/App.jsx:240 | with an index out of range the filter keeps every seat |
| Seqs.Reverse | src/App.jsx:41 | `orderBy('id').reverse()`: position i of the newest-first view holds the record i places from the end of the log |
| Seqs.SumReverse | src/App.jsx:41 | reading the log newest first leaves its revenue unchanged |
| Seqs.FindIndex | src/App.jsx:167 | `findIndex` over a key: the first position whose key matches, or -1 exactly when none does |
| Settlement.SeatReceipt | src/App.jsx:251-263 | nothing is logged exactly when the seat totals 0; otherwise one consistent record with the seat's name, table and lines |
| Settlement.RecordFor | src/App.jsx:255-261 | the history record built for a seat; `Settlement.SeatReceipt` states it |
| Settlement.ReceiptsFollowPaidSeats | src/App.jsx:292-294 | one record per seat with a non-zero total, in seat order, each built from that seat |
| Settlement.Receipts | src/App.jsx:292-294 | the records the settlement loop logs; `Settlement.ReceiptsFollowPaidSeats`, `Settlement.ReceiptsConsistent` and `Settlement.ReceiptsRevenue` state them |
| Settlement.ReceiptsConsistent | src/App.jsx:292-294 | every record a table settlement appends has a positive total equal to the sum of its lines |
| Settlement.ReceiptsRevenue | src/App.jsx:284-295 | the records a table settlement appends sum to the table's total |
| HistoryStats.TotalRevenue | src/App.jsx:690 | the loop's result is the sum of the record totals |
| HistoryStats.AverageOrderValue | src/App.jsx:692 | the average is 0 without orders; otherwise average times count equals revenue; never negative |
| HistoryStats.DateKey | src/App.jsx:681 | the day key is the prefix of the date before its first comma, or the whole date when it has none |
| HistoryStats.FindGroup | src/App.jsx:682 | the entry carrying the day key, or -1 exactly when no entry carries it |
| HistoryStats.GroupByDatePartitions | src/App.jsx:680-687 | day keys are distinct; each group is exactly its day's records in reading order, never empty; every record's day has a group |
| HistoryStats.GroupByDate | src/App.jsx:680-687 | `groupedByDate`; `HistoryStats.GroupByDatePartitions` and `HistoryStats.GroupByDateFirstSeen` state it |
| HistoryStats.FileUnderDate | src/App.jsx:681-685 | one step of the grouping reduce; `HistoryStats.FileUnderDateKeepsPartition` and `HistoryStats.FilingKeepsDayOrder` state what it keeps |
| HistoryStats.GroupByDateFirstSeen | src/App.jsx:680-687 | every day listed occurs in the log, and the days are listed in the order the log first mentions them |
| HistoryStats.DayTotalsAddUp | src/App.jsx:771-772 | the day totals sum to the total revenue and the day counts to the order count |
| HistoryStats.GroupOrdersByDate | src/App.jsx:680-687 | the grouping loop computes the grouping fold |
| HistoryStats.FindStat | src/App.jsx:697 | the entry carrying the item name, or -1 exactly when no entry carries it |
| HistoryStats.TallyMatches | src/App.jsx:695-704 | entries are keyed by distinct names; every line's name has one; count and revenue are sums of quantity and amount over that name's lines |
| HistoryStats.Tally | src/App.jsx:695-704 | the per-item reduce; `HistoryStats.TallyMatches` and `HistoryStats.TallyFirstSeen` state it |
| HistoryStats.TallyLine | src/App.jsx:697-701 | one line's step of the reduce; `HistoryStats.TallyNewNameMatches` and `HistoryStats.TallyKnownNameMatches` state what it keeps |
| HistoryStats.ItemStats | src/App.jsx:695-704 | `itemStats` over every line of the log; `HistoryStats.ItemRevenueIsTotalRevenue` states it |
| HistoryStats.TallyFirstSeen | src/App.jsx:695-704 | every entry's name occurs among the lines, and the entries are listed in the order their names are first met |
| HistoryStats.ItemRevenueIsTotalRevenue | src/App.jsx:690-704 | when each record's total is the sum of its lines, the item revenues sum to the total revenue |
| HistoryStats.ComputeItemStats | src/App.jsx:695-704 | the nested loops compute the per-item fold over every line of every record |
| HistoryStats.TallyInto | src/App.jsx:696-702 | the `forEach` loop, taking the fold's one-line step `TallyLine` per line, extends the per-item fold by exactly that record's lines |
| HistoryStats.SortByCountSpec | src/App.jsx:706-707 | the ranking is non-increasing by count, a permutation of the entries, and stable within each count |
| HistoryStats.SortByCount | src/App.jsx:706-707 | the ranking; `HistoryStats.SortByCountSpec` states it |
| HistoryStats.InsertByCount | src/App.jsx:707 | one insertion of the ranking; `HistoryStats.InsertByCountStable` and `HistoryStats.InsertByCountKeepsTies` state it |
| HistoryStats.InsertByCountKeepsTies | src/App.jsx:707 | inserting an entry first met before all the others keeps entries of equal count in first-seen order |
| HistoryStats.InsertByCountStable | src/App.jsx:707 | inserting one entry keeps the order among entries of each count, the inserted entry first on ties |
| HistoryStats.TopItemsSpec | src/App.jsx:706-708 | the top list is the first min(5, n) entries of the ranking, non-increasing by count |
| HistoryStats.TopItems | src/App.jsx:706-708 | the top five; `HistoryStats.TopItemsSpec`, `HistoryStats.TopItemsBeatTheRest` and `HistoryStats.TopItemsTiesFirstSeen` state it |
| HistoryStats.TopItemsTiesFirstSeen | src/App.jsx:694-708 | among the top five, items that sold the same number of units appear in the order their names are first met in the log |
| HistoryStats.TopItemsBeatTheRest | src/App.jsx:706-708 | every entry left out of the top list sold no more units than any entry in it |
| HistoryStats.BuildReport | src/App.jsx:680-708 | the report is the revenue, order count, average, day grouping, day count and top five of the log |

## Left out

- Rendering, navigation and the confirmation dialog are left out. The dialog becomes a `confirmed` parameter. `setView`, `setActiveTableId` and `setActiveCustomerIndex` are not modelled.
- Keyboard shortcuts, menu management, backup export and import, and the menu-item seed are not part of this model.
- `src/db.js`, the Dexie schema, is not part of this model. Of its four stores, `diningTables` and `history` become the two fields of `Store`; `menuItems` and `settings` are left out with menu management and settings.
- Negative prices are not modelled: prices are `nat`. The menu form (`src/App.jsx:563-567`) sets no lower bound and stores `parseFloat(...) || 0`, so a price below 0 can reach a line. With such prices a seat whose lines cancel totals 0 and is skipped by `payForSeat`, `addToHistory` and `payForTable` although it has lines, and a seat totalling below 0 is logged with a negative total. Neither case is modelled; `Totals.CustomerTotalZeroIff` and the positive-total clause of `Store.Valid()` rely on non-negative prices.
- Floating point: prices are whole minor units and the average is an exact rational. `toFixed(2)` and float rounding are not modelled.
- Store writes are not transactional in the source: `payForSeat` and `payForTable` log first and then `put` the table. The model applies both steps at once, so a failure between the writes is not modelled.
- Concurrency of the asynchronous handlers is not modelled. Each handler runs to completion before the next.
- Handlers that fail before writing are modelled as calls that change nothing. These are `deleteItem` or `removeCustomer` with an index outside the list, and `payForSeat` on a missing seat, all of which throw a TypeError.
- PosStore.Store.PayForTable: one `date` string is used for every record of a settlement. The source samples the clock once per seat, so records of one settlement could carry different dates.
- HistoryStats.ItemStats: the source gathers `itemStats` in a plain object and tests `!acc[item.name]`, so an item whose name is inherited from `Object.prototype` ("constructor", "toString", "valueOf", "__proto__") gets no entry of its own, has NaN written onto the inherited value, and never appears in `Object.entries(itemStats)` or `topItems`. The model tallies such a name like any other.
- PosStore.Store.Report: it models the `Object.entries` order of `groupedByDate` and `itemStats` as first-insertion order. JavaScript lists integer-like keys (a day key or item name such as "7") first in ascending order, which this does not capture.
