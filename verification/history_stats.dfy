/**
 * The statistics block of the sales-history screen, computed from the log as
 * the screen reads it (newest record first): total revenue, order count,
 * average order value, the records grouped by day, per-item counts and
 * revenue, and the five best-selling items.
 */
module HistoryStats {
  import opened PosTypes
  import opened Seqs
  import opened Totals

  // ---------------------------------------------------------------------------
  // Revenue and average order value

  /** `orderHistory.reduce((sum, order) => sum + order.total, 0)`. */
  method TotalRevenue(orderHistory: seq<HistoryRecord>) returns (total: nat)
    ensures total == Sum(orderHistory, RecordTotal)
  {
    total := 0;
    for i := 0 to |orderHistory|
      invariant total == Sum(orderHistory[..i], RecordTotal)
    {
      assert orderHistory[..i + 1][..i] == orderHistory[..i];
      total := total + orderHistory[i].total;
    }
    assert orderHistory[..|orderHistory|] == orderHistory;
  }

  /** Revenue per order, with the division guarded: no orders means an average of 0. */
  function AverageOrderValue(totalRevenue: nat, totalOrders: nat): (avg: real)
    ensures avg >= 0.0
    ensures totalOrders == 0 ==> avg == 0.0
    ensures totalOrders > 0 ==> avg * totalOrders as real == totalRevenue as real
  {
    if totalOrders > 0 then totalRevenue as real / totalOrders as real else 0.0
  }

  // ---------------------------------------------------------------------------
  // Grouping by day

  /** `date.split(',')[0]`: the text before the first comma, or all of it when there is none. */
  function DateKey(date: string): (key: string)
    ensures key <= date
    ensures forall i :: 0 <= i < |key| ==> key[i] != ','
    ensures |key| < |date| ==> date[|key|] == ','
    decreases |date|
  {
    if date == [] || date[0] == ',' then [] else [date[0]] + DateKey(date[1..])
  }

  /** One entry of `groupedByDate`: a day key and the records filed under it, in reading order. */
  datatype DateGroup = DateGroup(key: string, orders: seq<HistoryRecord>)

  /** Which entry of the accumulator has this key, or -1 (`acc[dateKey]` is undefined). */
  function FindGroup(groups: seq<DateGroup>, key: string): (i: int)
    ensures -1 <= i < |groups|
    ensures 0 <= i ==> groups[i].key == key
    ensures i == -1 <==> forall j :: 0 <= j < |groups| ==> groups[j].key != key
  {
    FindIndex(groups, GroupKey, key)
  }

  function GroupKey(g: DateGroup): string
  {
    g.key
  }

  /** One step of the grouping reduce: push the record onto its day's list, creating the list if needed. */
  function FileUnderDate(groups: seq<DateGroup>, order: HistoryRecord): seq<DateGroup>
  {
    var key := DateKey(order.date);
    var i := FindGroup(groups, key);
    if i < 0 then groups + [DateGroup(key, [order])]
    else groups[i := groups[i].(orders := groups[i].orders + [order])]
  }

  /** `groupedByDate`: the grouping reduce over the whole log. */
  function GroupByDate(orderHistory: seq<HistoryRecord>): seq<DateGroup>
    decreases |orderHistory|
  {
    if orderHistory == [] then []
    else FileUnderDate(GroupByDate(orderHistory[..|orderHistory| - 1]), orderHistory[|orderHistory| - 1])
  }

  /** The reference for one day's list: the log filtered to records with that day key. */
  function OrdersOnDate(orderHistory: seq<HistoryRecord>, key: string): seq<HistoryRecord>
    decreases |orderHistory|
  {
    if orderHistory == [] then []
    else
      var last := orderHistory[|orderHistory| - 1];
      OrdersOnDate(orderHistory[..|orderHistory| - 1], key) + (if DateKey(last.date) == key then [last] else [])
  }

  /** No two day groups share a key. */
  predicate KeysDistinct(groups: seq<DateGroup>)
  {
    forall i, j :: 0 <= i < j < |groups| ==> groups[i].key != groups[j].key
  }

  /** Each group holds exactly the records of its day, in reading order, and at least one. */
  predicate GroupsMatchLog(groups: seq<DateGroup>, orderHistory: seq<HistoryRecord>)
  {
    forall i :: 0 <= i < |groups| ==>
      groups[i].orders == OrdersOnDate(orderHistory, groups[i].key) && groups[i].orders != []
  }

  /** Every record's day has a group. */
  predicate LogCovered(groups: seq<DateGroup>, orderHistory: seq<HistoryRecord>)
  {
    forall j :: 0 <= j < |orderHistory| ==> FindGroup(groups, DateKey(orderHistory[j].date)) >= 0
  }

  /** The grouping is a partition of the log by day key. */
  predicate GroupsPartition(groups: seq<DateGroup>, orderHistory: seq<HistoryRecord>)
  {
    KeysDistinct(groups) && GroupsMatchLog(groups, orderHistory) && LogCovered(groups, orderHistory)
  }

  lemma {:induction false} OrdersOnDateNone(orderHistory: seq<HistoryRecord>, key: string)
    requires forall j :: 0 <= j < |orderHistory| ==> DateKey(orderHistory[j].date) != key
    ensures OrdersOnDate(orderHistory, key) == []
    decreases |orderHistory|
  {
    if orderHistory != [] {
      OrdersOnDateNone(orderHistory[..|orderHistory| - 1], key);
    }
  }

  lemma {:induction false} FilingKeepsKeysDistinct(groups: seq<DateGroup>, order: HistoryRecord)
    requires KeysDistinct(groups)
    ensures KeysDistinct(FileUnderDate(groups, order))
  {
  }

  lemma {:induction false} FilingKeepsLogCovered(groups: seq<DateGroup>, orderHistory: seq<HistoryRecord>)
    requires orderHistory != [] && LogCovered(groups, orderHistory[..|orderHistory| - 1])
    ensures LogCovered(FileUnderDate(groups, orderHistory[|orderHistory| - 1]), orderHistory)
  {
    var h, n := orderHistory, |orderHistory| - 1;
    var init, order := h[..n], h[n];
    var key := DateKey(order.date);
    var gs := FileUnderDate(groups, order);
    assert |gs| >= |groups| && forall i :: 0 <= i < |groups| ==> gs[i].key == groups[i].key;
    var i0 := FindGroup(gs, key);
    assert i0 >= 0 by {
      if FindGroup(groups, key) < 0 {
        assert gs[|groups|].key == key;
      } else {
        assert gs[FindGroup(groups, key)].key == key;
      }
    }
    forall j | 0 <= j < |h| ensures FindGroup(gs, DateKey(h[j].date)) >= 0 {
      if j < n {
        assert h[j] == init[j];
        var g := FindGroup(groups, DateKey(init[j].date));
        assert gs[g].key == DateKey(h[j].date);
      } else {
        assert h[j] == order;
      }
    }
  }

  lemma {:induction false} FilingKeepsGroupsMatch(groups: seq<DateGroup>, orderHistory: seq<HistoryRecord>)
    requires orderHistory != [] && KeysDistinct(groups)
    requires GroupsMatchLog(groups, orderHistory[..|orderHistory| - 1])
    requires LogCovered(groups, orderHistory[..|orderHistory| - 1])
    ensures GroupsMatchLog(FileUnderDate(groups, orderHistory[|orderHistory| - 1]), orderHistory)
  {
    var order := orderHistory[|orderHistory| - 1];
    if FindGroup(groups, DateKey(order.date)) < 0 {
      FilingNewDayMatches(groups, orderHistory);
    } else {
      FilingKnownDayMatches(groups, orderHistory);
    }
  }

  lemma {:induction false} FilingNewDayMatches(groups: seq<DateGroup>, orderHistory: seq<HistoryRecord>)
    requires orderHistory != []
    requires GroupsMatchLog(groups, orderHistory[..|orderHistory| - 1])
    requires LogCovered(groups, orderHistory[..|orderHistory| - 1])
    requires FindGroup(groups, DateKey(orderHistory[|orderHistory| - 1].date)) < 0
    ensures GroupsMatchLog(FileUnderDate(groups, orderHistory[|orderHistory| - 1]), orderHistory)
  {
    var h, n := orderHistory, |orderHistory| - 1;
    var init, order := h[..n], h[n];
    var key := DateKey(order.date);
    var gs := FileUnderDate(groups, order);
    assert gs == groups + [DateGroup(key, [order])];
    OrdersOnDateNone(init, key) by {
      forall j | 0 <= j < |init| ensures DateKey(init[j].date) != key {
        var g := FindGroup(groups, DateKey(init[j].date));
        assert groups[g].key == DateKey(init[j].date);
      }
    }
    forall i | 0 <= i < |gs| ensures gs[i].orders == OrdersOnDate(h, gs[i].key) && gs[i].orders != [] {
      if i < |groups| {
        assert gs[i] == groups[i] && groups[i].key != key;
      } else {
        assert OrdersOnDate(h, key) == [] + [order];
      }
    }
  }

  lemma {:induction false} FilingKnownDayMatches(groups: seq<DateGroup>, orderHistory: seq<HistoryRecord>)
    requires orderHistory != [] && KeysDistinct(groups)
    requires GroupsMatchLog(groups, orderHistory[..|orderHistory| - 1])
    requires FindGroup(groups, DateKey(orderHistory[|orderHistory| - 1].date)) >= 0
    ensures GroupsMatchLog(FileUnderDate(groups, orderHistory[|orderHistory| - 1]), orderHistory)
  {
    var h, n := orderHistory, |orderHistory| - 1;
    var order := h[n];
    var i0 := FindGroup(groups, DateKey(order.date));
    var gs := FileUnderDate(groups, order);
    assert gs == groups[i0 := groups[i0].(orders := groups[i0].orders + [order])];
    forall i | 0 <= i < |gs| ensures gs[i].orders == OrdersOnDate(h, gs[i].key) && gs[i].orders != [] {
      if i != i0 {
        assert gs[i] == groups[i] && groups[i].key != groups[i0].key;
      }
    }
  }

  /** Filing the newest record keeps the grouping a partition of the log. */
  lemma {:induction false} FileUnderDateKeepsPartition(groups: seq<DateGroup>, orderHistory: seq<HistoryRecord>)
    requires orderHistory != [] && GroupsPartition(groups, orderHistory[..|orderHistory| - 1])
    ensures GroupsPartition(FileUnderDate(groups, orderHistory[|orderHistory| - 1]), orderHistory)
  {
    FilingKeepsKeysDistinct(groups, orderHistory[|orderHistory| - 1]);
    FilingKeepsLogCovered(groups, orderHistory);
    FilingKeepsGroupsMatch(groups, orderHistory);
  }

  /**
   * The day groups partition the log: day keys are distinct, each group holds
   * exactly the records of its day in reading order and is never empty, and
   * every record's day has a group.
   */
  lemma {:induction false} GroupByDatePartitions(orderHistory: seq<HistoryRecord>)
    ensures GroupsPartition(GroupByDate(orderHistory), orderHistory)
    decreases |orderHistory|
  {
    if orderHistory != [] {
      var init := orderHistory[..|orderHistory| - 1];
      GroupByDatePartitions(init);
      FileUnderDateKeepsPartition(GroupByDate(init), orderHistory);
    }
  }

  /** `dayTotal` of one group. */
  function DayTotal(g: DateGroup): nat
  {
    Sum(g.orders, RecordTotal)
  }

  /** `dayOrderCount` of one group. */
  function DayOrderCount(g: DateGroup): nat
  {
    |g.orders|
  }

  lemma {:induction false} FileUnderDateSums(groups: seq<DateGroup>, order: HistoryRecord)
    ensures Sum(FileUnderDate(groups, order), DayTotal) == Sum(groups, DayTotal) + order.total
    ensures Sum(FileUnderDate(groups, order), DayOrderCount) == Sum(groups, DayOrderCount) + 1
  {
    var key := DateKey(order.date);
    var i := FindGroup(groups, key);
    if i < 0 {
      var g := DateGroup(key, [order]);
      SumAppend(groups, [g], DayTotal);
      SumAppend(groups, [g], DayOrderCount);
      SumSingleton(g, DayTotal);
      SumSingleton(g, DayOrderCount);
      SumSingleton(order, RecordTotal);
    } else {
      var g := groups[i];
      var g' := g.(orders := g.orders + [order]);
      SumAppend(g.orders, [order], RecordTotal);
      SumSingleton(order, RecordTotal);
      SumUpdate(groups, i, g', DayTotal);
      SumUpdate(groups, i, g', DayOrderCount);
    }
  }

  /** The day cards add up to the summary cards: day totals sum to the revenue, day counts to the order count. */
  lemma {:induction false} DayTotalsAddUp(orderHistory: seq<HistoryRecord>)
    ensures Sum(GroupByDate(orderHistory), DayTotal) == Sum(orderHistory, RecordTotal)
    ensures Sum(GroupByDate(orderHistory), DayOrderCount) == |orderHistory|
    decreases |orderHistory|
  {
    if orderHistory != [] {
      var init := orderHistory[..|orderHistory| - 1];
      DayTotalsAddUp(init);
      FileUnderDateSums(GroupByDate(init), orderHistory[|orderHistory| - 1]);
    }
  }

  /** The day key a record is filed under. */
  function RecordDay(r: HistoryRecord): string
  {
    DateKey(r.date)
  }

  /** The position of the first record of a day in the log, -1 when the day has none. */
  function FirstOfDay(orderHistory: seq<HistoryRecord>, key: string): int
  {
    FindIndex(orderHistory, RecordDay, key)
  }

  /** Every group's day occurs in the log, and the groups come in the order their days first occur. */
  predicate DaysInFirstSeenOrder(groups: seq<DateGroup>, orderHistory: seq<HistoryRecord>)
  {
    && (forall i :: 0 <= i < |groups| ==> 0 <= FirstOfDay(orderHistory, groups[i].key))
    && (forall i, j :: 0 <= i < j < |groups| ==>
          FirstOfDay(orderHistory, groups[i].key) < FirstOfDay(orderHistory, groups[j].key))
  }

  /** A day the filed records do not have first occurs at the record being filed. */
  lemma {:induction false} NewDayFirstSeen(groups: seq<DateGroup>, init: seq<HistoryRecord>, order: HistoryRecord, log: seq<HistoryRecord>)
    requires log == init + [order]
    requires LogCovered(groups, init)
    requires FindGroup(groups, DateKey(order.date)) < 0
    ensures FirstOfDay(log, DateKey(order.date)) == |init|
  {
    var key := DateKey(order.date);
    forall j | 0 <= j < |init| ensures RecordDay(init[j]) != key {
      var g := FindGroup(groups, DateKey(init[j].date));
      assert groups[g].key == RecordDay(init[j]);
    }
    FindIndexSnoc(init, order, RecordDay, key);
  }

  /** A record appended after the log leaves where every grouped day first occurs, which is before it. */
  lemma {:induction false} DayOrderExtends(groups: seq<DateGroup>, init: seq<HistoryRecord>, order: HistoryRecord, log: seq<HistoryRecord>)
    requires log == init + [order]
    requires DaysInFirstSeenOrder(groups, init)
    ensures DaysInFirstSeenOrder(groups, log)
    ensures forall i :: 0 <= i < |groups| ==> FirstOfDay(log, groups[i].key) < |init|
  {
    forall i | 0 <= i < |groups|
      ensures FirstOfDay(log, groups[i].key) == FirstOfDay(init, groups[i].key) < |init|
    {
      FindIndexSnoc(init, order, RecordDay, groups[i].key);
    }
  }

  /** A new last group whose day first occurs after every other group's keeps the day order. */
  lemma {:induction false} DayOrderAppend(groups: seq<DateGroup>, g: DateGroup, log: seq<HistoryRecord>, n: int)
    requires DaysInFirstSeenOrder(groups, log)
    requires forall i :: 0 <= i < |groups| ==> FirstOfDay(log, groups[i].key) < n
    requires 0 <= n && FirstOfDay(log, g.key) == n
    ensures DaysInFirstSeenOrder(groups + [g], log)
  {
    var t := groups + [g];
    forall i | 0 <= i < |t| ensures 0 <= FirstOfDay(log, t[i].key) {
      if i < |groups| {
        assert t[i] == groups[i];
      }
    }
    forall i, j | 0 <= i < j < |t| ensures FirstOfDay(log, t[i].key) < FirstOfDay(log, t[j].key) {
      assert t[i] == groups[i];
      if j < |groups| {
        assert t[j] == groups[j];
      }
    }
  }

  /** Groups with the same days in the same places are in the same order. */
  lemma {:induction false} DayOrderSameKeys(groups: seq<DateGroup>, filed: seq<DateGroup>, log: seq<HistoryRecord>)
    requires DaysInFirstSeenOrder(groups, log)
    requires |filed| == |groups| && forall i :: 0 <= i < |filed| ==> filed[i].key == groups[i].key
    ensures DaysInFirstSeenOrder(filed, log)
  {
  }

  /** Filing the log's last record keeps the groups in the order their days first occur. */
  lemma {:induction false} FilingKeepsDayOrder(groups: seq<DateGroup>, orderHistory: seq<HistoryRecord>)
    requires orderHistory != []
    requires LogCovered(groups, orderHistory[..|orderHistory| - 1])
    requires DaysInFirstSeenOrder(groups, orderHistory[..|orderHistory| - 1])
    ensures DaysInFirstSeenOrder(FileUnderDate(groups, orderHistory[|orderHistory| - 1]), orderHistory)
  {
    var init, order := orderHistory[..|orderHistory| - 1], orderHistory[|orderHistory| - 1];
    assert orderHistory == init + [order];
    var key := DateKey(order.date);
    DayOrderExtends(groups, init, order, orderHistory);
    if FindGroup(groups, key) < 0 {
      NewDayFirstSeen(groups, init, order, orderHistory);
      DayOrderAppend(groups, DateGroup(key, [order]), orderHistory, |init|);
    } else {
      KnownDayKeepsOrder(groups, order, orderHistory);
    }
  }

  /** A record whose day has a group changes no group's day, so the order stays. */
  lemma {:induction false} KnownDayKeepsOrder(groups: seq<DateGroup>, order: HistoryRecord, log: seq<HistoryRecord>)
    requires FindGroup(groups, DateKey(order.date)) >= 0
    requires DaysInFirstSeenOrder(groups, log)
    ensures DaysInFirstSeenOrder(FileUnderDate(groups, order), log)
  {
    var filed := FileUnderDate(groups, order);
    assert forall i :: 0 <= i < |filed| ==> filed[i].key == groups[i].key;
    DayOrderSameKeys(groups, filed, log);
  }

  /** The grouped days cover the log: the part of the partition the day order needs. */
  lemma {:induction false} GroupByDateCovers(orderHistory: seq<HistoryRecord>)
    ensures LogCovered(GroupByDate(orderHistory), orderHistory)
  {
    GroupByDatePartitions(orderHistory);
  }

  lemma {:induction false} GroupByDateInDayOrder(orderHistory: seq<HistoryRecord>)
    ensures DaysInFirstSeenOrder(GroupByDate(orderHistory), orderHistory)
    decreases |orderHistory|
  {
    if orderHistory != [] {
      var init := orderHistory[..|orderHistory| - 1];
      GroupByDateInDayOrder(init);
      GroupByDateCovers(init);
      FilingKeepsDayOrder(GroupByDate(init), orderHistory);
    }
  }

  /**
   * `Object.entries(groupedByDate)` lists the days in the order the log first
   * mentions them: every group's day occurs, and an earlier group's day occurs
   * first earlier.
   */
  lemma {:induction false} GroupByDateFirstSeen(orderHistory: seq<HistoryRecord>)
    ensures forall i :: 0 <= i < |GroupByDate(orderHistory)| ==>
      0 <= FirstOfDay(orderHistory, GroupByDate(orderHistory)[i].key)
    ensures forall i, j :: 0 <= i < j < |GroupByDate(orderHistory)| ==>
      FirstOfDay(orderHistory, GroupByDate(orderHistory)[i].key) < FirstOfDay(orderHistory, GroupByDate(orderHistory)[j].key)
  {
    GroupByDateInDayOrder(orderHistory);
  }

  /** The grouping reduce, pushing each record into its day's list in turn. */
  method GroupOrdersByDate(orderHistory: seq<HistoryRecord>) returns (groups: seq<DateGroup>)
    ensures groups == GroupByDate(orderHistory)
  {
    groups := [];
    for i := 0 to |orderHistory|
      invariant groups == GroupByDate(orderHistory[..i])
    {
      assert orderHistory[..i + 1][..i] == orderHistory[..i];
      var order := orderHistory[i];
      var key := DateKey(order.date);
      var g := FindGroup(groups, key);
      if g < 0 {
        groups := groups + [DateGroup(key, [order])];
      } else {
        groups := groups[g := groups[g].(orders := groups[g].orders + [order])];
      }
    }
    assert orderHistory[..|orderHistory|] == orderHistory;
  }

  // ---------------------------------------------------------------------------
  // Per-item statistics

  /** One entry of `itemStats`: an item name with its units sold and revenue. */
  datatype ItemStat = ItemStat(name: string, count: nat, revenue: nat)

  /** Every line of every record, record after record. */
  function AllLines(orderHistory: seq<HistoryRecord>): seq<OrderLine>
    decreases |orderHistory|
  {
    if orderHistory == [] then []
    else AllLines(orderHistory[..|orderHistory| - 1]) + orderHistory[|orderHistory| - 1].items
  }

  /** Which entry of the accumulator has this name, or -1 (`acc[item.name]` is undefined). */
  function FindStat(stats: seq<ItemStat>, name: string): (i: int)
    ensures -1 <= i < |stats|
    ensures 0 <= i ==> stats[i].name == name
    ensures i == -1 <==> forall j :: 0 <= j < |stats| ==> stats[j].name != name
  {
    FindIndex(stats, StatName, name)
  }

  function StatName(e: ItemStat): string
  {
    e.name
  }

  /** One step of the per-item reduce: `count += qty`, `revenue += price * qty` under the line's name. */
  function TallyLine(stats: seq<ItemStat>, line: OrderLine): seq<ItemStat>
  {
    var i := FindStat(stats, line.name);
    if i < 0 then stats + [ItemStat(line.name, line.qty, LineAmount(line))]
    else stats[i := stats[i].(count := stats[i].count + line.qty, revenue := stats[i].revenue + LineAmount(line))]
  }

  /** The per-item reduce over a run of lines. */
  function Tally(lines: seq<OrderLine>): seq<ItemStat>
    decreases |lines|
  {
    if lines == [] then [] else TallyLine(Tally(lines[..|lines| - 1]), lines[|lines| - 1])
  }

  /** `itemStats` in first-seen order (the order `Object.entries` lists it in). */
  function ItemStats(orderHistory: seq<HistoryRecord>): seq<ItemStat>
  {
    Tally(AllLines(orderHistory))
  }

  function LineQty(l: OrderLine): nat
  {
    l.qty
  }

  /** The reference for one entry: the lines carrying that name, wherever they occur. */
  function LinesNamed(lines: seq<OrderLine>, name: string): seq<OrderLine>
    decreases |lines|
  {
    if lines == [] then []
    else
      var last := lines[|lines| - 1];
      LinesNamed(lines[..|lines| - 1], name) + (if last.name == name then [last] else [])
  }

  /** One entry aggregates exactly the lines with its name, and there is at least one such line. */
  predicate EntryMatches(e: ItemStat, lines: seq<OrderLine>)
  {
    var named := LinesNamed(lines, e.name);
    named != [] && e.count == Sum(named, LineQty) && e.revenue == Sum(named, LineAmount)
  }

  /** No two entries share a name. */
  predicate NamesDistinct(stats: seq<ItemStat>)
  {
    forall i, j :: 0 <= i < j < |stats| ==> stats[i].name != stats[j].name
  }

  predicate EntriesMatch(stats: seq<ItemStat>, lines: seq<OrderLine>)
  {
    forall i :: 0 <= i < |stats| ==> EntryMatches(stats[i], lines)
  }

  /** Every line's name has an entry. */
  predicate LinesCovered(stats: seq<ItemStat>, lines: seq<OrderLine>)
  {
    forall j :: 0 <= j < |lines| ==> FindStat(stats, lines[j].name) >= 0
  }

  /** The entries are keyed by name and each aggregates exactly the lines with that name. */
  predicate StatsMatch(stats: seq<ItemStat>, lines: seq<OrderLine>)
  {
    NamesDistinct(stats) && EntriesMatch(stats, lines) && LinesCovered(stats, lines)
  }

  lemma {:induction false} LinesNamedNone(lines: seq<OrderLine>, name: string)
    requires forall j :: 0 <= j < |lines| ==> lines[j].name != name
    ensures LinesNamed(lines, name) == []
    decreases |lines|
  {
    if lines != [] {
      LinesNamedNone(lines[..|lines| - 1], name);
    }
  }

  /** A line under another name leaves an entry's aggregate as it was. */
  lemma {:induction false} EntryUnaffected(e: ItemStat, lines: seq<OrderLine>)
    requires lines != [] && EntryMatches(e, lines[..|lines| - 1]) && e.name != lines[|lines| - 1].name
    ensures EntryMatches(e, lines)
  {
    var named := LinesNamed(lines[..|lines| - 1], e.name);
    assert LinesNamed(lines, e.name) == named + [];
    assert named + [] == named;
  }

  /** A line under the entry's own name adds its quantity and its amount. */
  lemma {:induction false} EntryAbsorbs(e: ItemStat, lines: seq<OrderLine>)
    requires lines != [] && EntryMatches(e, lines[..|lines| - 1]) && e.name == lines[|lines| - 1].name
    ensures var line := lines[|lines| - 1];
      EntryMatches(e.(count := e.count + line.qty, revenue := e.revenue + LineAmount(line)), lines)
  {
    var line := lines[|lines| - 1];
    var named := LinesNamed(lines[..|lines| - 1], e.name);
    assert LinesNamed(lines, e.name) == named + [line];
    SumAppend(named, [line], LineQty);
    SumAppend(named, [line], LineAmount);
    SumSingleton(line, LineQty);
    SumSingleton(line, LineAmount);
  }

  /** The first line under a name starts its entry at that line's quantity and amount. */
  lemma {:induction false} EntryStarts(lines: seq<OrderLine>)
    requires lines != [] && LinesNamed(lines[..|lines| - 1], lines[|lines| - 1].name) == []
    ensures var line := lines[|lines| - 1];
      EntryMatches(ItemStat(line.name, line.qty, LineAmount(line)), lines)
  {
    var line := lines[|lines| - 1];
    assert LinesNamed(lines, line.name) == [] + [line];
    assert [] + [line] == [line];
    SumSingleton(line, LineQty);
    SumSingleton(line, LineAmount);
  }

  lemma {:induction false} TallyKeepsNamesDistinct(stats: seq<ItemStat>, line: OrderLine)
    requires NamesDistinct(stats)
    ensures NamesDistinct(TallyLine(stats, line))
  {
  }

  lemma {:induction false} TallyKeepsLinesCovered(stats: seq<ItemStat>, lines: seq<OrderLine>)
    requires lines != [] && LinesCovered(stats, lines[..|lines| - 1])
    ensures LinesCovered(TallyLine(stats, lines[|lines| - 1]), lines)
  {
    var n := |lines| - 1;
    var init, line := lines[..n], lines[n];
    var st := TallyLine(stats, line);
    assert |st| >= |stats| && forall i :: 0 <= i < |stats| ==> st[i].name == stats[i].name;
    assert FindStat(st, line.name) >= 0 by {
      if FindStat(stats, line.name) < 0 {
        assert st[|stats|].name == line.name;
      } else {
        assert st[FindStat(stats, line.name)].name == line.name;
      }
    }
    forall j | 0 <= j < |lines| ensures FindStat(st, lines[j].name) >= 0 {
      if j < n {
        assert lines[j] == init[j];
        var g := FindStat(stats, init[j].name);
        assert st[g].name == lines[j].name;
      } else {
        assert lines[j] == line;
      }
    }
  }

  lemma {:induction false} TallyKeepsEntriesMatch(stats: seq<ItemStat>, lines: seq<OrderLine>)
    requires lines != [] && NamesDistinct(stats)
    requires EntriesMatch(stats, lines[..|lines| - 1]) && LinesCovered(stats, lines[..|lines| - 1])
    ensures EntriesMatch(TallyLine(stats, lines[|lines| - 1]), lines)
  {
    if FindStat(stats, lines[|lines| - 1].name) < 0 {
      TallyNewNameMatches(stats, lines);
    } else {
      TallyKnownNameMatches(stats, lines);
    }
  }

  /** A line under a name not seen yet opens a new entry; the others are untouched. */
  lemma {:induction false} TallyNewNameMatches(stats: seq<ItemStat>, lines: seq<OrderLine>)
    requires lines != [] && FindStat(stats, lines[|lines| - 1].name) < 0
    requires EntriesMatch(stats, lines[..|lines| - 1]) && LinesCovered(stats, lines[..|lines| - 1])
    ensures EntriesMatch(TallyLine(stats, lines[|lines| - 1]), lines)
  {
    var n := |lines| - 1;
    var init, line := lines[..n], lines[n];
    var st := TallyLine(stats, line);
    assert st == stats + [ItemStat(line.name, line.qty, LineAmount(line))];
    LinesNamedNone(init, line.name) by {
      forall j | 0 <= j < |init| ensures init[j].name != line.name {
        var g := FindStat(stats, init[j].name);
        assert stats[g].name == init[j].name;
      }
    }
    forall i | 0 <= i < |st| ensures EntryMatches(st[i], lines) {
      if i < |stats| {
        assert st[i] == stats[i] && EntryMatches(stats[i], init);
        EntryUnaffected(stats[i], lines);
      } else {
        EntryStarts(lines);
      }
    }
  }

  /** A line under a known name is absorbed by that name's entry; the others are untouched. */
  lemma {:induction false} TallyKnownNameMatches(stats: seq<ItemStat>, lines: seq<OrderLine>)
    requires lines != [] && NamesDistinct(stats) && FindStat(stats, lines[|lines| - 1].name) >= 0
    requires EntriesMatch(stats, lines[..|lines| - 1])
    ensures EntriesMatch(TallyLine(stats, lines[|lines| - 1]), lines)
  {
    var n := |lines| - 1;
    var init, line := lines[..n], lines[n];
    var i0 := FindStat(stats, line.name);
    var st := TallyLine(stats, line);
    assert st == stats[i0 := stats[i0].(count := stats[i0].count + line.qty, revenue := stats[i0].revenue + LineAmount(line))];
    forall i | 0 <= i < |st| ensures EntryMatches(st[i], lines) {
      if i != i0 {
        assert st[i] == stats[i] && stats[i].name != stats[i0].name && EntryMatches(stats[i], init);
        EntryUnaffected(stats[i], lines);
      } else {
        assert EntryMatches(stats[i0], init);
        EntryAbsorbs(stats[i0], lines);
      }
    }
  }

  /** Tallying the newest line keeps the statistics matched to the lines seen so far. */
  lemma {:induction false} TallyLineKeepsMatch(stats: seq<ItemStat>, lines: seq<OrderLine>)
    requires lines != [] && StatsMatch(stats, lines[..|lines| - 1])
    ensures StatsMatch(TallyLine(stats, lines[|lines| - 1]), lines)
  {
    TallyKeepsNamesDistinct(stats, lines[|lines| - 1]);
    TallyKeepsLinesCovered(stats, lines);
    TallyKeepsEntriesMatch(stats, lines);
  }

  /**
   * Item statistics are keyed by name: names are distinct, every line's name has
   * an entry, and each entry's count and revenue are the sums of quantity and of
   * price times quantity over all lines with that name, whatever their menu id.
   */
  lemma {:induction false} TallyMatches(lines: seq<OrderLine>)
    ensures StatsMatch(Tally(lines), lines)
    decreases |lines|
  {
    if lines != [] {
      var init := lines[..|lines| - 1];
      TallyMatches(init);
      TallyLineKeepsMatch(Tally(init), lines);
    }
  }

  function LineName(l: OrderLine): string
  {
    l.name
  }

  /** The position of the first line with a name, -1 when no line has it: where `itemStats` first meets it. */
  function FirstSeen(lines: seq<OrderLine>, name: string): int
  {
    FindIndex(lines, LineName, name)
  }

  /** Every entry's name occurs among the lines, and the entries come in the order their names first occur. */
  predicate InFirstSeenOrder(stats: seq<ItemStat>, lines: seq<OrderLine>)
  {
    && (forall i :: 0 <= i < |stats| ==> 0 <= FirstSeen(lines, stats[i].name))
    && (forall i, j :: 0 <= i < j < |stats| ==> FirstSeen(lines, stats[i].name) < FirstSeen(lines, stats[j].name))
  }

  /** A name the tallied lines do not have is first met at the line being tallied. */
  lemma {:induction false} NewNameFirstSeen(stats: seq<ItemStat>, init: seq<OrderLine>, line: OrderLine, lines: seq<OrderLine>)
    requires lines == init + [line]
    requires LinesCovered(stats, init)
    requires FindStat(stats, line.name) < 0
    ensures FirstSeen(lines, line.name) == |init|
  {
    forall j | 0 <= j < |init| ensures LineName(init[j]) != line.name {
      var g := FindStat(stats, init[j].name);
      assert stats[g].name == LineName(init[j]);
    }
    FindIndexSnoc(init, line, LineName, line.name);
  }

  /** A line appended after the others leaves where every entry's name is first met, which is before it. */
  lemma {:induction false} NameOrderExtends(stats: seq<ItemStat>, init: seq<OrderLine>, line: OrderLine, lines: seq<OrderLine>)
    requires lines == init + [line]
    requires InFirstSeenOrder(stats, init)
    ensures InFirstSeenOrder(stats, lines)
    ensures forall i :: 0 <= i < |stats| ==> FirstSeen(lines, stats[i].name) < |init|
  {
    forall i | 0 <= i < |stats|
      ensures FirstSeen(lines, stats[i].name) == FirstSeen(init, stats[i].name) < |init|
    {
      FindIndexSnoc(init, line, LineName, stats[i].name);
    }
  }

  /** A new last entry whose name is first met after every other entry's keeps the order. */
  lemma {:induction false} NameOrderAppend(stats: seq<ItemStat>, e: ItemStat, lines: seq<OrderLine>, n: int)
    requires InFirstSeenOrder(stats, lines)
    requires forall i :: 0 <= i < |stats| ==> FirstSeen(lines, stats[i].name) < n
    requires 0 <= n && FirstSeen(lines, e.name) == n
    ensures InFirstSeenOrder(stats + [e], lines)
  {
    var t := stats + [e];
    forall i | 0 <= i < |t| ensures 0 <= FirstSeen(lines, t[i].name) {
      if i < |stats| {
        assert t[i] == stats[i];
      }
    }
    forall i, j | 0 <= i < j < |t| ensures FirstSeen(lines, t[i].name) < FirstSeen(lines, t[j].name) {
      assert t[i] == stats[i];
      if j < |stats| {
        assert t[j] == stats[j];
      }
    }
  }

  /** Entries with the same names in the same places are in the same order. */
  lemma {:induction false} NameOrderSameNames(stats: seq<ItemStat>, st: seq<ItemStat>, lines: seq<OrderLine>)
    requires InFirstSeenOrder(stats, lines)
    requires |st| == |stats| && forall i :: 0 <= i < |st| ==> st[i].name == stats[i].name
    ensures InFirstSeenOrder(st, lines)
  {
  }

  /** Tallying the last line keeps the entries in the order their names are first met. */
  lemma {:induction false} TallyKeepsFirstSeenOrder(stats: seq<ItemStat>, lines: seq<OrderLine>)
    requires lines != []
    requires LinesCovered(stats, lines[..|lines| - 1])
    requires InFirstSeenOrder(stats, lines[..|lines| - 1])
    ensures InFirstSeenOrder(TallyLine(stats, lines[|lines| - 1]), lines)
  {
    var init, line := lines[..|lines| - 1], lines[|lines| - 1];
    assert lines == init + [line];
    NameOrderExtends(stats, init, line, lines);
    if FindStat(stats, line.name) < 0 {
      NewNameFirstSeen(stats, init, line, lines);
      NameOrderAppend(stats, ItemStat(line.name, line.qty, LineAmount(line)), lines, |init|);
    } else {
      KnownNameKeepsOrder(stats, line, lines);
    }
  }

  /** A line whose name has an entry changes no entry's name, so the order stays. */
  lemma {:induction false} KnownNameKeepsOrder(stats: seq<ItemStat>, line: OrderLine, lines: seq<OrderLine>)
    requires FindStat(stats, line.name) >= 0
    requires InFirstSeenOrder(stats, lines)
    ensures InFirstSeenOrder(TallyLine(stats, line), lines)
  {
    var st := TallyLine(stats, line);
    assert forall i :: 0 <= i < |st| ==> st[i].name == stats[i].name;
    NameOrderSameNames(stats, st, lines);
  }

  /** The entries cover the lines: the part of the match the first-seen order needs. */
  lemma {:induction false} TallyCovers(lines: seq<OrderLine>)
    ensures LinesCovered(Tally(lines), lines)
  {
    TallyMatches(lines);
  }

  lemma {:induction false} TallyInFirstSeenOrder(lines: seq<OrderLine>)
    ensures InFirstSeenOrder(Tally(lines), lines)
    decreases |lines|
  {
    if lines != [] {
      var init := lines[..|lines| - 1];
      TallyInFirstSeenOrder(init);
      TallyCovers(init);
      TallyKeepsFirstSeenOrder(Tally(init), lines);
    }
  }

  /**
   * `itemStats` lists the items in the order their names are first met: every
   * entry's name occurs among the lines, and an earlier entry's name occurs
   * first earlier. These are the ties the ranking keeps in order.
   */
  lemma {:induction false} TallyFirstSeen(lines: seq<OrderLine>)
    ensures forall i :: 0 <= i < |Tally(lines)| ==> 0 <= FirstSeen(lines, Tally(lines)[i].name)
    ensures forall i, j :: 0 <= i < j < |Tally(lines)| ==>
      FirstSeen(lines, Tally(lines)[i].name) < FirstSeen(lines, Tally(lines)[j].name)
  {
    TallyInFirstSeenOrder(lines);
  }

  function StatRevenue(s: ItemStat): nat
  {
    s.revenue
  }

  /** One line tallied adds its amount to the revenue summed over all entries. */
  lemma {:induction false} TallyLineRevenue(stats: seq<ItemStat>, line: OrderLine)
    ensures Sum(TallyLine(stats, line), StatRevenue) == Sum(stats, StatRevenue) + LineAmount(line)
  {
    var i := FindStat(stats, line.name);
    if i < 0 {
      var s := ItemStat(line.name, line.qty, LineAmount(line));
      SumAppend(stats, [s], StatRevenue);
      SumSingleton(s, StatRevenue);
    } else {
      var s := stats[i].(count := stats[i].count + line.qty, revenue := stats[i].revenue + LineAmount(line));
      SumUpdate(stats, i, s, StatRevenue);
    }
  }

  lemma {:induction false} TallyRevenue(lines: seq<OrderLine>)
    ensures Sum(Tally(lines), StatRevenue) == Sum(lines, LineAmount)
    decreases |lines|
  {
    if lines != [] {
      var init := lines[..|lines| - 1];
      TallyRevenue(init);
      TallyLineRevenue(Tally(init), lines[|lines| - 1]);
    }
  }

  /** When every record's total is the sum of its lines, the item revenues add up to the total revenue. */
  lemma {:induction false} ItemRevenueIsTotalRevenue(orderHistory: seq<HistoryRecord>)
    requires forall i :: 0 <= i < |orderHistory| ==> orderHistory[i].total == Sum(orderHistory[i].items, LineAmount)
    ensures Sum(ItemStats(orderHistory), StatRevenue) == Sum(orderHistory, RecordTotal)
    decreases |orderHistory|
  {
    TallyRevenue(AllLines(orderHistory));
    LinesRevenue(orderHistory);
  }

  lemma {:induction false} LinesRevenue(orderHistory: seq<HistoryRecord>)
    requires forall i :: 0 <= i < |orderHistory| ==> orderHistory[i].total == Sum(orderHistory[i].items, LineAmount)
    ensures Sum(AllLines(orderHistory), LineAmount) == Sum(orderHistory, RecordTotal)
    decreases |orderHistory|
  {
    if orderHistory != [] {
      var init := orderHistory[..|orderHistory| - 1];
      LinesRevenue(init);
      SumAppend(AllLines(init), orderHistory[|orderHistory| - 1].items, LineAmount);
    }
  }

  /** The per-item reduce, visiting each record's lines in turn (`order.items.forEach`). */
  method ComputeItemStats(orderHistory: seq<HistoryRecord>) returns (stats: seq<ItemStat>)
    ensures stats == ItemStats(orderHistory)
  {
    stats := [];
    for i := 0 to |orderHistory|
      invariant stats == Tally(AllLines(orderHistory[..i]))
    {
      stats := TallyInto(AllLines(orderHistory[..i]), stats, orderHistory[i].items);
      AllLinesSnoc(orderHistory, i);
    }
    assert orderHistory[..|orderHistory|] == orderHistory;
  }

  /** `order.items.forEach(...)`: folds one record's lines into the statistics gathered so far. */
  method TallyInto(ghost done: seq<OrderLine>, stats: seq<ItemStat>, items: seq<OrderLine>) returns (r: seq<ItemStat>)
    requires stats == Tally(done)
    ensures r == Tally(done + items)
  {
    r := stats;
    assert done + items[..0] == done;
    for j := 0 to |items|
      invariant r == Tally(done + items[..j])
    {
      r := TallyLine(r, items[j]);
      TallyStep(done, items, j);
    }
    assert items[..|items|] == items;
  }

  /** Tallying one more line of a record extends the fold by one step. */
  lemma {:induction false} TallyStep(done: seq<OrderLine>, items: seq<OrderLine>, j: nat)
    requires j < |items|
    ensures Tally(done + items[..j + 1]) == TallyLine(Tally(done + items[..j]), items[j])
  {
    TakeOneMore(done, items, j);
    TallySnoc(done + items[..j], items[j]);
  }

  lemma {:induction false} TallySnoc(lines: seq<OrderLine>, line: OrderLine)
    ensures Tally(lines + [line]) == TallyLine(Tally(lines), line)
  {
    assert (lines + [line])[..|lines|] == lines;
  }

  lemma {:induction false} AllLinesSnoc(orderHistory: seq<HistoryRecord>, i: nat)
    requires i < |orderHistory|
    ensures AllLines(orderHistory[..i + 1]) == AllLines(orderHistory[..i]) + orderHistory[i].items
  {
    assert orderHistory[..i + 1][..i] == orderHistory[..i];
  }

  // ---------------------------------------------------------------------------
  // Ranking

  /** Inserts before the first entry with a count not above its own, so earlier entries stay ahead on ties. */
  function InsertByCount(x: ItemStat, sorted: seq<ItemStat>): seq<ItemStat>
    decreases |sorted|
  {
    if sorted == [] || x.count >= sorted[0].count then [x] + sorted
    else [sorted[0]] + InsertByCount(x, sorted[1..])
  }

  /** `sort((a, b) => b.count - a.count)`: a stable sort by descending count. */
  function SortByCount(stats: seq<ItemStat>): seq<ItemStat>
    decreases |stats|
  {
    if stats == [] then [] else InsertByCount(stats[0], SortByCount(stats[1..]))
  }

  /** `topItems`: the first five of the ranking. */
  function TopItems(stats: seq<ItemStat>): seq<ItemStat>
  {
    var sorted := SortByCount(stats);
    if |sorted| <= 5 then sorted else sorted[..5]
  }

  predicate NonIncreasing(s: seq<ItemStat>)
  {
    forall i, j :: 0 <= i < j < |s| ==> s[i].count >= s[j].count
  }

  /** The entries with a given count, in order: the sort must keep each such run as it was. */
  function WithCount(s: seq<ItemStat>, c: nat): seq<ItemStat>
    decreases |s|
  {
    if s == [] then [] else (if s[0].count == c then [s[0]] else []) + WithCount(s[1..], c)
  }

  lemma {:induction false} InsertByCountPermutes(x: ItemStat, s: seq<ItemStat>)
    ensures multiset(InsertByCount(x, s)) == multiset(s) + multiset{x}
    decreases |s|
  {
    if !(s == [] || x.count >= s[0].count) {
      InsertByCountPermutes(x, s[1..]);
      assert s == [s[0]] + s[1..];
    }
  }

  /** Inserting never raises the largest count above a bound the entry and the list both respect. */
  lemma {:induction false} InsertByCountBounded(x: ItemStat, s: seq<ItemStat>, bound: nat)
    requires x.count <= bound
    requires forall k :: 0 <= k < |s| ==> s[k].count <= bound
    ensures forall k :: 0 <= k < |InsertByCount(x, s)| ==> InsertByCount(x, s)[k].count <= bound
    decreases |s|
  {
    if !(s == [] || x.count >= s[0].count) {
      InsertByCountBounded(x, s[1..], bound);
    }
  }

  lemma {:induction false} InsertByCountSorted(x: ItemStat, s: seq<ItemStat>)
    requires NonIncreasing(s)
    ensures NonIncreasing(InsertByCount(x, s))
    decreases |s|
  {
    var r := InsertByCount(x, s);
    if !(s == [] || x.count >= s[0].count) {
      var rest := InsertByCount(x, s[1..]);
      InsertByCountSorted(x, s[1..]);
      InsertByCountBounded(x, s[1..], s[0].count);
      assert r == [s[0]] + rest;
      forall i, j | 0 <= i < j < |r| ensures r[i].count >= r[j].count {
        assert r[j] == rest[j - 1];
        if i > 0 {
          assert r[i] == rest[i - 1];
        }
      }
    }
  }

  /** Filtering a list that starts with `y` keeps `y` first when it has the count. */
  lemma {:induction false} WithCountCons(y: ItemStat, t: seq<ItemStat>, c: nat)
    ensures WithCount([y] + t, c) == (if y.count == c then [y] else []) + WithCount(t, c)
  {
    var s := [y] + t;
    assert s[0] == y && s[1..] == t;
  }

  lemma {:induction false} InsertByCountStable(x: ItemStat, s: seq<ItemStat>, c: nat)
    ensures WithCount(InsertByCount(x, s), c) == (if x.count == c then [x] else []) + WithCount(s, c)
    decreases |s|
  {
    if s == [] || x.count >= s[0].count {
      WithCountCons(x, s, c);
    } else {
      InsertByCountStable(x, s[1..], c);
      InsertPastHeadStable(x, s, c);
    }
  }

  /** The step of `InsertByCountStable` where the inserted entry goes past the head. */
  lemma {:induction false} InsertPastHeadStable(x: ItemStat, s: seq<ItemStat>, c: nat)
    requires s != [] && x.count < s[0].count
    requires WithCount(InsertByCount(x, s[1..]), c) == (if x.count == c then [x] else []) + WithCount(s[1..], c)
    ensures WithCount(InsertByCount(x, s), c) == (if x.count == c then [x] else []) + WithCount(s, c)
  {
    var mine: seq<ItemStat> := if x.count == c then [x] else [];
    var head: seq<ItemStat> := if s[0].count == c then [s[0]] else [];
    var rest := InsertByCount(x, s[1..]);
    var later := WithCount(s[1..], c);
    assert InsertByCount(x, s) == [s[0]] + rest;
    WithCountCons(s[0], rest, c);
    assert WithCount(InsertByCount(x, s), c) == head + (mine + later);
    WithCountCons(s[0], s[1..], c);
    assert s == [s[0]] + s[1..];
    assert WithCount(s, c) == head + later;
    // `x` ranks below `s[0]`, so at most one of the two has count `c`.
    if head != [] {
      assert mine == [];
    }
  }

  /**
   * The ranking is sorted by non-increasing count, is a permutation of the
   * statistics, and is stable: the entries sharing any one count appear in
   * the ranking in the order they had in the statistics.
   */
  lemma {:induction false} SortByCountSpec(stats: seq<ItemStat>)
    ensures NonIncreasing(SortByCount(stats))
    ensures multiset(SortByCount(stats)) == multiset(stats)
    ensures forall c :: WithCount(SortByCount(stats), c) == WithCount(stats, c)
  {
    SortByCountSorted(stats);
    SortByCountPermutes(stats);
    forall c ensures WithCount(SortByCount(stats), c) == WithCount(stats, c) {
      SortByCountStable(stats, c);
    }
  }

  lemma {:induction false} SortByCountSorted(stats: seq<ItemStat>)
    ensures NonIncreasing(SortByCount(stats))
    decreases |stats|
  {
    if stats != [] {
      SortByCountSorted(stats[1..]);
      InsertByCountSorted(stats[0], SortByCount(stats[1..]));
    }
  }

  lemma {:induction false} SortByCountPermutes(stats: seq<ItemStat>)
    ensures multiset(SortByCount(stats)) == multiset(stats)
    decreases |stats|
  {
    if stats != [] {
      SortByCountPermutes(stats[1..]);
      InsertByCountPermutes(stats[0], SortByCount(stats[1..]));
      assert stats == [stats[0]] + stats[1..];
    }
  }

  lemma {:induction false} SortByCountStable(stats: seq<ItemStat>, c: nat)
    ensures WithCount(SortByCount(stats), c) == WithCount(stats, c)
    decreases |stats|
  {
    if stats != [] {
      SortByCountStable(stats[1..], c);
      InsertByCountStable(stats[0], SortByCount(stats[1..]), c);
      WithCountCons(stats[0], stats[1..], c);
      assert stats == [stats[0]] + stats[1..];
    }
  }

  /**
   * `topItems` holds the first min(5, n) entries of the ranking, sorted by
   * non-increasing count.
   */
  lemma {:induction false} TopItemsSpec(stats: seq<ItemStat>)
    ensures |TopItems(stats)| == if |stats| < 5 then |stats| else 5
    ensures TopItems(stats) == SortByCount(stats)[..|TopItems(stats)|]
    ensures NonIncreasing(TopItems(stats))
  {
    SortByCountSpec(stats);
    assert |multiset(SortByCount(stats))| == |multiset(stats)|;
  }

  /** Every entry left out of `topItems` sold no more than any entry kept. */
  lemma {:induction false} TopItemsBeatTheRest(stats: seq<ItemStat>)
    ensures forall x :: x in stats && x !in TopItems(stats) ==>
      forall i :: 0 <= i < |TopItems(stats)| ==> x.count <= TopItems(stats)[i].count
  {
    var sorted := SortByCount(stats);
    var top := TopItems(stats);
    SortByCountSpec(stats);
    assert |multiset(sorted)| == |multiset(stats)|;
    forall x | x in stats && x !in top
      ensures forall i :: 0 <= i < |top| ==> x.count <= top[i].count
    {
      assert x in multiset(stats);
      assert x in sorted;
      var j :| 0 <= j < |sorted| && sorted[j] == x;
      assert forall k :: 0 <= k < |top| ==> sorted[k] != x;
    }
  }

  /** Entries with equal counts appear in the order their names are first met among the lines. */
  predicate TiesFirstSeen(s: seq<ItemStat>, lines: seq<OrderLine>)
  {
    forall i, j :: 0 <= i < j < |s| && s[i].count == s[j].count ==>
      FirstSeen(lines, s[i].name) < FirstSeen(lines, s[j].name)
  }

  /** Every entry of the result is the inserted one or was already in the list. */
  lemma {:induction false} InsertByCountMembers(x: ItemStat, s: seq<ItemStat>)
    ensures forall k :: 0 <= k < |InsertByCount(x, s)| ==> InsertByCount(x, s)[k] == x || InsertByCount(x, s)[k] in s
    decreases |s|
  {
    if !(s == [] || x.count >= s[0].count) {
      InsertByCountMembers(x, s[1..]);
      var rest := InsertByCount(x, s[1..]);
      assert InsertByCount(x, s) == [s[0]] + rest;
      assert forall y :: y in s[1..] ==> y in s;
    }
  }

  /** An entry first met before every later entry of equal count may go in front. */
  lemma {:induction false} ConsKeepsTies(y: ItemStat, s: seq<ItemStat>, lines: seq<OrderLine>)
    requires TiesFirstSeen(s, lines)
    requires forall k :: 0 <= k < |s| && s[k].count == y.count ==> FirstSeen(lines, y.name) < FirstSeen(lines, s[k].name)
    ensures TiesFirstSeen([y] + s, lines)
  {
    var r := [y] + s;
    assert forall k :: 0 <= k < |s| ==> r[k + 1] == s[k];
    forall i, j | 0 <= i < j < |r| && r[i].count == r[j].count
      ensures FirstSeen(lines, r[i].name) < FirstSeen(lines, r[j].name)
    {
      assert r[j] == s[j - 1];
      if i > 0 {
        assert r[i] == s[i - 1];
      }
    }
  }

  /** When the inserted entry goes past the head, the head is still first met before its later ties. */
  lemma {:induction false} HeadBeforeInserted(x: ItemStat, s: seq<ItemStat>, lines: seq<OrderLine>)
    requires s != [] && x.count < s[0].count
    requires TiesFirstSeen(s, lines)
    ensures forall k :: 0 <= k < |InsertByCount(x, s[1..])| && InsertByCount(x, s[1..])[k].count == s[0].count ==>
      FirstSeen(lines, s[0].name) < FirstSeen(lines, InsertByCount(x, s[1..])[k].name)
  {
    var rest := InsertByCount(x, s[1..]);
    InsertByCountMembers(x, s[1..]);
    forall k | 0 <= k < |rest| && rest[k].count == s[0].count
      ensures FirstSeen(lines, s[0].name) < FirstSeen(lines, rest[k].name)
    {
      var m :| 0 <= m < |s[1..]| && s[1..][m] == rest[k];
      assert s[m + 1] == rest[k];
    }
  }

  /** Inserting an entry first met before every entry of the list keeps the ties in first-seen order. */
  lemma {:induction false} InsertByCountKeepsTies(x: ItemStat, s: seq<ItemStat>, lines: seq<OrderLine>)
    requires TiesFirstSeen(s, lines)
    requires forall k :: 0 <= k < |s| ==> FirstSeen(lines, x.name) < FirstSeen(lines, s[k].name)
    ensures TiesFirstSeen(InsertByCount(x, s), lines)
    decreases |s|
  {
    if s == [] || x.count >= s[0].count {
      ConsKeepsTies(x, s, lines);
    } else {
      var tail := s[1..];
      assert forall k :: 0 <= k < |tail| ==> tail[k] == s[k + 1];
      InsertByCountKeepsTies(x, tail, lines);
      HeadBeforeInserted(x, s, lines);
      ConsKeepsTies(s[0], InsertByCount(x, tail), lines);
    }
  }

  /** Sorting a list in first-seen order leaves every run of equal counts in first-seen order. */
  lemma {:induction false} SortByCountKeepsTies(stats: seq<ItemStat>, lines: seq<OrderLine>)
    requires forall i, j :: 0 <= i < j < |stats| ==> FirstSeen(lines, stats[i].name) < FirstSeen(lines, stats[j].name)
    ensures TiesFirstSeen(SortByCount(stats), lines)
    decreases |stats|
  {
    if stats != [] {
      var tail := stats[1..];
      var rest := SortByCount(tail);
      SortByCountKeepsTies(tail, lines);
      SortByCountPermutes(tail);
      forall k | 0 <= k < |rest| ensures FirstSeen(lines, stats[0].name) < FirstSeen(lines, rest[k].name) {
        assert rest[k] in multiset(rest);
        assert rest[k] in multiset(tail);
        var m :| 0 <= m < |tail| && tail[m] == rest[k];
        assert stats[m + 1] == rest[k];
      }
      InsertByCountKeepsTies(stats[0], rest, lines);
    }
  }

  /**
   * The top five of the history screen: entries selling the same number of
   * units appear in the order their names are first met in the log as read.
   */
  lemma {:induction false} TopItemsTiesFirstSeen(orderHistory: seq<HistoryRecord>)
    ensures var top, lines := TopItems(ItemStats(orderHistory)), AllLines(orderHistory);
      forall i, j :: 0 <= i < j < |top| && top[i].count == top[j].count ==>
        FirstSeen(lines, top[i].name) < FirstSeen(lines, top[j].name)
  {
    var stats, lines := ItemStats(orderHistory), AllLines(orderHistory);
    TallyFirstSeen(lines);
    SortByCountKeepsTies(stats, lines);
    TopItemsSpec(stats);
    var sorted, top := SortByCount(stats), TopItems(stats);
    assert forall i :: 0 <= i < |top| ==> top[i] == sorted[i];
  }

  // ---------------------------------------------------------------------------
  // The whole statistics block

  /** The numbers the history screen shows above the day-by-day list. */
  datatype HistoryReport = HistoryReport(
    totalRevenue: nat,
    totalOrders: nat,
    avgOrderValue: real,
    groups: seq<DateGroup>,
    daysTracked: nat,
    topItems: seq<ItemStat>)

  /** The statistics block of the history screen over the log as read (newest record first). */
  method BuildReport(orderHistory: seq<HistoryRecord>) returns (report: HistoryReport)
    ensures report.totalRevenue == Sum(orderHistory, RecordTotal)
    ensures report.totalOrders == |orderHistory|
    ensures report.avgOrderValue == AverageOrderValue(report.totalRevenue, report.totalOrders)
    ensures report.groups == GroupByDate(orderHistory) && report.daysTracked == |report.groups|
    ensures report.topItems == TopItems(ItemStats(orderHistory))
  {
    var revenue := TotalRevenue(orderHistory);
    var groups := GroupOrdersByDate(orderHistory);
    var stats := ComputeItemStats(orderHistory);
    var count := |orderHistory|;
    report := HistoryReport(revenue, count, AverageOrderValue(revenue, count), groups, |groups|, TopItems(stats));
  }
}
