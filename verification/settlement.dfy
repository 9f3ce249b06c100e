/**
 * What settling writes to the sales log: `addToHistory` for one seat, and the
 * sequence of such writes `payForTable` makes, seat after seat.
 */
module Settlement {
  import opened PosTypes
  import opened Seqs
  import opened Totals

  /** The record `addToHistory` builds for a seat: its name, a copy of its lines and its total. */
  function RecordFor(c: Customer, tableId: int, date: string): HistoryRecord
  {
    HistoryRecord(date, tableId, c.name, c.orders, CustomerTotal(c))
  }

  /** A log entry is consistent when its total is the sum of its lines, and positive. */
  predicate RecordConsistent(r: HistoryRecord)
  {
    r.total == Sum(r.items, LineAmount) && r.total > 0
  }

  /**
   * What `addToHistory` appends to the log for one seat: nothing when the seat
   * totals 0, otherwise one consistent record carrying the seat's lines.
   */
  function SeatReceipt(c: Customer, tableId: int, date: string): (r: seq<HistoryRecord>)
    ensures CustomerTotal(c) == 0 <==> r == []
    ensures |r| <= 1
    ensures forall i :: 0 <= i < |r| ==>
      RecordConsistent(r[i]) && r[i].items == c.orders && r[i].customerName == c.name && r[i].tableId == tableId
  {
    if CustomerTotal(c) == 0 then [] else [RecordFor(c, tableId, date)]
  }

  /** The seats `payForTable` writes a record for: those with a non-zero total, in seat order. */
  function PaidSeats(cs: seq<Customer>): seq<Customer>
    decreases |cs|
  {
    if cs == [] then []
    else
      var last := cs[|cs| - 1];
      PaidSeats(cs[..|cs| - 1]) + (if CustomerTotal(last) == 0 then [] else [last])
  }

  /** The log entries `payForTable`'s loop appends, one `addToHistory` per seat. */
  function Receipts(cs: seq<Customer>, tableId: int, date: string): seq<HistoryRecord>
    decreases |cs|
  {
    if cs == [] then []
    else Receipts(cs[..|cs| - 1], tableId, date) + SeatReceipt(cs[|cs| - 1], tableId, date)
  }

  /** Settling one more seat appends that seat's receipt to those of the seats before it. */
  lemma {:induction false} ReceiptsStep(cs: seq<Customer>, i: nat, tableId: int, date: string)
    requires i < |cs|
    ensures Receipts(cs[..i + 1], tableId, date) == Receipts(cs[..i], tableId, date) + SeatReceipt(cs[i], tableId, date)
  {
    assert cs[..i + 1][..i] == cs[..i];
  }

  /** One record per seat with a non-zero total, in seat order, each built from that seat. */
  lemma {:induction false} ReceiptsFollowPaidSeats(cs: seq<Customer>, tableId: int, date: string)
    ensures |Receipts(cs, tableId, date)| == |PaidSeats(cs)|
    ensures forall k :: 0 <= k < |PaidSeats(cs)| ==>
      Receipts(cs, tableId, date)[k] == RecordFor(PaidSeats(cs)[k], tableId, date)
    decreases |cs|
  {
    if cs != [] {
      ReceiptsFollowPaidSeats(cs[..|cs| - 1], tableId, date);
    }
  }

  /** Every record appended is consistent: its total is the sum of its lines and is positive. */
  lemma {:induction false} ReceiptsConsistent(cs: seq<Customer>, tableId: int, date: string)
    ensures forall k :: 0 <= k < |Receipts(cs, tableId, date)| ==> RecordConsistent(Receipts(cs, tableId, date)[k])
    decreases |cs|
  {
    if cs != [] {
      ReceiptsConsistent(cs[..|cs| - 1], tableId, date);
    }
  }

  /** Settling a table logs exactly the table total: no money is lost or invented. */
  lemma {:induction false} ReceiptsRevenue(cs: seq<Customer>, tableId: int, date: string)
    ensures Sum(Receipts(cs, tableId, date), RecordTotal) == Sum(cs, CustomerTotal)
    decreases |cs|
  {
    if cs != [] {
      var init, last := cs[..|cs| - 1], cs[|cs| - 1];
      ReceiptsRevenue(init, tableId, date);
      SumAppend(Receipts(init, tableId, date), SeatReceipt(last, tableId, date), RecordTotal);
      if CustomerTotal(last) != 0 {
        SumSingleton(RecordFor(last, tableId, date), RecordTotal);
      }
    }
  }
}
