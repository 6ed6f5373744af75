/** Staff schedules: the exclusion constraint on booking items, the check made
    before a booking, and the statements that write items. */
module Schedule {
  import opened Wrappers
  import opened Domain

  /** Rows the partial exclusion constraint looks at. */
  predicate Active(item: Item) {
    !item.status.Cancelled? && !item.status.NoShow?
  }

  /** Overlap of two half-open ranges; an empty range overlaps nothing. */
  predicate RangesOverlap(start0: int, end0: int, start1: int, end1: int) {
    start0 < end0 && start1 < end1 && start0 < end1 && start1 < end0
  }

  predicate SameTime(a: Item, b: Item) {
    a.staff == b.staff && RangesOverlap(a.start, a.end, b.start, b.end)
  }

  predicate Conflict(a: Item, b: Item) {
    Active(a) && Active(b) && SameTime(a, b)
  }

  /** No two active items of one staff member overlap. */
  ghost predicate NoOverlap(items: seq<Item>) {
    forall i, j :: 0 <= i < j < |items| ==> !Conflict(items[i], items[j])
  }

  ghost predicate Timed(items: seq<Item>) {
    forall i :: 0 <= i < |items| ==> items[i].start < items[i].end
  }

  /** Items of one booking never overlap each other, active or not. */
  ghost predicate OwnItemsApart(items: seq<Item>) {
    forall i, j :: 0 <= i < j < |items| && items[i].booking == items[j].booking ==>
                     !SameTime(items[i], items[j])
  }

  // -------------------------------------------------------------------------
  // The check before a booking and the insertion
  // -------------------------------------------------------------------------

  predicate Blocks(item: Item, staff: nat, start: int, end: int) {
    item.staff == staff && item.start < end && item.end > start && Active(item)
  }

  predicate SlotTaken(items: seq<Item>, staff: nat, start: int, end: int) {
    exists i :: 0 <= i < |items| && Blocks(items[i], staff, start, end)
  }

  function SumMinutes(lines: seq<Line>): nat {
    if lines == [] then 0 else lines[0].minutes + SumMinutes(lines[1..])
  }

  function SumLinePrices(lines: seq<Line>): nat {
    if lines == [] then 0 else lines[0].price + SumLinePrices(lines[1..])
  }

  /** The items of a booking, laid end to end from its start. */
  function Layout(booking: nat, staff: nat, start: int, lines: seq<Line>): (items: seq<Item>)
    ensures |items| == |lines|
    decreases |lines|
  {
    if lines == [] then []
    else
      [Item(booking, staff, start, start + lines[0].minutes, lines[0].price, ItemStatus.Pending)]
      + Layout(booking, staff, start + lines[0].minutes, lines[1..])
  }

  /** The loop that lays the items out, moving the start of the next item along. */
  method LayItems(booking: nat, staff: nat, start: int, lines: seq<Line>) returns (items: seq<Item>)
    ensures items == Layout(booking, staff, start, lines)
  {
    items := [];
    var itemStart := start;
    for i := 0 to |lines|
      invariant items + Layout(booking, staff, itemStart, lines[i..]) == Layout(booking, staff, start, lines)
    {
      var itemEnd := itemStart + lines[i].minutes;
      var item := Item(booking, staff, itemStart, itemEnd, lines[i].price, ItemStatus.Pending);
      assert items + Layout(booking, staff, itemStart, lines[i..])
          == (items + [item]) + Layout(booking, staff, itemEnd, lines[i + 1..]);
      items := items + [item];
      itemStart := itemEnd;
    }
  }

  /** Each item is pending, for its line, and inside the booked window. */
  lemma {:induction false} LayoutInWindow(booking: nat, staff: nat, start: int, lines: seq<Line>, k: nat)
    requires k < |lines|
    ensures var item := Layout(booking, staff, start, lines)[k];
            && item.booking == booking && item.staff == staff && item.status.Pending?
            && item.price == lines[k].price
            && item.end - item.start == lines[k].minutes
            && start <= item.start && item.end <= start + SumMinutes(lines)
    decreases |lines|
  {
    if k > 0 {
      LayoutInWindow(booking, staff, start + lines[0].minutes, lines[1..], k - 1);
    }
  }

  /** The items tile the window: the first starts it, each next one starts where
      the one before ends, and the last ends it. */
  lemma {:induction false} LayoutTilesWindow(booking: nat, staff: nat, start: int, lines: seq<Line>, k: nat)
    requires k < |lines|
    ensures var items := Layout(booking, staff, start, lines);
            && items[0].start == start
            && items[k].end == if k + 1 == |lines| then start + SumMinutes(lines) else items[k + 1].start
    decreases |lines|
  {
    if k > 0 {
      LayoutTilesWindow(booking, staff, start + lines[0].minutes, lines[1..], k - 1);
    } else if |lines| > 1 {
      LayoutTilesWindow(booking, staff, start + lines[0].minutes, lines[1..], 0);
    } else {
      assert SumMinutes(lines[1..]) == 0;
    }
  }

  lemma {:induction false} LayoutApart(booking: nat, staff: nat, start: int, lines: seq<Line>, j: nat, k: nat)
    requires j < k < |lines|
    ensures var items := Layout(booking, staff, start, lines);
            items[j].end <= items[k].start
    decreases |lines|
  {
    if j == 0 {
      LayoutInWindow(booking, staff, start + lines[0].minutes, lines[1..], k - 1);
    } else {
      LayoutApart(booking, staff, start + lines[0].minutes, lines[1..], j - 1, k - 1);
    }
  }

  predicate Refused(items: seq<Item>, item: Item) {
    exists i :: 0 <= i < |items| && Conflict(items[i], item)
  }

  /** Inserts rows one by one; the constraint aborts the transaction on the first conflict. */
  function InsertAll(items: seq<Item>, rows: seq<Item>): (r: Option<seq<Item>>)
    ensures r.Some? ==> r.value == items + rows
    decreases |rows|
  {
    if rows == [] then Some(items)
    else if Refused(items, rows[0]) then None
    else
      assert items + rows == (items + [rows[0]]) + rows[1..];
      InsertAll(items + [rows[0]], rows[1..])
  }

  /** An insertion that the constraint lets through keeps the schedule free of overlaps. */
  lemma {:induction false} InsertAllKeepsNoOverlap(items: seq<Item>, rows: seq<Item>)
    requires NoOverlap(items) && InsertAll(items, rows).Some?
    ensures NoOverlap(items + rows)
    decreases |rows|
  {
    if rows == [] {
      assert items + rows == items;
    } else {
      InsertAllKeepsNoOverlap(items + [rows[0]], rows[1..]);
      assert items + rows == (items + [rows[0]]) + rows[1..];
    }
  }

  /** The check on the whole window is true exactly when inserting some item of
      the layout would hit the exclusion constraint. */
  lemma {:induction false} SlotTakenIffInsertRefused(
    items: seq<Item>, booking: nat, staff: nat, start: int, lines: seq<Line>)
    requires Timed(items)
    ensures lines != [] ==>
      (SlotTaken(items, staff, start, start + SumMinutes(lines))
       <==> InsertAll(items, Layout(booking, staff, start, lines)).None?)
    decreases |lines|
  {
    if lines != [] {
      var rows := Layout(booking, staff, start, lines);
      var middle := start + lines[0].minutes;
      var end := start + SumMinutes(lines);
      assert rows[1..] == Layout(booking, staff, middle, lines[1..]);
      if lines[1..] != [] {
        SlotTakenIffInsertRefused(items + [rows[0]], booking, staff, middle, lines[1..]);
        assert SlotTaken(items + [rows[0]], staff, middle, end) == SlotTaken(items, staff, middle, end) by {
          AppendedEndsBefore(items, rows[0], staff, middle, end);
        }
      }
    }
  }

  lemma AppendedEndsBefore(items: seq<Item>, row: Item, staff: nat, start: int, end: int)
    requires row.end <= start
    ensures SlotTaken(items + [row], staff, start, end) <==> SlotTaken(items, staff, start, end)
  {
    var all := items + [row];
    assert !Blocks(row, staff, start, end);
    if SlotTaken(items, staff, start, end) {
      var i :| 0 <= i < |items| && Blocks(items[i], staff, start, end);
      assert Blocks(all[i], staff, start, end);
    }
    if SlotTaken(all, staff, start, end) {
      var i :| 0 <= i < |all| && Blocks(all[i], staff, start, end);
      assert i < |items|;
    }
  }

  // -------------------------------------------------------------------------
  // Status updates of all the items of a booking
  // -------------------------------------------------------------------------

  /** All items of a booking with a new status, from a given row on. */
  function WithStatus(items: seq<Item>, booking: nat, status: ItemStatus, from: nat): (r: seq<Item>)
    ensures |r| == |items|
    ensures forall i :: 0 <= i < |items| ==>
      r[i] == if i >= from && items[i].booking == booking then items[i].(status := status) else items[i]
  {
    seq(|items|, i requires 0 <= i < |items| =>
      if i >= from && items[i].booking == booking then items[i].(status := status) else items[i])
  }

  /** The UPDATE row by row: each new row version is checked against every other
      current row, and one conflict undoes the whole statement. */
  function UpdateRows(items: seq<Item>, booking: nat, status: ItemStatus, from: nat): (r: Option<seq<Item>>)
    requires from <= |items|
    decreases |items| - from
  {
    if from == |items| then Some(items)
    else if items[from].booking != booking then UpdateRows(items, booking, status, from + 1)
    else
      var row := items[from].(status := status);
      if Refused(items[..from] + items[from + 1..], row) then None
      else UpdateRows(items[from := row], booking, status, from + 1)
  }

  function UpdateItems(items: seq<Item>, booking: nat, status: ItemStatus): Option<seq<Item>> {
    UpdateRows(items, booking, status, 0)
  }

  lemma RefusedByOthersIff(items: seq<Item>, k: nat, row: Item)
    requires k < |items|
    ensures Refused(items[..k] + items[k + 1..], row)
       <==> exists j :: 0 <= j < |items| && j != k && Conflict(items[j], row)
  {
    var others := items[..k] + items[k + 1..];
    if Refused(others, row) {
      var i :| 0 <= i < |others| && Conflict(others[i], row);
      assert Conflict(items[if i < k then i else i + 1], row);
    }
    if j :| 0 <= j < |items| && j != k && Conflict(items[j], row) {
      assert Conflict(others[if j < k then j else j - 1], row);
    }
  }

  /** Checking the rows one at a time accepts exactly the updates whose outcome
      has no overlap, and then yields that outcome. */
  lemma {:induction false} UpdateRowsIsAllOrNothing(items: seq<Item>, booking: nat, status: ItemStatus, from: nat)
    requires from <= |items| && NoOverlap(items)
    ensures var target := WithStatus(items, booking, status, from);
            UpdateRows(items, booking, status, from) == if NoOverlap(target) then Some(target) else None
    decreases |items| - from
  {
    var target := WithStatus(items, booking, status, from);
    if from == |items| {
      assert target == items;
    } else if items[from].booking != booking {
      UpdateRowsIsAllOrNothing(items, booking, status, from + 1);
      assert target == WithStatus(items, booking, status, from + 1);
    } else {
      var row := items[from].(status := status);
      RefusedByOthersIff(items, from, row);
      if Refused(items[..from] + items[from + 1..], row) {
        var j :| 0 <= j < |items| && j != from && Conflict(items[j], row);
        assert Conflict(target[j], target[from]);
        assert Conflict(target[from], target[j]);
      } else {
        var next := items[from := row];
        assert NoOverlap(next) by {
          forall i, j | 0 <= i < j < |next|
            ensures !Conflict(next[i], next[j])
          {
            assert !Conflict(items[i], items[j]);
            assert Conflict(next[i], next[j]) == Conflict(next[j], next[i]);
          }
        }
        UpdateRowsIsAllOrNothing(next, booking, status, from + 1);
        assert target == WithStatus(next, booking, status, from + 1);
      }
    }
  }

  /** Cancelling is never refused. */
  lemma CancelNeverRefused(items: seq<Item>, booking: nat)
    requires NoOverlap(items)
    ensures UpdateItems(items, booking, ItemStatus.Cancelled)
         == Some(WithStatus(items, booking, ItemStatus.Cancelled, 0))
  {
    UpdateRowsIsAllOrNothing(items, booking, ItemStatus.Cancelled, 0);
  }

  /** Some item of the booking is at the time of another booking's active item. */
  ghost predicate Rebooked(items: seq<Item>, booking: nat) {
    exists i, j ::
      && 0 <= i < |items| && 0 <= j < |items|
      && items[i].booking == booking && items[j].booking != booking
      && Active(items[j]) && SameTime(items[i], items[j])
  }

  /** Confirming the items of a booking is refused exactly when its time has been
      given to another booking, and otherwise confirms all of them. */
  lemma ConfirmRefusedIffRebooked(items: seq<Item>, booking: nat)
    requires NoOverlap(items) && OwnItemsApart(items)
    ensures UpdateItems(items, booking, ItemStatus.Confirmed)
         == if Rebooked(items, booking) then None
            else Some(WithStatus(items, booking, ItemStatus.Confirmed, 0))
  {
    var target := WithStatus(items, booking, ItemStatus.Confirmed, 0);
    UpdateRowsIsAllOrNothing(items, booking, ItemStatus.Confirmed, 0);
    if Rebooked(items, booking) {
      var i, j :|
        && 0 <= i < |items| && 0 <= j < |items|
        && items[i].booking == booking && items[j].booking != booking
        && Active(items[j]) && SameTime(items[i], items[j]);
      assert Conflict(target[i], target[j]) && Conflict(target[j], target[i]);
    } else {
      forall i, j | 0 <= i < j < |items|
        ensures !Conflict(target[i], target[j])
      {
        assert SameTime(items[i], items[j]) == SameTime(items[j], items[i]);
        assert !Conflict(items[i], items[j]);
      }
    }
  }

  /** An item that is active already keeps its time when its booking is confirmed. */
  lemma ActiveBookingNotRebooked(items: seq<Item>, booking: nat)
    requires NoOverlap(items)
    requires forall i :: 0 <= i < |items| && items[i].booking == booking ==> Active(items[i])
    ensures !Rebooked(items, booking)
  {
    if Rebooked(items, booking) {
      var i, j :|
        && 0 <= i < |items| && 0 <= j < |items|
        && items[i].booking == booking && items[j].booking != booking
        && Active(items[j]) && SameTime(items[i], items[j]);
      assert Conflict(items[i], items[j]) && Conflict(items[j], items[i]);
    }
  }
}
