/** What every reachable state of the booking and payment tables satisfies, and
    that each repository write keeps it. */
module Invariants {
  import opened Wrappers
  import opened Domain
  import opened Money
  import opened Schedule
  import opened Tables

  // -------------------------------------------------------------------------
  // Counting log entries and adding prices
  // -------------------------------------------------------------------------

  function CountEvents(timeline: seq<TimelineEntry>, booking: nat, event: TimelineEvent): nat {
    if timeline == [] then 0
    else CountEvents(timeline[..|timeline| - 1], booking, event)
         + if timeline[|timeline| - 1] == TimelineEntry(booking, event) then 1 else 0
  }

  lemma CountEventsAppend(timeline: seq<TimelineEntry>, entry: TimelineEntry, booking: nat, event: TimelineEvent)
    ensures CountEvents(timeline + [entry], booking, event)
         == CountEvents(timeline, booking, event) + if entry == TimelineEntry(booking, event) then 1 else 0
  {
    assert (timeline + [entry])[..|timeline|] == timeline;
  }

  function CountConfirmations(confirmations: seq<Confirmation>, payment: nat): nat {
    if confirmations == [] then 0
    else CountConfirmations(confirmations[..|confirmations| - 1], payment)
         + if confirmations[|confirmations| - 1].payment == payment then 1 else 0
  }

  lemma CountConfirmationsAppend(confirmations: seq<Confirmation>, entry: Confirmation, payment: nat)
    ensures CountConfirmations(confirmations + [entry], payment)
         == CountConfirmations(confirmations, payment) + if entry.payment == payment then 1 else 0
  {
    assert (confirmations + [entry])[..|confirmations|] == confirmations;
  }

  /** The item prices of one booking. */
  function SumPrices(items: seq<Item>, booking: nat): nat {
    if items == [] then 0
    else (if items[0].booking == booking then items[0].price else 0) + SumPrices(items[1..], booking)
  }

  lemma {:induction false} SumPricesAppend(items: seq<Item>, more: seq<Item>, booking: nat)
    ensures SumPrices(items + more, booking) == SumPrices(items, booking) + SumPrices(more, booking)
  {
    if items == [] {
      assert items + more == more;
    } else {
      assert (items + more)[1..] == items[1..] + more;
      SumPricesAppend(items[1..], more, booking);
    }
  }

  lemma {:induction false} SumPricesSame(items: seq<Item>, items': seq<Item>, booking: nat)
    requires |items| == |items'|
    requires forall i :: 0 <= i < |items| ==> items[i].booking == items'[i].booking && items[i].price == items'[i].price
    ensures SumPrices(items, booking) == SumPrices(items', booking)
  {
    if items == [] {
    } else {
      SumPricesSame(items[1..], items'[1..], booking);
    }
  }

  lemma {:induction false} SumPricesLayout(booking: nat, staff: nat, start: int, lines: seq<Line>, b: nat)
    ensures SumPrices(Layout(booking, staff, start, lines), b) == if b == booking then SumLinePrices(lines) else 0
    decreases |lines|
  {
    if lines == [] {
    } else {
      SumPricesLayout(booking, staff, start + lines[0].minutes, lines[1..], b);
      assert Layout(booking, staff, start, lines)[1..] == Layout(booking, staff, start + lines[0].minutes, lines[1..]);
    }
  }

  lemma {:induction false} SumPricesAbsent(items: seq<Item>, booking: nat)
    requires forall i :: 0 <= i < |items| ==> items[i].booking != booking
    ensures SumPrices(items, booking) == 0
  {
    if items == [] {
    } else {
      SumPricesAbsent(items[1..], booking);
    }
  }

  lemma {:induction false} CountEventsAbsent(timeline: seq<TimelineEntry>, booking: nat, event: TimelineEvent)
    requires forall i :: 0 <= i < |timeline| ==> timeline[i].booking != booking
    ensures CountEvents(timeline, booking, event) == 0
  {
    if timeline == [] {
    } else {
      CountEventsAbsent(timeline[..|timeline| - 1], booking, event);
    }
  }

  // -------------------------------------------------------------------------
  // State invariant
  // -------------------------------------------------------------------------

  predicate Terminal(p: Payment) {
    p.status.Success? || p.status.Failed?
  }

  /** The version of a payment row says how far it has come. */
  predicate RowOk(p: Payment) {
    && (p.status.Pending? <==> p.version == 1)
    && (p.status.Pending? <==> p.orderId.None?)
    && (p.status.Processing? <==> p.version == 2)
    && (Terminal(p) <==> p.version == 3)
    && (p.status.Success? <==> p.txId.Some?)
    && (p.orderId.Some? ==> p.orderId.value != "")
    && 1 <= p.version <= 3
  }

  ghost predicate PaymentsInv(ps: seq<Payment>, bookings: seq<Booking>, orders: seq<GatewayOrder>) {
    && Admissible(ps)
    && (forall i :: 0 <= i < |ps| ==>
          && RowOk(ps[i])
          && ps[i].booking < |bookings|
          && ps[i].amount == bookings[ps[i].booking].total
          && (ps[i].orderId.Some? ==>
                GatewayOrder(ps[i].orderId.value, ps[i].booking, ToNumber(ps[i].amount)) in orders))
  }

  ghost predicate HasPayment(ps: seq<Payment>, booking: nat, status: TransactionStatus) {
    exists i :: 0 <= i < |ps| && ps[i].booking == booking && ps[i].status == status
  }

  /** The rows from lo up to hi are the items of the booking, laid end to end over the time. */
  ghost predicate Spans(items: seq<Item>, booking: nat, start: int, end: int, lo: nat, hi: nat) {
    && lo < hi <= |items|
    && (forall i :: 0 <= i < |items| ==> (items[i].booking == booking <==> lo <= i < hi))
    && items[lo].start == start && items[hi - 1].end == end
    && (forall i, j :: lo <= i < hi && j == i + 1 < hi ==> items[i].end == items[j].start)
  }

  ghost predicate ItemsSpan(items: seq<Item>, booking: nat, start: int, end: int) {
    exists lo, hi :: Spans(items, booking, start, end, lo, hi)
  }

  ghost predicate BookingInv(db: Db, b: nat)
    requires b < |db.bookings|
  {
    var row := db.bookings[b];
    && (row.status.Pending? || row.status.Confirmed? || row.status.Cancelled?)
    && (row.pay.Pending? || row.pay.Paid? || row.pay.Failed?)
    && row.total > 0
    && row.total == SumPrices(db.items, b)
    && (row.status.Confirmed? ==> row.pay.Paid?)
    && (row.pay.Paid? ==> row.status.Confirmed? || row.status.Cancelled?)
    && ItemsSpan(db.items, b, row.start, row.end)
    && (row.pay.Paid? ==> HasPayment(db.payments, b, TransactionStatus.Success))
    && (row.pay.Failed? ==> HasPayment(db.payments, b, TransactionStatus.Failed))
    && CountEvents(db.timeline, b, TimelineEvent.Created) == 1
    && CountEvents(db.timeline, b, TimelineEvent.Confirmed) <= (if row.pay.Paid? then 1 else 0)
    && (row.status.Cancelled? ==> CountEvents(db.timeline, b, TimelineEvent.Cancelled) > 0)
  }

  ghost predicate ItemsInv(items: seq<Item>, bookings: nat) {
    && NoOverlap(items) && Timed(items) && OwnItemsApart(items)
    && forall i :: 0 <= i < |items| ==> items[i].booking < bookings
  }

  ghost predicate ConfirmationsInv(confirmations: seq<Confirmation>, ps: seq<Payment>) {
    && (forall i :: 0 <= i < |confirmations| ==>
          var c := confirmations[i];
          c.payment < |ps| && ps[c.payment].booking == c.booking && ps[c.payment].txId == Some(c.reference))
    && (forall p: nat :: p < |ps| ==> CountConfirmations(confirmations, p) <= 1)
  }

  ghost predicate DbInv(db: Db) {
    && PaymentsInv(db.payments, db.bookings, db.orders)
    && ItemsInv(db.items, |db.bookings|)
    && ConfirmationsInv(db.confirmations, db.payments)
    && (forall i :: 0 <= i < |db.timeline| ==> db.timeline[i].booking < |db.bookings|)
    && (forall b :: 0 <= b < |db.bookings| ==> BookingInv(db, b))
  }

  // -------------------------------------------------------------------------
  // What never changes back
  // -------------------------------------------------------------------------

  predicate RowEvolves(p: Payment, p': Payment) {
    && p'.booking == p.booking && p'.amount == p.amount
    && p.version <= p'.version
    && (p.version == p'.version ==> p == p')
    && (p.orderId.Some? ==> p'.orderId == p.orderId)
    && (Terminal(p) ==> p' == p)
  }

  ghost predicate PaymentsEvolve(ps: seq<Payment>, ps': seq<Payment>) {
    && |ps| <= |ps'|
    && forall i :: 0 <= i < |ps| ==> RowEvolves(ps[i], ps'[i])
  }

  ghost predicate BookingsEvolve(bs: seq<Booking>, bs': seq<Booking>) {
    && |bs| <= |bs'|
    && forall b :: 0 <= b < |bs| ==>
         && bs'[b] == bs[b].(status := bs'[b].status, pay := bs'[b].pay)
         && (bs[b].pay.Paid? ==> bs'[b].pay.Paid?)
  }

  ghost predicate ItemsEvolve(items: seq<Item>, items': seq<Item>) {
    && |items| <= |items'|
    && forall i :: 0 <= i < |items| ==> items'[i] == items[i].(status := items'[i].status)
  }

  /** How the tables may differ later in a run. */
  ghost predicate Evolves(db: Db, db': Db) {
    && PaymentsEvolve(db.payments, db'.payments)
    && BookingsEvolve(db.bookings, db'.bookings)
    && ItemsEvolve(db.items, db'.items)
    && db.events <= db'.events
    && db.timeline <= db'.timeline
    && db.orders <= db'.orders
    && db.confirmations <= db'.confirmations
  }

  lemma EvolvesTransitive(db: Db, db': Db, db'': Db)
    requires Evolves(db, db') && Evolves(db', db'')
    ensures Evolves(db, db'')
  {
    assert PaymentsEvolve(db.payments, db''.payments);
    assert BookingsEvolve(db.bookings, db''.bookings);
    assert ItemsEvolve(db.items, db''.items);
  }

  lemma EvolvesReflexive(db: Db)
    ensures Evolves(db, db)
  {
  }

  // -------------------------------------------------------------------------
  // Each write keeps the invariant
  // -------------------------------------------------------------------------

  lemma HasPaymentKept(ps: seq<Payment>, ps': seq<Payment>, booking: nat, status: TransactionStatus)
    requires PaymentsEvolve(ps, ps') && HasPayment(ps, booking, status)
    requires status.Success? || status.Failed?
    ensures HasPayment(ps', booking, status)
  {
    var i :| 0 <= i < |ps| && ps[i].booking == booking && ps[i].status == status;
    assert RowEvolves(ps[i], ps'[i]);
  }

  /** A write to the payments table keeps the invariant when the table after it is in order. */
  lemma PaymentsWriteKeeps(db: Db, ps: seq<Payment>)
    requires DbInv(db)
    requires PaymentsInv(ps, db.bookings, db.orders) && PaymentsEvolve(db.payments, ps)
    requires forall i :: |db.payments| <= i < |ps| ==> !Terminal(ps[i])
    ensures DbInv(db.(payments := ps)) && Evolves(db, db.(payments := ps))
  {
    var db' := db.(payments := ps);
    forall b | 0 <= b < |db'.bookings|
      ensures BookingInv(db', b)
    {
      assert BookingInv(db, b);
      if db.bookings[b].pay.Paid? {
        HasPaymentKept(db.payments, ps, b, TransactionStatus.Success);
      }
      if db.bookings[b].pay.Failed? {
        HasPaymentKept(db.payments, ps, b, TransactionStatus.Failed);
      }
    }
    forall i | 0 <= i < |db.confirmations|
      ensures var c := db.confirmations[i];
              c.payment < |ps| && ps[c.payment].booking == c.booking && ps[c.payment].txId == Some(c.reference)
    {
      var c := db.confirmations[i];
      assert RowOk(db.payments[c.payment]) && Terminal(db.payments[c.payment]);
    }
    forall p | 0 <= p < |ps|
      ensures CountConfirmations(db.confirmations, p) <= 1
    {
      if p >= |db.payments| {
        ConfirmationsAbsent(db.confirmations, p);
      }
    }
  }

  lemma {:induction false} ConfirmationsAbsent(confirmations: seq<Confirmation>, payment: nat)
    requires forall i :: 0 <= i < |confirmations| ==> confirmations[i].payment != payment
    ensures CountConfirmations(confirmations, payment) == 0
  {
    if confirmations == [] {
    } else {
      ConfirmationsAbsent(confirmations[..|confirmations| - 1], payment);
    }
  }

  lemma CreatePendingKeeps(db: Db, booking: nat)
    requires DbInv(db) && booking < |db.bookings|
    requires CreatePending(db.payments, booking, db.bookings[booking].total).Ok?
    ensures var ps := CreatePending(db.payments, booking, db.bookings[booking].total).value;
            DbInv(db.(payments := ps)) && Evolves(db, db.(payments := ps))
  {
    PaymentsWriteKeeps(db, CreatePending(db.payments, booking, db.bookings[booking].total).value);
  }

  lemma MarkProcessingKeeps(db: Db, id: nat, orderId: string)
    requires DbInv(db) && id < |db.payments| && db.payments[id].status.Pending? && orderId != ""
    requires GatewayOrder(orderId, db.payments[id].booking, ToNumber(db.payments[id].amount)) in db.orders
    requires MarkProcessing(db.payments, id, orderId, db.payments[id].version).Ok?
    ensures var ps := MarkProcessing(db.payments, id, orderId, db.payments[id].version).value;
            DbInv(db.(payments := ps)) && Evolves(db, db.(payments := ps))
  {
    PaymentsWriteKeeps(db, MarkProcessing(db.payments, id, orderId, db.payments[id].version).value);
  }

  lemma MarkSuccessKeeps(db: Db, id: nat, txId: string)
    requires DbInv(db) && id < |db.payments| && db.payments[id].status.Processing?
    requires MarkSuccess(db.payments, id, txId, db.payments[id].version).Ok?
    ensures var ps := MarkSuccess(db.payments, id, txId, db.payments[id].version).value;
            DbInv(db.(payments := ps)) && Evolves(db, db.(payments := ps))
  {
    PaymentsWriteKeeps(db, MarkSuccess(db.payments, id, txId, db.payments[id].version).value);
  }

  lemma MarkFailedKeeps(db: Db, id: nat)
    requires DbInv(db) && id < |db.payments| && db.payments[id].status.Processing?
    requires MarkFailed(db.payments, id, db.payments[id].version).Ok?
    ensures var ps := MarkFailed(db.payments, id, db.payments[id].version).value;
            DbInv(db.(payments := ps)) && Evolves(db, db.(payments := ps))
  {
    PaymentsWriteKeeps(db, MarkFailed(db.payments, id, db.payments[id].version).value);
  }

  lemma OrderKeeps(db: Db, order: GatewayOrder)
    requires DbInv(db)
    ensures var db' := db.(orders := db.orders + [order]);
            DbInv(db') && Evolves(db, db') && order in db'.orders
  {
    var db' := db.(orders := db.orders + [order]);
    forall b | 0 <= b < |db'.bookings|
      ensures BookingInv(db', b)
    {
      assert BookingInv(db, b);
    }
  }

  lemma EventKeeps(db: Db, id: string)
    requires DbInv(db)
    ensures var db' := db.(events := db.events + {id});
            DbInv(db') && Evolves(db, db')
  {
    var db' := db.(events := db.events + {id});
    forall b | 0 <= b < |db'.bookings|
      ensures BookingInv(db', b)
    {
      assert BookingInv(db, b);
    }
  }

  lemma BookingPaidKeeps(db: Db, booking: nat)
    requires DbInv(db) && booking < |db.bookings|
    requires HasPayment(db.payments, booking, TransactionStatus.Success)
    ensures var db' := db.(bookings := BookingPaid(db.bookings, booking));
            DbInv(db') && Evolves(db, db')
  {
    var db' := db.(bookings := BookingPaid(db.bookings, booking));
    forall b | 0 <= b < |db'.bookings|
      ensures BookingInv(db', b)
    {
      assert BookingInv(db, b);
    }
  }

  lemma BookingPaymentFailedKeeps(db: Db, booking: nat)
    requires DbInv(db) && booking < |db.bookings| && !db.bookings[booking].pay.Paid?
    requires HasPayment(db.payments, booking, TransactionStatus.Failed)
    ensures var db' := db.(bookings := BookingPaymentFailed(db.bookings, booking));
            DbInv(db') && Evolves(db, db')
  {
    var db' := db.(bookings := BookingPaymentFailed(db.bookings, booking));
    forall b | 0 <= b < |db'.bookings|
      ensures BookingInv(db', b)
    {
      assert BookingInv(db, b);
    }
  }

  /** Changing the status of a booking's items, when the constraint allows it. */
  lemma ItemsStatusKeeps(items: seq<Item>, bookings: nat, booking: nat, status: ItemStatus)
    requires ItemsInv(items, bookings) && UpdateItems(items, booking, status).Some?
    ensures var items' := UpdateItems(items, booking, status).value;
            && ItemsInv(items', bookings) && ItemsEvolve(items, items')
            && (forall b :: SumPrices(items', b) == SumPrices(items, b))
            && (forall b, start, end :: ItemsSpan(items, b, start, end) ==> ItemsSpan(items', b, start, end))
  {
    UpdateRowsIsAllOrNothing(items, booking, status, 0);
    var items' := UpdateItems(items, booking, status).value;
    assert items' == WithStatus(items, booking, status, 0);
    forall b
      ensures SumPrices(items', b) == SumPrices(items, b)
    {
      SumPricesSame(items, items', b);
    }
    forall b, start, end | ItemsSpan(items, b, start, end)
      ensures ItemsSpan(items', b, start, end)
    {
      var lo, hi :| Spans(items, b, start, end, lo, hi);
      assert Spans(items', b, start, end, lo, hi);
    }
  }

  lemma ItemsConfirmedKeeps(db: Db, booking: nat)
    requires DbInv(db) && UpdateItems(db.items, booking, ItemStatus.Confirmed).Some?
    ensures var db' := db.(items := UpdateItems(db.items, booking, ItemStatus.Confirmed).value);
            DbInv(db') && Evolves(db, db')
  {
    ItemsStatusKeeps(db.items, |db.bookings|, booking, ItemStatus.Confirmed);
    var db' := db.(items := UpdateItems(db.items, booking, ItemStatus.Confirmed).value);
    forall b | 0 <= b < |db'.bookings|
      ensures BookingInv(db', b)
    {
      assert BookingInv(db, b);
    }
  }

  lemma ConfirmedEntryKeeps(db: Db, booking: nat)
    requires DbInv(db) && booking < |db.bookings| && db.bookings[booking].pay.Paid?
    requires CountEvents(db.timeline, booking, TimelineEvent.Confirmed) == 0
    ensures var db' := db.(timeline := db.timeline + [TimelineEntry(booking, TimelineEvent.Confirmed)]);
            DbInv(db') && Evolves(db, db')
  {
    var entry := TimelineEntry(booking, TimelineEvent.Confirmed);
    var db' := db.(timeline := db.timeline + [entry]);
    forall b | 0 <= b < |db'.bookings|
      ensures BookingInv(db', b)
    {
      assert BookingInv(db, b);
      CountEventsAppend(db.timeline, entry, b, TimelineEvent.Created);
      CountEventsAppend(db.timeline, entry, b, TimelineEvent.Confirmed);
      CountEventsAppend(db.timeline, entry, b, TimelineEvent.Cancelled);
    }
  }

  lemma ConfirmationKeeps(db: Db, c: Confirmation)
    requires DbInv(db) && c.payment < |db.payments| && db.payments[c.payment].booking == c.booking
    requires db.payments[c.payment].txId == Some(c.reference)
    requires CountConfirmations(db.confirmations, c.payment) == 0
    ensures var db' := db.(confirmations := db.confirmations + [c]);
            DbInv(db') && Evolves(db, db')
  {
    var db' := db.(confirmations := db.confirmations + [c]);
    forall b | 0 <= b < |db'.bookings|
      ensures BookingInv(db', b)
    {
      assert BookingInv(db, b);
    }
    forall p | 0 <= p < |db'.payments|
      ensures CountConfirmations(db'.confirmations, p) <= 1
    {
      CountConfirmationsAppend(db.confirmations, c, p);
    }
  }

  lemma LayoutItemsInv(items: seq<Item>, input: CreateInput, id: nat)
    requires ItemsInv(items, id)
    requires InsertAll(items, Layout(id, input.staff, input.start, input.lines)).Some?
    ensures ItemsInv(items + Layout(id, input.staff, input.start, input.lines), id + 1)
  {
    var rows := Layout(id, input.staff, input.start, input.lines);
    InsertAllKeepsNoOverlap(items, rows);
    forall k | 0 <= k < |rows|
      ensures rows[k].start < rows[k].end && rows[k].booking == id
    {
      LayoutInWindow(id, input.staff, input.start, input.lines, k);
    }
    forall i, j | 0 <= i < j < |rows|
      ensures !SameTime(rows[i], rows[j])
    {
      LayoutApart(id, input.staff, input.start, input.lines, i, j);
    }
    AppendedItemsInv(items, rows, id);
  }

  lemma AppendedItemsInv(items: seq<Item>, rows: seq<Item>, id: nat)
    requires ItemsInv(items, id) && NoOverlap(items + rows)
    requires forall k :: 0 <= k < |rows| ==> rows[k].start < rows[k].end && rows[k].booking == id
    requires forall i, j :: 0 <= i < j < |rows| ==> !SameTime(rows[i], rows[j])
    ensures ItemsInv(items + rows, id + 1)
  {
  }

  /** New items leave the other bookings' spans alone and span their own booking. */
  lemma LayoutSpans(items: seq<Item>, input: CreateInput, id: nat)
    requires ItemsInv(items, id) && input.lines != []
    ensures var all := items + Layout(id, input.staff, input.start, input.lines);
            && ItemsSpan(all, id, input.start, input.End())
            && (forall b, start, end :: b != id && ItemsSpan(items, b, start, end) ==> ItemsSpan(all, b, start, end))
  {
    var rows := Layout(id, input.staff, input.start, input.lines);
    var all := items + rows;
    forall k | 0 <= k < |rows|
      ensures rows[k].booking == id
    {
      LayoutInWindow(id, input.staff, input.start, input.lines, k);
    }
    forall k, l | 0 <= k < |rows| && l == k + 1 < |rows|
      ensures rows[k].end == rows[l].start
    {
      LayoutTilesWindow(id, input.staff, input.start, input.lines, k);
    }
    LayoutTilesWindow(id, input.staff, input.start, input.lines, |rows| - 1);
    assert Spans(all, id, input.start, input.End(), |items|, |all|);
    forall b, start, end | b != id && ItemsSpan(items, b, start, end)
      ensures ItemsSpan(all, b, start, end)
    {
      var lo, hi :| Spans(items, b, start, end, lo, hi);
      assert Spans(all, b, start, end, lo, hi);
    }
  }

  lemma CreateBookingKeeps(db: Db, input: CreateInput)
    requires DbInv(db) && input.lines != [] && CreateBooking(db, input).Ok?
    ensures DbInv(CreateBooking(db, input).value) && Evolves(db, CreateBooking(db, input).value)
  {
    var db' := CreateBooking(db, input).value;
    var id := |db.bookings|;
    var rows := Layout(id, input.staff, input.start, input.lines);
    var entry := TimelineEntry(id, TimelineEvent.Created);
    LayoutItemsInv(db.items, input, id);
    LayoutSpans(db.items, input, id);
    assert db'.items == db.items + rows && db'.timeline == db.timeline + [entry];
    forall b | 0 <= b < |db'.bookings|
      ensures BookingInv(db', b)
    {
      SumPricesAppend(db.items, rows, b);
      SumPricesLayout(id, input.staff, input.start, input.lines, b);
      CountEventsAppend(db.timeline, entry, b, TimelineEvent.Created);
      CountEventsAppend(db.timeline, entry, b, TimelineEvent.Confirmed);
      CountEventsAppend(db.timeline, entry, b, TimelineEvent.Cancelled);
      if b < id {
        assert BookingInv(db, b);
      } else {
        SumPricesAbsent(db.items, id);
        CountEventsAbsent(db.timeline, id, TimelineEvent.Created);
        CountEventsAbsent(db.timeline, id, TimelineEvent.Confirmed);
      }
    }
  }

  lemma CancelBookingKeeps(db: Db, booking: nat, customer: nat)
    requires DbInv(db) && CancelBooking(db, booking, customer).Ok?
    ensures DbInv(CancelBooking(db, booking, customer).value)
    ensures Evolves(db, CancelBooking(db, booking, customer).value)
  {
    var db' := CancelBooking(db, booking, customer).value;
    var entry := TimelineEntry(booking, TimelineEvent.Cancelled);
    ItemsStatusKeeps(db.items, |db.bookings|, booking, ItemStatus.Cancelled);
    forall b | 0 <= b < |db'.bookings|
      ensures BookingInv(db', b)
    {
      assert BookingInv(db, b);
      CountEventsAppend(db.timeline, entry, b, TimelineEvent.Created);
      CountEventsAppend(db.timeline, entry, b, TimelineEvent.Confirmed);
      CountEventsAppend(db.timeline, entry, b, TimelineEvent.Cancelled);
    }
  }
}
