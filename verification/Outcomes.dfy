/** What a request achieves when nothing runs in between, stated on the tables it finds. */
module Outcomes {
  import opened Wrappers
  import opened Domain
  import opened Money
  import opened Schedule
  import opened Tables
  import opened Protocol
  import opened Invariants
  import opened Serial
  import opened Delivery

  // -------------------------------------------------------------------------
  // Creating
  // -------------------------------------------------------------------------

  /** An active item of the staff member stands in the way of the booking. */
  ghost predicate StaffBusy(db: Db, input: CreateInput) {
    exists y :: && 0 <= y < |db.items| && db.items[y].staff == input.staff && Active(db.items[y])
                && RangesOverlap(db.items[y].start, db.items[y].end, input.start, input.End())
  }

  /** An item of a booking of the customer that has not been called off does. */
  ghost predicate CustomerBusy(db: Db, input: CreateInput) {
    exists y :: && 0 <= y < |db.items| && LiveFor(db, db.items[y], input.customer)
                && RangesOverlap(db.items[y].start, db.items[y].end, input.start, input.End())
  }

  predicate LiveFor(db: Db, item: Item, customer: nat) {
    && Owned(db.bookings, item.booking, customer)
    && !db.bookings[item.booking].status.Cancelled? && !db.bookings[item.booking].status.NoShow?
  }

  /** An uninterrupted create books exactly when it has a line and neither the staff
      member nor the customer is busy, and otherwise says what is wrong. A booking is
      stored for its customer, unpaid, from its start over the sum of its lines. */
  lemma CreateBooksIffFree(db: Db, input: CreateInput, env: Env)
    requires DbInv(db)
    ensures Drive(db, CreateCheckSlot(input), env)
         == if input.lines == [] then (db, Finished(Creating, Threw(VariantNotFound)))
            else if StaffBusy(db, input) then (db, Finished(Creating, Threw(SlotAlreadyBooked(false))))
            else if CustomerBusy(db, input) then (db, Finished(Creating, Threw(DoubleBooking)))
            else
              (db.(bookings := db.bookings + [Booking(input.customer, BookingStatus.Pending,
                                                      BookingPaymentStatus.Pending, input.start,
                                                      input.start + SumMinutes(input.lines),
                                                      SumLinePrices(input.lines))],
                   items := db.items + Layout(|db.bookings|, input.staff, input.start, input.lines),
                   timeline := db.timeline + [TimelineEntry(|db.bookings|, TimelineEvent.Created)]),
               Finished(Creating, Booked(|db.bookings|)))
  {
    if input.lines == [] {
      DriveEnds(db, CreateCheckSlot(input), env);
    } else {
      if SlotTaken(db.items, input.staff, input.start, input.End()) {
        DriveEnds(db, CreateCheckSlot(input), env);
      } else {
        SlotTakenIffInsertRefused(db.items, |db.bookings|, input.staff, input.start, input.lines);
        assert Drive(db, CreateCheckSlot(input), env) == Drive(db, CreateCheckCustomer(input), env);
        DriveCustomerCheck(db, input, env);
      }
    }
  }

  lemma DriveCustomerCheck(db: Db, input: CreateInput, env: Env)
    ensures Drive(db, CreateCheckCustomer(input), env)
         == if DoubleBooked(db, input.customer, input.start, input.End()) then
              (db, Finished(Creating, Threw(DoubleBooking)))
            else Step(db, CreateInsert(input), env)
  {
    if DoubleBooked(db, input.customer, input.start, input.End()) {
      DriveEnds(db, CreateCheckCustomer(input), env);
    } else {
      DriveEnds(db, CreateInsert(input), env);
    }
  }

  // -------------------------------------------------------------------------
  // Cancelling
  // -------------------------------------------------------------------------

  /** A cancel goes through exactly for the customer's own booking that is not
      cancelled yet and starts late enough, and otherwise says what is wrong. It cancels
      the booking and all of its items, logs it, and changes nothing else. */
  lemma CancelFreesItems(db: Db, booking: nat, customer: nat, env: Env)
    requires DbInv(db)
    ensures var (db', req') := Drive(db, CancelStart(booking, customer), env);
            && db' == db.(bookings := db'.bookings, items := db'.items, timeline := db'.timeline)
            && req' == Finished(Cancelling,
                 if !Owned(db.bookings, booking, customer) then Threw(BookingNotFound)
                 else if db.bookings[booking].status.Cancelled? then Threw(AlreadyCancelled)
                 else if db.bookings[booking].start < env.now + env.cancelMinMinutes then Threw(CancelWindowClosed)
                 else Returned)
            && (!req'.outcome.Returned? ==> db' == db)
            && (req'.outcome.Returned? ==>
                  && db'.bookings == db.bookings[booking := db.bookings[booking].(status := BookingStatus.Cancelled)]
                  && db'.timeline == db.timeline + [TimelineEntry(booking, TimelineEvent.Cancelled)]
                  && |db'.items| == |db.items|
                  && forall i :: 0 <= i < |db.items| ==>
                       db'.items[i] == if db.items[i].booking == booking
                                       then db.items[i].(status := ItemStatus.Cancelled) else db.items[i])
  {
    if Owned(db.bookings, booking, customer) {
      assert BookingInv(db, booking);
      CancelNeverRefused(db.items, booking);
    }
    if Step(db, CancelStart(booking, customer), env).1.CancelWrite? {
      assert Drive(db, CancelStart(booking, customer), env) == Drive(db, CancelWrite(booking, customer), env);
      DriveEnds(db, CancelWrite(booking, customer), env);
    } else {
      DriveEnds(db, CancelStart(booking, customer), env);
    }
  }

  /** A booking just made can be cancelled by its customer exactly while its requested
      start is far enough away. */
  lemma CreatedThenCancelledIff(db: Db, input: CreateInput, env: Env, later: Env)
    requires DbInv(db) && env.Ok()
    requires Drive(db, CreateCheckSlot(input), env).1.outcome.Booked?
    ensures var (db', req') := Drive(db, CreateCheckSlot(input), env);
            Drive(db', CancelStart(req'.outcome.booking, input.customer), later).1.outcome.Returned?
            <==> later.now + later.cancelMinMinutes <= input.start
  {
    CreateBooksIffFree(db, input, env);
    DriveKeeps(db, CreateCheckSlot(input), env);
    CancelFreesItems(Drive(db, CreateCheckSlot(input), env).0, |db.bookings|, input.customer, later);
  }

  // -------------------------------------------------------------------------
  // Paying
  // -------------------------------------------------------------------------

  /** What can be paid: the customer's own unpaid booking, and a cancelled one only
      if its last payment failed. */
  predicate Payable(db: Db, booking: nat, customer: nat) {
    && Owned(db.bookings, booking, customer) && !db.bookings[booking].pay.Paid?
    && (db.bookings[booking].status.Cancelled? ==> db.bookings[booking].pay.Failed?)
  }

  lemma PayableIffChecked(db: Db, booking: nat, customer: nat, env: Env)
    requires DbInv(db)
    ensures var (db', req') := Step(db, PayStart(booking, customer), env);
            && db' == db
            && (if Payable(db, booking, customer) then req' == PayFind(booking, db.bookings[booking].total)
                else req'.Finished? && req'.outcome.Threw?)
  {
    if booking < |db.bookings| {
      assert BookingInv(db, booking);
    }
  }

  ghost predicate OpenOrder(ps: seq<Payment>, booking: nat) {
    HasPayment(ps, booking, TransactionStatus.Processing)
  }

  ghost predicate OrderUnused(ps: seq<Payment>, orderId: string) {
    forall p :: 0 <= p < |ps| ==> ps[p].orderId != Some(orderId)
  }

  /** The payment row of an intent: open, of this booking, with the intent's order. */
  predicate Backs(ps: seq<Payment>, booking: nat, intent: Intent) {
    && intent.payment < |ps| && ps[intent.payment].booking == booking
    && ps[intent.payment].status.Processing? && intent.status.Processing?
    && ps[intent.payment].orderId == Some(intent.orderId)
    && intent.amount == ToNumber(ps[intent.payment].amount)
  }

  /** The outcome of asking the gateway for an order for a pending payment. */
  ghost function Ordered(db: Db, id: nat, env: Env): (Db, Request)
    requires id < |db.payments|
  {
    var row := db.payments[id];
    var amount := ToNumber(row.amount);
    if !env.gatewayUp then (db, Finished(Paying, Threw(GatewayUnavailable)))
    else
      var issued := db.(orders := db.orders + [GatewayOrder(env.orderId, row.booking, amount)]);
      if !OrderUnused(db.payments, env.orderId) then (issued, Finished(Paying, Threw(ConstraintViolation)))
      else
        (issued.(payments := db.payments[id := row.(orderId := Some(env.orderId),
                                                    status := TransactionStatus.Processing, version := 2)]),
         Finished(Paying, Offered(Intent(id, env.orderId, amount, TransactionStatus.Processing))))
  }

  lemma OrderTail(db: Db, id: nat, env: Env)
    requires DbInv(db) && env.Ok() && id < |db.payments| && db.payments[id].status.Pending?
    ensures var rec := PaymentRecord(id, db.payments[id]);
            Drive(db, PayOrder(rec, rec.row.amount), env) == Ordered(db, id, env)
  {
    var rec := PaymentRecord(id, db.payments[id]);
    var total := rec.row.amount;
    assert RowOk(rec.row);
    if !env.gatewayUp {
      DriveEnds(db, PayOrder(rec, total), env);
    } else {
      var db1 := Step(db, PayOrder(rec, total), env).0;
      assert Drive(db, PayOrder(rec, total), env) == Drive(db1, PayMark(rec, env.orderId), env);
      DriveEnds(db1, PayMark(rec, env.orderId), env);
      MarkProcessingOkIff(db, id, env.orderId);
    }
  }

  lemma MarkProcessingOkIff(db: Db, id: nat, orderId: string)
    requires DbInv(db) && id < |db.payments| && db.payments[id].status.Pending?
    ensures MarkProcessing(db.payments, id, orderId, db.payments[id].version).Ok? <==> OrderUnused(db.payments, orderId)
  {
    var ps := db.payments;
    var after := ps[id := ps[id].(orderId := Some(orderId), status := TransactionStatus.Processing,
                                  version := ps[id].version + 1)];
    assert RowOk(ps[id]);
    if OrderUnused(ps, orderId) {
      assert Admissible(after);
    } else {
      var p :| 0 <= p < |ps| && ps[p].orderId == Some(orderId);
      assert after[p].orderId == after[id].orderId && p != id;
      assert !Admissible(after);
    }
  }

  lemma PendingInsertOk(db: Db, booking: nat)
    requires DbInv(db) && booking < |db.bookings| && FindActive(db.payments, booking).None?
    ensures CreatePending(db.payments, booking, db.bookings[booking].total).Ok?
  {
    assert BookingInv(db, booking);
  }

  /** A pay request once the booking is found payable: the intent of its open order is
      handed out again and nothing changes, or else its pending payment, a new one if it
      has none, is ordered. */
  lemma FindTail(db: Db, booking: nat, env: Env) returns (id: nat)
    requires DbInv(db) && env.Ok() && booking < |db.bookings|
    ensures PaidThrough(db, booking, env, id, Drive(db, PayFind(booking, db.bookings[booking].total), env))
  {
    var total := db.bookings[booking].total;
    var found := FindActive(db.payments, booking);
    if found.Some? {
      id := found.value;
      var rec := PaymentRecord(id, db.payments[id]);
      assert RowOk(rec.row);
      if HasText(rec.row.orderId) {
        DriveEnds(db, PayFind(booking, total), env);
      } else {
        assert Drive(db, PayFind(booking, total), env) == Drive(db, PayOrder(rec, total), env);
        OrderTail(db, id, env);
      }
    } else {
      id := |db.payments|;
      PendingInsertOk(db, booking);
      CreatePendingKeeps(db, booking);
      var db1 := WithPending(db, booking);
      var rec := PaymentRecord(id, db1.payments[id]);
      assert Drive(db, PayFind(booking, total), env) == Drive(db, PayCreate(booking, total), env);
      assert Drive(db, PayCreate(booking, total), env) == Drive(db1, PayOrder(rec, total), env);
      OrderTail(db1, id, env);
    }
  }

  function WithPending(db: Db, booking: nat): Db
    requires booking < |db.bookings|
  {
    db.(payments := db.payments + [Payment(booking, None, None, db.bookings[booking].total,
                                           TransactionStatus.Pending, 1)])
  }

  /** What a pay request for a payable booking ends in; id is the payment it works on. */
  ghost predicate PaidThrough(db: Db, booking: nat, env: Env, id: nat, r: (Db, Request))
    requires booking < |db.bookings|
  {
    if OpenOrder(db.payments, booking) then
      && id < |db.payments| && db.payments[id].booking == booking && db.payments[id].status.Processing?
      && db.payments[id].orderId.Some?
      && r == (db, Finished(Paying, Offered(Intent(id, db.payments[id].orderId.value,
                                                   ToNumber(db.payments[id].amount), TransactionStatus.Processing))))
    else if HasPayment(db.payments, booking, TransactionStatus.Pending) then
      && id < |db.payments| && db.payments[id].booking == booking && db.payments[id].status.Pending?
      && r == Ordered(db, id, env)
    else id == |db.payments| && r == Ordered(WithPending(db, booking), id, env)
  }

  /** An uninterrupted pay request is refused without any change exactly for a booking
      that is not payable, which it says by name. Otherwise it hands out the open
      order or attaches a new one. */
  lemma PayOutcome(db: Db, booking: nat, customer: nat, env: Env)
    requires DbInv(db) && env.Ok()
    ensures var r := Drive(db, PayStart(booking, customer), env);
            if Payable(db, booking, customer) then exists id :: PaidThrough(db, booking, env, id, r)
            else r == (db, Finished(Paying, Threw(
                             if !Owned(db.bookings, booking, customer) then BookingNotFound
                             else if db.bookings[booking].pay.Paid? then AlreadyPaid else BookingNotPayable)))
  {
    PayableIffChecked(db, booking, customer, env);
    if Payable(db, booking, customer) {
      var next := PayFind(booking, db.bookings[booking].total);
      assert Drive(db, PayStart(booking, customer), env) == Drive(db, next, env);
      var id := FindTail(db, booking, env);
    } else {
      DriveEnds(db, PayStart(booking, customer), env);
    }
  }

  /** An uninterrupted pay request offers an order exactly for a payable booking that
      has an open order already or for which the gateway issues an unused one; the
      intent is backed by an open payment of that booking, and bookings stay as they are. */
  lemma PayOffersIff(db: Db, booking: nat, customer: nat, env: Env)
    requires DbInv(db) && env.Ok()
    ensures var (db', req') := Drive(db, PayStart(booking, customer), env);
            && db' == db.(payments := db'.payments, orders := db'.orders)
            && (req'.outcome.Offered? <==>
                  Payable(db, booking, customer)
                  && (OpenOrder(db.payments, booking) || (env.gatewayUp && OrderUnused(db.payments, env.orderId))))
            && (req'.outcome.Offered? ==> Backs(db'.payments, booking, req'.outcome.intent))
            && (OpenOrder(db.payments, booking) ==> db' == db)
            && (req'.outcome.Offered? && !OpenOrder(db.payments, booking) ==>
                  req'.outcome.intent.orderId == env.orderId)
  {
    PayOutcome(db, booking, customer, env);
    if Payable(db, booking, customer) {
      var id :| PaidThrough(db, booking, env, id, Drive(db, PayStart(booking, customer), env));
      OrderUnusedWithPending(db.payments, WithPending(db, booking).payments[|db.payments|], env.orderId);
    }
  }

  lemma OrderUnusedWithPending(ps: seq<Payment>, row: Payment, orderId: string)
    requires row.orderId.None?
    ensures OrderUnused(ps + [row], orderId) <==> OrderUnused(ps, orderId)
  {
    assert forall p :: 0 <= p < |ps| ==> (ps + [row])[p] == ps[p];
  }

  /** Asking again hands out the very same intent and changes nothing, whatever the gateway would say. */
  lemma PayAgainReusesOrder(db: Db, booking: nat, customer: nat, env: Env, again: Env)
    requires DbInv(db) && env.Ok() && again.Ok()
    requires Drive(db, PayStart(booking, customer), env).1.outcome.Offered?
    ensures var (db', req') := Drive(db, PayStart(booking, customer), env);
            var (db'', req'') := Drive(db', PayStart(booking, customer), again);
            db'' == db' && req''.outcome == req'.outcome
  {
    var (db', req') := Drive(db, PayStart(booking, customer), env);
    PayOffersIff(db, booking, customer, env);
    DriveKeeps(db, PayStart(booking, customer), env);
    PayOffersIff(db', booking, customer, again);
    var (db'', req'') := Drive(db', PayStart(booking, customer), again);
    var intent, intent' := req'.outcome.intent, req''.outcome.intent;
    assert HasPayment(db'.payments, booking, TransactionStatus.Processing);
    assert InFlight(db'.payments[intent.payment]) && InFlight(db'.payments[intent'.payment]);
    assert intent.payment == intent'.payment;
  }

  // -------------------------------------------------------------------------
  // Capturing
  // -------------------------------------------------------------------------

  function Note(env: Env, payment: nat, booking: nat, reference: string): seq<Confirmation> {
    if env.notice.Queued? then [Confirmation(payment, booking, reference)] else []
  }

  lemma DispatchOutcome(db: Db, req: Request, env: Env)
    requires req.Dispatch?
    ensures Drive(db, req, env)
         == (db.(confirmations := db.confirmations + Note(env, req.payment, req.booking, req.reference)),
             Finished(Capturing, Returned))
  {
    assert db.confirmations + [] == db.confirmations;
    DispatchEnds(db, req.payment, req.booking, req.reference, env);
  }

  /** A capture once its payment row is written, statement by statement. */
  lemma PaidOutcome(db: Db, req: Request, env: Env)
    requires req.PaidBooking? && Owned(db.bookings, req.booking, req.customer)
    requires NoOverlap(db.items) && OwnItemsApart(db.items)
    ensures Drive(db, req, env) == CaptureResult(db, req.payment, req.booking, req.reference, env)
  {
    var note := Note(env, req.payment, req.booking, req.reference);
    var (db1, req1) := Step(db, req, env);
    assert Drive(db, req, env) == Drive(db1, req1, env);
    if req1.Dispatch? {
      DispatchOutcome(db1, req1, env);
    } else {
      ConfirmRefusedIffRebooked(db.items, req.booking);
      var (db2, req2) := Step(db1, req1, env);
      assert Drive(db1, req1, env) == Drive(db2, req2, env);
      if req2.PaidTimeline? {
        var (db3, req3) := Step(db2, req2, env);
        assert Drive(db2, req2, env) == Drive(db3, req3, env);
        DispatchOutcome(db3, req3, env);
      }
    }
  }

  /** The intended result of a capture on its booking: nothing but a note if it was
      paid before; paid with its items left alone and an error if its time was given
      away; and otherwise paid, every item confirmed, logged and noted. */
  ghost function CaptureResult(db: Db, payment: nat, booking: nat, reference: string, env: Env): (Db, Request)
    requires booking < |db.bookings|
  {
    var note := Note(env, payment, booking, reference);
    var paid := db.(bookings := db.bookings[booking := db.bookings[booking].(status := BookingStatus.Confirmed,
                                                                       pay := BookingPaymentStatus.Paid)]);
    if db.bookings[booking].pay.Paid? then
      (db.(confirmations := db.confirmations + note), Finished(Capturing, Returned))
    else if Rebooked(db.items, booking) then
      (paid, Finished(Capturing, Threw(ExclusionViolation)))
    else
      (paid.(items := WithStatus(db.items, booking, ItemStatus.Confirmed, 0),
             timeline := db.timeline + [TimelineEntry(booking, TimelineEvent.Confirmed)],
             confirmations := db.confirmations + note),
       Finished(Capturing, Returned))
  }

  /** The event recorded and its payment row captured. */
  function Captured(db: Db, event: Event, id: nat): Db
    requires id < |db.payments|
  {
    db.(events := db.events + {event.id},
        payments := db.payments[id := db.payments[id].(txId := event.payId,
                                                       status := TransactionStatus.Success, version := 3)])
  }

  /** A new captured event for an open payment, delivered with nothing in between: if
      its payment id is taken, the unique index refuses it and only the event is
      recorded; otherwise the payment is captured, with exactly the intended result
      on its booking. */
  lemma CaptureOutcome(db: Db, event: Event, env: Env)
    requires DbInv(db) && WellFormed(event) && event.kind.Captured? && event.id !in db.events
    requires Attached(db.payments, event).Some?
    requires db.payments[Attached(db.payments, event).value].status.Processing?
    ensures var id := Attached(db.payments, event).value;
            var booking := db.payments[id].booking;
            && booking < |db.bookings|
            && Drive(db, HookStart(event), env)
            == if PayIdTaken(db.payments, event) then
                 (db.(events := db.events + {event.id}), Finished(Capturing, Threw(ConstraintViolation)))
               else CaptureResult(Captured(db, event, id), id, booking, event.payId.value, env)
  {
    var id := Attached(db.payments, event).value;
    var rec := PaymentRecord(id, db.payments[id]);
    var db1 := db.(events := db.events + {event.id});
    var customer := db.bookings[rec.row.booking].customer;
    assert Drive(db, HookStart(event), env) == Drive(db1, HookFind(event), env);
    assert Drive(db1, HookFind(event), env) == Drive(db1, HookBooking(event, rec), env);
    assert Drive(db1, HookBooking(event, rec), env) == Drive(db1, HookMark(event, rec, customer), env);
    MarkSuccessOutcome(db, event, id);
    assert RowOk(rec.row);
    var (db2, req2) := Step(db1, HookMark(event, rec, customer), env);
    assert Drive(db1, HookMark(event, rec, customer), env) == Drive(db2, req2, env);
    if !PayIdTaken(db.payments, event) {
      assert req2 == PaidBooking(id, rec.row.booking, customer, event.payId.value);
      assert db2 == Captured(db, event, id);
      PaidOutcome(db2, req2, env);
    }
  }
  /** A new failed event for an open payment, delivered with nothing in between: the
      payment has failed, and so has the payment of its booking unless that is paid. */
  lemma FailureOutcome(db: Db, event: Event, env: Env)
    requires DbInv(db) && event.kind.Failed? && event.id !in db.events
    requires Attached(db.payments, event).Some?
    requires db.payments[Attached(db.payments, event).value].status.Processing?
    ensures var id := Attached(db.payments, event).value;
            var row := db.payments[id];
            && row.booking < |db.bookings|
            && var booking := db.bookings[row.booking];
            Drive(db, HookStart(event), env)
            == (db.(events := db.events + {event.id},
                    payments := db.payments[id := row.(status := TransactionStatus.Failed, version := 3)],
                    bookings := if booking.pay.Paid? then db.bookings
                                else db.bookings[row.booking := booking.(pay := BookingPaymentStatus.Failed)]),
                Finished(Failing, Returned))
  {
    var id := Attached(db.payments, event).value;
    var rec := PaymentRecord(id, db.payments[id]);
    var db1 := db.(events := db.events + {event.id});
    var customer := db.bookings[rec.row.booking].customer;
    assert Drive(db, HookStart(event), env) == Drive(db1, HookFind(event), env);
    assert Drive(db1, HookFind(event), env) == Drive(db1, HookBooking(event, rec), env);
    assert Drive(db1, HookBooking(event, rec), env) == Drive(db1, HookMark(event, rec, customer), env);
    MarkFailedCommits(db, id);
    var (db2, req2) := Step(db1, HookMark(event, rec, customer), env);
    assert Drive(db1, HookMark(event, rec, customer), env) == Drive(db2, req2, env);
    DriveEnds(db2, req2, env);
  }

  /** A new event that a handler acts on: its order is attached to an open payment. */
  predicate Opens(db: Db, event: Event) {
    && event.id !in db.events && !Ignored(db.payments, event)
    && db.payments[Attached(db.payments, event).value].status.Processing?
  }

  /** Every other event changes nothing but the record. It is reported as a duplicate
      exactly if it was recorded before, throws exactly if it captures a payment that
      has failed, and passes quietly otherwise. */
  lemma OtherEventsOutcome(db: Db, event: Event, env: Env)
    requires DbInv(db) && !Opens(db, event)
    ensures var outcome :=
              if event.id in db.events then Duplicate
              else if event.kind.Captured? && !Ignored(db.payments, event)
                      && db.payments[Attached(db.payments, event).value].status.Failed?
              then Threw(IllegalTransition(TransactionStatus.Failed, TransactionStatus.Success))
              else Returned;
            Drive(db, HookStart(event), env)
            == (db.(events := db.events + {event.id}), Finished(HookKind(event), outcome))
  {
    var db1 := db.(events := db.events + {event.id});
    if event.id in db.events {
      assert db1 == db;
      DriveEnds(db, HookStart(event), env);
    } else if event.kind.Other? {
      DriveEnds(db, HookStart(event), env);
    } else {
      assert Drive(db, HookStart(event), env) == Drive(db1, HookFind(event), env);
      if !WellFormed(event) || (!HasText(event.orderId) && !HasText(event.payId)) {
        DriveEnds(db1, HookFind(event), env);
      } else {
        EventKeeps(db, event.id);
        UnopenedOutcome(db1, event, env);
      }
    }
  }

  lemma UnopenedOutcome(db: Db, event: Event, env: Env)
    requires DbInv(db) && WellFormed(event) && (HasText(event.orderId) || HasText(event.payId))
    requires Attached(db.payments, event).Some? ==>
      !db.payments[Attached(db.payments, event).value].status.Processing?
    ensures Drive(db, HookFind(event), env)
         == (db, Finished(HookKind(event),
                   if event.kind.Captured? && Attached(db.payments, event).Some?
                      && db.payments[Attached(db.payments, event).value].status.Failed?
                   then Threw(IllegalTransition(TransactionStatus.Failed, TransactionStatus.Success))
                   else Returned))
  {
    var hit := Attached(db.payments, event);
    if hit.Some? {
      var rec := PaymentRecord(hit.value, db.payments[hit.value]);
      assert RowOk(rec.row);
      assert Drive(db, HookFind(event), env) == Drive(db, HookBooking(event, rec), env);
      ClosedOutcome(db, event, hit.value, env);
    } else {
      assert Drive(db, HookFind(event), env) == Drive(db, HookFindTx(event), env);
      var byTx := if HasText(event.payId) then FindByTransaction(db.payments, event.payId.value) else None;
      if byTx.Some? {
        assert RowOk(db.payments[byTx.value]);
        var rec := PaymentRecord(byTx.value, db.payments[byTx.value]);
        assert Drive(db, HookFindTx(event), env) == Drive(db, HookBooking(event, rec), env);
        ClosedOutcome(db, event, byTx.value, env);
      } else {
        DriveEnds(db, HookFindTx(event), env);
      }
    }
  }

  lemma ClosedOutcome(db: Db, event: Event, id: nat, env: Env)
    requires DbInv(db) && WellFormed(event) && id < |db.payments| && Terminal(db.payments[id])
    ensures Drive(db, HookBooking(event, PaymentRecord(id, db.payments[id])), env)
         == (db, Finished(HookKind(event),
                   if event.kind.Captured? && db.payments[id].status.Failed?
                   then Threw(IllegalTransition(TransactionStatus.Failed, TransactionStatus.Success))
                   else Returned))
  {
    var rec := PaymentRecord(id, db.payments[id]);
    var mark := HookMark(event, rec, db.bookings[rec.row.booking].customer);
    assert Drive(db, HookBooking(event, rec), env) == Drive(db, mark, env);
    DriveEnds(db, mark, env);
  }
}
