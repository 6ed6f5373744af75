/** The services and repositories as objects that update the shared tables in
    place. A request handled by one of their methods with nothing in between does
    exactly what its step program does. */
module Backend {
  import opened Wrappers
  import opened Domain
  import opened Money
  import opened Schedule
  import opened Tables
  import opened Protocol
  import opened Serial

  class Database {
    var bookings: seq<Booking>
    var items: seq<Item>
    var payments: seq<Payment>
    var events: set<string>
    var timeline: seq<TimelineEntry>
    var orders: seq<GatewayOrder>
    var confirmations: seq<Confirmation>

    function State(): Db
      reads this
    {
      Db(bookings, items, payments, events, timeline, orders, confirmations)
    }

    constructor ()
      ensures State() == EMPTY_DB
    {
      bookings, items, payments := [], [], [];
      events, timeline, orders, confirmations := {}, [], [], [];
    }
  }

  class PaymentRepository {
    const db: Database

    constructor (db: Database)
      ensures this.db == db
    {
      this.db := db;
    }

    /** Writes the table if its constraints hold afterwards. */
    method Save(ps: seq<Payment>) returns (r: Option<Error>)
      modifies db`payments
      ensures match Commit(ps)
              case Err(e) => r == Some(e) && db.payments == old(db.payments)
              case Ok(after) => r == None && db.payments == after
    {
      if !Admissible(ps) {
        return Some(ConstraintViolation);
      }
      db.payments := ps;
      return None;
    }

    method InsertPending(booking: nat, amount: nat) returns (r: Result<PaymentRecord, Error>)
      modifies db`payments
      ensures match CreatePending(old(db.payments), booking, amount)
              case Err(e) => r == Err(e) && db.payments == old(db.payments)
              case Ok(after) =>
                && db.payments == after
                && r == Ok(PaymentRecord(|old(db.payments)|,
                                         Payment(booking, None, None, amount, TransactionStatus.Pending, 1)))
    {
      var id := |db.payments|;
      var entity := Payment(booking, None, None, amount, TransactionStatus.Pending, 1);
      var failed := Save(db.payments + [entity]);
      if failed.Some? {
        return Err(failed.value);
      }
      return Ok(PaymentRecord(id, entity));
    }

    method MoveToProcessing(id: nat, orderId: string, version: nat) returns (r: Result<PaymentRecord, Error>)
      modifies db`payments
      ensures match MarkProcessing(old(db.payments), id, orderId, version)
              case Err(e) => r == Err(e) && db.payments == old(db.payments)
              case Ok(after) => db.payments == after && r == Ok(PaymentRecord(id, after[id]))
    {
      if !(id < |db.payments| && db.payments[id].version == version) {
        return Err(VersionConflict);
      }
      var entity := db.payments[id];
      entity := entity.(orderId := Some(orderId));
      entity := entity.(status := TransactionStatus.Processing);
      var failed := Save(db.payments[id := entity.(version := entity.version + 1)]);
      if failed.Some? {
        return Err(failed.value);
      }
      return Ok(PaymentRecord(id, db.payments[id]));
    }

    method MoveToSuccess(id: nat, txId: string, version: nat) returns (r: Result<PaymentRecord, Error>)
      modifies db`payments
      ensures match MarkSuccess(old(db.payments), id, txId, version)
              case Err(e) => r == Err(e) && db.payments == old(db.payments)
              case Ok(after) => db.payments == after && r == Ok(PaymentRecord(id, after[id]))
    {
      if !(id < |db.payments| && db.payments[id].version == version) {
        return Err(VersionConflict);
      }
      var entity := db.payments[id];
      entity := entity.(txId := Some(txId));
      entity := entity.(status := TransactionStatus.Success);
      var failed := Save(db.payments[id := entity.(version := entity.version + 1)]);
      if failed.Some? {
        return Err(failed.value);
      }
      return Ok(PaymentRecord(id, db.payments[id]));
    }

    method MoveToFailed(id: nat, version: nat) returns (r: Result<PaymentRecord, Error>)
      modifies db`payments
      ensures match MarkFailed(old(db.payments), id, version)
              case Err(e) => r == Err(e) && db.payments == old(db.payments)
              case Ok(after) => db.payments == after && r == Ok(PaymentRecord(id, after[id]))
    {
      if !(id < |db.payments| && db.payments[id].version == version) {
        return Err(VersionConflict);
      }
      var entity := db.payments[id];
      entity := entity.(status := TransactionStatus.Failed);
      var failed := Save(db.payments[id := entity.(version := entity.version + 1)]);
      if failed.Some? {
        return Err(failed.value);
      }
      return Ok(PaymentRecord(id, db.payments[id]));
    }
  }

  class WebhookEventRepository {
    const db: Database

    constructor (db: Database)
      ensures this.db == db
    {
      this.db := db;
    }

    /** Records an event id; false when it is recorded already. */
    method TryRecordEvent(id: string) returns (recorded: bool)
      modifies db`events
      ensures recorded <==> id !in old(db.events)
      ensures db.events == old(db.events) + {id}
    {
      recorded := id !in db.events;
      db.events := db.events + {id};
    }
  }

  class BookingPaymentAdapter {
    const db: Database

    constructor (db: Database)
      ensures this.db == db
    {
      this.db := db;
    }

    /** Marks a booking paid in three statements; a refused item update leaves
        the first statement done and skips the third. */
    method MarkBookingPaid(payment: nat, booking: nat, customer: nat, reference: string, ghost env: Env)
      returns (r: Result<bool, Error>)
      modifies db`bookings, db`items, db`timeline
      ensures Drive(old(db.State()), PaidBooking(payment, booking, customer, reference), env)
           == if r.Ok? then Drive(db.State(), Dispatch(payment, booking, reference), env)
              else (db.State(), Finished(Capturing, Threw(r.error)))
      ensures db.bookings
           == if Owned(old(db.bookings), booking, customer) && !old(db.bookings)[booking].pay.Paid?
              then old(db.bookings)[booking := old(db.bookings)[booking].(status := BookingStatus.Confirmed,
                                                                          pay := BookingPaymentStatus.Paid)]
              else old(db.bookings)
    {
      if !Owned(db.bookings, booking, customer) {
        return Err(BookingNotFound);
      }
      if db.bookings[booking].pay.Paid? {
        return Ok(false);
      }
      db.bookings := db.bookings[booking :=
        db.bookings[booking].(status := BookingStatus.Confirmed, pay := BookingPaymentStatus.Paid)];
      ghost var afterFirst := db.State();
      assert Drive(old(db.State()), PaidBooking(payment, booking, customer, reference), env)
          == Drive(afterFirst, PaidItems(payment, booking, reference), env);

      var items := UpdateItems(db.items, booking, ItemStatus.Confirmed);
      if items.None? {
        DriveEnds(afterFirst, PaidItems(payment, booking, reference), env);
        return Err(ExclusionViolation);
      }
      db.items := items.value;
      ghost var afterSecond := db.State();
      assert Drive(afterFirst, PaidItems(payment, booking, reference), env)
          == Drive(afterSecond, PaidTimeline(payment, booking, reference), env);

      db.timeline := db.timeline + [TimelineEntry(booking, TimelineEvent.Confirmed)];
      assert Drive(afterSecond, PaidTimeline(payment, booking, reference), env)
          == Drive(db.State(), Dispatch(payment, booking, reference), env);
      return Ok(true);
    }

    method MarkBookingPaymentFailed(payment: nat, booking: nat, customer: nat, ghost env: Env)
      returns (r: Option<Error>)
      modifies db`bookings
      ensures Drive(old(db.State()), FailBooking(payment, booking, customer), env)
           == (db.State(), Finished(Failing, if r.Some? then Threw(r.value) else Returned))
      ensures r == if Owned(old(db.bookings), booking, customer) then None else Some(BookingNotFound)
      ensures db.bookings
           == if Owned(old(db.bookings), booking, customer) && !old(db.bookings)[booking].pay.Paid?
              then old(db.bookings)[booking := old(db.bookings)[booking].(pay := BookingPaymentStatus.Failed)]
              else old(db.bookings)
    {
      if !Owned(db.bookings, booking, customer) {
        return Some(BookingNotFound);
      }
      if db.bookings[booking].pay.Paid? {
        return None;
      }
      db.bookings := db.bookings[booking := db.bookings[booking].(pay := BookingPaymentStatus.Failed)];
      return None;
    }
  }

  function HookOutcome(r: Result<bool, Error>): Outcome {
    match r
    case Ok(duplicate) => if duplicate then Duplicate else Returned
    case Err(e) => Threw(e)
  }

  class PaymentsService {
    const db: Database
    const payments: PaymentRepository
    const bookings: BookingPaymentAdapter
    const webhookEvents: WebhookEventRepository

    constructor (db: Database)
      ensures this.db == db && Valid()
    {
      this.db := db;
      this.payments := new PaymentRepository(db);
      this.bookings := new BookingPaymentAdapter(db);
      this.webhookEvents := new WebhookEventRepository(db);
    }

    ghost predicate Valid() {
      payments.db == db && bookings.db == db && webhookEvents.db == db
    }

    method InitiateUpiPayment(booking: nat, customer: nat, env: Env) returns (r: Result<Intent, Error>)
      requires Valid()
      modifies db`payments, db`orders
      ensures Drive(old(db.State()), PayStart(booking, customer), env)
           == (db.State(), Finished(Paying, if r.Ok? then Offered(r.value) else Threw(r.error)))
    {
      ghost var before := db.State();
      if !Owned(db.bookings, booking, customer) {
        return Err(BookingNotFound);
      }
      var row := db.bookings[booking];
      if row.pay.Paid? {
        return Err(AlreadyPaid);
      }
      if !row.status.Pending? || !row.pay.Pending? {
        if !row.pay.Failed? {
          return Err(BookingNotPayable);
        }
      }
      assert Drive(before, PayStart(booking, customer), env) == Drive(before, PayFind(booking, row.total), env);

      var existing := FindActive(db.payments, booking);
      if existing.Some? && HasText(db.payments[existing.value].orderId) {
        DriveEnds(before, PayFind(booking, row.total), env);
        return Ok(BuildIntent(PaymentRecord(existing.value, db.payments[existing.value])));
      }
      var payment: PaymentRecord;
      if existing.Some? {
        payment := PaymentRecord(existing.value, db.payments[existing.value]);
      } else {
        assert Drive(before, PayFind(booking, row.total), env) == Drive(before, PayCreate(booking, row.total), env);
        var created := payments.InsertPending(booking, row.total);
        if created.Err? {
          DriveEnds(before, PayCreate(booking, row.total), env);
          return Err(created.error);
        }
        payment := created.value;
      }
      ghost var ready := db.State();
      assert Drive(before, PayFind(booking, row.total), env) == Drive(ready, PayOrder(payment, row.total), env);

      if !env.gatewayUp {
        DriveEnds(ready, PayOrder(payment, row.total), env);
        return Err(GatewayUnavailable);
      }
      db.orders := db.orders + [GatewayOrder(env.orderId, payment.row.booking, ToNumber(row.total))];
      ghost var ordered := db.State();
      assert Drive(ready, PayOrder(payment, row.total), env) == Drive(ordered, PayMark(payment, env.orderId), env);

      r := TransitionToProcessing(payment, env.orderId, env);
    }

    method TransitionToProcessing(payment: PaymentRecord, orderId: string, ghost env: Env)
      returns (r: Result<Intent, Error>)
      requires Valid()
      modifies db`payments
      ensures Drive(old(db.State()), PayMark(payment, orderId), env)
           == (db.State(), Finished(Paying, if r.Ok? then Offered(r.value) else Threw(r.error)))
    {
      if !CanTransition(payment.row.status, TransactionStatus.Processing) {
        return Err(IllegalTransition(payment.row.status, TransactionStatus.Processing));
      }
      var moved := payments.MoveToProcessing(payment.id, orderId, payment.row.version);
      if moved.Err? {
        return Err(moved.error);
      }
      return Ok(BuildIntent(moved.value));
    }

    method HandleWebhookEvent(event: Event, env: Env) returns (r: Result<bool, Error>)
      requires Valid()
      modifies db
      ensures Drive(old(db.State()), HookStart(event), env)
           == (db.State(), Finished(HookKind(event), HookOutcome(r)))
    {
      ghost var before := db.State();
      var recorded := webhookEvents.TryRecordEvent(event.id);
      if !recorded {
        assert db.State() == before by {
          assert db.events == before.events;
        }
        return Ok(true);
      }
      if event.kind.Other? {
        return Ok(false);
      }
      assert Drive(before, HookStart(event), env) == Drive(db.State(), HookFind(event), env);
      r := HandlePayment(event, env);
    }

    /** The captured and the failed handler: they differ in which missing field
        makes them ignore the event and in the transition they make. */
    method HandlePayment(event: Event, env: Env) returns (r: Result<bool, Error>)
      requires Valid() && !event.kind.Other?
      modifies db
      ensures Drive(old(db.State()), HookFind(event), env)
           == (db.State(), Finished(HookKind(event), HookOutcome(r)))
      ensures r.Ok? ==> !r.value
    {
      ghost var before := db.State();
      if event.kind.Captured? && !HasText(event.payId) {
        return Ok(false);
      }
      if !HasText(event.orderId) && !HasText(event.payId) {
        return Ok(false);
      }
      var hit: Option<nat> := None;
      if HasText(event.orderId) {
        hit := FindByOrder(db.payments, event.orderId.value);
      }
      if hit.None? {
        assert Drive(before, HookFind(event), env) == Drive(before, HookFindTx(event), env);
        if HasText(event.payId) {
          hit := FindByTransaction(db.payments, event.payId.value);
        }
      }
      if hit.None? {
        DriveEnds(before, HookFindTx(event), env);
        return Ok(false);
      }
      var payment := PaymentRecord(hit.value, db.payments[hit.value]);
      assert Drive(before, HookFind(event), env) == Drive(before, HookBooking(event, payment), env);
      if payment.row.booking >= |db.bookings| {
        DriveEnds(before, HookBooking(event, payment), env);
        return Ok(false);
      }
      var customer := db.bookings[payment.row.booking].customer;
      assert Drive(before, HookBooking(event, payment), env) == Drive(before, HookMark(event, payment, customer), env);
      if event.kind.Captured? {
        r := TransitionToSuccess(event, payment, customer, env);
      } else {
        r := TransitionToFailed(event, payment, customer, env);
      }
    }

    method TransitionToSuccess(event: Event, payment: PaymentRecord, customer: nat, env: Env)
      returns (r: Result<bool, Error>)
      requires Valid() && event.kind.Captured? && HasText(event.payId)
      modifies db
      ensures Drive(old(db.State()), HookMark(event, payment, customer), env)
           == (db.State(), Finished(Capturing, HookOutcome(r)))
      ensures r.Ok? ==> !r.value
    {
      ghost var before := db.State();
      if payment.row.status.Success? {
        return Ok(false);
      }
      if !CanTransition(payment.row.status, TransactionStatus.Success) {
        return Err(IllegalTransition(payment.row.status, TransactionStatus.Success));
      }
      var moved := payments.MoveToSuccess(payment.id, event.payId.value, payment.row.version);
      if moved.Err? {
        return Err(moved.error);
      }
      ghost var captured := db.State();
      assert Drive(before, HookMark(event, payment, customer), env)
          == Drive(captured, PaidBooking(payment.id, payment.row.booking, customer, event.payId.value), env);
      var paid := bookings.MarkBookingPaid(payment.id, payment.row.booking, customer, event.payId.value, env);
      if paid.Err? {
        return Err(paid.error);
      }
      ghost var marked := db.State();
      DispatchEnds(marked, payment.id, payment.row.booking, event.payId.value, env);
      // A missing phone number or a failing queue does not undo the capture.
      if env.notice.Queued? {
        db.confirmations := db.confirmations
          + [Confirmation(payment.id, payment.row.booking, event.payId.value)];
      }
      return Ok(false);
    }

    method TransitionToFailed(event: Event, payment: PaymentRecord, customer: nat, ghost env: Env)
      returns (r: Result<bool, Error>)
      requires Valid() && event.kind.Failed?
      modifies db
      ensures Drive(old(db.State()), HookMark(event, payment, customer), env)
           == (db.State(), Finished(Failing, HookOutcome(r)))
      ensures r.Ok? ==> !r.value
    {
      ghost var before := db.State();
      if payment.row.status.Failed? {
        return Ok(false);
      }
      if payment.row.status.Success? {
        return Ok(false);
      }
      if !CanTransition(payment.row.status, TransactionStatus.Failed) {
        return Err(IllegalTransition(payment.row.status, TransactionStatus.Failed));
      }
      var moved := payments.MoveToFailed(payment.id, payment.row.version);
      if moved.Err? {
        return Err(moved.error);
      }
      assert Drive(before, HookMark(event, payment, customer), env)
          == Drive(db.State(), FailBooking(payment.id, payment.row.booking, customer), env);
      var failed := bookings.MarkBookingPaymentFailed(payment.id, payment.row.booking, customer, env);
      return if failed.Some? then Err(failed.value) else Ok(false);
    }
  }

  class BookingRepository {
    const db: Database

    constructor (db: Database)
      ensures this.db == db
    {
      this.db := db;
    }

    /** One transaction: items are inserted one at a time, and the first that the
        exclusion constraint refuses rolls everything back. */
    method InsertBooking(input: CreateInput, rows: seq<Item>, total: nat) returns (r: Result<nat, Error>)
      requires rows == Layout(|db.bookings|, input.staff, input.start, input.lines)
      requires total == SumLinePrices(input.lines)
      modifies db`bookings, db`items, db`timeline
      ensures match CreateBooking(old(db.State()), input)
              case Err(e) => r == Err(e) && db.State() == old(db.State())
              case Ok(after) => r == Ok(|old(db.bookings)|) && db.State() == after
      ensures db.bookings
           == if r.Err? then old(db.bookings)
              else old(db.bookings) + [Booking(input.customer, BookingStatus.Pending, BookingPaymentStatus.Pending,
                                               input.start, input.start + SumMinutes(input.lines),
                                               SumLinePrices(input.lines))]
    {
      var id := |db.bookings|;
      var items := db.items;
      for i := 0 to |rows|
        invariant InsertAll(db.items, rows) == InsertAll(items, rows[i..])
      {
        if Refused(items, rows[i]) {
          assert InsertAll(items, rows[i..]) == None;
          return Err(SlotAlreadyBooked(true));
        }
        assert rows[i..][1..] == rows[i + 1..];
        items := items + [rows[i]];
      }
      db.bookings := db.bookings + [Booking(input.customer, BookingStatus.Pending, BookingPaymentStatus.Pending,
                                            input.start, input.End(), total)];
      db.items := items;
      db.timeline := db.timeline + [TimelineEntry(id, TimelineEvent.Created)];
      return Ok(id);
    }

    /** One transaction: the booking row, all its items and the timeline. */
    method CancelOne(booking: nat, customer: nat) returns (r: Option<Error>)
      modifies db`bookings, db`items, db`timeline
      ensures match CancelBooking(old(db.State()), booking, customer)
              case Err(e) => r == Some(e) && db.State() == old(db.State())
              case Ok(after) => r == None && db.State() == after
    {
      if !Owned(db.bookings, booking, customer) {
        return Some(BookingNotFound);
      }
      var items := UpdateItems(db.items, booking, ItemStatus.Cancelled);
      if items.None? {
        return Some(ExclusionViolation);
      }
      db.bookings := db.bookings[booking := db.bookings[booking].(status := BookingStatus.Cancelled)];
      db.items := items.value;
      db.timeline := db.timeline + [TimelineEntry(booking, TimelineEvent.Cancelled)];
      return None;
    }
  }

  /** What a create looks up before its lines: the specialist at the shop, the
      customer's payment method, and whether anything is selected at all. */
  datatype Lookups = Lookups(specialistInShop: bool, methodOfCustomer: bool, somethingSelected: bool)

  class BookingsService {
    const db: Database
    const bookings: BookingRepository

    constructor (db: Database)
      ensures this.db == db && Valid()
    {
      this.db := db;
      this.bookings := new BookingRepository(db);
    }

    ghost predicate Valid() {
      bookings.db == db
    }

    /** A create after its lookups: the first that fails refuses it and nothing changes. */
    method Create(lookups: Lookups, input: CreateInput, ghost env: Env) returns (r: Result<nat, Error>)
      requires Valid()
      modifies db`bookings, db`items, db`timeline
      ensures !lookups.specialistInShop ==> r == Err(SpecialistUnavailable)
      ensures lookups.specialistInShop && !lookups.methodOfCustomer ==> r == Err(PaymentMethodNotFound)
      ensures lookups.specialistInShop && lookups.methodOfCustomer && !lookups.somethingSelected ==>
        r == Err(NothingSelected)
      ensures !(lookups.specialistInShop && lookups.methodOfCustomer && lookups.somethingSelected) ==>
        db.State() == old(db.State())
      ensures lookups.specialistInShop && lookups.methodOfCustomer && lookups.somethingSelected ==>
        Drive(old(db.State()), CreateCheckSlot(input), env)
        == (db.State(), Finished(Creating, if r.Ok? then Booked(r.value) else Threw(r.error)))
    {
      if !lookups.specialistInShop {
        return Err(SpecialistUnavailable);
      }
      if !lookups.methodOfCustomer {
        return Err(PaymentMethodNotFound);
      }
      if !lookups.somethingSelected {
        return Err(NothingSelected);
      }
      ghost var before := db.State();
      if input.lines == [] {
        return Err(VariantNotFound);
      }
      if SlotTaken(db.items, input.staff, input.start, input.start + SumMinutes(input.lines)) {
        return Err(SlotAlreadyBooked(false));
      }
      assert Drive(before, CreateCheckSlot(input), env) == Drive(before, CreateCheckCustomer(input), env);
      if DoubleBooked(db.State(), input.customer, input.start, input.start + SumMinutes(input.lines)) {
        DriveEnds(before, CreateCheckCustomer(input), env);
        return Err(DoubleBooking);
      }
      assert Drive(before, CreateCheckCustomer(input), env) == Drive(before, CreateInsert(input), env);
      DriveEnds(before, CreateInsert(input), env);
      var rows := LayItems(|db.bookings|, input.staff, input.start, input.lines);
      r := bookings.InsertBooking(input, rows, SumLinePrices(input.lines));
    }

    method CancelFor(booking: nat, customer: nat, env: Env) returns (r: Option<Error>)
      requires Valid()
      modifies db`bookings, db`items, db`timeline
      ensures Drive(old(db.State()), CancelStart(booking, customer), env)
           == (db.State(), Finished(Cancelling, if r.Some? then Threw(r.value) else Returned))
    {
      ghost var before := db.State();
      if !Owned(db.bookings, booking, customer) {
        return Some(BookingNotFound);
      }
      var row := db.bookings[booking];
      if row.status.Cancelled? || row.status.NoShow? {
        return Some(AlreadyCancelled);
      }
      var untilStart := row.start - env.now;
      if untilStart < env.cancelMinMinutes {
        return Some(CancelWindowClosed);
      }
      assert Drive(before, CancelStart(booking, customer), env) == Drive(before, CancelWrite(booking, customer), env);
      DriveEnds(before, CancelWrite(booking, customer), env);
      r := bookings.CancelOne(booking, customer);
    }
  }
}
