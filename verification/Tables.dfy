/** The tables the booking and payment protocol shares, and what each repository
    method reads from them or writes to them as one atomic statement. A table is
    the sequence of its rows and a row's id is its position. */
module Tables {
  import opened Wrappers
  import opened Domain
  import opened Schedule

  datatype TimelineEntry = TimelineEntry(booking: nat, event: TimelineEvent)

  /** An order the payment gateway has issued. */
  datatype GatewayOrder = GatewayOrder(id: string, booking: nat, amount: nat)

  /** A booking confirmation handed to the message queue. */
  datatype Confirmation = Confirmation(payment: nat, booking: nat, reference: string)

  datatype Db = Db(
    bookings: seq<Booking>, items: seq<Item>, payments: seq<Payment>, events: set<string>,
    timeline: seq<TimelineEntry>, orders: seq<GatewayOrder>, confirmations: seq<Confirmation>)

  const EMPTY_DB := Db([], [], [], {}, [], [], [])

  datatype Error =
    | BookingNotFound
    | AlreadyPaid
    | BookingNotPayable
    | GatewayUnavailable
    | VersionConflict
    | ConstraintViolation
    | ExclusionViolation
    | IllegalTransition(from: TransactionStatus, to: TransactionStatus)
    | SpecialistUnavailable
    | PaymentMethodNotFound
    | NothingSelected
    | VariantNotFound
    | SlotAlreadyBooked(atInsert: bool)
    | DoubleBooking
    | AlreadyCancelled
    | CancelWindowClosed

  // -------------------------------------------------------------------------
  // Allowed payment transitions
  // -------------------------------------------------------------------------

  function AllowedTransitions(from: TransactionStatus): seq<TransactionStatus> {
    match from
    case Pending => [TransactionStatus.Processing]
    case Processing => [TransactionStatus.Success, TransactionStatus.Failed]
    case Success => []
    case Failed => []
    case Refunded => []
    case PartiallyRefunded => []
  }

  predicate CanTransition(from: TransactionStatus, to: TransactionStatus) {
    to in AllowedTransitions(from)
  }

  // -------------------------------------------------------------------------
  // Payments
  // -------------------------------------------------------------------------

  predicate InFlight(p: Payment) {
    p.status.Pending? || p.status.Processing?
  }

  /** The unique indexes and the amount check on the payments table. */
  predicate Admissible(ps: seq<Payment>) {
    && (forall i, j :: 0 <= i < j < |ps| && ps[i].booking == ps[j].booking && InFlight(ps[i]) ==> !InFlight(ps[j]))
    && (forall i, j :: 0 <= i < j < |ps| && ps[i].orderId.Some? ==> ps[i].orderId != ps[j].orderId)
    && (forall i, j :: 0 <= i < j < |ps| && ps[i].txId.Some? ==> ps[i].txId != ps[j].txId)
    && (forall i :: 0 <= i < |ps| ==> ps[i].amount > 0)
  }

  /** A write to the payments table takes effect only if the constraints hold after it. */
  function Commit(ps: seq<Payment>): Result<seq<Payment>, Error> {
    if Admissible(ps) then Ok(ps) else Err(ConstraintViolation)
  }

  function CreatePending(ps: seq<Payment>, booking: nat, amount: nat): Result<seq<Payment>, Error> {
    Commit(ps + [Payment(booking, None, None, amount, TransactionStatus.Pending, 1)])
  }

  function FindActive(ps: seq<Payment>, booking: nat): (r: Option<nat>)
    ensures r.Some? ==> r.value < |ps| && ps[r.value].booking == booking && InFlight(ps[r.value])
    ensures r.None? ==> forall i :: 0 <= i < |ps| && ps[i].booking == booking ==> !InFlight(ps[i])
  {
    if ps == [] then None
    else if ps[|ps| - 1].booking == booking && InFlight(ps[|ps| - 1]) then Some(|ps| - 1)
    else FindActive(ps[..|ps| - 1], booking)
  }

  function FindByOrder(ps: seq<Payment>, orderId: string): (r: Option<nat>)
    ensures r.Some? ==> r.value < |ps| && ps[r.value].orderId == Some(orderId)
    ensures r.None? ==> forall i :: 0 <= i < |ps| ==> ps[i].orderId != Some(orderId)
  {
    if ps == [] then None
    else if ps[|ps| - 1].orderId == Some(orderId) then Some(|ps| - 1)
    else FindByOrder(ps[..|ps| - 1], orderId)
  }

  function FindByTransaction(ps: seq<Payment>, txId: string): (r: Option<nat>)
    ensures r.Some? ==> r.value < |ps| && ps[r.value].txId == Some(txId)
    ensures r.None? ==> forall i :: 0 <= i < |ps| ==> ps[i].txId != Some(txId)
  {
    if ps == [] then None
    else if ps[|ps| - 1].txId == Some(txId) then Some(|ps| - 1)
    else FindByTransaction(ps[..|ps| - 1], txId)
  }

  predicate AtVersion(ps: seq<Payment>, id: nat, version: nat) {
    id < |ps| && ps[id].version == version
  }

  function MarkProcessing(ps: seq<Payment>, id: nat, orderId: string, version: nat): (r: Result<seq<Payment>, Error>)
    ensures r.Ok? ==> AtVersion(ps, id, version) && |r.value| == |ps|
  {
    if !AtVersion(ps, id, version) then Err(VersionConflict)
    else Commit(ps[id := ps[id].(orderId := Some(orderId), status := TransactionStatus.Processing,
                                 version := version + 1)])
  }

  function MarkSuccess(ps: seq<Payment>, id: nat, txId: string, version: nat): (r: Result<seq<Payment>, Error>)
    ensures r.Ok? ==> AtVersion(ps, id, version) && |r.value| == |ps|
  {
    if !AtVersion(ps, id, version) then Err(VersionConflict)
    else Commit(ps[id := ps[id].(txId := Some(txId), status := TransactionStatus.Success,
                                 version := version + 1)])
  }

  function MarkFailed(ps: seq<Payment>, id: nat, version: nat): (r: Result<seq<Payment>, Error>)
    ensures r.Ok? ==> AtVersion(ps, id, version) && |r.value| == |ps|
  {
    if !AtVersion(ps, id, version) then Err(VersionConflict)
    else Commit(ps[id := ps[id].(status := TransactionStatus.Failed, version := version + 1)])
  }

  // -------------------------------------------------------------------------
  // Bookings
  // -------------------------------------------------------------------------

  predicate Owned(bookings: seq<Booking>, booking: nat, customer: nat) {
    booking < |bookings| && bookings[booking].customer == customer
  }

  function BookingPaid(bookings: seq<Booking>, booking: nat): seq<Booking>
    requires booking < |bookings|
  {
    bookings[booking := bookings[booking].(status := BookingStatus.Confirmed, pay := BookingPaymentStatus.Paid)]
  }

  function BookingPaymentFailed(bookings: seq<Booking>, booking: nat): seq<Booking>
    requires booking < |bookings|
  {
    bookings[booking := bookings[booking].(pay := BookingPaymentStatus.Failed)]
  }

  /** Some booking of the customer that is not called off has an item in the window. */
  predicate DoubleBooked(db: Db, customer: nat, start: int, end: int) {
    exists i :: 0 <= i < |db.items| && BusyWith(db, db.items[i], customer, start, end)
  }

  predicate BusyWith(db: Db, item: Item, customer: nat, start: int, end: int) {
    && item.start < end && item.end > start
    && Owned(db.bookings, item.booking, customer)
    && !db.bookings[item.booking].status.Cancelled? && !db.bookings[item.booking].status.NoShow?
  }

  datatype CreateInput = CreateInput(customer: nat, staff: nat, start: int, lines: seq<Line>)
  {
    function End(): int {
      start + SumMinutes(lines)
    }
  }

  /** The booking, its items and its timeline entry in one transaction. */
  function CreateBooking(db: Db, input: CreateInput): Result<Db, Error> {
    var id := |db.bookings|;
    match InsertAll(db.items, Layout(id, input.staff, input.start, input.lines))
    case None => Err(SlotAlreadyBooked(true))
    case Some(items) =>
      var booking := Booking(input.customer, BookingStatus.Pending, BookingPaymentStatus.Pending,
                             input.start, input.End(), SumLinePrices(input.lines));
      Ok(db.(bookings := db.bookings + [booking], items := items,
                  timeline := db.timeline + [TimelineEntry(id, TimelineEvent.Created)]))
  }

  /** The booking row, its items and its timeline entry in one transaction. */
  function CancelBooking(db: Db, booking: nat, customer: nat): Result<Db, Error> {
    if !Owned(db.bookings, booking, customer) then Err(BookingNotFound)
    else
      match UpdateItems(db.items, booking, ItemStatus.Cancelled)
      case None => Err(ExclusionViolation)
      case Some(items) =>
        Ok(db.(bookings := db.bookings[booking := db.bookings[booking].(status := BookingStatus.Cancelled)],
                    items := items,
                    timeline := db.timeline + [TimelineEntry(booking, TimelineEvent.Cancelled)]))
  }
}
