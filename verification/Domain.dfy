/** Rows and enumerations of the booking and payment tables. */
module Domain {
  import opened Wrappers

  datatype BookingStatus = Pending | Confirmed | InProgress | Completed | Cancelled | NoShow

  datatype BookingPaymentStatus = Pending | PartiallyPaid | Paid | Failed | Refunded

  datatype ItemStatus = Pending | Confirmed | InProgress | Completed | Cancelled | NoShow

  datatype TransactionStatus = Pending | Processing | Success | Failed | Refunded | PartiallyRefunded

  datatype TimelineEvent = Created | Confirmed | Cancelled

  // Prices and durations of catalogue rows are positive by CHECK constraint.
  type Positive = n: int | 0 < n witness 1

  /** A resolved service or package line of a booking request. */
  datatype Line = Line(price: Positive, minutes: Positive)

  datatype Booking = Booking(
    customer: nat, status: BookingStatus, pay: BookingPaymentStatus,
    start: int, end: int, total: nat)

  /** Times are minutes on one global axis. */
  datatype Item = Item(booking: nat, staff: nat, start: int, end: int, price: nat, status: ItemStatus)

  datatype Payment = Payment(
    booking: nat, orderId: Option<string>, txId: Option<string>,
    amount: nat, status: TransactionStatus, version: nat)

  /** JavaScript truthiness of an optional string: absent and empty are both false. */
  predicate HasText(s: Option<string>) {
    s.Some? && s.value != ""
  }
}
