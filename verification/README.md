# Booking, payment, messaging and auth protocols: a verified model

The backend keeps a few protocols correct with shared rows, database constraints, version
columns and short-lived keys. This project models those protocols in Dafny and proves what
they keep over every run.

| module | what it models |
|---|---|
| `Domain`, `Tables` | rows, enumerations, the constraints of the payment table, and each repository statement as a function from tables to tables |
| `Money` | paise-to-rupee rounding and the conversion of a bigint amount to a double |
| `Schedule` | the staff exclusion constraint, the check before a booking, the layout of items, and multi-row updates under the constraint |
| `Protocol` | pay requests, gateway events, creates and cancels as step programs; worlds of any number of requests in flight, any of which may stop for good |
| `Invariants`, `ProtocolSafety`, `Captures` | what every reachable world satisfies, what never changes back, and captured payments against paid bookings |
| `Serial`, `Delivery`, `Outcomes` | requests run one at a time; serial delivery of gateway events; what each uninterrupted request achieves on the tables it finds |
| `Customers` | whether a customer can be in two places at once |
| `Witnesses` | runs from the empty tables that reach the states a maintainer may not expect |
| `Backend` | the services and repositories as classes that update the tables; each call is proved equal to its step program run alone |
| `Slots` | slot generation, ids and labels, and the filter that hides booked slots |
| `MessageLog`, `LateThrows`, `OverlappingAttempts` | the delivery log, its retrying worker and its webhooks, alone and interleaved; the same when a committed write may throw, and when attempts on one log may overlap |
| `Otp`, `OtpLimits`, `OtpCodes`, `OtpService` | the fixed-window limiter, OTP sessions and the attempt counter; when a code is sent, how many are in any interval for a contact, an address and a device, and what a code is good for; calls run one at a time |
| `OtpRaces`, `OtpGuesses`, `OtpStaleCopies`, `OtpAlone` | checks and resends of codes interleaved one store command at a time: when a code is in force and accepted, how many wrong guesses it can see without and with overlap, and what calls left alone do |
| `Sessions`, `Blocklist` | refresh-token rotation with its purge, calls run one at a time, and the access-token blocklist |
| `RefreshRaces` | refreshes, logouts, logins and purges interleaved one repository call at a time |
| `Claims`, `Whatsapp` | set-if-absent claims with a lifetime, and the webhook consumer that takes one before every handler |

## How the source is read

- One repository method is one atomic step, except `markBookingPaid`, which is three
  statements. `markSuccess` and `markFailed` (find by version, then save) are atomic, and so
  are the read and the update of the booking adapter. If the read and the update of
  `markBookingPaymentFailed` were split, a capture in between could be undone.
- Every write of a payment row raises its version by one.
- Tables only grow; a row's id is its position. Gateway order ids are never empty. They need
  not be fresh: the unique index turns a repeated one into a refused write. Catalogue prices and
  durations are positive (a CHECK constraint of the catalogue tables).
- The gateway's answer, the clock and the outcome of dispatching a message are parameters of
  a step.
- `MessageLog` makes two assumptions about the worker: a log has at most one attempt under way
  at a time, and a write that throws has not committed. `OverlappingAttempts` drops the first and
  `LateThrows` the second, and each says exactly what is lost (`ReadCanBeLostIff`, `ReadLeftIff`).
- `Sessions`, `Otp`, `OtpLimits`, `OtpCodes` and `OtpService` run whole service calls one at a time.
  `RefreshRaces` and `OtpRaces` interleave them, and show that a call left alone does there
  what it does here (`RefreshRaces.CallIsMoves`, `RefreshRaces.RunIsMoves`,
  `OtpAlone.CheckIsMoves`, `OtpAlone.ResendIsMoves`), so results about whole calls are the case without overlap.
- In `OtpRaces` every Redis command on a session is one move: counting an attempt is a GET and
  then an unconditional SET of the copy read, and so is storing a resent code. The TTL read in
  between only sets the new lifetime; expiry is a move that may come at any time. A check that
  stopped for good after its comparison counts as under way. The increment of a rate counter and
  its expiry are one step.
- A Redis key is gone at the millisecond its expiry is reached. For the blocklist nothing is
  assumed at or after the expiry of a key; the `exp` check (section 4.1.4 of RFC 7519) takes
  over there.
- Addresses and device ids are what trimming leaves of them; an empty one counts as absent.
- Hashing of tokens is injective on the tokens in play, so rows are keyed by token.

## Where the code differs from what is said of it

- The comment on WhatsApp statuses names the claim `status:{id}`; the code claims
  `status:{id}:{status}`. The code is followed. Two different events share such a key exactly
  when their parts shift across a colon (`SameKeyIff`, for instance `ColonsCollide`), which
  cannot happen where ids, or else status and event texts, hold none (`NoColonNoCollision`).
- The session purge is unobservable only when the retention is not negative
  (`PurgeDropsOnlyDeadIff`); a negative one rejects usable tokens (`NegativeRetentionIsVisible`).
- The slot filter only sees items that lie wholly inside the day, so it disagrees with the booking
  check exactly on slots covered by an item across midnight (`OfferedSlotRefusedIff`,
  `MidnightCrossingIsMissed`), and never on a day that no item crosses (`OfferedIffBookable`).
- A cancelled booking whose last payment failed can still be paid (`PayableIffChecked`, reached
  in `CancelledButPayableReached`), and its capture re-activates it.
- A capture for a payment that has failed throws an illegal transition, and only then
  (`OtherEventsOutcome`, reached in `FailedThenCapturedReached`).
- A capture whose time was rebooked leaves the booking paid and confirmed with its items
  untouched: the refused second statement does not undo the first (`ReactivationAllOrNothing`,
  reached in `RebookedCaptureReached`).
- A booking can have a captured payment without being paid exactly while a request stands
  between the two writes, where it may stop for good (`CapturedIffPaidOrUnderway`). It can have
  two captured payments, exactly when the later one was inserted after the earlier one was
  captured (`BothCapturedIff`, reached in `TwoCapturesReached`).
- A verify limit below one still lets one wrong guess be compared, so the bound on guesses uses
  the larger of the limit and one (`GuessCap`).
- A refresh token is not single-use when refreshes overlap: a second refresh is accepted exactly
  when its check ran before the first spend of the token (`AcceptedIffCheckedBeforeSpend`, reached
  in `OverlappingRefreshesFork`), and only then does a login come to have two usable tokens
  (`OneUsableTokenUnlessForked`, `ForkReachesTwoTokens`).
- A logout from all devices lets a token through without a new login exactly when a refresh of
  that user stood between its check and its create (`LogoutAllLeaksIff`).
- A right guess is accepted exactly when its read found the code in force: not taken away since
  it was stored, or written back by a stale copy after the last time it was
  (`AcceptedIffKeptOrRestored`). So a code is accepted twice by checks that overlap
  (`CodeAcceptedTwice`), and also by a check that starts after the session was deleted, when a wrong
  check straddles the delete and brings the session back (`AcceptedAfterDelete`).
- The limit on wrong guesses holds exactly without overlap: with at most one wrong check of a session
  under way a code sees at most the limit, and with two it can see any number, since a stale copy
  written back undoes both the count and the delete (`MostWrongGuessesIff`).
- A delivery log leaves `read` exactly by the failure write of a worker whose sent write
  committed and then threw (`ReadLeftIff`, reached in `LateThrowUndoesRead`), or, where attempts may
  overlap, by the write of one that began before another one sent (`ReadCanBeLostIff`, reached in
  `SecondAttemptUndoesRead`).
- A customer can come to have two live bookings at one time, by two overlapping creates or by a late
  capture of a cancelled booking (`OverlappingCreatesReached`, `LateCaptureClashReached`), and in serial
  runs only by the latter (`SerialCustomersFree`).
- A webhook's status is lower-cased as ASCII; no other character lower-cases to a letter of the three
  words it is compared with.
- The result of the rank-guarded UPDATE is taken to be the matched rows, as its declared type says.

## Model

| member | source | states |
|---|---|---|
| `ProtocolSafety.PaymentRowsFollowTheirVersion` | src/infra/persistence/postgres/payments/typeorm-payment.repository.ts:37-130 | in every reachable world a payment is PENDING iff at version 1 iff it has no order id, PROCESSING iff at version 2, terminal iff at version 3, and has a transaction id iff SUCCESS |
| `ProtocolSafety.PaymentHistoryIsOneWay` | src/infra/persistence/postgres/payments/typeorm-payment.repository.ts:75-130 | between any two points of a run the order id is written once, SUCCESS and FAILED rows never change, versions only rise and a row with the same version is the same row |
| `ProtocolSafety.PaymentMovesAtMostTwice` | src/infra/persistence/postgres/payments/typeorm-payment.repository.ts:75-130 | however many requests hold stale snapshots, a payment row changes at most twice over any stretch of a run |
| `ProtocolSafety.StaleSnapshotConflicts` | src/infra/persistence/postgres/payments/typeorm-payment.repository.ts:75-130 | in every run a request whose snapshot the payment row has moved on from writes nothing, and a transition due on it is a version conflict |
| `ProtocolSafety.PaymentsNeverClash` | db/migrations/V15__razorpay_payment_processing.sql:11-18 | at most one payment of a booking is in flight, and no two payments share an order id or a transaction id |
| `ProtocolSafety.StaffNeverDoubleBooked` | db/migrations/V14__booking_items_exclude_overlap.sql:12-18 | in every interleaving of creates, cancels and captures no two active items of one staff member overlap |
| `ProtocolSafety.ReactivationAllOrNothing` | src/infra/persistence/postgres/payments/typeorm-booking-payment.adapter.ts:57-79 | a capture's item update is refused exactly when the booking's time belongs to another booking, and then changes nothing; otherwise it confirms every item of the booking |
| `ProtocolSafety.BookingStatusesAreEarned` | src/infra/persistence/postgres/payments/typeorm-booking-payment.adapter.ts:57-90 | PAID has a SUCCESS payment, a failed booking has a FAILED one, CONFIRMED implies PAID, PAID implies CONFIRMED unless the booking was cancelled, one created entry, at most one confirmed entry and only if PAID, and a cancelled booking has a cancelled entry |
| `ProtocolSafety.BookingTimeIsItsItems` | src/modules/bookings/bookings.service.ts:245-259 | in every reachable world the items of a booking lie end to end over the time stored with it: the first starts at its start and the last ends at its end |
| `ProtocolSafety.PaidIsNeverUndone` | src/infra/persistence/postgres/payments/typeorm-booking-payment.adapter.ts:81-90 | a booking that is PAID at one point of a run is PAID at every later one |
| `ProtocolSafety.OneConfirmationPerPayment` | src/modules/payments/payment-state-machine.service.ts:37-86 | at most one confirmation is dispatched per payment, only for a SUCCESS one, with that payment's booking and transaction id |
| `ProtocolSafety.IllegalTransitionsReached` | src/modules/payments/domain/payment-transitions.ts:3-20 | over all reachable worlds the only illegal transition anyone attempts is FAILED to SUCCESS, in the captured handler |
| `ProtocolSafety.IntentsStayValid` | src/modules/payments/payments.service.ts:180-194 | an intent handed out names a non-empty order that stays attached to its payment forever, for that payment's amount as a double |
| `ProtocolSafety.AmountsAgree` | src/modules/payments/payments.service.ts:73-90 | a payment's amount is its booking's total and the sum of its item prices; its gateway order asks for that amount as a double, exactly so up to 2^53 |
| `ProtocolSafety.RefusedInsertHasCause` | src/infra/persistence/postgres/bookings/typeorm-booking.repository.ts:131-207 | if a create passed the check and its insert hits the constraint, an item in its window became active in between |
| `ProtocolSafety.UninterruptedCreateNotRefused` | src/infra/persistence/postgres/bookings/typeorm-booking.repository.ts:131-207 | in every reachable world the insert goes through exactly when the check passes there |
| `ProtocolSafety.StepKeeps` | src/modules/payments/payments.service.ts:47-178 | one step of any request keeps the table invariant, what the request knows, and touches only logs it holds exclusively |
| `ProtocolSafety.RunKeepsInvariant` | src/modules/payments/payment-state-machine.service.ts:29-105 | every world of every run satisfies the invariant on tables, in-flight knowledge and exclusive holds |
| `ProtocolSafety.RunEvolves` | src/infra/persistence/postgres/payments/typeorm-payment.repository.ts:37-130 | along a run tables only grow, items change nothing but status, bookings nothing but status and payment status, logs are extended at the end |
| `Captures.CapturedIffPaidOrUnderway` | src/modules/payments/payment-state-machine.service.ts:37-58 | in every interleaved run a booking has a SUCCESS payment iff it is PAID or some request stands between the payment row and the booking row |
| `Captures.BothCapturedIff` | src/infra/persistence/postgres/payments/typeorm-payment.repository.ts:37-113 | of two payments of one booking both are SUCCESS iff the later one is and the earlier one was when the later one was inserted |
| `Captures.InsertedAt` | src/infra/persistence/postgres/payments/typeorm-payment.repository.ts:37-52 | every payment row was inserted by one step of the run |
| `Witnesses.RebookedCaptureReached` | src/infra/persistence/postgres/payments/typeorm-booking-payment.adapter.ts:57-79 | a run in which a booking is cancelled, rebooked and captured ends with it PAID and CONFIRMED, its item inactive and the capture refused |
| `Witnesses.FailedThenCapturedReached` | src/modules/payments/domain/payment-transitions.ts:3-20 | a run in which a failed and then a captured event reach the transition FAILED to SUCCESS |
| `Witnesses.CancelledButPayableReached` | src/modules/payments/payments.service.ts:47-90 | a run in which a cancelled booking with a failed payment is offered a new order |
| `Witnesses.TwoCapturesReached` | src/modules/payments/payment-state-machine.service.ts:37-58 | a run in which one booking gets two SUCCESS payments |
| `Customers.SerialCustomersFree` | src/infra/persistence/postgres/bookings/typeorm-booking.repository.ts:144-156 | in every serial run in which no capture revives a cancelled booking, no customer has two live bookings whose items overlap |
| `Witnesses.OverlappingCreatesReached` | src/infra/persistence/postgres/bookings/typeorm-booking.repository.ts:144-156 | a run in which two overlapping creates give one customer two live bookings at one time |
| `Witnesses.LateCaptureClashReached` | src/infra/persistence/postgres/payments/typeorm-booking-payment.adapter.ts:57-79 | a run, one request after the other, in which a late capture of a cancelled booking does |
| `Schedule.SlotTakenIffInsertRefused` | src/infra/persistence/postgres/bookings/typeorm-booking.repository.ts:131-207 | the check on the whole window is true exactly when inserting some item of the layout would hit the exclusion constraint |
| `Schedule.InsertAllKeepsNoOverlap` | db/migrations/V14__booking_items_exclude_overlap.sql:12-18 | rows the constraint lets in leave the schedule without overlaps |
| `Schedule.UpdateRowsIsAllOrNothing` | db/migrations/V14__booking_items_exclude_overlap.sql:12-18 | checking updated rows one at a time accepts exactly the updates whose outcome has no overlap and yields that outcome |
| `Schedule.ConfirmRefusedIffRebooked` | src/infra/persistence/postgres/payments/typeorm-booking-payment.adapter.ts:68-72 | confirming the items of a booking is refused exactly when another booking's active item is at the time of one of them |
| `Schedule.CancelNeverRefused` | src/infra/persistence/postgres/bookings/typeorm-booking.repository.ts:385-424 | the item update of a cancel always goes through and cancels all items of the booking and no other |
| `Schedule.ActiveBookingNotRebooked` | db/migrations/V14__booking_items_exclude_overlap.sql:12-18 | while all items of a booking are active its time cannot be rebooked, so only a cancelled one's capture is refused |
| `Schedule.LayItems` | src/modules/bookings/bookings.service.ts:245-259 | the loop that advances the item start yields the specified layout |
| `Schedule.LayoutTilesWindow` | src/modules/bookings/bookings.service.ts:245-259 | the items tile the booked window from its start to its end with no gap |
| `Schedule.LayoutInWindow` | src/modules/bookings/bookings.service.ts:245-259 | item k is pending, carries line k's price and duration, and lies in the window |
| `Schedule.LayoutApart` | src/modules/bookings/bookings.service.ts:245-259 | a later item never starts before an earlier one ends |
| `Serial.DriveKeeps` | src/modules/payments/payments.service.ts:47-178 | a request run alone to its end keeps the invariant |
| `Serial.DriveExtendsRun` | src/modules/payments/payments.service.ts:47-178 | running a request alone is one of the interleaved runs |
| `Serial.SerialRunsSettle` | src/modules/payments/payments.service.ts:47-178 | after any serial run every booking is settled: paid iff captured, captured at most once, nothing in flight once paid |
| `Serial.SerialPaymentsBalance` | src/modules/payments/payments.service.ts:47-178 | in serial runs a booking is PAID iff it has a SUCCESS payment, has at most one, and every payment's amount is the sum of its item prices |
| `Delivery.DeliverOne` | src/modules/payments/payments.service.ts:113-178 | from any tables in order, delivering one event records it and has exactly its intended effect, none if it was recorded before or its payment id is taken |
| `Delivery.DeliverHasEffects` | src/modules/payments/payments.service.ts:113-178 | from any tables in order, a serial list of events has the intended effects one after the other, recorded ones none |
| `Delivery.OnlyFirstEventsMatter` | src/modules/payments/payments.service.ts:113-178 | from any tables in order, any serial list of gateway events ends as if only the first new handled event of each attached order had been delivered, in the same relative order, provided a payment id belongs to one order |
| `Outcomes.CreateBooksIffFree` | src/modules/bookings/bookings.service.ts:216-259 | an uninterrupted create books exactly when it has a line and neither an active item of the staff member nor any item of a live booking of the customer overlaps the window, and otherwise names which of these it is; the booking is stored for its customer, pending and unpaid, from the requested start over the sum of its minutes at the sum of its prices, with its items and one created entry; nothing else changes |
| `Outcomes.CancelFreesItems` | src/modules/bookings/bookings.service.ts:373-421 | an uncontested cancel goes through exactly for the customer's own booking that is not cancelled and starts late enough, and otherwise says which of these fails; it cancels the booking and all its items, logs it, and changes nothing else |
| `Outcomes.CreatedThenCancelledIff` | src/modules/bookings/bookings.service.ts:390-397 | a booking just created can be cancelled by its customer exactly while now plus the minimum is no later than the requested start |
| `Outcomes.PayOffersIff` | src/modules/payments/payments.service.ts:47-90 | an order is offered exactly for a payable booking with an open order or a gateway that issues an unused one; the intent is backed by an open payment of that booking; only payments and gateway orders change |
| `Outcomes.PayOutcome` | src/modules/payments/payments.service.ts:47-90 | the whole effect of a pay request: refused by name without any change, the open order handed out again without any change, or the pending payment, a new one if there is none, ordered: gateway down, order id taken, or the order attached and offered |
| `Outcomes.PayAgainReusesOrder` | src/modules/payments/payments.service.ts:68-71 | asking again hands out the very same intent and changes nothing |
| `Outcomes.PayableIffChecked` | src/modules/payments/payments.service.ts:47-66 | in tables that satisfy the invariant the request passes its checks exactly for the customer's own unpaid booking, a cancelled one only after a failed payment |
| `Outcomes.CaptureOutcome` | src/modules/payments/payment-state-machine.service.ts:37-86 | a capture of an open payment: refused by the unique index if its payment id is taken; else only a note if the booking was paid; paid, items alone and an error if rebooked; otherwise paid, every item confirmed, logged once and noted once |
| `Outcomes.FailureOutcome` | src/modules/payments/payment-state-machine.service.ts:88-105 | a new failed event for an open payment fails it and marks its booking failed unless that is paid, with its status left alone |
| `Outcomes.OtherEventsOutcome` | src/modules/payments/payments.service.ts:113-178 | every other event changes only the record: a duplicate exactly if it was recorded before, the illegal transition exactly if it captures a failed payment, and quiet otherwise, a capture of a captured payment included |
| `Backend.PaymentRepository.Save` | db/migrations/V15__razorpay_payment_processing.sql:11-18 | a write to the payments takes effect iff the unique indexes and the amount check hold afterwards |
| `Backend.PaymentRepository.InsertPending` | src/infra/persistence/postgres/payments/typeorm-payment.repository.ts:37-52 | a PENDING row at version 1 is appended, or a constraint refuses it and nothing changes |
| `Backend.PaymentRepository.MoveToProcessing` | src/infra/persistence/postgres/payments/typeorm-payment.repository.ts:75-92 | the conditional update: version conflict, constraint refusal, or order id, status and version written |
| `Backend.PaymentRepository.MoveToSuccess` | src/infra/persistence/postgres/payments/typeorm-payment.repository.ts:94-113 | version conflict, constraint refusal, or transaction id, status and version written |
| `Backend.PaymentRepository.MoveToFailed` | src/infra/persistence/postgres/payments/typeorm-payment.repository.ts:115-130 | version conflict, constraint refusal, or status and version written |
| `Backend.WebhookEventRepository.TryRecordEvent` | src/infra/persistence/postgres/payments/typeorm-webhook-event.repository.ts:26-45 | true exactly when the event id was not recorded; afterwards it is |
| `Backend.BookingPaymentAdapter.MarkBookingPaid` | src/infra/persistence/postgres/payments/typeorm-booking-payment.adapter.ts:57-79 | the three statements in order, up to the one that is refused, equal the step program from there on; the booking row becomes CONFIRMED and PAID exactly if it is the customer's and was not paid |
| `Backend.BookingPaymentAdapter.MarkBookingPaymentFailed` | src/infra/persistence/postgres/payments/typeorm-booking-payment.adapter.ts:81-90 | equals its step: throws for a foreign booking, leaves a PAID one alone, else marks it failed and touches nothing else of it |
| `Backend.PaymentsService.InitiateUpiPayment` | src/modules/payments/payments.service.ts:47-90 | tables and outcome equal the pay request's step program run alone |
| `Backend.PaymentsService.HandleWebhookEvent` | src/modules/payments/payments.service.ts:113-137 | tables and outcome equal the webhook's step program run alone |
| `Backend.PaymentsService.HandlePayment` | src/modules/payments/payments.service.ts:139-178 | both payment handlers: lookup by order, then by transaction, then the transition |
| `Backend.PaymentsService.TransitionToProcessing` | src/modules/payments/payment-state-machine.service.ts:29-35 | equals the marking step of a pay request |
| `Backend.PaymentsService.TransitionToSuccess` | src/modules/payments/payment-state-machine.service.ts:37-86 | payment row, booking statements and confirmation equal the step program from the marking step on |
| `Backend.PaymentsService.TransitionToFailed` | src/modules/payments/payment-state-machine.service.ts:88-105 | payment row and booking equal the step program from the marking step on |
| `Backend.BookingRepository.InsertBooking` | src/infra/persistence/postgres/bookings/typeorm-booking.repository.ts:158-207 | one transaction: booking, items and timeline entry together, or a refused item rolls all back; the row stored is the request's customer, start, summed minutes and summed prices |
| `Backend.BookingRepository.CancelOne` | src/infra/persistence/postgres/bookings/typeorm-booking.repository.ts:385-424 | one transaction: booking, items and timeline entry together, or nothing |
| `Backend.BookingsService.Create` | src/modules/bookings/bookings.service.ts:163-270 | the first failed lookup refuses with its own error and changes nothing; after that tables and outcome equal the create's step program run alone |
| `Backend.BookingsService.CancelFor` | src/modules/bookings/bookings.service.ts:373-421 | tables and outcome equal the cancel's step program run alone, with its refusals |
| `Money.QuoteTotalNearCreatedTotal` | src/modules/bookings/bookings.service.ts:146-155 | the total rounded line by line and the total rounded once differ by at most floor(n/2) |
| `Money.QuoteDriftIsTight` | src/infra/persistence/postgres/bookings/typeorm-booking.repository.ts:514-519 | the bound is reached for every n, with all lines at 50 paise |
| `Money.WholeRupeePricesAgree` | src/infra/persistence/postgres/bookings/typeorm-booking.repository.ts:514-519 | the totals agree when every price is a multiple of 100 |
| `Money.SpacingFits` | src/modules/payments/payments.service.ts:73 | the spacing is the power of two that leaves an amount 53 bits, and one below 2^53 |
| `Money.ToNumberIsNearest` | src/modules/payments/payments.service.ts:73 | the converted amount is a nearest multiple of the spacing, the even one of two |
| `Money.ToNumberExactIff` | src/modules/payments/payments.service.ts:73 | an amount survives the conversion to a double exactly when it is a multiple of the spacing of doubles there |
| `Money.ToNumberExactRange` | src/modules/payments/payments.service.ts:73 | every amount up to 2^53 survives, and 2^53 + 1 is the first that does not |
| `Slots.SlotIdRoundTrip` | src/infra/persistence/postgres/bookings/typeorm-availability.repository.ts:143-169 | reading an HHmm id back gives the minute it was made for |
| `Slots.SlotLabelRoundTrip` | src/infra/persistence/postgres/bookings/typeorm-availability.repository.ts:171-176 | reading a label on a 12-hour clock gives back the minute of the day it was made for |
| `Slots.GenerateSlots` | src/infra/persistence/postgres/bookings/typeorm-availability.repository.ts:149-169 | the loop yields one slot per whole half hour of the window |
| `Slots.SlotsFillWindow` | src/infra/persistence/postgres/bookings/typeorm-availability.repository.ts:149-169 | slot i exists exactly when it ends inside the window, and it starts i half hours after the opening |
| `Slots.GetTimeSlots` | src/infra/persistence/postgres/bookings/typeorm-availability.repository.ts:64-106 | no hours give no slots; without a specialist all slots; with one those not hidden by the day's items |
| `Slots.OfferedIff` | src/infra/persistence/postgres/bookings/typeorm-availability.repository.ts:64-106 | a slot is offered exactly when no active item of the specialist that lies in the day covers it |
| `Slots.OfferedInOrder` | src/infra/persistence/postgres/bookings/typeorm-availability.repository.ts:64-106 | the offered slots come once each and in the order of the day |
| `Slots.HiddenOnlyIfTaken` | src/infra/persistence/postgres/bookings/typeorm-availability.repository.ts:64-106 | a slot is hidden only if the booking check refuses it, unconditionally |
| `Slots.OfferedIffBookable` | src/infra/persistence/postgres/bookings/typeorm-availability.repository.ts:64-106 | on a 24-hour day no active item crosses, a slot is offered exactly when the booking check accepts it |
| `Slots.OfferedSlotRefusedIff` | src/infra/persistence/postgres/bookings/typeorm-availability.repository.ts:85-106 | an offered slot is refused at booking iff an active item that straddles a bound of the day covers it |
| `Slots.ConsecutiveSlotsAreBookable` | src/infra/persistence/postgres/bookings/typeorm-availability.repository.ts:64-106 | if the ceil(d/30) consecutive slots from s are offered, the booking check accepts d minutes from s |
| `Slots.MidnightCrossingIsMissed` | src/infra/persistence/postgres/bookings/typeorm-availability.repository.ts:80-95 | an item across midnight leaves its slot on offer although booking it is refused |
| `Slots.CreateThenCancel` | src/infra/persistence/postgres/bookings/typeorm-booking.repository.ts:385-424 | cancelling a booking right after creating it leaves its items inactive and all others as they were |
| `Slots.CancelRestoresSlots` | src/infra/persistence/postgres/bookings/typeorm-booking.repository.ts:385-424 | a create followed by its cancel gives back exactly the earlier slot list, on every day |
| `MessageLog.ReceiptsReachMaximum` | src/infra/persistence/postgres/messaging/typeorm-message-log.repository.ts:75-128 | from sent, receipts in any order end in the maximum of what was received |
| `MessageLog.ReceiptOrderIrrelevant` | src/infra/persistence/postgres/messaging/typeorm-message-log.repository.ts:75-128 | two deliveries of the same set of delivered and read receipts end in the same status |
| `MessageLog.FailedIgnoresReceipts` | src/infra/persistence/postgres/messaging/typeorm-message-log.repository.ts:92-128 | no receipt changes a failed row |
| `MessageLog.MessageLogRepository.UpdateIfHigherRank` | src/infra/persistence/postgres/messaging/typeorm-message-log.repository.ts:104-128 | writes status and missing timestamps iff the row's rank is lower |
| `MessageLog.MessageLogRepository.MarkFailedFromWebhook` | src/infra/persistence/postgres/messaging/typeorm-message-log.repository.ts:92-102 | fails a sent or delivered row and leaves any other alone |
| `MessageLog.MessageLogRepository.FindByProviderId` | src/infra/persistence/postgres/messaging/typeorm-message-log.repository.ts:66-69 | a row that carries the id, or none does |
| `MessageLog.DispatchProcessor.Process` | src/modules/messaging/messaging-dispatch.processor.ts:25-52 | skips rows already sent, delivered or read; otherwise sends and stores sent with the provider id and the time, or stores failed with the reason and asks for a retry |
| `MessageLog.Msg91WebhookService.HandleDeliveryStatus` | src/modules/messaging/msg91-webhook.service.ts:41-91 | a payload reaches at most one row, one that carries the first id in it; a first status text that spells delivered, read or failed in any case moves the row there by rank with the times or the reason it gives, and any other text touches nothing |
| `MessageLog.ReceiptSaid` | src/modules/messaging/msg91-webhook.service.ts:25-32 | a payload is read as delivered, read or failed iff its first non-empty text under eventName, status, event_name spells that word in any case; the reason is the first given, or a fixed one |
| `MessageLog.ReceiptRead` | src/modules/messaging/msg91-webhook.service.ts:63-86 | the receipt read from a payload does to a row what the payload says of it |
| `MessageLog.ProviderIdRead` | src/modules/messaging/msg91-webhook.service.ts:16-23 | the id is the first non-empty text under message_uuid, request_id, messageUuid, requestId |
| `MessageLog.AttemptUninterrupted` | src/modules/messaging/messaging-dispatch.processor.ts:25-52 | the interleaved machine's moves of one attempt, run alone, do what the uninterrupted worker does |
| `MessageLog.HookUninterrupted` | src/modules/messaging/msg91-webhook.service.ts:41-91 | the machine's lookup and write of a webhook, run alone, apply one receipt |
| `MessageLog.MoveKeeps` | src/modules/messaging/messaging-dispatch.processor.ts:25-52 | every move keeps the row invariant and the worker invariant, and moves rows only along allowed edges |
| `MessageLog.WorkerWritesAreSafe` | src/infra/persistence/postgres/messaging/typeorm-message-log.repository.ts:71-90 | with one attempt per log at a time, in every interleaving with webhooks a row a worker is about to write is queued or failed |
| `MessageLog.StatusHasItsFields` | src/infra/persistence/postgres/messaging/typeorm-message-log.repository.ts:71-128 | with one attempt per log at a time, a queued row has neither provider id nor times; sent, delivered and read rows have a provider id, delivered and read ones a delivery time; the sent time is there iff the provider id is, the read time iff the status is read |
| `MessageLog.RowsFollowTheEdges` | src/infra/persistence/postgres/messaging/typeorm-message-log.repository.ts:12-18 | with one attempt per log at a time, in any run a row steps from queued only to sent or failed, and from read nowhere |
| `MessageLog.ReadIsForever` | src/infra/persistence/postgres/messaging/typeorm-message-log.repository.ts:81-86 | with one attempt per log at a time, a read row never changes again; delivered and read times are written once |
| `LateThrows.ReadLeftIff` | src/modules/messaging/messaging-dispatch.processor.ts:38-52 | with commits that may throw, a step takes a row out of read iff it is the failure write of a worker whose sent write committed and then threw |
| `LateThrows.LateThrowUndoesRead` | src/modules/messaging/messaging-dispatch.processor.ts:38-52 | a run of the machine in which that happens to a read row |
| `OverlappingAttempts.ReadLostAtStepIff` | src/modules/messaging/messaging-dispatch.processor.ts:25-52 | with any number of attempts per log, a step changes a read row iff it is the write of an attempt on that log |
| `OverlappingAttempts.ReadCanBeLostIff` | src/modules/messaging/messaging-dispatch.processor.ts:25-52 | a read row can still change iff some attempt on its log stands between its read and its write |
| `OverlappingAttempts.SecondAttemptUndoesRead` | src/modules/messaging/messaging-dispatch.processor.ts:25-52 | a run in which the second of two overlapping attempts marks a read row failed |
| `OverlappingAttempts.SameMove` | src/modules/messaging/messaging-dispatch.processor.ts:25-52 | where attempts on a log do not overlap, every move is the same move of the machine with one attempt per log |
| `OtpLimits.CodeSentIff` | src/modules/auth/auth.service.ts:97-133 | a request is sent exactly when the contact's, the address's and the device's windows have room; it is dispatched to its contact and opens a session with its method, code and full lifetime; a refused one changes no session and sends nothing |
| `OtpLimits.ResendSentIff` | src/modules/auth/auth.service.ts:151-175 | a resend needs a live session and room in the windows of the session's contact and method, the address and the device; then the session has the new code, a full lifetime and no attempts used |
| `OtpLimits.CountersAfter` | src/modules/auth/auth.service.ts:384-421 | after a request each bucket's counter is one more with its expiry kept if running, else one expiring after its own limit's window: the contact's always, the address's if the contact had room, the device's if both had, and no other |
| `OtpLimits.SendsPerInterval` | src/infra/persistence/redis/redis-otp.store.ts:85-96 | any half-open interval of k windows of the contact's limit sees at most (k+1) times that limit of codes for one contact |
| `OtpLimits.DeviceSendsPerInterval` | src/modules/auth/auth.service.ts:410-420 | the same for a device, with the device's limit |
| `OtpLimits.AddressSendsPerInterval` | src/modules/auth/auth.service.ts:399-408 | the same for an address in runs of one method, with that method's own window and maximum |
| `OtpLimits.AddressSendsOfMethod` | src/modules/auth/auth.service.ts:399-408 | where both methods share the address's counter, the codes of one method stay within its maximum for every window of the shorter length |
| `OtpLimits.RunKeepsMetered` | src/infra/persistence/redis/redis-otp.store.ts:85-96 | over any run what a bucket let through is at most its maximum for every window that ended and what the running one counts |
| `OtpLimits.WrongGuessesBounded` | src/modules/auth/auth.service.ts:135-195 | with calls one at a time, before time T at most A * ceil(T/W) * M wrong guesses are compared for a contact, over any run of requests, resends and verifications |
| `Otp.RunKeepsGuesses` | src/infra/persistence/redis/redis-otp.store.ts:63-79 | over any run each code has had at most the allowed wrong guesses, a live session counts exactly those of its code, and no two sessions share a code |
| `OtpCodes.CheckOutcome` | src/modules/auth/auth.service.ts:176-195 | a guess is accepted iff it is the code of a live session, which it closes; a wrong one closes the session at the limit and otherwise counts one attempt and keeps the expiry up to rounding; no other session and no counter changes |
| `OtpCodes.SentCodeAcceptedIff` | src/modules/auth/auth.service.ts:176-195 | after a sent request and some wrong guesses the right code is accepted exactly when they have not used up the attempts, within the lifetime less the rounding of each guess |
| `OtpCodes.RightCodeAcceptedIff` | src/infra/persistence/redis/redis-otp.store.ts:63-79 | the same for any live session, whatever attempts it has left |
| `OtpCodes.ExpiredCodeRejected` | src/infra/persistence/redis/redis-otp.store.ts:63-79 | whatever is guessed in between, a code is rejected once its lifetime is over, which a wrong guess stretches by less than a second |
| `OtpCodes.CodeAcceptedOnce` | src/infra/persistence/redis/redis-otp.store.ts:81-83 | with calls one at a time, an accepted code closes its session: no guess for it is accepted until the id is opened again |
| `OtpStaleCopies.MostWrongGuessesIff` | src/infra/persistence/redis/redis-otp.store.ts:63-79 | over all interleavings of store commands, n wrong guesses can be compared with one code iff n is at most the limit or two wrong checks of its session may be under way at once |
| `OtpGuesses.GuessesWithoutOverlap` | src/modules/auth/auth.service.ts:184-193 | with at most one wrong check of a session under way, a code sees at most the limit of wrong guesses, and fewer while it is stored and none is under way |
| `OtpRaces.InForceIff` | src/infra/persistence/redis/redis-otp.store.ts:39-83 | a code is in force iff nothing took it away since it was stored, or a stale copy of it was written back after the last time something did |
| `OtpRaces.AcceptedIffKeptOrRestored` | src/modules/auth/auth.service.ts:176-195 | over all interleavings a right guess is accepted iff at its read the code was kept or restored in that sense |
| `OtpRaces.AcceptedIffReadBeforeLoss` | src/modules/auth/auth.service.ts:176-195 | where no stale copy of the code is written back, a right guess is accepted iff its read ran before the first delete, resend or expiry that took the code away |
| `OtpRaces.AcceptedAfterDelete` | src/infra/persistence/redis/redis-otp.store.ts:63-83 | a run in which a wrong check straddles the delete of an accepted check and a later check of the same code is accepted |
| `OtpRaces.CodeAcceptedTwice` | src/modules/auth/auth.service.ts:176-195 | a run in which two overlapping checks of one code are both accepted |
| `OtpAlone.CheckIsMoves` | src/modules/auth/auth.service.ts:176-195 | a check that nothing interrupts does to the live sessions what the whole call does, with the same answer |
| `OtpAlone.ResendIsMoves` | src/infra/persistence/redis/redis-otp.store.ts:39-61 | the read and the write of a resend that nothing interrupts store what the whole resend stores |
| `OtpService.RedisOtpStore.ConsumeRateLimit` | src/infra/persistence/redis/redis-otp.store.ts:85-96 | counts in the running window or starts one, and allows up to the limit |
| `OtpService.RedisOtpStore.IncrementAttempts` | src/infra/persistence/redis/redis-otp.store.ts:63-79 | zero for a missing session; otherwise one attempt more with the remaining whole seconds kept |
| `OtpService.AuthService.AssertOtpRateLimits` | src/modules/auth/auth.service.ts:384-421 | contact, then address, then device, each counted in its own limit's window; the first one exceeded leaves later ones uncounted |
| `OtpService.AuthService.Request` | src/modules/auth/auth.service.ts:97-133 | the store and reply of requesting a code |
| `OtpService.AuthService.SendAgain` | src/modules/auth/auth.service.ts:151-175 | the store and reply of a resend, which resets attempts and expiry |
| `OtpService.AuthService.Check` | src/modules/auth/auth.service.ts:176-195 | the store and reply of a guess: deleted on success and at the attempt limit |
| `Sessions.PurgesInvisible` | src/infra/persistence/postgres/auth/typeorm-session.repository.ts:47-57 | purges put anywhere into a run of logins, refreshes and logouts change no accept or reject |
| `Sessions.PurgeDropsOnlyDeadIff` | src/infra/persistence/postgres/auth/typeorm-session.repository.ts:47-57 | the purge drops only dead rows exactly when the retention is not negative |
| `Sessions.NegativeRetentionIsVisible` | src/infra/persistence/postgres/auth/typeorm-session.repository.ts:47-57 | for every negative retention a run whose replies the purge changes |
| `Sessions.OneUsableTokenPerLogin` | src/modules/auth/auth.service.ts:265-286 | with calls one at a time each login's chain has at most one usable token |
| `Sessions.TokenSucceedsOnce` | src/modules/auth/auth.service.ts:265-286 | with calls one at a time, after an accepted refresh every later one with the same token is rejected |
| `Sessions.SpentStaysRejected` | src/infra/persistence/postgres/auth/typeorm-session.repository.ts:35-41 | a token that was revoked or purged never becomes usable again |
| `Sessions.LogoutAllHolds` | src/modules/auth/auth.service.ts:288-302 | with calls one at a time, after a logout everywhere no token of the user is usable until a new login |
| `Sessions.LogoutOneHolds` | src/modules/auth/auth.service.ts:288-302 | after a logout with a token that token is never usable again |
| `Sessions.IssuedTokenAcceptedIff` | src/modules/auth/auth.service.ts:265-286 | a token from a login or an accepted refresh is accepted exactly until its lifetime is over and for an active user, whatever other logins, refreshes, logouts and purges happen, unless it was spent |
| `RefreshRaces.CheckPassesIff` | src/modules/auth/auth.service.ts:265-286 | over all interleavings the check of a refresh passes iff its token was issued, no earlier revoke, logout or purge spent it, and it has not expired |
| `RefreshRaces.AcceptedIffCheckedBeforeSpend` | src/modules/auth/auth.service.ts:265-286 | a refresh that runs to its end for an active user is accepted iff its check ran before the first spend of the token |
| `RefreshRaces.AcceptedTwiceOverlap` | src/modules/auth/auth.service.ts:265-286 | an accepted refresh was checked before any other refresh revoked the same token |
| `RefreshRaces.OneUsableTokenUnlessForked` | src/modules/auth/auth.service.ts:265-286 | in any interleaving a login has at most one usable token unless two refreshes with one token both passed their check |
| `RefreshRaces.ForkReachesTwoTokens` | src/modules/auth/auth.service.ts:265-286 | wherever a run has two refreshes with one token past their checks and before their creates, it can go on to two usable tokens of one login |
| `RefreshRaces.OverlappingRefreshesFork` | src/modules/auth/auth.service.ts:265-286 | a run in which two refreshes of one token are accepted and leave two usable tokens of one login |
| `RefreshRaces.LogoutAllLeaksIff` | src/modules/auth/auth.service.ts:265-302 | after a logout everywhere a token of the user can become usable without a login iff a refresh of that user stood between check and create at the logout |
| `RefreshRaces.CallIsMoves` | src/modules/auth/auth.service.ts:265-286 | the moves of an uninterrupted call do what the whole call does and leave nothing under way |
| `RefreshRaces.RunIsMoves` | src/modules/auth/auth.service.ts:265-286 | every run of whole calls is one of the interleaved runs, with nothing under way at its end |
| `Sessions.SessionRepository.RefreshToken` | src/modules/auth/auth.service.ts:265-286 | rows and reply of a refresh run alone: rejected without change, or old token revoked and new one stored |
| `Sessions.SessionRepository.RevokeAllForUser` | src/infra/persistence/postgres/auth/typeorm-session.repository.ts:43-45 | no row appears or goes; every row of the user is revoked and otherwise as it was, and no other row changes |
| `Sessions.SessionRepository.DeleteExpiredAndRevoked` | src/infra/persistence/postgres/auth/typeorm-session.repository.ts:47-57 | deletes exactly the revoked rows and those expired before the cutoff, and counts them |
| `Blocklist.BlockedForGood` | src/infra/auth/jwt-token.service.ts:76-87 | a blocked token is rejected at every later millisecond, with no gap before the expiry check |
| `Blocklist.OthersUnaffected` | src/infra/auth/jwt-token.service.ts:76-87 | blocking tokens rejects no other token |
| `Blocklist.UnblockedAcceptedIff` | src/common/guards/auth.guard.ts:23-48 | a token that is never blocked is accepted exactly until it expires |
| `Blocklist.TokenService.BlockAccessToken` | src/infra/auth/jwt-token.service.ts:76-82 | the token is rejected from then on at every time, no other token's acceptance changes at any time, and the key lasts exactly to the expiry, or is not written for an expired token |
| `Blocklist.TokenService.CanActivate` | src/common/guards/auth.guard.ts:23-48 | accepts exactly unexpired tokens that are not blocked |
| `Claims.AtMostOncePerLifetime` | src/infra/persistence/redis/redis-whatsapp-idempotency.store.ts:19-22 | whatever jobs run, stop midway, retry or interleave, two calls for one key are a day apart |
| `Claims.JobMeaning` | src/modules/whatsapp/whatsapp-webhook.processor.ts:35-137 | a whole job calls exactly its due items in order, and afterwards a key is claimed iff an older claim or a due item covers it, for jobs of any length |
| `Claims.DueIsFirstUnclaimed` | src/modules/whatsapp/whatsapp-webhook.processor.ts:35-137 | in a job within one lifetime the due items are the first occurrences of unclaimed keys |
| `Claims.JobLeavesKeysClaimed` | src/modules/whatsapp/whatsapp-webhook.processor.ts:35-137 | within the lifetime a key of the job is claimed after it iff an older claim still covers it or it was found unclaimed during the job |
| `Claims.RedeliveryIsSilent` | src/modules/whatsapp/whatsapp-webhook.processor.ts:35-137 | a payload delivered again within the lifetime of its claims reaches no handler |
| `Claims.BatchesFlatten` | src/modules/whatsapp/whatsapp-webhook.processor.ts:41-58 | consuming batch by batch equals consuming the flattened list |
| `Claims.JobIsARun` | src/modules/whatsapp/whatsapp-webhook.processor.ts:35-59 | a job is one of the runs that the at-most-once result is about |
| `Whatsapp.WebhookProcessor.TryClaim` | src/infra/persistence/redis/redis-whatsapp-idempotency.store.ts:19-22 | wins exactly when no live claim is there, and then sets one for a lifetime |
| `Whatsapp.WebhookProcessor.ProcessItem` | src/modules/whatsapp/whatsapp-webhook.processor.ts:80-137 | claims the item's key and calls the handler iff the claim was won |
| `Whatsapp.WebhookProcessor.ProcessMessagesChange` | src/modules/whatsapp/whatsapp-webhook.processor.ts:61-73 | consumes all the messages and then all the statuses of a value, whichever of the two it has |
| `Whatsapp.WebhookProcessor.Process` | src/modules/whatsapp/whatsapp-webhook.processor.ts:35-59 | the nested loops consume the items of the payload in order; while time moves forward exactly the due items are called, and a key is claimed afterwards iff an older claim or a due item covers it |
| `Whatsapp.PayloadInOrder` | src/modules/whatsapp/whatsapp-webhook.processor.ts:41-73 | by place in the payload: the items are exactly one for each message and status of every supported messages change and one for each supported template change, with their own id, phone, status or event, in payload order with messages before statuses |
| `Whatsapp.FirstUnclaimedIsCalled` | src/modules/whatsapp/whatsapp-webhook.processor.ts:35-137 | a job of any length calls the handler for the first item of every key that no claim covers when it begins |
| `Whatsapp.CallsAreForPayload` | src/modules/whatsapp/whatsapp-webhook.processor.ts:35-137 | a job calls the handler for nothing but items of its payload |
| `Whatsapp.SameKeyIff` | src/modules/whatsapp/whatsapp-webhook.processor.ts:80-137 | two events share a key iff they are the same message, or two statuses or two template events with the same parts or with parts that shift across a colon |
| `Whatsapp.NoColonNoCollision` | src/modules/whatsapp/whatsapp-webhook.processor.ts:105-125 | where ids, or else status and event texts, hold no colon, only equal parts make equal keys |
| `Whatsapp.KindsApart` | src/modules/whatsapp/whatsapp-webhook.processor.ts:80-137 | events of different kinds never share a key |
| `Whatsapp.ColonsCollide` | src/modules/whatsapp/whatsapp-webhook.processor.ts:105-107 | with a colon in an id two different statuses share one key |

## Left out

- Controllers, DTO validation, configuration, guards other than the token check, filters and health checks: wiring.
- Discovery, shops, users, reviews and ratings: queries and field mapping.
- Resolving packages and services to lines; the results of the lookups before it are parameters of a create.
- Reminders and the cancellation message: they write none of the modelled tables but their own.
- The read-only payment status query, refunds, settlements and reschedules.
- JavaScript `Date`, `Intl` and time zones, and the list of available dates, which mixes local and UTC days: times are integer minutes or milliseconds.
- The double that `Math.round(x / 100)` divides in: rounding is modelled on integers.
- HTTP, e-mail, SMS and gateway clients, signature checks, JWT signing and hashing: their answers are parameters.
- Social login and user creation: branching over unseen unique indexes.
- At most one SUCCESS payment of a booking under interleaving, which is false: see `Captures.BothCapturedIff` and `Witnesses.TwoCapturesReached`; it is proved for serial runs.
- A customer is never double-booked, as an invariant of interleaved runs, which is false: see `Witnesses.OverlappingCreatesReached`; it is proved for serial runs without a reviving capture (`Customers.SerialCustomersFree`).
- Delivery.OnlyFirstEventsMatter: assumes a gateway payment id belongs to one order; without that a capture can be refused and leave its order open for a later event (`Delivery.DeliverOne` covers that case).
- OtpLimits.WrongGuessesBounded: calls run one at a time; `OtpStaleCopies.MostWrongGuessesIff` says exactly when the bound for one code survives overlap.
- OtpCodes.CodeAcceptedOnce: calls run one at a time; `OtpRaces.AcceptedIffKeptOrRestored` is the exact statement under overlap.
- MessageLog.WorkerWritesAreSafe: one attempt per log at a time; `OverlappingAttempts.ReadCanBeLostIff` is the exact statement without that.
- MessageLog.StatusHasItsFields: one attempt per log at a time, as above.
- MessageLog.RowsFollowTheEdges: one attempt per log at a time, as above.
- MessageLog.ReadIsForever: one attempt per log at a time, as above.
- Sessions.TokenSucceedsOnce: calls run one at a time; `RefreshRaces.AcceptedIffCheckedBeforeSpend` is the exact statement under overlap.
- Sessions.LogoutAllHolds: calls run one at a time; `RefreshRaces.LogoutAllLeaksIff` is the exact statement under overlap.
- Sessions.SessionRepository.RefreshToken: one call run alone; `RefreshRaces` takes its four repository calls apart.
- Backend.BookingsService.Create: the lookups before the lines are given as results, not looked up.
- Backend.BookingsService.CancelFor: does not remove the reminder or send the cancellation message, which come after the cancel is committed.
- Slots.GetTimeSlots: the opening hours of the weekday and the day's bounds are given, not looked up or computed from a date.
- Normalising phone numbers and e-mail addresses, masking, pagination.
