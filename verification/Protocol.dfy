/** The requests of the booking and payment protocol as step programs over the
    shared tables. One repository call is one step, and between two steps any
    other request may run or the request may stop for good. */
module Protocol {
  import opened Wrappers
  import opened Domain
  import opened Money
  import opened Schedule
  import opened Tables

  /** What a request read of a payment row; the row may have moved on since. */
  datatype PaymentRecord = PaymentRecord(id: nat, row: Payment)

  datatype EventKind = Captured | Failed | Other

  datatype Event = Event(id: string, kind: EventKind, payId: Option<string>, orderId: Option<string>)

  datatype Notice = NoPhone | Queued | DispatchFailed

  /** What a step gets from outside: the order the gateway issues, whether the
      customer can be notified, and the clock in minutes. */
  datatype Env = Env(orderId: string, gatewayUp: bool, notice: Notice, now: int, cancelMinMinutes: int)
  {
    // The gateway never issues an empty order id.
    predicate Ok() {
      orderId != ""
    }
  }

  datatype Intent = Intent(payment: nat, orderId: string, amount: nat, status: TransactionStatus)

  datatype Kind = Paying | Capturing | Failing | OtherHook | Creating | Cancelling

  datatype Outcome = Returned | Duplicate | Offered(intent: Intent) | Booked(booking: nat) | Threw(error: Error)

  datatype Request =
    // initiateUpiPayment
    | PayStart(booking: nat, customer: nat)
    | PayFind(booking: nat, total: nat)
    | PayCreate(booking: nat, total: nat)
    | PayOrder(rec: PaymentRecord, total: nat)
    | PayMark(rec: PaymentRecord, orderId: string)
    // handleWebhookEvent
    | HookStart(event: Event)
    | HookFind(event: Event)
    | HookFindTx(event: Event)
    | HookBooking(event: Event, rec: PaymentRecord)
    | HookMark(event: Event, rec: PaymentRecord, customer: nat)
    // markBookingPaid, one constructor per statement, and the confirmation after it
    | PaidBooking(payment: nat, booking: nat, customer: nat, reference: string)
    | PaidItems(payment: nat, booking: nat, reference: string)
    | PaidTimeline(payment: nat, booking: nat, reference: string)
    | Dispatch(payment: nat, booking: nat, reference: string)
    | FailBooking(payment: nat, booking: nat, customer: nat)
    // createBooking
    | CreateCheckSlot(input: CreateInput)
    | CreateCheckCustomer(input: CreateInput)
    | CreateInsert(input: CreateInput)
    // cancelBooking
    | CancelStart(booking: nat, customer: nat)
    | CancelWrite(booking: nat, customer: nat)
    | Finished(kind: Kind, outcome: Outcome)

  predicate Initial(req: Request) {
    req.PayStart? || req.HookStart? || req.CreateCheckSlot? || req.CancelStart?
  }

  function HookKind(event: Event): Kind {
    match event.kind
    case Captured => Capturing
    case Failed => Failing
    case Other => OtherHook
  }

  function BuildIntent(rec: PaymentRecord): Intent {
    Intent(rec.id, if rec.row.orderId.Some? then rec.row.orderId.value else "",
           ToNumber(rec.row.amount), rec.row.status)
  }

  function Step(db: Db, req: Request, env: Env): (Db, Request) {
    match req
    case PayStart(_, _) => StepPay(db, req, env)
    case PayFind(_, _) => StepPay(db, req, env)
    case PayCreate(_, _) => StepPay(db, req, env)
    case PayOrder(_, _) => StepPay(db, req, env)
    case PayMark(_, _) => StepPay(db, req, env)
    case HookStart(_) => StepHook(db, req)
    case HookFind(_) => StepHook(db, req)
    case HookFindTx(_) => StepHook(db, req)
    case HookBooking(_, _) => StepHook(db, req)
    case HookMark(event, rec, customer) =>
      if event.kind.Captured? then StepSuccess(db, event, rec, customer) else StepFailure(db, event, rec, customer)
    case PaidBooking(_, _, _, _) => StepPaid(db, req, env)
    case PaidItems(_, _, _) => StepPaid(db, req, env)
    case PaidTimeline(_, _, _) => StepPaid(db, req, env)
    case Dispatch(_, _, _) => StepPaid(db, req, env)
    case FailBooking(_, _, _) => StepPaid(db, req, env)
    case CreateCheckSlot(_) => StepCreate(db, req)
    case CreateCheckCustomer(_) => StepCreate(db, req)
    case CreateInsert(_) => StepCreate(db, req)
    case CancelStart(_, _) => StepCancel(db, req, env)
    case CancelWrite(_, _) => StepCancel(db, req, env)
    case Finished(_, _) => (db, req)
  }

  predicate IsPay(req: Request) {
    req.PayStart? || req.PayFind? || req.PayCreate? || req.PayOrder? || req.PayMark?
  }

  function StepPay(db: Db, req: Request, env: Env): (Db, Request)
    requires IsPay(req)
  {
    match req
    case PayStart(booking, customer) =>
      if !Owned(db.bookings, booking, customer) then (db, Finished(Paying, Threw(BookingNotFound)))
      else
        var row := db.bookings[booking];
        if row.pay.Paid? then (db, Finished(Paying, Threw(AlreadyPaid)))
        else if (!row.status.Pending? || !row.pay.Pending?) && !row.pay.Failed? then
          (db, Finished(Paying, Threw(BookingNotPayable)))
        else (db, PayFind(booking, row.total))
    case PayFind(booking, total) =>
      (match FindActive(db.payments, booking)
       case Some(id) =>
         var rec := PaymentRecord(id, db.payments[id]);
         if HasText(rec.row.orderId) then (db, Finished(Paying, Offered(BuildIntent(rec))))
         else (db, PayOrder(rec, total))
       case None => (db, PayCreate(booking, total)))
    case PayCreate(booking, total) =>
      (match CreatePending(db.payments, booking, total)
       case Err(e) => (db, Finished(Paying, Threw(e)))
       case Ok(ps) =>
         (db.(payments := ps),
          PayOrder(PaymentRecord(|db.payments|,
                                 Payment(booking, None, None, total, TransactionStatus.Pending, 1)), total)))
    case PayOrder(rec, total) =>
      if !env.gatewayUp then (db, Finished(Paying, Threw(GatewayUnavailable)))
      else
        (db.(orders := db.orders + [GatewayOrder(env.orderId, rec.row.booking, ToNumber(total))]),
         PayMark(rec, env.orderId))
    case PayMark(rec, orderId) =>
      if !CanTransition(rec.row.status, TransactionStatus.Processing) then
        (db, Finished(Paying, Threw(IllegalTransition(rec.row.status, TransactionStatus.Processing))))
      else
        match MarkProcessing(db.payments, rec.id, orderId, rec.row.version)
        case Err(e) => (db, Finished(Paying, Threw(e)))
        case Ok(ps) =>
          (db.(payments := ps), Finished(Paying, Offered(BuildIntent(PaymentRecord(rec.id, ps[rec.id])))))
  }

  predicate IsHook(req: Request) {
    req.HookStart? || req.HookFind? || req.HookFindTx? || req.HookBooking?
  }

  function StepHook(db: Db, req: Request): (Db, Request)
    requires IsHook(req)
  {
    match req
    case HookStart(event) =>
      if event.id in db.events then (db, Finished(HookKind(event), Duplicate))
      else
        (db.(events := db.events + {event.id}),
         if event.kind.Other? then Finished(OtherHook, Returned) else HookFind(event))
    case HookFind(event) =>
      if event.kind.Captured? && !HasText(event.payId) then (db, Finished(Capturing, Returned))
      else if !HasText(event.orderId) && !HasText(event.payId) then (db, Finished(HookKind(event), Returned))
      else
        var hit := if HasText(event.orderId) then FindByOrder(db.payments, event.orderId.value) else None;
        (match hit
         case Some(id) => (db, HookBooking(event, PaymentRecord(id, db.payments[id])))
         case None => (db, HookFindTx(event)))
    case HookFindTx(event) =>
      var hit := if HasText(event.payId) then FindByTransaction(db.payments, event.payId.value) else None;
      (match hit
       case Some(id) => (db, HookBooking(event, PaymentRecord(id, db.payments[id])))
       case None => (db, Finished(HookKind(event), Returned)))
    case HookBooking(event, rec) =>
      if rec.row.booking < |db.bookings| then
        (db, HookMark(event, rec, db.bookings[rec.row.booking].customer))
      else (db, Finished(HookKind(event), Returned))
  }

  /** transitionToSuccess up to the payment row. */
  function StepSuccess(db: Db, event: Event, rec: PaymentRecord, customer: nat): (Db, Request) {
    var txId := if event.payId.Some? then event.payId.value else "";
    if rec.row.status.Success? then (db, Finished(Capturing, Returned))
    else if !CanTransition(rec.row.status, TransactionStatus.Success) then
      (db, Finished(Capturing, Threw(IllegalTransition(rec.row.status, TransactionStatus.Success))))
    else
      match MarkSuccess(db.payments, rec.id, txId, rec.row.version)
      case Err(e) => (db, Finished(Capturing, Threw(e)))
      case Ok(ps) =>
        (db.(payments := ps), PaidBooking(rec.id, rec.row.booking, customer, txId))
  }

  /** transitionToFailed up to the payment row. */
  function StepFailure(db: Db, event: Event, rec: PaymentRecord, customer: nat): (Db, Request) {
    if rec.row.status.Failed? || rec.row.status.Success? then (db, Finished(HookKind(event), Returned))
    else if !CanTransition(rec.row.status, TransactionStatus.Failed) then
      (db, Finished(HookKind(event), Threw(IllegalTransition(rec.row.status, TransactionStatus.Failed))))
    else
      match MarkFailed(db.payments, rec.id, rec.row.version)
      case Err(e) => (db, Finished(HookKind(event), Threw(e)))
      case Ok(ps) => (db.(payments := ps), FailBooking(rec.id, rec.row.booking, customer))
  }

  predicate IsPaid(req: Request) {
    req.PaidBooking? || req.PaidItems? || req.PaidTimeline? || req.Dispatch? || req.FailBooking?
  }

  function StepPaid(db: Db, req: Request, env: Env): (Db, Request)
    requires IsPaid(req)
  {
    match req
    case PaidBooking(payment, booking, customer, reference) =>
      if !Owned(db.bookings, booking, customer) then (db, Finished(Capturing, Threw(BookingNotFound)))
      else if db.bookings[booking].pay.Paid? then (db, Dispatch(payment, booking, reference))
      else (db.(bookings := BookingPaid(db.bookings, booking)), PaidItems(payment, booking, reference))
    case PaidItems(payment, booking, reference) =>
      (match UpdateItems(db.items, booking, ItemStatus.Confirmed)
       case None => (db, Finished(Capturing, Threw(ExclusionViolation)))
       case Some(items) => (db.(items := items), PaidTimeline(payment, booking, reference)))
    case PaidTimeline(payment, booking, reference) =>
      (db.(timeline := db.timeline + [TimelineEntry(booking, TimelineEvent.Confirmed)]),
       Dispatch(payment, booking, reference))
    case Dispatch(payment, booking, reference) =>
      // A failed dispatch is swallowed; the payment stays captured.
      (if env.notice.Queued? then
         db.(confirmations := db.confirmations + [Confirmation(payment, booking, reference)])
       else db,
       Finished(Capturing, Returned))
    case FailBooking(_, booking, customer) =>
      if !Owned(db.bookings, booking, customer) then (db, Finished(Failing, Threw(BookingNotFound)))
      else if db.bookings[booking].pay.Paid? then (db, Finished(Failing, Returned))
      else (db.(bookings := BookingPaymentFailed(db.bookings, booking)), Finished(Failing, Returned))
  }

  predicate IsCreate(req: Request) {
    req.CreateCheckSlot? || req.CreateCheckCustomer? || req.CreateInsert?
  }

  function StepCreate(db: Db, req: Request): (Db, Request)
    requires IsCreate(req)
  {
    match req
    case CreateCheckSlot(input) =>
      if input.lines == [] then (db, Finished(Creating, Threw(VariantNotFound)))
      else if SlotTaken(db.items, input.staff, input.start, input.End()) then
        (db, Finished(Creating, Threw(SlotAlreadyBooked(false))))
      else (db, CreateCheckCustomer(input))
    case CreateCheckCustomer(input) =>
      if DoubleBooked(db, input.customer, input.start, input.End()) then
        (db, Finished(Creating, Threw(DoubleBooking)))
      else (db, CreateInsert(input))
    case CreateInsert(input) =>
      match CreateBooking(db, input)
      case Err(e) => (db, Finished(Creating, Threw(e)))
      case Ok(db') => (db', Finished(Creating, Booked(|db.bookings|)))
  }

  predicate IsCancel(req: Request) {
    req.CancelStart? || req.CancelWrite?
  }

  function StepCancel(db: Db, req: Request, env: Env): (Db, Request)
    requires IsCancel(req)
  {
    match req
    case CancelStart(booking, customer) =>
      if !Owned(db.bookings, booking, customer) then (db, Finished(Cancelling, Threw(BookingNotFound)))
      else
        var row := db.bookings[booking];
        if row.status.Cancelled? || row.status.NoShow? then (db, Finished(Cancelling, Threw(AlreadyCancelled)))
        else if row.start - env.now < env.cancelMinMinutes then (db, Finished(Cancelling, Threw(CancelWindowClosed)))
        else (db, CancelWrite(booking, customer))
    case CancelWrite(booking, customer) =>
      match CancelBooking(db, booking, customer)
      case Err(e) => (db, Finished(Cancelling, Threw(e)))
      case Ok(db') => (db', Finished(Cancelling, Returned))
  }

  // -------------------------------------------------------------------------
  // Interleaved runs
  // -------------------------------------------------------------------------

  /** The tables and every request that has started, at the step it has reached. */
  datatype World = World(db: Db, reqs: map<nat, Request>)

  const START := World(EMPTY_DB, map[])

  ghost predicate Spawns(w: World, w': World, r: nat, req: Request) {
    r !in w.reqs && Initial(req) && w' == w.(reqs := w.reqs[r := req])
  }

  ghost predicate Advances(w: World, w': World, r: nat, env: Env) {
    && r in w.reqs && env.Ok()
    && var (db, req) := Step(w.db, w.reqs[r], env);
       w' == World(db, w.reqs[r := req])
  }

  ghost predicate Next(w: World, w': World) {
    || (exists r, req :: Spawns(w, w', r, req))
    || (exists r, env :: Advances(w, w', r, env))
  }

  ghost predicate StepAt(run: seq<World>, i: nat)
    requires i + 1 < |run|
  {
    Next(run[i], run[i + 1])
  }

  /** A run: the worlds passed through, from the empty tables, under any interleaving. */
  ghost predicate IsRun(run: seq<World>) {
    && |run| > 0 && run[0] == START
    && forall i :: 0 <= i < |run| - 1 ==> StepAt(run, i)
  }
}
