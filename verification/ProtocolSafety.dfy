/** Safety of every interleaved run of the booking and payment protocol. */
module ProtocolSafety {
  import opened Wrappers
  import opened Domain
  import opened Money
  import opened Schedule
  import opened Tables
  import opened Protocol
  import opened Invariants

  // -------------------------------------------------------------------------
  // What a request in flight knows
  // -------------------------------------------------------------------------

  /** A snapshot was once the row: it is the row still, or the row is at a later version. */
  ghost predicate SnapshotOk(db: Db, rec: PaymentRecord) {
    && rec.id < |db.payments| && RowOk(rec.row)
    && RowEvolves(rec.row, db.payments[rec.id])
    && rec.row.booking < |db.bookings|
  }

  ghost predicate CapturedOk(db: Db, payment: nat, booking: nat, reference: string) {
    && payment < |db.payments| && booking < |db.bookings|
    && db.payments[payment].booking == booking && db.payments[payment].txId == Some(reference)
    && db.payments[payment].status.Success?
  }

  ghost predicate OutcomeOk(db: Db, kind: Kind, outcome: Outcome) {
    && (outcome.Offered? ==>
          && kind.Paying? && outcome.intent.payment < |db.payments|
          && outcome.intent.orderId != ""
          && db.payments[outcome.intent.payment].orderId == Some(outcome.intent.orderId)
          && outcome.intent.amount == ToNumber(db.payments[outcome.intent.payment].amount))
    && (outcome.Threw? && outcome.error.IllegalTransition? ==>
          kind.Capturing? && outcome.error.from.Failed? && outcome.error.to.Success?)
    && (outcome.Threw? && outcome.error.BookingNotFound? ==> kind.Paying? || kind.Cancelling?)
    && (outcome.Threw? && outcome.error.ExclusionViolation? ==> kind.Capturing?)
  }

  ghost predicate ReqInv(db: Db, req: Request) {
    match req
    case PayStart(_, _) => true
    case PayFind(booking, total) => booking < |db.bookings| && db.bookings[booking].total == total
    case PayCreate(booking, total) => booking < |db.bookings| && db.bookings[booking].total == total
    case PayOrder(rec, total) => SnapshotOk(db, rec) && rec.row.status.Pending? && total == rec.row.amount
    case PayMark(rec, orderId) =>
      && SnapshotOk(db, rec) && rec.row.status.Pending? && orderId != ""
      && GatewayOrder(orderId, rec.row.booking, ToNumber(rec.row.amount)) in db.orders
    case HookStart(_) => true
    case HookFind(event) => !event.kind.Other?
    case HookFindTx(event) => !event.kind.Other? && (event.kind.Captured? ==> HasText(event.payId))
    case HookBooking(event, rec) =>
      && !event.kind.Other? && (event.kind.Captured? ==> HasText(event.payId))
      && SnapshotOk(db, rec) && !rec.row.status.Pending?
    case HookMark(event, rec, customer) =>
      && !event.kind.Other? && (event.kind.Captured? ==> HasText(event.payId))
      && SnapshotOk(db, rec) && !rec.row.status.Pending?
      && Owned(db.bookings, rec.row.booking, customer)
    case PaidBooking(payment, booking, customer, reference) =>
      CapturedOk(db, payment, booking, reference) && Owned(db.bookings, booking, customer)
    case PaidItems(payment, booking, reference) =>
      CapturedOk(db, payment, booking, reference) && db.bookings[booking].pay.Paid?
    case PaidTimeline(payment, booking, reference) =>
      CapturedOk(db, payment, booking, reference) && db.bookings[booking].pay.Paid?
    case Dispatch(payment, booking, reference) =>
      CapturedOk(db, payment, booking, reference) && db.bookings[booking].pay.Paid?
    case FailBooking(payment, booking, customer) =>
      && payment < |db.payments| && db.payments[payment].booking == booking
      && db.payments[payment].status.Failed? && Owned(db.bookings, booking, customer)
    case CreateCheckSlot(_) => true
    case CreateCheckCustomer(input) => input.lines != []
    case CreateInsert(input) => input.lines != []
    case CancelStart(_, _) => true
    case CancelWrite(booking, customer) => Owned(db.bookings, booking, customer)
    case Finished(kind, outcome) => OutcomeOk(db, kind, outcome)
  }

  /** What a request knows stays true while others run. */
  lemma ReqInvStable(db: Db, db': Db, req: Request)
    requires ReqInv(db, req) && Evolves(db, db')
    ensures ReqInv(db', req)
  {
  }

  /** The payment whose capture a request is carrying out. */
  function HeldPayment(req: Request): Option<nat> {
    match req
    case PaidBooking(payment, _, _, _) => Some(payment)
    case PaidItems(payment, _, _) => Some(payment)
    case PaidTimeline(payment, _, _) => Some(payment)
    case Dispatch(payment, _, _) => Some(payment)
    case _ => None
  }

  /** The booking a request has marked paid and not yet logged as confirmed. */
  function HeldBooking(req: Request): Option<nat> {
    match req
    case PaidItems(_, booking, _) => Some(booking)
    case PaidTimeline(_, booking, _) => Some(booking)
    case _ => None
  }

  ghost predicate HoldingsFresh(db: Db, req: Request) {
    && (HeldPayment(req).Some? ==> CountConfirmations(db.confirmations, HeldPayment(req).value) == 0)
    && (HeldBooking(req).Some? ==> CountEvents(db.timeline, HeldBooking(req).value, TimelineEvent.Confirmed) == 0)
  }

  ghost predicate Knows(db: Db, req: Request) {
    ReqInv(db, req) && HoldingsFresh(db, req)
  }

  // -------------------------------------------------------------------------
  // One step of one request
  // -------------------------------------------------------------------------

  /** A step only logs for what it holds, and only takes hold of what nobody can hold. */
  ghost predicate HoldsRespected(db: Db, req: Request, db': Db, req': Request) {
    && (forall p: nat :: HeldPayment(req) != Some(p) ==>
          CountConfirmations(db'.confirmations, p) == CountConfirmations(db.confirmations, p))
    && (forall b: nat :: HeldBooking(req) != Some(b) ==>
          CountEvents(db'.timeline, b, TimelineEvent.Confirmed) == CountEvents(db.timeline, b, TimelineEvent.Confirmed))
    && (HeldPayment(req').Some? && HeldPayment(req') != HeldPayment(req) ==>
          HeldPayment(req').value < |db.payments| && !db.payments[HeldPayment(req').value].status.Success?)
    && (HeldBooking(req').Some? && HeldBooking(req') != HeldBooking(req) ==>
          HeldBooking(req').value < |db.bookings| && !db.bookings[HeldBooking(req').value].pay.Paid?)
  }

  ghost predicate StepOk(db: Db, req: Request, db': Db, req': Request) {
    && DbInv(db') && ReqInv(db', req') && HoldingsFresh(db', req')
    && Evolves(db, db') && HoldsRespected(db, req, db', req')
  }

  /** A step that only reads. */
  lemma ReadKeeps(db: Db, req: Request, req': Request)
    requires DbInv(db) && ReqInv(db, req') && HeldPayment(req').None? && HeldBooking(req').None?
    ensures StepOk(db, req, db, req')
  {
    EvolvesReflexive(db);
  }

  /** A step that writes neither log. */
  lemma WriteKeeps(db: Db, req: Request, db': Db, req': Request)
    requires DbInv(db') && Evolves(db, db') && ReqInv(db', req')
    requires HeldPayment(req').None? && HeldBooking(req').None?
    requires db'.confirmations == db.confirmations && db'.timeline == db.timeline
    ensures StepOk(db, req, db', req')
  {
  }

  lemma PayFindKeeps(db: Db, req: Request, env: Env)
    requires req.PayFind? && DbInv(db) && ReqInv(db, req)
    ensures var (db', req') := StepPay(db, req, env); StepOk(db, req, db', req')
  {
    var found := FindActive(db.payments, req.booking);
    if found.Some? {
      assert RowOk(db.payments[found.value]);
    }
    ReadKeeps(db, req, StepPay(db, req, env).1);
  }

  lemma PayCreateKeeps(db: Db, req: Request, env: Env)
    requires req.PayCreate? && DbInv(db) && ReqInv(db, req)
    ensures var (db', req') := StepPay(db, req, env); StepOk(db, req, db', req')
  {
    var (db', req') := StepPay(db, req, env);
    if CreatePending(db.payments, req.booking, req.total).Ok? {
      CreatePendingKeeps(db, req.booking);
      WriteKeeps(db, req, db', req');
    } else {
      ReadKeeps(db, req, req');
    }
  }

  lemma PayOrderKeeps(db: Db, req: Request, env: Env)
    requires req.PayOrder? && DbInv(db) && ReqInv(db, req) && env.Ok()
    ensures var (db', req') := StepPay(db, req, env); StepOk(db, req, db', req')
  {
    var (db', req') := StepPay(db, req, env);
    if env.gatewayUp {
      OrderKeeps(db, GatewayOrder(env.orderId, req.rec.row.booking, ToNumber(req.total)));
      WriteKeeps(db, req, db', req');
    } else {
      ReadKeeps(db, req, req');
    }
  }

  lemma PayMarkKeeps(db: Db, req: Request, env: Env)
    requires req.PayMark? && DbInv(db) && ReqInv(db, req)
    ensures var (db', req') := StepPay(db, req, env); StepOk(db, req, db', req')
  {
    var (db', req') := StepPay(db, req, env);
    if MarkProcessing(db.payments, req.rec.id, req.orderId, req.rec.row.version).Ok? {
      MarkProcessingKeeps(db, req.rec.id, req.orderId);
      WriteKeeps(db, req, db', req');
    } else {
      ReadKeeps(db, req, req');
    }
  }

  lemma StepPayKeeps(db: Db, req: Request, env: Env)
    requires IsPay(req) && DbInv(db) && ReqInv(db, req) && env.Ok()
    ensures var (db', req') := StepPay(db, req, env); StepOk(db, req, db', req')
  {
    match req {
      case PayStart(_, _) => ReadKeeps(db, req, StepPay(db, req, env).1);
      case PayFind(_, _) => PayFindKeeps(db, req, env);
      case PayCreate(_, _) => PayCreateKeeps(db, req, env);
      case PayOrder(_, _) => PayOrderKeeps(db, req, env);
      case PayMark(_, _) => PayMarkKeeps(db, req, env);
    }
  }

  lemma FoundSnapshotOk(db: Db, id: nat)
    requires DbInv(db) && id < |db.payments|
    ensures SnapshotOk(db, PaymentRecord(id, db.payments[id]))
    ensures db.payments[id].orderId.Some? || db.payments[id].txId.Some? ==> !db.payments[id].status.Pending?
  {
    assert RowOk(db.payments[id]);
  }

  lemma LookupKeeps(db: Db, req: Request)
    requires (req.HookFind? || req.HookFindTx?) && DbInv(db) && ReqInv(db, req)
    ensures StepHook(db, req).0 == db && StepOk(db, req, db, StepHook(db, req).1)
  {
    var req' := StepHook(db, req).1;
    if req'.HookBooking? {
      FoundSnapshotOk(db, req'.rec.id);
    }
    ReadKeeps(db, req, req');
  }

  lemma StepHookKeeps(db: Db, req: Request)
    requires IsHook(req) && DbInv(db) && ReqInv(db, req)
    ensures var (db', req') := StepHook(db, req); StepOk(db, req, db', req')
  {
    var (db', req') := StepHook(db, req);
    match req {
      case HookStart(event) =>
        EventKeeps(db, event.id);
        if event.id in db.events {
          ReadKeeps(db, req, req');
        } else {
          WriteKeeps(db, req, db', req');
        }
      case HookFind(_) =>
        LookupKeeps(db, req);
      case HookFindTx(_) =>
        LookupKeeps(db, req);
      case HookBooking(_, _) =>
        ReadKeeps(db, req, req');
    }
  }

  lemma MarkSuccessStepKeeps(db: Db, event: Event, rec: PaymentRecord, customer: nat)
    requires DbInv(db) && ReqInv(db, HookMark(event, rec, customer)) && event.kind.Captured?
    requires rec.row.status.Processing? && MarkSuccess(db.payments, rec.id, event.payId.value, rec.row.version).Ok?
    ensures StepOk(db, HookMark(event, rec, customer),
                   db.(payments := MarkSuccess(db.payments, rec.id, event.payId.value, rec.row.version).value),
                   PaidBooking(rec.id, rec.row.booking, customer, event.payId.value))
  {
    assert db.payments[rec.id] == rec.row;
    MarkSuccessKeeps(db, rec.id, event.payId.value);
    NoConfirmationBeforeSuccess(db, rec.id);
  }

  lemma StepSuccessKeeps(db: Db, event: Event, rec: PaymentRecord, customer: nat)
    requires DbInv(db) && ReqInv(db, HookMark(event, rec, customer)) && event.kind.Captured?
    ensures var (db', req') := StepSuccess(db, event, rec, customer);
            StepOk(db, HookMark(event, rec, customer), db', req')
  {
    if rec.row.status.Processing? && MarkSuccess(db.payments, rec.id, event.payId.value, rec.row.version).Ok? {
      MarkSuccessStepKeeps(db, event, rec, customer);
    } else {
      ReadKeeps(db, HookMark(event, rec, customer), StepSuccess(db, event, rec, customer).1);
    }
  }

  lemma NoConfirmationBeforeSuccess(db: Db, payment: nat)
    requires DbInv(db) && payment < |db.payments| && !db.payments[payment].status.Success?
    ensures CountConfirmations(db.confirmations, payment) == 0
  {
    forall i | 0 <= i < |db.confirmations|
      ensures db.confirmations[i].payment != payment
    {
      assert RowOk(db.payments[db.confirmations[i].payment]);
    }
    ConfirmationsAbsent(db.confirmations, payment);
  }

  lemma MarkFailedStepKeeps(db: Db, event: Event, rec: PaymentRecord, customer: nat)
    requires DbInv(db) && ReqInv(db, HookMark(event, rec, customer)) && event.kind.Failed?
    requires rec.row.status.Processing? && MarkFailed(db.payments, rec.id, rec.row.version).Ok?
    ensures StepOk(db, HookMark(event, rec, customer),
                   db.(payments := MarkFailed(db.payments, rec.id, rec.row.version).value),
                   FailBooking(rec.id, rec.row.booking, customer))
  {
    assert db.payments[rec.id] == rec.row;
    MarkFailedKeeps(db, rec.id);
  }

  lemma StepFailureKeeps(db: Db, event: Event, rec: PaymentRecord, customer: nat)
    requires DbInv(db) && ReqInv(db, HookMark(event, rec, customer)) && event.kind.Failed?
    ensures var (db', req') := StepFailure(db, event, rec, customer);
            StepOk(db, HookMark(event, rec, customer), db', req')
  {
    if rec.row.status.Processing? && MarkFailed(db.payments, rec.id, rec.row.version).Ok? {
      MarkFailedStepKeeps(db, event, rec, customer);
    } else {
      ReadKeeps(db, HookMark(event, rec, customer), StepFailure(db, event, rec, customer).1);
    }
  }

  lemma PaidBookingKeeps(db: Db, req: Request, env: Env)
    requires req.PaidBooking? && DbInv(db) && ReqInv(db, req) && HoldingsFresh(db, req)
    ensures var (db', req') := StepPaid(db, req, env); StepOk(db, req, db', req')
  {
    assert BookingInv(db, req.booking);
    assert HasPayment(db.payments, req.booking, TransactionStatus.Success);
    BookingPaidKeeps(db, req.booking);
    EvolvesReflexive(db);
  }

  lemma PaidItemsKeeps(db: Db, req: Request, env: Env)
    requires req.PaidItems? && DbInv(db) && ReqInv(db, req) && HoldingsFresh(db, req)
    ensures var (db', req') := StepPaid(db, req, env); StepOk(db, req, db', req')
  {
    if UpdateItems(db.items, req.booking, ItemStatus.Confirmed).Some? {
      ItemsConfirmedKeeps(db, req.booking);
    } else {
      ReadKeeps(db, req, StepPaid(db, req, env).1);
    }
  }

  lemma PaidTimelineKeeps(db: Db, req: Request, env: Env)
    requires req.PaidTimeline? && DbInv(db) && ReqInv(db, req) && HoldingsFresh(db, req)
    ensures var (db', req') := StepPaid(db, req, env); StepOk(db, req, db', req')
  {
    ConfirmedEntryKeeps(db, req.booking);
    var entry := TimelineEntry(req.booking, TimelineEvent.Confirmed);
    forall b: nat
      ensures CountEvents(db.timeline + [entry], b, TimelineEvent.Confirmed)
           == CountEvents(db.timeline, b, TimelineEvent.Confirmed) + if b == req.booking then 1 else 0
    {
      CountEventsAppend(db.timeline, entry, b, TimelineEvent.Confirmed);
    }
  }

  lemma DispatchKeeps(db: Db, req: Request, env: Env)
    requires req.Dispatch? && DbInv(db) && ReqInv(db, req) && HoldingsFresh(db, req)
    ensures var (db', req') := StepPaid(db, req, env); StepOk(db, req, db', req')
  {
    var c := Confirmation(req.payment, req.booking, req.reference);
    ConfirmationKeeps(db, c);
    forall p: nat
      ensures CountConfirmations(db.confirmations + [c], p)
           == CountConfirmations(db.confirmations, p) + if p == req.payment then 1 else 0
    {
      CountConfirmationsAppend(db.confirmations, c, p);
    }
    EvolvesReflexive(db);
  }

  lemma FailBookingKeeps(db: Db, req: Request, env: Env)
    requires req.FailBooking? && DbInv(db) && ReqInv(db, req)
    ensures var (db', req') := StepPaid(db, req, env); StepOk(db, req, db', req')
  {
    var (db', req') := StepPaid(db, req, env);
    if db.bookings[req.booking].pay.Paid? {
      ReadKeeps(db, req, req');
    } else {
      assert HasPayment(db.payments, req.booking, TransactionStatus.Failed);
      BookingPaymentFailedKeeps(db, req.booking);
      WriteKeeps(db, req, db', req');
    }
  }

  lemma StepPaidKeeps(db: Db, req: Request, env: Env)
    requires IsPaid(req) && DbInv(db) && ReqInv(db, req) && HoldingsFresh(db, req)
    ensures var (db', req') := StepPaid(db, req, env); StepOk(db, req, db', req')
  {
    match req {
      case PaidBooking(_, _, _, _) => PaidBookingKeeps(db, req, env);
      case PaidItems(_, _, _) => PaidItemsKeeps(db, req, env);
      case PaidTimeline(_, _, _) => PaidTimelineKeeps(db, req, env);
      case Dispatch(_, _, _) => DispatchKeeps(db, req, env);
      case FailBooking(_, _, _) => FailBookingKeeps(db, req, env);
    }
  }

  lemma CreateInsertKeeps(db: Db, input: CreateInput)
    requires DbInv(db) && input.lines != [] && CreateBooking(db, input).Ok?
    ensures StepOk(db, CreateInsert(input), CreateBooking(db, input).value, Finished(Creating, Booked(|db.bookings|)))
  {
    CreateBookingKeeps(db, input);
    OtherEntryKeepsConfirmedCount(db.timeline, TimelineEntry(|db.bookings|, TimelineEvent.Created));
  }

  lemma StepCreateKeeps(db: Db, req: Request)
    requires IsCreate(req) && DbInv(db) && ReqInv(db, req)
    ensures var (db', req') := StepCreate(db, req); StepOk(db, req, db', req')
  {
    if req.CreateInsert? && CreateBooking(db, req.input).Ok? {
      CreateInsertKeeps(db, req.input);
    } else {
      ReadKeeps(db, req, StepCreate(db, req).1);
    }
  }

  lemma OtherEntryKeepsConfirmedCount(timeline: seq<TimelineEntry>, entry: TimelineEntry)
    requires !entry.event.Confirmed?
    ensures forall b :: CountEvents(timeline + [entry], b, TimelineEvent.Confirmed)
                     == CountEvents(timeline, b, TimelineEvent.Confirmed)
  {
    forall b
      ensures CountEvents(timeline + [entry], b, TimelineEvent.Confirmed)
           == CountEvents(timeline, b, TimelineEvent.Confirmed)
    {
      CountEventsAppend(timeline, entry, b, TimelineEvent.Confirmed);
    }
  }

  lemma CancelWriteKeeps(db: Db, booking: nat, customer: nat)
    requires DbInv(db) && CancelBooking(db, booking, customer).Ok?
    ensures StepOk(db, CancelWrite(booking, customer), CancelBooking(db, booking, customer).value,
                   Finished(Cancelling, Returned))
  {
    CancelBookingKeeps(db, booking, customer);
    OtherEntryKeepsConfirmedCount(db.timeline, TimelineEntry(booking, TimelineEvent.Cancelled));
  }

  lemma StepCancelKeeps(db: Db, req: Request, env: Env)
    requires IsCancel(req) && DbInv(db) && ReqInv(db, req)
    ensures var (db', req') := StepCancel(db, req, env); StepOk(db, req, db', req')
  {
    if req.CancelWrite? {
      CancelNeverRefused(db.items, req.booking);
      CancelWriteKeeps(db, req.booking, req.customer);
    } else {
      ReadKeeps(db, req, StepCancel(db, req, env).1);
    }
  }

  /** One step of any request keeps the tables in order and everything it knows true. */
  lemma StepKeeps(db: Db, req: Request, env: Env)
    requires DbInv(db) && ReqInv(db, req) && HoldingsFresh(db, req) && env.Ok()
    ensures var (db', req') := Step(db, req, env); StepOk(db, req, db', req')
  {
    if IsPay(req) {
      StepPayKeeps(db, req, env);
    } else if IsHook(req) {
      StepHookKeeps(db, req);
    } else if req.HookMark? {
      if req.event.kind.Captured? {
        StepSuccessKeeps(db, req.event, req.rec, req.customer);
      } else {
        StepFailureKeeps(db, req.event, req.rec, req.customer);
      }
    } else if IsPaid(req) {
      StepPaidKeeps(db, req, env);
    } else if IsCreate(req) {
      StepCreateKeeps(db, req);
    } else if IsCancel(req) {
      StepCancelKeeps(db, req, env);
    }
  }

  // -------------------------------------------------------------------------
  // Every reachable world
  // -------------------------------------------------------------------------

  ghost predicate Exclusive(w: World) {
    forall r, s :: r in w.reqs && s in w.reqs && r != s ==>
      && (HeldPayment(w.reqs[r]).Some? ==> HeldPayment(w.reqs[r]) != HeldPayment(w.reqs[s]))
      && (HeldBooking(w.reqs[r]).Some? ==> HeldBooking(w.reqs[r]) != HeldBooking(w.reqs[s]))
  }

  ghost predicate WorldInv(w: World) {
    && DbInv(w.db) && Exclusive(w)
    && forall r :: r in w.reqs ==> Knows(w.db, w.reqs[r])
  }

  /** What another request knows and holds is untouched by the step. */
  lemma OtherKeeps(db: Db, req: Request, db': Db, req': Request, other: Request)
    requires Evolves(db, db') && HoldsRespected(db, req, db', req')
    requires Knows(db, other)
    requires HeldPayment(other).Some? ==> HeldPayment(other) != HeldPayment(req)
    requires HeldBooking(other).Some? ==> HeldBooking(other) != HeldBooking(req)
    ensures Knows(db', other)
    ensures HeldPayment(other).Some? ==> HeldPayment(other) != HeldPayment(req')
    ensures HeldBooking(other).Some? ==> HeldBooking(other) != HeldBooking(req')
  {
    ReqInvStable(db, db', other);
  }

  lemma AdvanceKeeps(w: World, w': World, r: nat, env: Env)
    requires WorldInv(w) && Advances(w, w', r, env)
    ensures WorldInv(w') && Evolves(w.db, w'.db)
  {
    var req := w.reqs[r];
    StepKeeps(w.db, req, env);
    forall s | s in w.reqs && s != r
      ensures Knows(w'.db, w.reqs[s])
      ensures HeldPayment(w.reqs[s]).Some? ==> HeldPayment(w.reqs[s]) != HeldPayment(w'.reqs[r])
      ensures HeldBooking(w.reqs[s]).Some? ==> HeldBooking(w.reqs[s]) != HeldBooking(w'.reqs[r])
    {
      OtherKeeps(w.db, req, w'.db, w'.reqs[r], w.reqs[s]);
    }
    assert Exclusive(w');
  }

  lemma SpawnKeeps(w: World, w': World, r: nat, req: Request)
    requires WorldInv(w) && Spawns(w, w', r, req)
    ensures WorldInv(w') && w'.db == w.db
  {
    assert Knows(w.db, req) && HeldPayment(req).None? && HeldBooking(req).None?;
    forall s | s in w.reqs
      ensures Knows(w'.db, w'.reqs[s]) && w'.reqs[s] == w.reqs[s]
    {
      assert Knows(w.db, w.reqs[s]);
    }
    assert Exclusive(w');
  }

  lemma NextKeeps(w: World, w': World)
    requires WorldInv(w) && Next(w, w')
    ensures WorldInv(w') && Evolves(w.db, w'.db)
  {
    if r, req :| Spawns(w, w', r, req) {
      SpawnKeeps(w, w', r, req);
      EvolvesReflexive(w.db);
    } else {
      var r, env :| Advances(w, w', r, env);
      AdvanceKeeps(w, w', r, env);
    }
  }

  lemma {:induction false} RunKeepsInvariant(run: seq<World>, k: nat)
    requires IsRun(run) && k < |run|
    ensures WorldInv(run[k])
  {
    if k == 0 {
    } else {
      RunKeepsInvariant(run, k - 1);
      assert StepAt(run, k - 1);
      NextKeeps(run[k - 1], run[k]);
    }
  }

  lemma RunStepEvolves(run: seq<World>, k: nat)
    requires IsRun(run) && k + 1 < |run|
    ensures Evolves(run[k].db, run[k + 1].db)
  {
    RunKeepsInvariant(run, k);
    assert StepAt(run, k);
    NextKeeps(run[k], run[k + 1]);
  }

  lemma {:induction false} RunEvolves(run: seq<World>, i: nat, j: nat)
    requires IsRun(run) && i <= j < |run|
    ensures Evolves(run[i].db, run[j].db)
    decreases j - i
  {
    if i == j {
    } else {
      RunEvolves(run, i, j - 1);
      RunStepEvolves(run, j - 1);
      EvolvesTransitive(run[i].db, run[j - 1].db, run[j].db);
    }
  }

  // -------------------------------------------------------------------------
  // Main results about runs
  // -------------------------------------------------------------------------

  /** In every run a payment row's version, status and order id move together. */
  lemma PaymentRowsFollowTheirVersion(run: seq<World>, k: nat, p: nat)
    requires IsRun(run) && k < |run| && p < |run[k].db.payments|
    ensures var row := run[k].db.payments[p];
            && (row.status.Pending? <==> row.version == 1) && (row.status.Pending? <==> row.orderId.None?)
            && (row.status.Processing? <==> row.version == 2)
            && (row.status.Success? || row.status.Failed? <==> row.version == 3)
            && (row.status.Success? <==> row.txId.Some?)
            && 1 <= row.version <= 3
  {
    RunKeepsInvariant(run, k);
    assert RowOk(run[k].db.payments[p]);
  }

  /** The order id is written once, and a captured or failed payment never changes again. */
  lemma PaymentHistoryIsOneWay(run: seq<World>, i: nat, j: nat, p: nat)
    requires IsRun(run) && i <= j < |run| && p < |run[i].db.payments|
    ensures p < |run[j].db.payments|
    ensures var before, after := run[i].db.payments[p], run[j].db.payments[p];
            && before.version <= after.version
            && (before.orderId.Some? ==> after.orderId == before.orderId)
            && (before.status.Success? || before.status.Failed? ==> after == before)
            && (before.version == after.version ==> after == before)
            && after.booking == before.booking && after.amount == before.amount
  {
    RunEvolves(run, i, j);
  }

  /** How often a payment row changes between two points of a run. */
  ghost function Moves(run: seq<World>, i: nat, j: nat, p: nat): nat
    requires i <= j < |run|
    requires forall k :: i <= k <= j ==> p < |run[k].db.payments|
    decreases j - i
  {
    if i == j then 0
    else Moves(run, i, j - 1, p) + if run[j - 1].db.payments[p] != run[j].db.payments[p] then 1 else 0
  }

  lemma {:induction false} MovesBoundedByVersion(run: seq<World>, i: nat, j: nat, p: nat)
    requires IsRun(run) && i <= j < |run|
    requires forall k :: i <= k <= j ==> p < |run[k].db.payments|
    ensures Moves(run, i, j, p) <= run[j].db.payments[p].version - run[i].db.payments[p].version
    decreases j - i
  {
    if i == j {
    } else {
      MovesBoundedByVersion(run, i, j - 1, p);
      PaymentHistoryIsOneWay(run, j - 1, j, p);
    }
  }

  /** Each payment moves at most twice, however many requests hold stale snapshots of it. */
  lemma PaymentMovesAtMostTwice(run: seq<World>, i: nat, j: nat, p: nat)
    requires IsRun(run) && i <= j < |run| && p < |run[i].db.payments|
    ensures forall k :: i <= k <= j ==> p < |run[k].db.payments|
    ensures Moves(run, i, j, p) <= 2
  {
    forall k | i <= k <= j
      ensures p < |run[k].db.payments|
    {
      RunEvolves(run, i, k);
    }
    MovesBoundedByVersion(run, i, j, p);
    PaymentRowsFollowTheirVersion(run, i, p);
    PaymentRowsFollowTheirVersion(run, j, p);
  }

  /** At most one payment attempt of a booking is in flight, and no two payments share an order. */
  lemma PaymentsNeverClash(run: seq<World>, k: nat, p: nat, q: nat)
    requires IsRun(run) && k < |run| && p < |run[k].db.payments| && q < |run[k].db.payments| && p != q
    ensures var ps := run[k].db.payments;
            && (ps[p].booking == ps[q].booking ==> !InFlight(ps[p]) || !InFlight(ps[q]))
            && (ps[p].orderId.Some? ==> ps[p].orderId != ps[q].orderId)
            && (ps[p].txId.Some? ==> ps[p].txId != ps[q].txId)
  {
    RunKeepsInvariant(run, k);
  }

  /** No staff member is ever double-booked, whatever creates, cancels and captures interleave. */
  lemma StaffNeverDoubleBooked(run: seq<World>, k: nat, i: nat, j: nat)
    requires IsRun(run) && k < |run| && i < |run[k].db.items| && j < |run[k].db.items| && i != j
    ensures !Conflict(run[k].db.items[i], run[k].db.items[j])
  {
    RunKeepsInvariant(run, k);
    var items := run[k].db.items;
    assert Conflict(items[i], items[j]) == Conflict(items[j], items[i]);
  }

  /** The second statement of a capture confirms the booking's items unless their
      time has been given to another booking; then it changes nothing at all. */
  lemma ReactivationAllOrNothing(run: seq<World>, k: nat, r: nat, env: Env)
    requires IsRun(run) && k < |run| && r in run[k].reqs && run[k].reqs[r].PaidItems?
    ensures var db, req := run[k].db, run[k].reqs[r];
            var (db', req') := Step(db, req, env);
            if Rebooked(db.items, req.booking) then
              db' == db && req' == Finished(Capturing, Threw(ExclusionViolation))
            else
              db' == db.(items := WithStatus(db.items, req.booking, ItemStatus.Confirmed, 0)) && req'.PaidTimeline?
  {
    RunKeepsInvariant(run, k);
    ConfirmRefusedIffRebooked(run[k].db.items, run[k].reqs[r].booking);
  }

  /** A paid booking has a captured payment and is confirmed unless it was cancelled, a
      confirmed booking is paid, and a booking is logged as created once and as
      confirmed at most once. */
  lemma BookingStatusesAreEarned(run: seq<World>, k: nat, b: nat)
    requires IsRun(run) && k < |run| && b < |run[k].db.bookings|
    ensures var db := run[k].db;
            && (db.bookings[b].pay.Paid? ==> HasPayment(db.payments, b, TransactionStatus.Success))
            && (db.bookings[b].pay.Failed? ==> HasPayment(db.payments, b, TransactionStatus.Failed))
            && (db.bookings[b].status.Confirmed? ==> db.bookings[b].pay.Paid?)
            && (db.bookings[b].pay.Paid? && !db.bookings[b].status.Cancelled? ==> db.bookings[b].status.Confirmed?)
            && CountEvents(db.timeline, b, TimelineEvent.Created) == 1
            && CountEvents(db.timeline, b, TimelineEvent.Confirmed) <= (if db.bookings[b].pay.Paid? then 1 else 0)
            && (db.bookings[b].status.Cancelled? ==> CountEvents(db.timeline, b, TimelineEvent.Cancelled) > 0)
  {
    RunKeepsInvariant(run, k);
    assert BookingInv(run[k].db, b);
  }

  /** In every run the items of a booking lie end to end over the time stored with it:
      the first starts at its start, each next one where the one before ends, and the
      last ends at its end. */
  lemma BookingTimeIsItsItems(run: seq<World>, k: nat, b: nat) returns (lo: nat, hi: nat)
    requires IsRun(run) && k < |run| && b < |run[k].db.bookings|
    ensures var items, row := run[k].db.items, run[k].db.bookings[b];
            && lo < hi <= |items|
            && (forall i :: 0 <= i < |items| ==> (items[i].booking == b <==> lo <= i < hi))
            && items[lo].start == row.start && items[hi - 1].end == row.end
            && (forall i, j :: lo <= i < hi && j == i + 1 < hi ==> items[i].end == items[j].start)
  {
    RunKeepsInvariant(run, k);
    var row := run[k].db.bookings[b];
    assert BookingInv(run[k].db, b);
    lo, hi :| Spans(run[k].db.items, b, row.start, row.end, lo, hi);
  }

  lemma PaidIsNeverUndone(run: seq<World>, i: nat, j: nat, b: nat)
    requires IsRun(run) && i <= j < |run| && b < |run[i].db.bookings| && run[i].db.bookings[b].pay.Paid?
    ensures b < |run[j].db.bookings| && run[j].db.bookings[b].pay.Paid?
  {
    RunEvolves(run, i, j);
  }

  /** At most one confirmation is dispatched per payment, only for a captured one,
      and it carries that payment's booking and transaction id. */
  lemma OneConfirmationPerPayment(run: seq<World>, k: nat, p: nat)
    requires IsRun(run) && k < |run| && p < |run[k].db.payments|
    ensures CountConfirmations(run[k].db.confirmations, p) <= 1
    ensures forall i :: 0 <= i < |run[k].db.confirmations| && run[k].db.confirmations[i].payment == p ==>
              && run[k].db.payments[p].status.Success?
              && run[k].db.payments[p].booking == run[k].db.confirmations[i].booking
              && run[k].db.payments[p].txId == Some(run[k].db.confirmations[i].reference)
  {
    RunKeepsInvariant(run, k);
    assert RowOk(run[k].db.payments[p]);
  }

  /** A pay request and a failure event never reach an illegal transition, and the
      only one a capture can reach is from failed to success. */
  lemma IllegalTransitionsReached(run: seq<World>, k: nat, r: nat)
    requires IsRun(run) && k < |run| && r in run[k].reqs
    requires run[k].reqs[r].Finished? && run[k].reqs[r].outcome.Threw?
    requires run[k].reqs[r].outcome.error.IllegalTransition?
    ensures run[k].reqs[r].kind == Capturing
    ensures run[k].reqs[r].outcome.error == IllegalTransition(TransactionStatus.Failed, TransactionStatus.Success)
  {
    FinishedOutcomeOk(run, k, r);
  }

  lemma FinishedOutcomeOk(run: seq<World>, k: nat, r: nat)
    requires IsRun(run) && k < |run| && r in run[k].reqs && run[k].reqs[r].Finished?
    ensures OutcomeOk(run[k].db, run[k].reqs[r].kind, run[k].reqs[r].outcome)
  {
    RunKeepsInvariant(run, k);
    assert Knows(run[k].db, run[k].reqs[r]);
  }

  /** A request writes a payment row only at the version it read: if the row has moved on
      since, nothing is written, and a transition that was due on it is a conflict. */
  lemma StaleSnapshotConflicts(run: seq<World>, k: nat, r: nat, env: Env)
    requires IsRun(run) && k < |run| && r in run[k].reqs && (run[k].reqs[r].PayMark? || run[k].reqs[r].HookMark?)
    requires var rec := run[k].reqs[r].rec;
             rec.id < |run[k].db.payments| && run[k].db.payments[rec.id] != rec.row
    ensures var (db', req') := Step(run[k].db, run[k].reqs[r], env);
            && db' == run[k].db && req'.Finished?
            && (InFlight(run[k].reqs[r].rec.row) ==> req'.outcome == Threw(VersionConflict))
  {
    RunKeepsInvariant(run, k);
    assert ReqInv(run[k].db, run[k].reqs[r]);
  }

  /** An intent handed to a customer names an order that stays attached to its payment. */
  lemma IntentsStayValid(run: seq<World>, i: nat, j: nat, r: nat)
    requires IsRun(run) && i <= j < |run| && r in run[i].reqs
    requires run[i].reqs[r].Finished? && run[i].reqs[r].outcome.Offered?
    ensures var intent := run[i].reqs[r].outcome.intent;
            && intent.payment < |run[j].db.payments| && intent.orderId != ""
            && run[j].db.payments[intent.payment].orderId == Some(intent.orderId)
            && intent.amount == ToNumber(run[j].db.payments[intent.payment].amount)
  {
    FinishedOutcomeOk(run, i, r);
    PaymentHistoryIsOneWay(run, i, j, run[i].reqs[r].outcome.intent.payment);
  }

  /** What a payment charges is what its booking's items cost, and the gateway
      order attached to it asks for that amount as a double. */
  lemma AmountsAgree(run: seq<World>, k: nat, p: nat)
    requires IsRun(run) && k < |run| && p < |run[k].db.payments|
    ensures var db := run[k].db;
            var row := db.payments[p];
            && row.booking < |db.bookings|
            && row.amount == db.bookings[row.booking].total == SumPrices(db.items, row.booking)
            && (row.orderId.Some? ==>
                  exists g :: g in db.orders && g.id == row.orderId.value && g.booking == row.booking
                              && g.amount == ToNumber(row.amount)
                              && (row.amount <= DOUBLE_UNIT_LIMIT ==> g.amount == row.amount))
  {
    RunKeepsInvariant(run, k);
    var db := run[k].db;
    var row := db.payments[p];
    assert BookingInv(db, row.booking);
    ToNumberExactRange(row.amount);
    if row.orderId.Some? {
      assert GatewayOrder(row.orderId.value, row.booking, ToNumber(row.amount)) in db.orders;
    }
  }

  /** The check that a create passed and the insert that it was refused are both
      right: in between, some item in its window became active. */
  lemma RefusedInsertHasCause(run: seq<World>, i: nat, j: nat, r: nat, env: Env)
    requires IsRun(run) && i < j < |run| && r in run[i].reqs && r in run[j].reqs
    requires run[i].reqs[r].CreateCheckSlot? && Step(run[i].db, run[i].reqs[r], env).1.CreateCheckCustomer?
    requires run[j].reqs[r] == CreateInsert(run[i].reqs[r].input)
    requires Step(run[j].db, run[j].reqs[r], env).1 == Finished(Creating, Threw(SlotAlreadyBooked(true)))
    ensures var input, before, after := run[i].reqs[r].input, run[i].db.items, run[j].db.items;
            exists x :: && 0 <= x < |after| && Blocks(after[x], input.staff, input.start, input.End())
                        && (x < |before| ==> !Active(before[x]))
  {
    RunEvolves(run, i, j);
    assert Timed(run[j].db.items) by {
      RunKeepsInvariant(run, j);
    }
    BlockerIsNew(run[i].db.items, run[j].db.items, |run[j].db.bookings|, run[i].reqs[r].input);
  }

  lemma BlockerIsNew(before: seq<Item>, after: seq<Item>, booking: nat, input: CreateInput)
    requires ItemsEvolve(before, after) && Timed(after) && input.lines != []
    requires !SlotTaken(before, input.staff, input.start, input.End())
    requires InsertAll(after, Layout(booking, input.staff, input.start, input.lines)).None?
    ensures exists x :: && 0 <= x < |after| && Blocks(after[x], input.staff, input.start, input.End())
                        && (x < |before| ==> !Active(before[x]))
  {
    SlotTakenIffInsertRefused(after, booking, input.staff, input.start, input.lines);
    var x :| 0 <= x < |after| && Blocks(after[x], input.staff, input.start, input.End());
    assert x < |before| ==> !Blocks(before[x], input.staff, input.start, input.End());
  }

  /** A create whose check and insert have nothing between them is never refused at the insert. */
  lemma UninterruptedCreateNotRefused(run: seq<World>, k: nat, input: CreateInput)
    requires IsRun(run) && k < |run| && input.lines != []
    ensures CreateBooking(run[k].db, input).Ok?
       <==> !SlotTaken(run[k].db.items, input.staff, input.start, input.End())
    ensures SlotTaken(run[k].db.items, input.staff, input.start, input.End()) ==>
              CreateBooking(run[k].db, input) == Err(SlotAlreadyBooked(true))
  {
    RunKeepsInvariant(run, k);
    SlotTakenIffInsertRefused(run[k].db.items, |run[k].db.bookings|, input.staff, input.start, input.lines);
  }
}
