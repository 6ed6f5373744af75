/** Requests that run one at a time from start to end. */
module Serial {
  import opened Wrappers
  import opened Domain
  import opened Tables
  import opened Protocol
  import opened Invariants
  import opened ProtocolSafety

  /** Steps a request can still take. */
  function Rank(req: Request): nat {
    match req
    case HookStart(_) => 9
    case HookFind(_) => 8
    case HookFindTx(_) => 7
    case HookBooking(_, _) => 6
    case HookMark(_, _, _) => 5
    case PayStart(_, _) => 5
    case PayFind(_, _) => 4
    case PaidBooking(_, _, _, _) => 4
    case PayCreate(_, _) => 3
    case PaidItems(_, _, _) => 3
    case CreateCheckSlot(_) => 3
    case PayOrder(_, _) => 2
    case PaidTimeline(_, _, _) => 2
    case CreateCheckCustomer(_) => 2
    case CancelStart(_, _) => 2
    case PayMark(_, _) => 1
    case Dispatch(_, _, _) => 1
    case FailBooking(_, _, _) => 1
    case CreateInsert(_) => 1
    case CancelWrite(_, _) => 1
    case Finished(_, _) => 0
  }

  lemma StepLowersRank(db: Db, req: Request, env: Env)
    requires !req.Finished?
    ensures Rank(Step(db, req, env).1) < Rank(req)
  {
  }

  /** A request run to its end with nothing in between. */
  function Drive(db: Db, req: Request, env: Env): (r: (Db, Request))
    ensures r.1.Finished?
    decreases Rank(req)
  {
    if req.Finished? then (db, req)
    else
      StepLowersRank(db, req, env);
      var (db', req') := Step(db, req, env);
      Drive(db', req', env)
  }

  /** A step that ends the request is all of the drive. */
  lemma DriveEnds(db: Db, req: Request, env: Env)
    requires !req.Finished? && Step(db, req, env).1.Finished?
    ensures Drive(db, req, env) == Step(db, req, env)
  {
    StepLowersRank(db, req, env);
  }

  lemma DispatchEnds(db: Db, payment: nat, booking: nat, reference: string, env: Env)
    ensures Drive(db, Dispatch(payment, booking, reference), env)
         == (if env.notice.Queued? then
               db.(confirmations := db.confirmations + [Confirmation(payment, booking, reference)])
             else db,
             Finished(Capturing, Returned))
  {
    DriveEnds(db, Dispatch(payment, booking, reference), env);
  }

  lemma {:induction false} DriveKeeps(db: Db, req: Request, env: Env)
    requires DbInv(db) && Knows(db, req) && env.Ok()
    ensures var (db', req') := Drive(db, req, env); DbInv(db') && Knows(db', req') && Evolves(db, db')
    decreases Rank(req)
  {
    if req.Finished? {
      EvolvesReflexive(db);
    } else {
      StepLowersRank(db, req, env);
      StepKeeps(db, req, env);
      var (db', req') := Step(db, req, env);
      DriveKeeps(db', req', env);
      EvolvesTransitive(db, db', Drive(db, req, env).0);
    }
  }

  /** A request driven alone is one way its steps can be scheduled. */
  lemma {:induction false} DriveExtendsRun(run: seq<World>, r: nat, env: Env) returns (run': seq<World>)
    requires IsRun(run) && r in run[|run| - 1].reqs && env.Ok()
    ensures IsRun(run') && run <= run'
    ensures var w, w' := run[|run| - 1], run'[|run'| - 1];
            var (db, req) := Drive(w.db, w.reqs[r], env);
            w' == World(db, w.reqs[r := req])
    decreases Rank(run[|run| - 1].reqs[r])
  {
    var w := run[|run| - 1];
    if w.reqs[r].Finished? {
      run' := run;
      assert w.reqs[r := w.reqs[r]] == w.reqs;
    } else {
      StepLowersRank(w.db, w.reqs[r], env);
      var (db, req) := Step(w.db, w.reqs[r], env);
      var w' := World(db, w.reqs[r := req]);
      var longer := run + [w'];
      assert Advances(w, w', r, env);
      forall i | 0 <= i < |longer| - 1
        ensures StepAt(longer, i)
      {
        if i < |run| - 1 {
          assert StepAt(run, i);
        } else {
          assert Next(w, w');
        }
      }
      run' := DriveExtendsRun(longer, r, env);
      var last := Drive(db, req, env).1;
      assert w.reqs[r := req][r := last] == w.reqs[r := last];
    }
  }

  // -------------------------------------------------------------------------
  // Serial runs
  // -------------------------------------------------------------------------

  datatype Action = Action(req: Request, env: Env)

  ghost predicate ActionsOk(actions: seq<Action>) {
    forall i :: 0 <= i < |actions| ==> Initial(actions[i].req) && actions[i].env.Ok()
  }

  function RunSerially(db: Db, actions: seq<Action>): Db {
    if actions == [] then db
    else Drive(RunSerially(db, actions[..|actions| - 1]),
               actions[|actions| - 1].req, actions[|actions| - 1].env).0
  }

  /** A booking is paid exactly when it has a captured payment; then that payment
      is the only captured one and no attempt is in flight. */
  ghost predicate Settled(bookings: seq<Booking>, ps: seq<Payment>, b: nat)
    requires b < |bookings|
  {
    && (bookings[b].pay.Paid? <==> HasPayment(ps, b, TransactionStatus.Success))
    && (bookings[b].pay.Paid? ==> forall i :: 0 <= i < |ps| && ps[i].booking == b ==> !InFlight(ps[i]))
    && (forall i, j :: 0 <= i < j < |ps| && ps[i].booking == b && ps[j].booking == b && ps[i].status.Success? ==>
          !ps[j].status.Success?)
  }

  ghost predicate AllSettled(db: Db) {
    forall b :: 0 <= b < |db.bookings| ==> Settled(db.bookings, db.payments, b)
  }

  /** The one request under way has just captured a payment of this booking and
      has yet to mark the booking paid. */
  predicate IsCapturing(req: Request, b: nat) {
    req.PaidBooking? && req.booking == b
  }

  ghost predicate JustCaptured(db: Db, req: Request)
    requires req.PaidBooking?
  {
    && req.booking < |db.bookings| && !db.bookings[req.booking].pay.Paid?
    && forall i :: 0 <= i < |db.payments| && db.payments[i].booking == req.booking && i != req.payment ==>
         !InFlight(db.payments[i]) && !db.payments[i].status.Success?
  }

  /** The tables between two steps of a request that runs alone. */
  ghost predicate SerialAt(db: Db, req: Request) {
    && DbInv(db) && Knows(db, req)
    && (forall b :: 0 <= b < |db.bookings| && !IsCapturing(req, b) ==> Settled(db.bookings, db.payments, b))
    && (req.PaidBooking? ==> JustCaptured(db, req))
    && (req.PayFind? ==> !db.bookings[req.booking].pay.Paid?)
    && (req.PayCreate? ==> !db.bookings[req.booking].pay.Paid?)
  }

  lemma PaymentsUnchangedSettled(db: Db, db': Db)
    requires AllSettled(db) && DbInv(db) && db'.payments == db.payments && |db.bookings| <= |db'.bookings|
    requires forall b :: 0 <= b < |db.bookings| ==> db'.bookings[b].pay.Paid? == db.bookings[b].pay.Paid?
    requires forall b :: |db.bookings| <= b < |db'.bookings| ==> !db'.bookings[b].pay.Paid?
    ensures AllSettled(db')
  {
    forall b | 0 <= b < |db'.bookings|
      ensures Settled(db'.bookings, db'.payments, b)
    {
      if b < |db.bookings| {
        assert Settled(db.bookings, db.payments, b);
      }
    }
  }

  lemma CreatePendingSettled(db: Db, booking: nat, ps: seq<Payment>)
    requires DbInv(db) && AllSettled(db) && booking < |db.bookings| && !db.bookings[booking].pay.Paid?
    requires CreatePending(db.payments, booking, db.bookings[booking].total) == Ok(ps)
    ensures AllSettled(db.(payments := ps))
  {
    forall b | 0 <= b < |db.bookings|
      ensures Settled(db.bookings, ps, b)
    {
      assert Settled(db.bookings, db.payments, b);
      if HasPayment(db.payments, b, TransactionStatus.Success) {
        HasPaymentKept(db.payments, ps, b, TransactionStatus.Success);
      }
    }
  }

  /** Rewriting one row without capturing it. */
  lemma RewriteSettled(db: Db, ps: seq<Payment>, id: nat)
    requires DbInv(db) && AllSettled(db) && id < |db.payments| && InFlight(db.payments[id])
    requires |ps| == |db.payments| && ps == db.payments[id := ps[id]]
    requires ps[id].booking == db.payments[id].booking && !ps[id].status.Success?
    ensures AllSettled(db.(payments := ps))
  {
    forall b | 0 <= b < |db.bookings|
      ensures Settled(db.bookings, ps, b)
    {
      assert Settled(db.bookings, db.payments, b);
      if HasPayment(db.payments, b, TransactionStatus.Success) {
        var i :| 0 <= i < |db.payments| && db.payments[i].booking == b && db.payments[i].status.Success?;
        assert ps[i] == db.payments[i];
      }
    }
  }

  lemma CaptureSettled(db: Db, id: nat, txId: string, ps: seq<Payment>, b: nat)
    requires DbInv(db) && AllSettled(db) && id < |db.payments| && db.payments[id].status.Processing?
    requires MarkSuccess(db.payments, id, txId, db.payments[id].version) == Ok(ps)
    requires b < |db.bookings|
    ensures b != db.payments[id].booking ==> Settled(db.bookings, ps, b)
    ensures b == db.payments[id].booking ==>
      && !db.bookings[b].pay.Paid?
      && forall i :: 0 <= i < |ps| && ps[i].booking == b && i != id ==> !InFlight(ps[i]) && !ps[i].status.Success?
  {
    assert Settled(db.bookings, db.payments, b);
    if b != db.payments[id].booking {
      if HasPayment(db.payments, b, TransactionStatus.Success) {
        HasPaymentKept(db.payments, ps, b, TransactionStatus.Success);
      }
    }
  }

  lemma PaidSettled(db: Db, req: Request)
    requires req.PaidBooking? && SerialAt(db, req)
    ensures AllSettled(db.(bookings := BookingPaid(db.bookings, req.booking)))
  {
    var bookings := BookingPaid(db.bookings, req.booking);
    forall b | 0 <= b < |bookings|
      ensures Settled(bookings, db.payments, b)
    {
      if b == req.booking {
        assert db.payments[req.payment].status.Success?;
      } else {
        assert Settled(db.bookings, db.payments, b);
      }
    }
  }

  lemma MarkSuccessSettled(db: Db, req: Request, ps: seq<Payment>)
    requires req.HookMark? && SerialAt(db, req) && req.event.kind.Captured? && req.rec.row.status.Processing?
    requires MarkSuccess(db.payments, req.rec.id, req.event.payId.value, req.rec.row.version) == Ok(ps)
    ensures var req' := PaidBooking(req.rec.id, req.rec.row.booking, req.customer, req.event.payId.value);
            && (forall b :: 0 <= b < |db.bookings| && !IsCapturing(req', b) ==> Settled(db.bookings, ps, b))
            && JustCaptured(db.(payments := ps), req')
  {
    assert db.payments[req.rec.id] == req.rec.row;
    forall b | 0 <= b < |db.bookings|
      ensures b != req.rec.row.booking ==> Settled(db.bookings, ps, b)
    {
      CaptureSettled(db, req.rec.id, req.event.payId.value, ps, b);
    }
    CaptureSettled(db, req.rec.id, req.event.payId.value, ps, req.rec.row.booking);
  }

  /** What the capture or failure handler does to the payment row. */
  lemma HookMarkFrame(db: Db, req: Request, env: Env)
    requires req.HookMark? && !req.event.kind.Other? && ReqInv(db, req)
    ensures var (db', req') := Step(db, req, env);
            || (db' == db && req'.Finished?)
            || (&& req.event.kind.Captured? && req.rec.row.status.Processing?
                && db' == db.(payments := db'.payments)
                && MarkSuccess(db.payments, req.rec.id, req.event.payId.value, req.rec.row.version) == Ok(db'.payments)
                && req' == PaidBooking(req.rec.id, req.rec.row.booking, req.customer, req.event.payId.value))
            || (&& req.event.kind.Failed? && req.rec.row.status.Processing?
                && db' == db.(payments := db'.payments)
                && MarkFailed(db.payments, req.rec.id, req.rec.row.version) == Ok(db'.payments)
                && req' == FailBooking(req.rec.id, req.rec.row.booking, req.customer))
  {
  }

  lemma StepHookMarkSettled(db: Db, req: Request, env: Env, db': Db, req': Request)
    requires req.HookMark? && SerialAt(db, req) && (db', req') == Step(db, req, env)
    requires DbInv(db') && Knows(db', req')
    ensures SerialAt(db', req')
  {
    HookMarkFrame(db, req, env);
    if req'.PaidBooking? {
      MarkSuccessSettled(db, req, db'.payments);
    } else if req'.FailBooking? {
      assert db.payments[req.rec.id] == req.rec.row;
      RewriteSettled(db, db'.payments, req.rec.id);
    }
  }

  /** What a pay request does to the tables. */
  lemma PayFrame(db: Db, req: Request, env: Env)
    requires IsPay(req)
    ensures var (db', req') := Step(db, req, env);
            && db'.bookings == db.bookings
            && (db'.payments == db.payments
                || (req.PayCreate? && CreatePending(db.payments, req.booking, req.total) == Ok(db'.payments))
                || (req.PayMark?
                    && MarkProcessing(db.payments, req.rec.id, req.orderId, req.rec.row.version) == Ok(db'.payments)))
            && !req'.PaidBooking?
            && (req'.PayFind? ==> Owned(db.bookings, req'.booking, req.customer) && !db.bookings[req'.booking].pay.Paid?)
            && (req'.PayCreate? ==> req.PayFind? && req'.booking == req.booking)
  {
  }

  lemma StepPaySettled(db: Db, req: Request, env: Env, db': Db, req': Request)
    requires IsPay(req) && SerialAt(db, req) && (db', req') == Step(db, req, env)
    requires DbInv(db') && Knows(db', req')
    ensures SerialAt(db', req')
  {
    PayFrame(db, req, env);
    assert AllSettled(db);
    if db'.payments == db.payments {
    } else if req.PayCreate? {
      CreatePendingSettled(db, req.booking, db'.payments);
      assert db.(payments := db'.payments).bookings == db'.bookings;
    } else {
      assert db.payments[req.rec.id] == req.rec.row;
      RewriteSettled(db, db'.payments, req.rec.id);
      assert db.(payments := db'.payments).bookings == db'.bookings;
    }
  }

  /** Every other step leaves payments alone and marks no booking paid. */
  lemma OtherFrame(db: Db, req: Request, env: Env)
    requires !IsPay(req) && !req.HookMark? && !req.PaidBooking?
    ensures var (db', req') := Step(db, req, env);
            && db'.payments == db.payments && |db.bookings| <= |db'.bookings|
            && (forall b :: 0 <= b < |db.bookings| ==> db'.bookings[b].pay.Paid? == db.bookings[b].pay.Paid?)
            && (forall b :: |db.bookings| <= b < |db'.bookings| ==> !db'.bookings[b].pay.Paid?)
            && !req'.PaidBooking? && !req'.PayFind? && !req'.PayCreate?
  {
  }

  lemma StepOtherSettled(db: Db, req: Request, env: Env, db': Db, req': Request)
    requires !IsPay(req) && !req.HookMark? && !req.PaidBooking?
    requires SerialAt(db, req) && (db', req') == Step(db, req, env)
    requires DbInv(db') && Knows(db', req')
    ensures SerialAt(db', req')
  {
    OtherFrame(db, req, env);
    assert AllSettled(db);
    PaymentsUnchangedSettled(db, db');
  }

  lemma StepPaidBookingSettled(db: Db, req: Request, env: Env, db': Db, req': Request)
    requires req.PaidBooking? && SerialAt(db, req) && (db', req') == Step(db, req, env)
    requires DbInv(db') && Knows(db', req')
    ensures SerialAt(db', req')
  {
    PaidSettled(db, req);
  }

  lemma {:induction false} DriveSettles(db: Db, req: Request, env: Env)
    requires SerialAt(db, req) && env.Ok()
    ensures var (db', req') := Drive(db, req, env); DbInv(db') && AllSettled(db')
    decreases Rank(req)
  {
    if req.Finished? {
    } else {
      StepLowersRank(db, req, env);
      StepKeeps(db, req, env);
      var (db', req') := Step(db, req, env);
      if IsPay(req) {
        StepPaySettled(db, req, env, db', req');
      } else if req.HookMark? {
        StepHookMarkSettled(db, req, env, db', req');
      } else if req.PaidBooking? {
        StepPaidBookingSettled(db, req, env, db', req');
      } else {
        StepOtherSettled(db, req, env, db', req');
      }
      DriveSettles(db', req', env);
    }
  }

  lemma {:induction false} SerialRunsSettle(actions: seq<Action>)
    requires ActionsOk(actions)
    ensures DbInv(RunSerially(EMPTY_DB, actions)) && AllSettled(RunSerially(EMPTY_DB, actions))
    decreases |actions|
  {
    if actions == [] {
    } else {
      var before := actions[..|actions| - 1];
      SerialRunsSettle(before);
      var last := actions[|actions| - 1];
      assert Knows(RunSerially(EMPTY_DB, before), last.req);
      DriveSettles(RunSerially(EMPTY_DB, before), last.req, last.env);
    }
  }

  predicate BothCaptured(p: Payment, q: Payment, b: nat) {
    p.booking == b && q.booking == b && p.status.Success? && q.status.Success?
  }

  /** After any serial run a booking is paid exactly when it has a captured
      payment, it has at most one, and that payment's amount is the sum of its
      item prices. */
  lemma SerialPaymentsBalance(actions: seq<Action>, b: nat)
    requires ActionsOk(actions) && b < |RunSerially(EMPTY_DB, actions).bookings|
    ensures var db := RunSerially(EMPTY_DB, actions);
            && (db.bookings[b].pay.Paid? <==> HasPayment(db.payments, b, TransactionStatus.Success))
            && (forall i, j :: 0 <= i < j < |db.payments| ==> !BothCaptured(db.payments[i], db.payments[j], b))
            && (forall i :: 0 <= i < |db.payments| && db.payments[i].booking == b ==>
                  db.payments[i].amount == SumPrices(db.items, b))
            && (db.bookings[b].pay.Paid? ==>
                  forall i :: 0 <= i < |db.payments| && db.payments[i].booking == b ==> !InFlight(db.payments[i]))
  {
    SerialRunsSettle(actions);
    var db := RunSerially(EMPTY_DB, actions);
    assert Settled(db.bookings, db.payments, b) && BookingInv(db, b);
  }
}
