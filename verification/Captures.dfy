/** Captured payments against paid bookings, over every interleaved run. */
module Captures {
  import opened Domain
  import opened Tables
  import opened Protocol
  import opened Invariants
  import opened ProtocolSafety

  // -------------------------------------------------------------------------
  // Captured means paid, or about to be
  // -------------------------------------------------------------------------

  /** Some request has captured the payment and not yet written its booking. */
  ghost predicate Underway(w: World, payment: nat) {
    exists r :: r in w.reqs && w.reqs[r].PaidBooking? && w.reqs[r].payment == payment
  }

  ghost predicate Accounted(w: World) {
    forall p :: 0 <= p < |w.db.payments| && w.db.payments[p].status.Success? ==>
      && w.db.payments[p].booking < |w.db.bookings|
      && (w.db.bookings[w.db.payments[p].booking].pay.Paid? || Underway(w, p))
  }

  ghost predicate CapturesOnlyInto(db: Db, db': Db, req': Request) {
    forall p :: 0 <= p < |db'.payments| && db'.payments[p].status.Success? ==>
      || (p < |db.payments| && db.payments[p].status.Success?)
      || (req'.PaidBooking? && req'.payment == p)
  }

  /** A payment is captured only by a request that goes on to its booking, and that
      request's next step leaves the booking paid. */
  lemma StepCaptures(db: Db, req: Request, env: Env)
    requires DbInv(db) && ReqInv(db, req)
    ensures var (db', req') := Step(db, req, env);
            && CapturesOnlyInto(db, db', req')
            && (req.PaidBooking? ==> req.booking < |db'.bookings| && db'.bookings[req.booking].pay.Paid?)
  {
    if IsPay(req) {
      PayCaptures(db, req, env);
    }
  }

  lemma PayCaptures(db: Db, req: Request, env: Env)
    requires IsPay(req)
    ensures var (db', req') := Step(db, req, env); CapturesOnlyInto(db, db', req')
  {
  }

  /** A payment captured before the step is still accounted for after it. */
  lemma OldCaptureAccounted(w: World, w': World, r: nat, env: Env, p: nat)
    requires WorldInv(w) && Accounted(w) && Advances(w, w', r, env) && Evolves(w.db, w'.db)
    requires p < |w.db.payments| && w.db.payments[p].status.Success?
    ensures var b := w'.db.payments[p].booking;
            b < |w'.db.bookings| && (w'.db.bookings[b].pay.Paid? || Underway(w', p))
  {
    if !w.db.bookings[w.db.payments[p].booking].pay.Paid? {
      var s :| s in w.reqs && w.reqs[s].PaidBooking? && w.reqs[s].payment == p;
      assert Knows(w.db, w.reqs[s]);
      if s == r {
        StepCaptures(w.db, w.reqs[r], env);
      } else {
        assert w'.reqs[s] == w.reqs[s];
      }
    }
  }

  lemma AdvanceKeepsAccounted(w: World, w': World, r: nat, env: Env)
    requires WorldInv(w) && Accounted(w) && Advances(w, w', r, env)
    ensures Accounted(w')
  {
    AdvanceKeeps(w, w', r, env);
    StepCaptures(w.db, w.reqs[r], env);
    forall p | 0 <= p < |w'.db.payments| && w'.db.payments[p].status.Success?
      ensures w'.db.payments[p].booking < |w'.db.bookings|
      ensures w'.db.bookings[w'.db.payments[p].booking].pay.Paid? || Underway(w', p)
    {
      if p < |w.db.payments| && w.db.payments[p].status.Success? {
        OldCaptureAccounted(w, w', r, env, p);
      } else {
        assert r in w'.reqs && w'.reqs[r].PaidBooking? && w'.reqs[r].payment == p;
      }
    }
  }

  lemma SpawnKeepsAccounted(w: World, w': World, r: nat, req: Request)
    requires Accounted(w) && Spawns(w, w', r, req)
    ensures Accounted(w')
  {
    forall p | 0 <= p < |w.db.payments| && Underway(w, p) ensures Underway(w', p) {
      var s :| s in w.reqs && w.reqs[s].PaidBooking? && w.reqs[s].payment == p;
      assert s in w'.reqs && w'.reqs[s] == w.reqs[s];
    }
  }

  lemma NextKeepsAccounted(w: World, w': World)
    requires WorldInv(w) && Accounted(w) && Next(w, w')
    ensures Accounted(w')
  {
    if r, req :| Spawns(w, w', r, req) {
      SpawnKeepsAccounted(w, w', r, req);
    } else {
      var r, env :| Advances(w, w', r, env);
      AdvanceKeepsAccounted(w, w', r, env);
    }
  }

  lemma {:induction false} RunAccounted(run: seq<World>, k: nat)
    requires IsRun(run) && k < |run|
    ensures Accounted(run[k])
  {
    if k > 0 {
      RunAccounted(run, k - 1);
      RunKeepsInvariant(run, k - 1);
      assert StepAt(run, k - 1);
      NextKeepsAccounted(run[k - 1], run[k]);
    }
  }

  /** A booking has a captured payment exactly when it is paid or a request stands
      between the payment row and the booking row, however requests interleave or stop. */
  lemma CapturedIffPaidOrUnderway(run: seq<World>, k: nat, b: nat)
    requires IsRun(run) && k < |run| && b < |run[k].db.bookings|
    ensures HasPayment(run[k].db.payments, b, TransactionStatus.Success) <==>
              || run[k].db.bookings[b].pay.Paid?
              || exists r :: r in run[k].reqs && run[k].reqs[r].PaidBooking? && run[k].reqs[r].booking == b
  {
    RunAccounted(run, k);
    RunKeepsInvariant(run, k);
    assert BookingInv(run[k].db, b);
    if HasPayment(run[k].db.payments, b, TransactionStatus.Success) && !run[k].db.bookings[b].pay.Paid? {
      CapturedIsSettling(run[k], b);
    }
    if exists r :: r in run[k].reqs && run[k].reqs[r].PaidBooking? && run[k].reqs[r].booking == b {
      SettlingIsCaptured(run[k], b);
    }
  }

  lemma CapturedIsSettling(w: World, b: nat)
    requires WorldInv(w) && Accounted(w) && b < |w.db.bookings|
    requires HasPayment(w.db.payments, b, TransactionStatus.Success) && !w.db.bookings[b].pay.Paid?
    ensures exists r :: r in w.reqs && w.reqs[r].PaidBooking? && w.reqs[r].booking == b
  {
    var p :| 0 <= p < |w.db.payments| && w.db.payments[p].booking == b && w.db.payments[p].status.Success?;
    var r :| r in w.reqs && w.reqs[r].PaidBooking? && w.reqs[r].payment == p;
    assert Knows(w.db, w.reqs[r]);
  }

  lemma SettlingIsCaptured(w: World, b: nat)
    requires WorldInv(w)
    requires exists r :: r in w.reqs && w.reqs[r].PaidBooking? && w.reqs[r].booking == b
    ensures HasPayment(w.db.payments, b, TransactionStatus.Success)
  {
    var r :| r in w.reqs && w.reqs[r].PaidBooking? && w.reqs[r].booking == b;
    assert Knows(w.db, w.reqs[r]);
    assert w.db.payments[w.reqs[r].payment].booking == b;
  }

  // -------------------------------------------------------------------------
  // Two captured payments of one booking
  // -------------------------------------------------------------------------

  lemma NextGrowth(run: seq<World>, i: nat)
    requires IsRun(run) && i + 1 < |run|
    ensures var ps, ps' := run[i].db.payments, run[i + 1].db.payments;
            || |ps'| == |ps|
            || (|ps'| == |ps| + 1 && ps'[..|ps|] == ps && ps'[|ps|].status.Pending?)
  {
    assert StepAt(run, i);
    var w, w' := run[i], run[i + 1];
    if r, req :| Spawns(w, w', r, req) {
    } else {
      var r, env :| Advances(w, w', r, env);
    }
  }

  /** Every payment row was inserted by some step of the run. */
  lemma {:induction false} InsertedAt(run: seq<World>, k: nat, q: nat) returns (i: nat)
    requires IsRun(run) && k < |run| && q < |run[k].db.payments|
    ensures i < k && |run[i].db.payments| == q && q < |run[i + 1].db.payments|
  {
    NextGrowth(run, k - 1);
    if q < |run[k - 1].db.payments| {
      i := InsertedAt(run, k - 1, q);
    } else {
      i := k - 1;
    }
  }

  /** Of two payments of one booking both are captured exactly when the later one is
      and the earlier one was captured already when the later one was inserted. */
  lemma BothCapturedIff(run: seq<World>, i: nat, k: nat, p: nat, q: nat)
    requires IsRun(run) && i < k < |run| && p < q < |run[k].db.payments|
    requires run[k].db.payments[p].booking == run[k].db.payments[q].booking
    requires |run[i].db.payments| == q < |run[i + 1].db.payments|
    ensures run[k].db.payments[p].status.Success? && run[k].db.payments[q].status.Success? <==>
            run[i].db.payments[p].status.Success? && run[k].db.payments[q].status.Success?
  {
    NextGrowth(run, i);
    assert run[i + 1].db.payments[p] == run[i].db.payments[p];
    PaymentHistoryIsOneWay(run, i + 1, k, p);
    PaymentHistoryIsOneWay(run, i + 1, k, q);
    PaymentsNeverClash(run, i + 1, p, q);
    PaymentRowsFollowTheirVersion(run, i + 1, p);
  }
}
