/** Serial delivery of gateway events: only the first event of an attached order matters. */
module Delivery {
  import opened Wrappers
  import opened Domain
  import opened Schedule
  import opened Tables
  import opened Protocol
  import opened Invariants
  import opened Serial

  /** The part of the tables that events are meant to move. */
  datatype Core = Core(bookings: seq<Booking>, items: seq<Item>, payments: seq<Payment>)

  function CoreOf(db: Db): Core {
    Core(db.bookings, db.items, db.payments)
  }

  /** The payment that the event's order is attached to. */
  function Attached(ps: seq<Payment>, event: Event): Option<nat> {
    if HasText(event.orderId) then FindByOrder(ps, event.orderId.value) else None
  }

  /** What an event is meant to do: settle the payment of its order if that is
      still open, and then its booking. */
  function Effect(core: Core, event: Event): Core {
    var hit := Attached(core.payments, event);
    if hit.None? || !core.payments[hit.value].status.Processing? then core
    else
      var p := core.payments[hit.value];
      if p.booking >= |core.bookings| || !WellFormed(event) then core
      else if event.kind.Captured? && PayIdTaken(core.payments, event) then core
      else if event.kind.Captured? then
        var paid := core.(payments := core.payments[hit.value :=
          p.(txId := event.payId, status := TransactionStatus.Success, version := 3)]);
        if core.bookings[p.booking].pay.Paid? then paid
        else
          var items := UpdateItems(core.items, p.booking, ItemStatus.Confirmed);
          paid.(bookings := core.bookings[p.booking := core.bookings[p.booking].(
                              status := BookingStatus.Confirmed, pay := BookingPaymentStatus.Paid)],
                items := if items.Some? then items.value else core.items)
      else
        var failed := core.(payments := core.payments[hit.value :=
          p.(status := TransactionStatus.Failed, version := 3)]);
        if core.bookings[p.booking].pay.Paid? then failed
        else failed.(bookings := core.bookings[p.booking := core.bookings[p.booking].(
                                   pay := BookingPaymentStatus.Failed)])
  }

  /** A failed event, or a captured one with the gateway payment id it needs. */
  predicate WellFormed(event: Event) {
    event.kind.Failed? || (event.kind.Captured? && HasText(event.payId))
  }

  /** Some payment carries the event's gateway payment id already; the unique index
      then refuses to write it to another one. */
  predicate PayIdTaken(ps: seq<Payment>, event: Event) {
    exists p :: 0 <= p < |ps| && ps[p].txId == event.payId
  }

  // -------------------------------------------------------------------------
  // One event
  // -------------------------------------------------------------------------

  lemma MarkSuccessOutcome(db: Db, event: Event, id: nat)
    requires DbInv(db) && event.kind.Captured? && WellFormed(event)
    requires id < |db.payments| && db.payments[id].status.Processing?
    ensures MarkSuccess(db.payments, id, event.payId.value, db.payments[id].version)
         == if PayIdTaken(db.payments, event) then Err(ConstraintViolation)
            else Ok(db.payments[id := db.payments[id].(txId := event.payId, status := TransactionStatus.Success,
                                                       version := 3)])
  {
    var row := db.payments[id];
    var after := db.payments[id := row.(txId := event.payId, status := TransactionStatus.Success, version := 3)];
    assert RowOk(row);
    if PayIdTaken(db.payments, event) {
      var p :| 0 <= p < |db.payments| && db.payments[p].txId == event.payId;
      assert p != id && after[p].txId == after[id].txId;
    }
  }

  lemma MarkFailedCommits(db: Db, id: nat)
    requires DbInv(db) && id < |db.payments| && db.payments[id].status.Processing?
    ensures MarkFailed(db.payments, id, db.payments[id].version)
         == Ok(db.payments[id := db.payments[id].(status := TransactionStatus.Failed, version := 3)])
  {
    assert RowOk(db.payments[id]);
  }

  /** A capture after its payment row is written. */
  lemma CaptureTail(db: Db, req: Request, env: Env)
    requires req.PaidBooking? && Owned(db.bookings, req.booking, req.customer)
    ensures var db' := Drive(db, req, env).0;
            && db'.payments == db.payments && db'.events == db.events
            && (if db.bookings[req.booking].pay.Paid? then db'.bookings == db.bookings && db'.items == db.items
                else
                  var items := UpdateItems(db.items, req.booking, ItemStatus.Confirmed);
                  && db'.bookings == BookingPaid(db.bookings, req.booking)
                  && db'.items == if items.Some? then items.value else db.items)
  {
    var (db1, req1) := Step(db, req, env);
    if req1.PaidItems? {
      var (db2, req2) := Step(db1, req1, env);
      if req2.PaidTimeline? {
        var (db3, req3) := Step(db2, req2, env);
        assert Drive(db2, req2, env) == Drive(db3, req3, env);
        DispatchTail(db3, req3, env);
      }
      assert Drive(db1, req1, env) == Drive(db2, req2, env);
    } else {
      DispatchTail(db1, req1, env);
    }
  }

  lemma DispatchTail(db: Db, req: Request, env: Env)
    requires req.Dispatch?
    ensures Drive(db, req, env).0 == db.(confirmations := Drive(db, req, env).0.confirmations)
  {
    assert Drive(db, req, env) == Step(db, req, env);
  }

  lemma FailureTail(db: Db, req: Request, env: Env)
    requires req.FailBooking? && Owned(db.bookings, req.booking, req.customer)
    ensures var db' := Drive(db, req, env).0;
            && db' == db.(bookings := db'.bookings)
            && db'.bookings == if db.bookings[req.booking].pay.Paid? then db.bookings
                               else BookingPaymentFailed(db.bookings, req.booking)
  {
    assert Drive(db, req, env) == Step(db, req, env);
  }

  /** The handler once it holds an up-to-date snapshot of the payment. */
  lemma MarkTail(db: Db, event: Event, id: nat, env: Env)
    requires DbInv(db) && WellFormed(event) && id < |db.payments|
    requires db.payments[id].status.Processing? ==> Attached(db.payments, event) == Some(id)
    ensures var req := HookBooking(event, PaymentRecord(id, db.payments[id]));
            var db' := Drive(db, req, env).0;
            && db'.events == db.events
            && CoreOf(db') == if db.payments[id].status.Processing? then Effect(CoreOf(db), event) else CoreOf(db)
  {
    var rec := PaymentRecord(id, db.payments[id]);
    var customer := db.bookings[rec.row.booking].customer;
    var req := HookMark(event, rec, customer);
    assert Drive(db, HookBooking(event, rec), env) == Drive(db, req, env);
    var (db', req') := Step(db, req, env);
    assert Drive(db, req, env) == Drive(db', req', env);
    if rec.row.status.Processing? {
      if event.kind.Captured? {
        MarkSuccessOutcome(db, event, id);
        if !PayIdTaken(db.payments, event) {
          assert req' == PaidBooking(id, rec.row.booking, customer, event.payId.value);
          CaptureTail(db', req', env);
        }
      } else {
        MarkFailedCommits(db, id);
        assert req' == FailBooking(id, rec.row.booking, customer);
        FailureTail(db', req', env);
      }
    } else {
      assert req'.Finished? && db' == db;
    }
  }

  /** Delivering one event: recorded once, and with the intended effect the first time. */
  lemma DeliverOne(db: Db, event: Event, env: Env)
    requires DbInv(db)
    ensures var db' := Drive(db, HookStart(event), env).0;
            && db'.events == db.events + {event.id}
            && CoreOf(db') == if event.id in db.events then CoreOf(db) else Effect(CoreOf(db), event)
  {
    if event.id in db.events {
      assert Drive(db, HookStart(event), env).0 == db;
      assert db.events + {event.id} == db.events;
    } else {
      var db1 := db.(events := db.events + {event.id});
      EventKeeps(db, event.id);
      if event.kind.Other? {
        DriveEnds(db, HookStart(event), env);
      } else {
        assert Drive(db, HookStart(event), env) == Drive(db1, HookFind(event), env);
        DeliverFound(db1, event, env);
      }
    }
  }

  /** The payment handlers from the lookup on. */
  lemma DeliverFound(db: Db, event: Event, env: Env)
    requires DbInv(db) && !event.kind.Other?
    ensures var db' := Drive(db, HookFind(event), env).0;
            db'.events == db.events && CoreOf(db') == Effect(CoreOf(db), event)
  {
    var hit := Attached(db.payments, event);
    if !WellFormed(event) || (!HasText(event.orderId) && !HasText(event.payId)) {
      DriveEnds(db, HookFind(event), env);
    } else if hit.Some? {
      assert Drive(db, HookFind(event), env)
          == Drive(db, HookBooking(event, PaymentRecord(hit.value, db.payments[hit.value])), env);
      MarkTail(db, event, hit.value, env);
    } else {
      var req := HookFindTx(event);
      assert Drive(db, HookFind(event), env) == Drive(db, req, env);
      var byTx := if HasText(event.payId) then FindByTransaction(db.payments, event.payId.value) else None;
      if byTx.Some? {
        assert RowOk(db.payments[byTx.value]);
        assert Drive(db, req, env)
            == Drive(db, HookBooking(event, PaymentRecord(byTx.value, db.payments[byTx.value])), env);
        MarkTail(db, event, byTx.value, env);
      } else {
        DriveEnds(db, req, env);
      }
    }
  }

  // -------------------------------------------------------------------------
  // Lists of events
  // -------------------------------------------------------------------------

  datatype Delivered = Delivered(event: Event, env: Env)

  function Deliver(db: Db, list: seq<Delivered>): Db
    decreases |list|
  {
    if list == [] then db
    else Deliver(Drive(db, HookStart(list[0].event), list[0].env).0, list[1..])
  }

  /** The intended effects in turn; an event whose id is recorded already has none. */
  function Effects(core: Core, recorded: set<string>, list: seq<Delivered>): Core
    decreases |list|
  {
    if list == [] then core
    else
      var event := list[0].event;
      Effects(if event.id in recorded then core else Effect(core, event), recorded + {event.id}, list[1..])
  }

  /** Serial delivery has exactly the intended effects, one after the other, whatever
      the tables have recorded before. */
  lemma {:induction false} DeliverHasEffects(db: Db, list: seq<Delivered>)
    requires DbInv(db) && forall i :: 0 <= i < |list| ==> list[i].env.Ok()
    ensures CoreOf(Deliver(db, list)) == Effects(CoreOf(db), db.events, list)
    decreases |list|
  {
    if list != [] {
      DeliverOne(db, list[0].event, list[0].env);
      DriveKeeps(db, HookStart(list[0].event), list[0].env);
      DeliverHasEffects(Drive(db, HookStart(list[0].event), list[0].env).0, list[1..]);
    }
  }

  /** An effect leaves the order ids of payments where they are. */
  lemma EffectKeepsOrders(core: Core, event: Event)
    ensures var core' := Effect(core, event);
            && |core'.payments| == |core.payments|
            && forall p :: 0 <= p < |core.payments| ==> core'.payments[p].orderId == core.payments[p].orderId
  {
  }

  lemma {:induction false} FindByOrderSame(ps: seq<Payment>, ps': seq<Payment>, orderId: string)
    requires |ps| == |ps'| && forall p :: 0 <= p < |ps| ==> ps[p].orderId == ps'[p].orderId
    ensures FindByOrder(ps, orderId) == FindByOrder(ps', orderId)
  {
    if ps == [] {
    } else {
      FindByOrderSame(ps[..|ps| - 1], ps'[..|ps| - 1], orderId);
    }
  }

  /** Events no handler acts on: of another kind, a capture without a payment id, or
      for an order that is not attached. */
  predicate Ignored(ps: seq<Payment>, event: Event) {
    !WellFormed(event) || Attached(ps, event).None?
  }

  /** The events that are handled, were not recorded before and whose order is
      attached, each order's first one only. */
  function FirstPerOrder(
    ps: seq<Payment>, recorded: set<string>, list: seq<Delivered>, seen: set<string>): seq<Delivered>
    decreases |list|
  {
    if list == [] then []
    else
      var event := list[0].event;
      if event.id in recorded || Ignored(ps, event) || event.orderId.value in seen then
        FirstPerOrder(ps, recorded + {event.id}, list[1..], seen)
      else [list[0]] + FirstPerOrder(ps, recorded + {event.id}, list[1..], seen + {event.orderId.value})
  }

  /** Orders seen so far are closed. */
  ghost predicate SeenClosed(ps: seq<Payment>, seen: set<string>) {
    forall p :: 0 <= p < |ps| && ps[p].orderId.Some? && ps[p].orderId.value in seen ==> !ps[p].status.Processing?
  }

  lemma EffectKeepsClosed(core: Core, event: Event, seen: set<string>)
    requires SeenClosed(core.payments, seen)
    ensures SeenClosed(Effect(core, event).payments, seen)
  {
  }

  ghost predicate CoreOk(core: Core) {
    && (forall p :: 0 <= p < |core.payments| ==>
          RowOk(core.payments[p]) && core.payments[p].booking < |core.bookings|)
    && (forall p, q :: 0 <= p < q < |core.payments| && core.payments[p].orderId.Some? ==>
          core.payments[p].orderId != core.payments[q].orderId)
  }

  lemma EffectKeepsCoreOk(core: Core, event: Event)
    requires CoreOk(core)
    ensures CoreOk(Effect(core, event))
  {
    EffectKeepsOrders(core, event);
  }

  /** A gateway payment id belongs to one order: in the tables and in the list. */
  ghost predicate OneOrderPerPayId(ps: seq<Payment>, list: seq<Delivered>) {
    && (forall i, p :: 0 <= i < |list| && 0 <= p < |ps| ==> SameOrder(list[i].event, ps[p].txId, ps[p].orderId))
    && (forall i, j :: 0 <= i < |list| && 0 <= j < |list| ==>
          SameOrder(list[i].event, list[j].event.payId, list[j].event.orderId))
  }

  predicate SameOrder(event: Event, payId: Option<string>, orderId: Option<string>) {
    HasText(event.payId) && event.payId == payId && HasText(event.orderId) && HasText(orderId) ==>
      event.orderId == orderId
  }

  lemma EffectKeepsOneOrder(core: Core, list: seq<Delivered>)
    requires CoreOk(core) && list != [] && OneOrderPerPayId(core.payments, list)
    ensures OneOrderPerPayId(Effect(core, list[0].event).payments, list[1..])
    ensures OneOrderPerPayId(core.payments, list[1..])
  {
  }

  /** A handled event closes the payment of its order. */
  lemma EffectCloses(core: Core, list: seq<Delivered>)
    requires CoreOk(core) && list != [] && OneOrderPerPayId(core.payments, list)
    requires WellFormed(list[0].event) && Attached(core.payments, list[0].event).Some?
    ensures var id := Attached(core.payments, list[0].event).value;
            !Effect(core, list[0].event).payments[id].status.Processing?
  {
    assert forall p :: 0 <= p < |core.payments| ==>
      RowOk(core.payments[p]) && SameOrder(list[0].event, core.payments[p].txId, core.payments[p].orderId);
  }

  lemma {:induction false} FirstPerOrderSame(
    ps: seq<Payment>, ps': seq<Payment>, recorded: set<string>, list: seq<Delivered>, seen: set<string>)
    requires |ps| == |ps'| && forall p :: 0 <= p < |ps| ==> ps[p].orderId == ps'[p].orderId
    ensures FirstPerOrder(ps, recorded, list, seen) == FirstPerOrder(ps', recorded, list, seen)
    decreases |list|
  {
    if list != [] {
      var event := list[0].event;
      if HasText(event.orderId) {
        FindByOrderSame(ps, ps', event.orderId.value);
        FirstPerOrderSame(ps, ps', recorded + {event.id}, list[1..], seen + {event.orderId.value});
      }
      FirstPerOrderSame(ps, ps', recorded + {event.id}, list[1..], seen);
    }
  }

  lemma {:induction false} LaterEffectsVanish(
    core: Core, recorded: set<string>, fewer: set<string>, list: seq<Delivered>, seen: set<string>)
    requires CoreOk(core) && SeenClosed(core.payments, seen) && OneOrderPerPayId(core.payments, list)
    requires fewer <= recorded
    ensures Effects(core, recorded, list) == Effects(core, fewer, FirstPerOrder(core.payments, recorded, list, seen))
    decreases |list|
  {
    if list != [] {
      var event := list[0].event;
      var recorded' := recorded + {event.id};
      EffectKeepsOneOrder(core, list);
      if event.id in recorded || Ignored(core.payments, event) || event.orderId.value in seen {
        assert event.id in recorded || Effect(core, event) == core;
        LaterEffectsVanish(core, recorded', fewer, list[1..], seen);
      } else {
        var core' := Effect(core, event);
        var seen' := seen + {event.orderId.value};
        EffectKeepsCoreOk(core, event);
        EffectKeepsOrders(core, event);
        EffectKeepsClosed(core, event, seen);
        EffectCloses(core, list);
        assert SeenClosed(core'.payments, seen');
        LaterEffectsVanish(core', recorded', fewer + {event.id}, list[1..], seen');
        FirstPerOrderSame(core.payments, core'.payments, recorded', list[1..], seen');
        var rest := FirstPerOrder(core.payments, recorded', list[1..], seen');
        assert ([list[0]] + rest)[1..] == rest;
      }
    }
  }

  lemma {:induction false} FirstPerOrderIsPart(
    ps: seq<Payment>, recorded: set<string>, list: seq<Delivered>, seen: set<string>, i: nat)
    requires i < |FirstPerOrder(ps, recorded, list, seen)|
    ensures FirstPerOrder(ps, recorded, list, seen)[i] in list
    decreases |list|
  {
    var event := list[0].event;
    var recorded' := recorded + {event.id};
    if event.id in recorded || Ignored(ps, event) || event.orderId.value in seen {
      FirstPerOrderIsPart(ps, recorded', list[1..], seen, i);
    } else if i > 0 {
      FirstPerOrderIsPart(ps, recorded', list[1..], seen + {event.orderId.value}, i - 1);
    }
  }

  /** Any serial list of gateway events, delivered to any tables in order, leaves
      bookings, items and payments as if only the first new handled event of each
      attached order had been delivered, in the same relative order. */
  lemma OnlyFirstEventsMatter(db: Db, list: seq<Delivered>)
    requires DbInv(db) && OneOrderPerPayId(db.payments, list)
    requires forall i :: 0 <= i < |list| ==> list[i].env.Ok()
    ensures CoreOf(Deliver(db, list)) == CoreOf(Deliver(db, FirstPerOrder(db.payments, db.events, list, {})))
  {
    var firsts := FirstPerOrder(db.payments, db.events, list, {});
    forall i | 0 <= i < |firsts|
      ensures firsts[i] in list
    {
      FirstPerOrderIsPart(db.payments, db.events, list, {}, i);
    }
    DeliverHasEffects(db, list);
    DeliverHasEffects(db, firsts);
    LaterEffectsVanish(CoreOf(db), db.events, db.events, list, {});
  }
}
