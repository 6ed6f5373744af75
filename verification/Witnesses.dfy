/** Runs from the empty tables that reach the states a maintainer may not expect. */
module Witnesses {
  import opened Wrappers
  import opened Domain
  import opened Money
  import opened Schedule
  import opened Tables
  import opened Protocol
  import opened Invariants
  import opened ProtocolSafety
  import opened Serial
  import opened Outcomes
  import opened Delivery
  import opened Customers

  // -------------------------------------------------------------------------
  // Reached worlds
  // -------------------------------------------------------------------------

  /** Some run from the empty tables ends in this world. */
  ghost predicate Reached(w: World) {
    exists run :: EndsIn(run, w)
  }

  ghost predicate EndsIn(run: seq<World>, w: World) {
    IsRun(run) && run[|run| - 1] == w
  }

  lemma StartReached()
    ensures Reached(START)
  {
    assert EndsIn([START], START);
  }

  lemma NextReached(w: World, w': World)
    requires Reached(w) && Next(w, w')
    ensures Reached(w')
  {
    var run :| EndsIn(run, w);
    var run' := run + [w'];
    forall i | 0 <= i < |run'| - 1 ensures StepAt(run', i) {
      if i < |run| - 1 {
        assert StepAt(run, i);
      }
    }
    assert EndsIn(run', w');
  }

  lemma ReachedInOrder(w: World)
    requires Reached(w)
    ensures DbInv(w.db)
  {
    var run :| EndsIn(run, w);
    RunKeepsInvariant(run, |run| - 1);
  }

  /** A new request arrives and is not run yet. */
  lemma Arrives(w: World, r: nat, req: Request) returns (w': World)
    requires Reached(w) && r !in w.reqs && Initial(req)
    ensures Reached(w') && w' == w.(reqs := w.reqs[r := req])
  {
    w' := w.(reqs := w.reqs[r := req]);
    assert Spawns(w, w', r, req);
    NextReached(w, w');
  }

  /** One step of a request. */
  lemma Moves(w: World, r: nat, env: Env) returns (w': World)
    requires Reached(w) && r in w.reqs && env.Ok()
    ensures var (db, req) := Step(w.db, w.reqs[r], env);
            w' == World(db, w.reqs[r := req])
    ensures Reached(w')
  {
    var (db, req) := Step(w.db, w.reqs[r], env);
    w' := World(db, w.reqs[r := req]);
    assert Advances(w, w', r, env);
    NextReached(w, w');
  }

  /** A new request arrives and runs to its end. */
  lemma Completes(w: World, r: nat, req: Request, env: Env) returns (w': World)
    requires Reached(w) && r !in w.reqs && Initial(req) && env.Ok()
    ensures var (db, done) := Drive(w.db, req, env);
            w' == World(db, w.reqs[r := done])
    ensures Reached(w') && DbInv(w.db) && DbInv(w'.db)
  {
    ReachedInOrder(w);
    var arrived := Arrives(w, r, req);
    var run :| EndsIn(run, arrived);
    var run' := DriveExtendsRun(run, r, env);
    w' := run'[|run'| - 1];
    assert w.reqs[r := req][r := Drive(w.db, req, env).1] == w.reqs[r := Drive(w.db, req, env).1];
    assert EndsIn(run', w');
    ReachedInOrder(w');
  }

  // -------------------------------------------------------------------------
  // The stages of the stories
  // -------------------------------------------------------------------------

  const ENV := Env("o", true, Queued, 0, 60)
  const ENV2 := Env("p", true, Queued, 0, 60)

  const FIRST := CreateInput(0, 0, 100, [Line(50, 30)])
  const SECOND := CreateInput(1, 0, 100, [Line(50, 30)])

  const CAPTURE := Event("e", EventKind.Captured, Some("t"), Some("o"))
  const CAPTURE2 := Event("f", EventKind.Captured, Some("u"), Some("p"))
  const FAILURE := Event("g", EventKind.Failed, Some("t"), Some("o"))

  function BookingRow(customer: nat, status: BookingStatus, pay: BookingPaymentStatus): Booking {
    Booking(customer, status, pay, 100, 130, 50)
  }

  function ItemRow(booking: nat, status: ItemStatus): Item {
    Item(booking, 0, 100, 130, 50, status)
  }

  const OPEN := Payment(0, Some("o"), None, 50, TransactionStatus.Processing, 2)

  const CREATED := Db(
    [BookingRow(0, BookingStatus.Pending, BookingPaymentStatus.Pending)], [ItemRow(0, ItemStatus.Pending)],
    [], {}, [TimelineEntry(0, TimelineEvent.Created)], [], [])

  const ORDERED := CREATED.(payments := [OPEN], orders := [GatewayOrder("o", 0, 50)])

  lemma FirstLayout(booking: nat)
    ensures Layout(booking, 0, 100, [Line(50, 30)]) == [ItemRow(booking, ItemStatus.Pending)]
    ensures SumMinutes([Line(50, 30)]) == 30 && SumLinePrices([Line(50, 30)]) == 50
  {
    var line := Line(50, 30);
    assert [line][1..] == [];
    assert SumMinutes([]) == 0 && SumLinePrices([]) == 0;
    assert Layout(booking, 0, 130, []) == [];
  }

  lemma InsertOne(items: seq<Item>, row: Item)
    ensures InsertAll(items, [row]) == if Refused(items, row) then None else Some(items + [row])
  {
    assert [row][1..] == [];
    assert InsertAll(items + [row], []) == Some(items + [row]);
  }

  lemma CreateFirst()
    ensures Drive(EMPTY_DB, CreateCheckSlot(FIRST), ENV) == (CREATED, Finished(Creating, Booked(0)))
  {
    FirstLayout(0);
    InsertOne([], ItemRow(0, ItemStatus.Pending));
    assert !SlotTaken([], 0, 100, 130) && !DoubleBooked(EMPTY_DB, 0, 100, 130);
    assert Drive(EMPTY_DB, CreateCheckSlot(FIRST), ENV) == Drive(EMPTY_DB, CreateCheckCustomer(FIRST), ENV);
    assert Drive(EMPTY_DB, CreateCheckCustomer(FIRST), ENV) == Drive(EMPTY_DB, CreateInsert(FIRST), ENV);
    DriveEnds(EMPTY_DB, CreateInsert(FIRST), ENV);
    assert [] + [ItemRow(0, ItemStatus.Pending)] == [ItemRow(0, ItemStatus.Pending)];
    var row := BookingRow(0, BookingStatus.Pending, BookingPaymentStatus.Pending);
    assert [] + [row] == [row];
    assert [] + [TimelineEntry(0, TimelineEvent.Created)] == [TimelineEntry(0, TimelineEvent.Created)];
    assert CreateBooking(EMPTY_DB, FIRST) == Ok(CREATED);
  }

  const PENDING := Payment(0, None, None, 50, TransactionStatus.Pending, 1)

  lemma SingleRow(p: Payment)
    requires p.amount > 0
    ensures Commit([p]) == Ok([p])
  {
  }

  lemma FirstRows()
    ensures CreatePending([], 0, 50) == Ok([PENDING]) && MarkProcessing([PENDING], 0, "o", 1) == Ok([OPEN])
  {
    SingleRow(PENDING);
    SingleRow(OPEN);
    assert [] + [PENDING] == [PENDING];
    assert [PENDING][0 := OPEN] == [OPEN];
  }

  lemma PayFirst()
    ensures Drive(CREATED, PayStart(0, 0), ENV)
         == (ORDERED, Finished(Paying, Offered(Intent(0, "o", 50, TransactionStatus.Processing))))
  {
    assert Drive(CREATED, PayStart(0, 0), ENV) == Drive(CREATED, PayFind(0, 50), ENV);
    InsertFirst();
    OrderFirst();
  }

  lemma InsertFirst()
    ensures Drive(CREATED, PayFind(0, 50), ENV)
         == Drive(CREATED.(payments := [PENDING]), PayOrder(PaymentRecord(0, PENDING), 50), ENV)
  {
    FirstRows();
    assert Step(CREATED, PayFind(0, 50), ENV) == (CREATED, PayCreate(0, 50));
    assert Step(CREATED, PayCreate(0, 50), ENV)
        == (CREATED.(payments := [PENDING]), PayOrder(PaymentRecord(0, PENDING), 50));
    assert Drive(CREATED, PayFind(0, 50), ENV) == Drive(CREATED, PayCreate(0, 50), ENV);
  }

  lemma OrderFirst()
    ensures Drive(CREATED.(payments := [PENDING]), PayOrder(PaymentRecord(0, PENDING), 50), ENV)
         == (ORDERED, Finished(Paying, Offered(Intent(0, "o", 50, TransactionStatus.Processing))))
  {
    var db := CREATED.(payments := [PENDING]);
    var db' := db.(orders := [GatewayOrder("o", 0, 50)]);
    ToNumberExactRange(50);
    FirstRows();
    assert [] + [GatewayOrder("o", 0, 50)] == [GatewayOrder("o", 0, 50)];
    assert Drive(db, PayOrder(PaymentRecord(0, PENDING), 50), ENV)
        == Drive(db', PayMark(PaymentRecord(0, PENDING), "o"), ENV);
    DriveEnds(db', PayMark(PaymentRecord(0, PENDING), "o"), ENV);
  }

  lemma OrderedReached() returns (w: World)
    ensures Reached(w) && w.db == ORDERED && DbInv(ORDERED) && w.reqs.Keys == {0, 1}
  {
    StartReached();
    CreateFirst();
    w := Completes(START, 0, CreateCheckSlot(FIRST), ENV);
    PayFirst();
    w := Completes(w, 1, PayStart(0, 0), ENV);
  }

  // -------------------------------------------------------------------------
  // Cancelled, rebooked, captured
  // -------------------------------------------------------------------------

  /** The first booking cancelled, and then a second one of the same time created. */
  ghost predicate TimeGivenAway(db: Db) {
    && DbInv(db) && db.payments == [OPEN] && db.events == {}
    && |db.bookings| == 2 && |db.items| == 2
    && !db.bookings[0].pay.Paid?
    && db.items[0] == ItemRow(0, ItemStatus.Cancelled) && db.items[1] == ItemRow(1, ItemStatus.Pending)
  }

  const CALLED_OFF := ORDERED.(
    bookings := [BookingRow(0, BookingStatus.Cancelled, BookingPaymentStatus.Pending)],
    items := [ItemRow(0, ItemStatus.Cancelled)],
    timeline := [TimelineEntry(0, TimelineEvent.Created), TimelineEntry(0, TimelineEvent.Cancelled)])

  lemma CancelFirst()
    requires DbInv(ORDERED)
    ensures Drive(ORDERED, CancelStart(0, 0), ENV).0 == CALLED_OFF
  {
    CancelNeverRefused(ORDERED.items, 0);
    assert WithStatus(ORDERED.items, 0, ItemStatus.Cancelled, 0) == [ItemRow(0, ItemStatus.Cancelled)];
    assert Drive(ORDERED, CancelStart(0, 0), ENV) == Drive(ORDERED, CancelWrite(0, 0), ENV);
    DriveEnds(ORDERED, CancelWrite(0, 0), ENV);
  }

  lemma GivenAwayReached() returns (w: World)
    ensures Reached(w) && TimeGivenAway(w.db) && 4 !in w.reqs
  {
    w := OrderedReached();
    CancelFirst();
    w := Completes(w, 2, CancelStart(0, 0), ENV);
    FirstLayout(1);
    CreateBooksIffFree(CALLED_OFF, SECOND, ENV);
    CreateKeepsPayments(CALLED_OFF, SECOND, ENV);
    w := Completes(w, 3, CreateCheckSlot(SECOND), ENV);
  }

  /** A create touches neither payments nor events nor the bookings there are. */
  lemma CreateKeepsPayments(db: Db, input: CreateInput, env: Env)
    ensures var db' := Drive(db, CreateCheckSlot(input), env).0;
            db'.payments == db.payments && db'.events == db.events && db.bookings <= db'.bookings
  {
    var (db1, req1) := Step(db, CreateCheckSlot(input), env);
    if req1.CreateCheckCustomer? {
      var (db2, req2) := Step(db1, req1, env);
      assert Drive(db1, req1, env) == Drive(db2, req2, env);
      if req2.CreateInsert? {
        DriveEnds(db2, req2, env);
      }
    }
    assert Drive(db, CreateCheckSlot(input), env) == Drive(db1, req1, env);
  }

  /** Cancelled, rebooked by someone else, then captured: the booking ends confirmed
      and paid while its item is not active, and the capture throws. */
  lemma RebookedCaptureReached() returns (w: World)
    ensures Reached(w)
    ensures && |w.db.bookings| == 2 && |w.db.items| == 2
            && w.db.bookings[0].status.Confirmed? && w.db.bookings[0].pay.Paid?
            && w.db.items[0].booking == 0 && !Active(w.db.items[0])
            && w.db.items[1].booking == 1 && Active(w.db.items[1])
            && 4 in w.reqs && w.reqs[4] == Finished(Capturing, Threw(ExclusionViolation))
  {
    w := GivenAwayReached();
    var db := w.db;
    assert SameTime(db.items[0], db.items[1]) && Rebooked(db.items, 0);
    assert Attached(db.payments, CAPTURE) == Some(0) by {
      assert FindByOrder([OPEN], "o") == Some(0);
    }
    CaptureOutcome(db, CAPTURE, ENV);
    w := Completes(w, 4, HookStart(CAPTURE), ENV);
  }

  // -------------------------------------------------------------------------
  // Failed, then captured or cancelled
  // -------------------------------------------------------------------------

  /** A failure event leaves the payment and the booking failed. */
  lemma FailedReached() returns (w: World)
    ensures Reached(w) && w.reqs.Keys == {0, 1, 2}
    ensures && DbInv(w.db) && w.db.events == {"g"} && |w.db.payments| == 1 && |w.db.bookings| == 1
            && w.db.payments[0] == OPEN.(status := TransactionStatus.Failed, version := 3)
            && w.db.bookings[0] == BookingRow(0, BookingStatus.Pending, BookingPaymentStatus.Failed)
  {
    w := OrderedReached();
    DeliverOne(ORDERED, FAILURE, ENV);
    assert FindByOrder([OPEN], "o") == Some(0);
    assert Attached(ORDERED.payments, FAILURE) == Some(0);
    w := Completes(w, 2, HookStart(FAILURE), ENV);
  }

  /** Failed and then captured: the captured handler reaches the illegal transition. */
  lemma FailedThenCapturedReached() returns (w: World)
    ensures Reached(w)
    ensures && |w.db.payments| == 1 && w.db.payments[0].status.Failed?
            && 3 in w.reqs
            && w.reqs[3] == Finished(Capturing, Threw(IllegalTransition(TransactionStatus.Failed, TransactionStatus.Success)))
  {
    w := FailedReached();
    assert Attached(w.db.payments, CAPTURE) == Some(0);
    OtherEventsOutcome(w.db, CAPTURE, ENV);
    w := Completes(w, 3, HookStart(CAPTURE), ENV);
  }

  /** Failed, then cancelled, then paid again: a cancelled booking gets an open order. */
  lemma CancelledButPayableReached() returns (w: World)
    ensures Reached(w)
    ensures && |w.db.bookings| == 1 && w.db.bookings[0].status.Cancelled?
            && OpenOrder(w.db.payments, 0)
            && 4 in w.reqs && w.reqs[4].Finished? && w.reqs[4].outcome.Offered?
  {
    w := FailedReached();
    CancelFreesItems(w.db, 0, 0, ENV);
    w := Completes(w, 3, CancelStart(0, 0), ENV);
    PayOffersIff(w.db, 0, 0, ENV2);
    w := Completes(w, 4, PayStart(0, 0), ENV2);
  }

  // -------------------------------------------------------------------------
  // Captured twice
  // -------------------------------------------------------------------------

  const CAPTURED := OPEN.(txId := Some("t"), status := TransactionStatus.Success, version := 3)

  /** A capture stops after its payment row. */
  lemma CapturedRowReached() returns (w: World)
    ensures Reached(w) && w.reqs.Keys == {0, 1, 2}
    ensures w.db == ORDERED.(events := {"e"}, payments := [CAPTURED])
  {
    w := OrderedReached();
    var rec := PaymentRecord(0, OPEN);
    assert FindByOrder([OPEN], "o") == Some(0);
    assert [OPEN][0 := CAPTURED] == [CAPTURED];
    w := Arrives(w, 2, HookStart(CAPTURE));
    w := Moves(w, 2, ENV);
    assert w.reqs[2] == HookFind(CAPTURE);
    w := Moves(w, 2, ENV);
    assert w.reqs[2] == HookBooking(CAPTURE, rec);
    w := Moves(w, 2, ENV);
    assert w.reqs[2] == HookMark(CAPTURE, rec, 0);
    w := Moves(w, 2, ENV);
  }

  /** A pay request captures nothing and drops no row. */
  lemma {:induction false} PayCapturesNothing(db: Db, req: Request, env: Env)
    requires IsPay(req) || (req.Finished? && req.kind.Paying?)
    ensures var db' := Drive(db, req, env).0;
            && |db.payments| <= |db'.payments|
            && (forall p :: 0 <= p < |db'.payments| && db'.payments[p].status.Success? ==>
                  p < |db.payments| && db'.payments[p] == db.payments[p])
            && db'.events == db.events
    decreases Rank(req)
  {
    if IsPay(req) {
      StepLowersRank(db, req, env);
      var (db', req') := Step(db, req, env);
      PayCapturesNothing(db', req', env);
    }
  }

  /** Paying again once the first payment is captured but not the booking. */
  lemma PaidAgain(db: Db) returns (q: nat)
    requires DbInv(db) && db == ORDERED.(events := {"e"}, payments := [CAPTURED])
    ensures var (db', req') := Drive(db, PayStart(0, 0), ENV2);
            && db'.events == {"e"} && |db'.payments| > 0 && db'.payments[0] == CAPTURED
            && 0 < q < |db'.payments| && db'.payments[q].booking == 0
            && db'.payments[q].status.Processing? && db'.payments[q].orderId == Some("p")
            && (forall p :: 0 <= p < |db'.payments| && db'.payments[p].status.Success? ==> p == 0)
  {
    var (db', req') := Drive(db, PayStart(0, 0), ENV2);
    PayCapturesNothing(db, PayStart(0, 0), ENV2);
    assert !OpenOrder(db.payments, 0);
    PayOffersIff(db, 0, 0, ENV2);
    DriveKeeps(db, PayStart(0, 0), ENV2);
    q := req'.outcome.intent.payment;
    assert RowEvolves(db.payments[0], db'.payments[0]);
  }

  lemma PaidAgainReached() returns (w: World, q: nat)
    ensures Reached(w) && w.reqs.Keys == {0, 1, 2, 3} && DbInv(w.db) && w.db.events == {"e"}
    ensures && 0 < q < |w.db.payments| && w.db.payments[q].booking == 0
            && w.db.payments[0] == CAPTURED
            && w.db.payments[q].status.Processing? && w.db.payments[q].orderId == Some("p")
            && !PayIdTaken(w.db.payments, CAPTURE2)
  {
    w := CapturedRowReached();
    ReachedInOrder(w);
    q := PaidAgain(w.db);
    w := Completes(w, 3, PayStart(0, 0), ENV2);
    assert forall p :: 0 <= p < |w.db.payments| ==> RowOk(w.db.payments[p]);
  }

  /** Captured up to the payment row, paid again in between, and captured again: one
      booking with two captured payments. */
  lemma TwoCapturesReached() returns (w: World)
    ensures Reached(w)
    ensures exists p, q :: 0 <= p < q < |w.db.payments| && BothCaptured(w.db.payments[p], w.db.payments[q], 0)
  {
    var q: nat;
    w, q := PaidAgainReached();
    var db := w.db;
    assert Attached(db.payments, CAPTURE2) == Some(q) by {
      assert FindByOrder(db.payments, "p").Some?;
    }
    CaptureOutcome(db, CAPTURE2, ENV2);
    w := Completes(w, 4, HookStart(CAPTURE2), ENV2);
    assert BothCaptured(w.db.payments[0], w.db.payments[q], 0);
  }

  // -------------------------------------------------------------------------
  // A customer in two places
  // -------------------------------------------------------------------------

  const ELSEWHERE := CreateInput(0, 1, 100, [Line(50, 30)])

  function ItemElsewhere(status: ItemStatus): Item {
    Item(1, 1, 100, 130, 50, status)
  }

  lemma ElsewhereLayout()
    ensures Layout(1, 1, 100, [Line(50, 30)]) == [ItemElsewhere(ItemStatus.Pending)]
    ensures SumMinutes([Line(50, 30)]) == 30
  {
    var line := Line(50, 30);
    assert [line][1..] == [];
    assert Layout(1, 1, 130, []) == [] && SumMinutes([]) == 0;
  }

  lemma ElsewhereChecked()
    ensures Step(EMPTY_DB, CreateCheckSlot(ELSEWHERE), ENV) == (EMPTY_DB, CreateCheckCustomer(ELSEWHERE))
    ensures Step(EMPTY_DB, CreateCheckCustomer(ELSEWHERE), ENV) == (EMPTY_DB, CreateInsert(ELSEWHERE))
  {
  }

  /** The first booking is created while another create of the customer has passed its checks. */
  lemma PassedBothReached() returns (w: World)
    ensures Reached(w) && w.db == CREATED && 0 in w.reqs && w.reqs[0] == CreateInsert(ELSEWHERE)
  {
    StartReached();
    ElsewhereChecked();
    w := Arrives(START, 0, CreateCheckSlot(ELSEWHERE));
    w := Moves(w, 0, ENV);
    w := Moves(w, 0, ENV);
    CreateFirst();
    w := Completes(w, 1, CreateCheckSlot(FIRST), ENV);
  }

  /** Live bookings of one customer at one time. */
  ghost predicate TwoPlaces(db: Db) {
    exists i, j :: 0 <= i < |db.items| && 0 <= j < |db.items| && Clash(db, db.items[i], db.items[j])
  }

  lemma InsertElsewhere(db: Db)
    requires |db.bookings| == 1 && |db.items| == 1 && db.bookings[0].customer == 0
    requires db.items[0] == ItemRow(0, db.items[0].status)
    ensures CreateBooking(db, ELSEWHERE).Ok?
    ensures var db' := CreateBooking(db, ELSEWHERE).value;
            && db'.items == db.items + [ItemElsewhere(ItemStatus.Pending)]
            && |db'.bookings| == 2 && db'.bookings[0] == db.bookings[0]
            && db'.bookings[1].customer == 0 && db'.bookings[1].status.Pending?
  {
    ElsewhereLayout();
    InsertOne(db.items, ItemElsewhere(ItemStatus.Pending));
  }

  lemma InTwoPlaces(db: Db)
    requires |db.bookings| == 2 && |db.items| == 2
    requires db.bookings[0].customer == 0 && db.bookings[1].customer == 0
    requires !db.bookings[0].status.Cancelled? && !db.bookings[0].status.NoShow?
    requires !db.bookings[1].status.Cancelled? && !db.bookings[1].status.NoShow?
    requires db.items[0] == ItemRow(0, db.items[0].status) && db.items[1] == ItemElsewhere(db.items[1].status)
    ensures TwoPlaces(db)
  {
    assert Clash(db, db.items[0], db.items[1]);
  }

  /** Two overlapping creates of one customer with different staff both pass the checks. */
  lemma OverlappingCreatesReached() returns (w: World)
    ensures Reached(w) && TwoPlaces(w.db)
  {
    w := PassedBothReached();
    InsertElsewhere(CREATED);
    w := Moves(w, 0, ENV);
    InTwoPlaces(w.db);
  }

  /** A booking cancelled and another made by the same customer for the same time. */
  lemma RebookedElsewhereReached() returns (w: World)
    ensures Reached(w) && DbInv(w.db) && 4 !in w.reqs
    ensures && w.db.payments == [OPEN] && w.db.events == {} && |w.db.bookings| == 2 && |w.db.items| == 2
            && w.db.bookings[0] == BookingRow(0, BookingStatus.Cancelled, BookingPaymentStatus.Pending)
            && w.db.bookings[1].customer == 0 && w.db.bookings[1].status.Pending?
            && w.db.items[0] == ItemRow(0, ItemStatus.Cancelled) && w.db.items[1] == ItemElsewhere(ItemStatus.Pending)
  {
    w := OrderedReached();
    CancelFirst();
    w := Completes(w, 2, CancelStart(0, 0), ENV);
    InsertElsewhere(CALLED_OFF);
    ElsewhereFree();
    w := Completes(w, 3, CreateCheckSlot(ELSEWHERE), ENV);
  }

  lemma ElsewhereFree()
    requires CreateBooking(CALLED_OFF, ELSEWHERE).Ok?
    ensures Drive(CALLED_OFF, CreateCheckSlot(ELSEWHERE), ENV).0 == CreateBooking(CALLED_OFF, ELSEWHERE).value
  {
    assert Drive(CALLED_OFF, CreateCheckSlot(ELSEWHERE), ENV) == Drive(CALLED_OFF, CreateCheckCustomer(ELSEWHERE), ENV);
    assert Drive(CALLED_OFF, CreateCheckCustomer(ELSEWHERE), ENV) == Drive(CALLED_OFF, CreateInsert(ELSEWHERE), ENV);
    DriveEnds(CALLED_OFF, CreateInsert(ELSEWHERE), ENV);
  }

  /** And then a late capture of the first one: no two requests overlap. */
  lemma LateCaptureClashReached() returns (w: World)
    ensures Reached(w) && TwoPlaces(w.db)
  {
    w := RebookedElsewhereReached();
    var db := w.db;
    assert Attached(db.payments, CAPTURE) == Some(0) by {
      assert FindByOrder([OPEN], "o") == Some(0);
    }
    CaptureOutcome(db, CAPTURE, ENV);
    assert !Rebooked(db.items, 0);
    w := Completes(w, 4, HookStart(CAPTURE), ENV);
    InTwoPlaces(w.db);
  }
}
