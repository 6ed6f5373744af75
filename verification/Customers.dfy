/** Whether a customer can have two live bookings at one time. */
module Customers {
  import opened Domain
  import opened Schedule
  import opened Tables
  import opened Protocol
  import opened Invariants
  import opened ProtocolSafety
  import opened Serial
  import opened Outcomes

  /** Items of two live bookings of one customer that overlap. */
  predicate Clash(db: Db, x: Item, y: Item) {
    && x.booking != y.booking && x.booking < |db.bookings|
    && LiveFor(db, x, db.bookings[x.booking].customer) && LiveFor(db, y, db.bookings[x.booking].customer)
    && RangesOverlap(x.start, x.end, y.start, y.end)
  }

  ghost predicate CustomersFree(db: Db) {
    forall i, j :: 0 <= i < |db.items| && 0 <= j < |db.items| ==> !Clash(db, db.items[i], db.items[j])
  }

  /** A cancelled booking is not cancelled any more. */
  ghost predicate Revives(db: Db, db': Db) {
    exists b :: 0 <= b < |db.bookings| && b < |db'.bookings|
                && db.bookings[b].status.Cancelled? && !db'.bookings[b].status.Cancelled?
  }

  /** Only creates add bookings or items. */
  lemma StepAddsNothing(db: Db, req: Request, env: Env)
    requires !IsCreate(req) && NoOverlap(db.items)
    ensures var (db', req') := Step(db, req, env);
            |db'.bookings| == |db.bookings| && |db'.items| == |db.items| && !IsCreate(req')
  {
    if req.CancelWrite? {
      CancelNeverRefused(db.items, req.booking);
    } else if req.PaidItems? {
      UpdateRowsIsAllOrNothing(db.items, req.booking, ItemStatus.Confirmed, 0);
    }
  }

  lemma {:induction false} DriveAddsNothing(db: Db, req: Request, env: Env)
    requires !IsCreate(req) && DbInv(db) && Knows(db, req) && env.Ok()
    ensures var db' := Drive(db, req, env).0;
            |db'.bookings| == |db.bookings| && |db'.items| == |db.items|
    decreases Rank(req)
  {
    if !req.Finished? {
      StepLowersRank(db, req, env);
      StepAddsNothing(db, req, env);
      StepKeeps(db, req, env);
      DriveAddsNothing(Step(db, req, env).0, Step(db, req, env).1, env);
    }
  }

  /** A clash after a step of others was one before it, unless the step revived a booking. */
  lemma ClashIsOld(db: Db, db': Db, x: Item, y: Item, x': Item, y': Item)
    requires BookingsEvolve(db.bookings, db'.bookings) && DbInv(db) && DbInv(db') && !Revives(db, db')
    requires x' == x.(status := x'.status) && y' == y.(status := y'.status)
    requires x.booking < |db.bookings| && y.booking < |db.bookings| && Clash(db', x', y')
    ensures Clash(db, x, y)
  {
    assert BookingInv(db, x.booking) && BookingInv(db, y.booking);
  }

  lemma OthersKeepFree(db: Db, req: Request, env: Env)
    requires !IsCreate(req) && DbInv(db) && Knows(db, req) && env.Ok() && CustomersFree(db)
    requires !Revives(db, Drive(db, req, env).0)
    ensures CustomersFree(Drive(db, req, env).0)
  {
    var db' := Drive(db, req, env).0;
    DriveAddsNothing(db, req, env);
    DriveKeeps(db, req, env);
    forall i, j | 0 <= i < |db'.items| && 0 <= j < |db'.items|
      ensures !Clash(db', db'.items[i], db'.items[j])
    {
      assert !Clash(db, db.items[i], db.items[j]);
      if Clash(db', db'.items[i], db'.items[j]) {
        ClashIsOld(db, db', db.items[i], db.items[j], db'.items[i], db'.items[j]);
      }
    }
  }

  /** A new item clashes with no older one, in either order. */
  lemma NewItemFree(db: Db, db': Db, input: CreateInput, k: nat, y: Item)
    requires input.lines != [] && !CustomerBusy(db, input) && y in db.items && y.booking < |db.bookings|
    requires db.bookings <= db'.bookings && |db.bookings| < |db'.bookings|
    requires db'.bookings[|db.bookings|].customer == input.customer && k < |input.lines|
    ensures var x := Layout(|db.bookings|, input.staff, input.start, input.lines)[k];
            !Clash(db', x, y) && !Clash(db', y, x)
  {
    var i :| 0 <= i < |db.items| && db.items[i] == y;
    LayoutInWindow(|db.bookings|, input.staff, input.start, input.lines, k);
    assert !(LiveFor(db, db.items[i], input.customer)
             && RangesOverlap(db.items[i].start, db.items[i].end, input.start, input.End()));
  }

  lemma CreateKeepsFree(db: Db, input: CreateInput, env: Env)
    requires DbInv(db) && CustomersFree(db)
    ensures CustomersFree(Drive(db, CreateCheckSlot(input), env).0)
  {
    var (db', req') := Drive(db, CreateCheckSlot(input), env);
    var rows := Layout(|db.bookings|, input.staff, input.start, input.lines);
    CreateBooksIffFree(db, input, env);
    if req'.outcome.Booked? {
      forall i, j | 0 <= i < |db'.items| && 0 <= j < |db'.items|
        ensures !Clash(db', db'.items[i], db'.items[j])
      {
        ClashFreeAt(db, db', input, i, j);
      }
    }
  }

  lemma ClashFreeAt(db: Db, db': Db, input: CreateInput, i: nat, j: nat)
    requires DbInv(db) && CustomersFree(db) && input.lines != [] && !CustomerBusy(db, input)
    requires db.bookings <= db'.bookings && |db.bookings| < |db'.bookings|
    requires db'.bookings[|db.bookings|].customer == input.customer
    requires db'.items == db.items + Layout(|db.bookings|, input.staff, input.start, input.lines)
    requires i < |db'.items| && j < |db'.items|
    ensures !Clash(db', db'.items[i], db'.items[j])
  {
    var n := |db.items|;
    if i < n && j < n {
      assert !Clash(db, db.items[i], db.items[j]);
    } else if i >= n && j >= n {
      LayoutInWindow(|db.bookings|, input.staff, input.start, input.lines, i - n);
      LayoutInWindow(|db.bookings|, input.staff, input.start, input.lines, j - n);
    } else if i >= n {
      NewItemFree(db, db', input, i - n, db.items[j]);
    } else {
      NewItemFree(db, db', input, j - n, db.items[i]);
    }
  }

  /** No request of the serial run revives a cancelled booking. */
  ghost predicate NoneRevived(actions: seq<Action>)
    decreases |actions|
  {
    actions == []
    || (&& NoneRevived(actions[..|actions| - 1])
        && !Revives(RunSerially(EMPTY_DB, actions[..|actions| - 1]), RunSerially(EMPTY_DB, actions)))
  }

  /** In every serial run in which no capture revives a cancelled booking, no customer
      has two live bookings whose items overlap. */
  lemma {:induction false} SerialCustomersFree(actions: seq<Action>)
    requires ActionsOk(actions) && NoneRevived(actions)
    ensures DbInv(RunSerially(EMPTY_DB, actions)) && CustomersFree(RunSerially(EMPTY_DB, actions))
    decreases |actions|
  {
    SerialRunsSettle(actions);
    if actions != [] {
      var before, last := actions[..|actions| - 1], actions[|actions| - 1];
      SerialCustomersFree(before);
      ActionKeepsFree(RunSerially(EMPTY_DB, before), last);
    }
  }

  lemma ActionKeepsFree(db: Db, action: Action)
    requires DbInv(db) && CustomersFree(db) && Initial(action.req) && action.env.Ok()
    requires !Revives(db, Drive(db, action.req, action.env).0)
    ensures CustomersFree(Drive(db, action.req, action.env).0)
  {
    if action.req.CreateCheckSlot? {
      CreateKeepsFree(db, action.req.input, action.env);
    } else {
      assert Knows(db, action.req);
      OthersKeepFree(db, action.req, action.env);
    }
  }
}
