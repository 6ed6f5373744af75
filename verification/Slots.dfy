/** The time slots offered for a day, and how they agree with the check made when booking. */
module Slots {
  import opened Wrappers
  import opened Domain
  import opened Schedule
  import opened Tables
  import opened Invariants

  const SLOT_MINUTES: nat := 30
  const DAY_MINUTES: nat := 1440

  datatype TimeOfDay = TimeOfDay(hour: nat, minute: nat)
  {
    function Minutes(): nat {
      hour * 60 + minute
    }
  }

  datatype TimeSlot = TimeSlot(id: string, text: string)

  // -------------------------------------------------------------------------
  // Ids and labels
  // -------------------------------------------------------------------------

  function Digit(n: nat): char
    requires n < 10
  {
    (n as char) + '0'
  }

  function Decimal(n: nat): string {
    if n < 10 then [Digit(n)] else Decimal(n / 10) + [Digit(n % 10)]
  }

  /** Decimal digits, padded with zeros to at least two. */
  function Pad2(n: nat): string {
    var s := Decimal(n);
    if |s| < 2 then "0" + s else s
  }

  function SlotId(t: nat): string {
    Pad2(t / 60) + Pad2(t % 60)
  }

  function SlotLabel(t: nat): string {
    var h := t / 60;
    Decimal(if h % 12 == 0 then 12 else h % 12) + ":" + Pad2(t % 60) + (if h < 12 then " AM" else " PM")
  }

  function MakeSlot(t: nat): TimeSlot {
    TimeSlot(SlotId(t), SlotLabel(t))
  }

  function DigitValue(c: char): Option<nat> {
    if '0' <= c <= '9' then Some((c - '0') as nat) else None
  }

  function TwoDigits(s: string): Option<nat> {
    if |s| != 2 || DigitValue(s[0]).None? || DigitValue(s[1]).None? then None
    else Some(10 * DigitValue(s[0]).value + DigitValue(s[1]).value)
  }

  /** The minute of the day that a slot id (HHmm) names. */
  function SlotMinute(id: string): Option<nat> {
    if |id| < 4 then None
    else
      var h, m := TwoDigits(id[..2]), TwoDigits(id[2..4]);
      if h.None? || m.None? then None else Some(60 * h.value + m.value)
  }

  lemma Pad2IsTwoDigits(n: nat)
    requires n < 100
    ensures Pad2(n) == [Digit(n / 10), Digit(n % 10)] && TwoDigits(Pad2(n)) == Some(n)
  {
    if n < 10 {
      assert Decimal(n) == [Digit(n)];
    } else {
      assert Decimal(n / 10) == [Digit(n / 10)];
    }
  }

  /** Reading a slot id back gives the minute it was made for. */
  lemma SlotIdRoundTrip(t: nat)
    requires t < DAY_MINUTES
    ensures |SlotId(t)| == 4 && SlotMinute(SlotId(t)) == Some(t)
  {
    Pad2IsTwoDigits(t / 60);
    Pad2IsTwoDigits(t % 60);
    assert SlotId(t)[..2] == Pad2(t / 60) && SlotId(t)[2..4] == Pad2(t % 60);
  }

  function DisplayHour(t: nat): nat {
    if t / 60 % 12 == 0 then 12 else t / 60 % 12
  }

  /** The parts of a label stand at fixed distances from its end. */
  lemma SlotLabelParts(t: nat)
    requires t < DAY_MINUTES
    ensures var s := SlotLabel(t);
            var n := |s| - 6;
            && n > 0 && s[..n] == Decimal(DisplayHour(t)) && s[n + 1..n + 3] == Pad2(t % 60)
            && s[n + 4] == if t / 60 < 12 then 'A' else 'P'
  {
    Pad2IsTwoDigits(t % 60);
    var s := SlotLabel(t);
    var hour := Decimal(DisplayHour(t));
    var half := if t / 60 < 12 then " AM" else " PM";
    assert s == hour + ":" + Pad2(t % 60) + half;
    assert |s| == |hour| + 6;
    assert s[|hour| + 4] == half[1];
  }

  /** The minute of the day that a label names on a 12-hour clock: 12 AM is the first
      hour of the day and 12 PM the thirteenth. */
  function LabelMinute(s: string): Option<nat> {
    if |s| < 7 then None
    else
      var n := |s| - 6;
      var h, m := if n == 1 then DigitValue(s[0]) else TwoDigits(s[..n]), TwoDigits(s[n + 1..n + 3]);
      if h.None? || m.None? then None
      else Some(60 * (h.value % 12 + if s[n + 4] == 'P' then 12 else 0) + m.value)
  }

  /** Reading a label back gives the minute it was made for. */
  lemma SlotLabelRoundTrip(t: nat)
    requires t < DAY_MINUTES
    ensures LabelMinute(SlotLabel(t)) == Some(t)
  {
    SlotLabelParts(t);
    Pad2IsTwoDigits(t % 60);
    Pad2IsTwoDigits(DisplayHour(t));
  }

  // -------------------------------------------------------------------------
  // Generating the slots of a day
  // -------------------------------------------------------------------------

  function SlotCount(start: nat, end: nat): nat {
    if start + SLOT_MINUTES <= end then (end - start) / SLOT_MINUTES else 0
  }

  function SlotStart(start: nat, i: nat): nat {
    start + SLOT_MINUTES * i
  }

  /** What `make` gives for the first n half hours from a starting minute. */
  function SlotsFrom<T>(make: nat -> T, start: nat, n: nat): seq<T> {
    if n == 0 then [] else SlotsFrom(make, start, n - 1) + [make(SlotStart(start, n - 1))]
  }

  lemma {:induction false} SlotsFromAt<T>(make: nat -> T, start: nat, n: nat, i: nat)
    requires i < n
    ensures |SlotsFrom(make, start, n)| == n && SlotsFrom(make, start, n)[i] == make(SlotStart(start, i))
  {
    if n == 1 {
    } else {
      SlotsFromAt(make, start, n - 1, if i < n - 1 then i else 0);
    }
  }

  /** Slot i fits exactly when it ends inside the window. */
  lemma SlotCountIff(start: nat, end: nat, i: nat)
    ensures i < SlotCount(start, end) <==> SlotStart(start, i) + SLOT_MINUTES <= end
    ensures SlotStart(start, i) + SLOT_MINUTES == SlotStart(start, i + 1)
  {
    if start + SLOT_MINUTES <= end {
      var n := (end - start) / SLOT_MINUTES;
      assert SLOT_MINUTES * n <= end - start < SLOT_MINUTES * n + SLOT_MINUTES;
    }
  }

  /** The loop over the opening hours; `make` formats the slot of a minute. */
  method GenerateSlots<T>(make: nat -> T, opening: TimeOfDay, closing: TimeOfDay) returns (slots: seq<T>)
    ensures slots == SlotsFrom(make, opening.Minutes(), SlotCount(opening.Minutes(), closing.Minutes()))
  {
    slots := GenerateBetween(make, opening.hour * 60 + opening.minute, closing.hour * 60 + closing.minute);
  }

  method GenerateBetween<T>(make: nat -> T, start: nat, end: nat) returns (slots: seq<T>)
    ensures slots == SlotsFrom(make, start, SlotCount(start, end))
  {
    slots := [];
    var t := start;
    ghost var n := 0;
    while t + SLOT_MINUTES <= end
      invariant t == SlotStart(start, n) && slots == SlotsFrom(make, start, n)
      invariant n == 0 || t <= end
      decreases end + SLOT_MINUTES - t
    {
      SlotCountIff(start, end, n);
      slots := slots + [make(t)];
      t := t + SLOT_MINUTES;
      n := n + 1;
    }
  }

  lemma SlotsFillGenerally<T>(make: nat -> T, start: nat, end: nat, i: nat)
    ensures var slots := SlotsFrom(make, start, SlotCount(start, end));
            && |slots| == SlotCount(start, end)
            && (i < |slots| <==> SlotStart(start, i) + SLOT_MINUTES <= end)
            && (i < |slots| ==> slots[i] == make(SlotStart(start, i)))
  {
    var n := SlotCount(start, end);
    SlotCountIff(start, end, i);
    if n > 0 {
      SlotsFromAt(make, start, n, if i < n then i else 0);
    }
  }

  function DaySlots(opening: TimeOfDay, closing: TimeOfDay): seq<TimeSlot> {
    SlotsFrom(MakeSlot, opening.Minutes(), SlotCount(opening.Minutes(), closing.Minutes()))
  }

  /** The slots of a window are one for each whole half hour from its start: slot i
      exists exactly when it ends inside the window, and it is that half hour. */
  lemma SlotsFillWindow(opening: TimeOfDay, closing: TimeOfDay, i: nat)
    ensures var start, slots := opening.Minutes(), DaySlots(opening, closing);
            && |slots| == SlotCount(start, closing.Minutes())
            && (i < |slots| <==> start + 30 * i + 30 <= closing.Minutes())
            && (i < |slots| ==> slots[i] == MakeSlot(start + 30 * i))
  {
    SlotsFillGenerally(MakeSlot, opening.Minutes(), closing.Minutes(), i);
  }

  // -------------------------------------------------------------------------
  // Hiding booked slots
  // -------------------------------------------------------------------------

  predicate BookedWithin(item: Item, staff: nat, dayStart: int, dayEnd: int) {
    item.staff == staff && item.start >= dayStart && item.end <= dayEnd && Active(item)
  }

  /** The query for the specialist's items of the day. */
  function BookedItems(items: seq<Item>, staff: nat, dayStart: int, dayEnd: int): seq<Item> {
    if items == [] then []
    else (if BookedWithin(items[0], staff, dayStart, dayEnd) then [items[0]] else [])
         + BookedItems(items[1..], staff, dayStart, dayEnd)
  }

  predicate Hidden(booked: seq<Item>, start: int) {
    exists i :: 0 <= i < |booked| && booked[i].start < start + SLOT_MINUTES && booked[i].end > start
  }

  /** The slots whose id names a minute that no booked item covers. */
  function FreeSlots(slots: seq<TimeSlot>, booked: seq<Item>, dayStart: int): seq<TimeSlot> {
    if slots == [] then []
    else
      var minute := SlotMinute(slots[0].id);
      (if minute.Some? && !Hidden(booked, dayStart + minute.value) then [slots[0]] else [])
      + FreeSlots(slots[1..], booked, dayStart)
  }

  function OfferedSlots(slots: seq<TimeSlot>, items: seq<Item>, staff: nat, dayStart: int, dayEnd: int): seq<TimeSlot> {
    FreeSlots(slots, BookedItems(items, staff, dayStart, dayEnd), dayStart)
  }

  method GetTimeSlots(
    hours: Option<(TimeOfDay, TimeOfDay)>, specialist: Option<nat>, items: seq<Item>, dayStart: int, dayEnd: int)
    returns (offered: seq<TimeSlot>)
    ensures hours.None? ==> offered == []
    ensures hours.Some? ==>
      var all := DaySlots(hours.value.0, hours.value.1);
      offered == if specialist.None? then all else OfferedSlots(all, items, specialist.value, dayStart, dayEnd)
  {
    if hours.None? {
      return [];
    }
    var slots := GenerateSlots(MakeSlot, hours.value.0, hours.value.1);
    if specialist.None? || |slots| == 0 {
      return slots;
    }
    var booked := BookedItems(items, specialist.value, dayStart, dayEnd);
    return FreeSlots(slots, booked, dayStart);
  }

  lemma {:induction false} BookedItemsAre(items: seq<Item>, staff: nat, dayStart: int, dayEnd: int, item: Item)
    ensures item in BookedItems(items, staff, dayStart, dayEnd)
       <==> item in items && BookedWithin(item, staff, dayStart, dayEnd)
  {
    if items == [] {
    } else {
      BookedItemsAre(items[1..], staff, dayStart, dayEnd, item);
    }
  }

  lemma {:induction false} FreeSlotsAre(slots: seq<TimeSlot>, booked: seq<Item>, dayStart: int, slot: TimeSlot)
    ensures slot in FreeSlots(slots, booked, dayStart)
       <==> slot in slots && SlotMinute(slot.id).Some? && !Hidden(booked, dayStart + SlotMinute(slot.id).value)
  {
    if slots == [] {
    } else {
      FreeSlotsAre(slots[1..], booked, dayStart, slot);
    }
  }

  /** A slot of the day is offered exactly when no item that the query sees covers it. */
  lemma OfferedIff(slots: seq<TimeSlot>, items: seq<Item>, staff: nat, dayStart: int, dayEnd: int, t: nat)
    requires t < DAY_MINUTES && MakeSlot(t) in slots
    ensures MakeSlot(t) in OfferedSlots(slots, items, staff, dayStart, dayEnd)
       <==> forall i :: 0 <= i < |items| && BookedWithin(items[i], staff, dayStart, dayEnd) ==>
              !(items[i].start < dayStart + t + SLOT_MINUTES && items[i].end > dayStart + t)
  {
    var booked := BookedItems(items, staff, dayStart, dayEnd);
    SlotIdRoundTrip(t);
    FreeSlotsAre(slots, booked, dayStart, MakeSlot(t));
    if Hidden(booked, dayStart + t) {
      var i :| 0 <= i < |booked| && booked[i].start < dayStart + t + SLOT_MINUTES && booked[i].end > dayStart + t;
      BookedItemsAre(items, staff, dayStart, dayEnd, booked[i]);
      var k :| 0 <= k < |items| && items[k] == booked[i];
    } else {
      forall i | 0 <= i < |items| && BookedWithin(items[i], staff, dayStart, dayEnd)
        ensures !(items[i].start < dayStart + t + SLOT_MINUTES && items[i].end > dayStart + t)
      {
        BookedItemsAre(items, staff, dayStart, dayEnd, items[i]);
        var k :| 0 <= k < |booked| && booked[k] == items[i];
      }
    }
  }

  ghost predicate Ascending<T>(minute: T -> int, slots: seq<T>) {
    forall i, j :: 0 <= i < j < |slots| ==> minute(slots[i]) < minute(slots[j])
  }

  lemma SlotsFromAscend<T>(make: nat -> T, minute: T -> int, start: nat, n: nat)
    requires forall t: nat :: t < DAY_MINUTES ==> minute(make(t)) == t
    requires n > 0 ==> SlotStart(start, n - 1) < DAY_MINUTES
    ensures Ascending(minute, SlotsFrom(make, start, n))
  {
    forall i | 0 <= i < n
      ensures |SlotsFrom(make, start, n)| == n && minute(SlotsFrom(make, start, n)[i]) == SlotStart(start, i)
    {
      SlotsFromAt(make, start, n, i);
    }
  }

  lemma {:induction false} FreeSlotsAscend(
    minute: TimeSlot -> int, slots: seq<TimeSlot>, booked: seq<Item>, dayStart: int)
    requires Ascending(minute, slots)
    ensures Ascending(minute, FreeSlots(slots, booked, dayStart))
  {
    if slots != [] {
      var rest := FreeSlots(slots[1..], booked, dayStart);
      FreeSlotsAscend(minute, slots[1..], booked, dayStart);
      forall j | 0 <= j < |rest|
        ensures minute(slots[0]) < minute(rest[j])
      {
        FreeSlotsAre(slots[1..], booked, dayStart, rest[j]);
      }
    }
  }

  /** The minute of the day that a slot's id names. */
  function MinuteOf(slot: TimeSlot): int {
    if SlotMinute(slot.id).Some? then SlotMinute(slot.id).value else -1
  }

  /** Hiding booked slots keeps the others once each and in the order of the day. */
  lemma OfferedInOrder(
    opening: TimeOfDay, closing: TimeOfDay, items: seq<Item>, staff: nat, dayStart: int, dayEnd: int)
    requires closing.Minutes() <= DAY_MINUTES
    ensures Ascending(MinuteOf, OfferedSlots(DaySlots(opening, closing), items, staff, dayStart, dayEnd))
  {
    var start := opening.Minutes();
    var n := SlotCount(start, closing.Minutes());
    forall t: nat | t < DAY_MINUTES
      ensures MinuteOf(MakeSlot(t)) == t
    {
      SlotIdRoundTrip(t);
    }
    if n > 0 {
      SlotCountIff(start, closing.Minutes(), n - 1);
    }
    SlotsFromAscend(MakeSlot, MinuteOf, start, n);
    FreeSlotsAscend(MinuteOf, DaySlots(opening, closing), BookedItems(items, staff, dayStart, dayEnd), dayStart);
  }

  /** A slot is hidden only if booking it would be refused, whatever the day's bounds. */
  lemma HiddenOnlyIfTaken(slots: seq<TimeSlot>, items: seq<Item>, staff: nat, dayStart: int, dayEnd: int, t: nat)
    requires t < DAY_MINUTES && MakeSlot(t) in slots
    requires MakeSlot(t) !in OfferedSlots(slots, items, staff, dayStart, dayEnd)
    ensures SlotTaken(items, staff, dayStart + t, dayStart + t + SLOT_MINUTES)
  {
    OfferedIff(slots, items, staff, dayStart, dayEnd, t);
    var i :| 0 <= i < |items| && BookedWithin(items[i], staff, dayStart, dayEnd)
             && items[i].start < dayStart + t + SLOT_MINUTES && items[i].end > dayStart + t;
    assert Blocks(items[i], staff, dayStart + t, dayStart + t + SLOT_MINUTES);
  }

  /** No active item of the staff member is partly in the day and partly outside. */
  ghost predicate NoneCrossesMidnight(items: seq<Item>, staff: nat, dayStart: int) {
    forall i :: 0 <= i < |items| && Blocks(items[i], staff, dayStart, dayStart + DAY_MINUTES) ==>
                  dayStart <= items[i].start && items[i].end <= dayStart + DAY_MINUTES
  }

  /** On a 24-hour day that no item crosses into or out of, the offered slots are
      exactly those that can be booked. */
  lemma OfferedIffBookable(slots: seq<TimeSlot>, items: seq<Item>, staff: nat, dayStart: int, t: nat)
    requires t + SLOT_MINUTES <= DAY_MINUTES && MakeSlot(t) in slots
    requires NoneCrossesMidnight(items, staff, dayStart)
    ensures MakeSlot(t) in OfferedSlots(slots, items, staff, dayStart, dayStart + DAY_MINUTES)
       <==> !SlotTaken(items, staff, dayStart + t, dayStart + t + SLOT_MINUTES)
  {
    OfferedIff(slots, items, staff, dayStart, dayStart + DAY_MINUTES, t);
    forall i | 0 <= i < |items|
      ensures Blocks(items[i], staff, dayStart + t, dayStart + t + SLOT_MINUTES)
         <==> BookedWithin(items[i], staff, dayStart, dayStart + DAY_MINUTES)
              && items[i].start < dayStart + t + SLOT_MINUTES && items[i].end > dayStart + t
    {
      if Blocks(items[i], staff, dayStart + t, dayStart + t + SLOT_MINUTES) {
        assert Blocks(items[i], staff, dayStart, dayStart + DAY_MINUTES);
      }
    }
  }

  /** Exactly when the two disagree: an offered slot is refused at booking if and only
      if an active item that straddles a bound of the day covers it. */
  lemma OfferedSlotRefusedIff(slots: seq<TimeSlot>, items: seq<Item>, staff: nat, dayStart: int, dayEnd: int, t: nat)
    requires t < DAY_MINUTES && MakeSlot(t) in slots
    requires MakeSlot(t) in OfferedSlots(slots, items, staff, dayStart, dayEnd)
    ensures SlotTaken(items, staff, dayStart + t, dayStart + t + SLOT_MINUTES) <==>
              exists i :: 0 <= i < |items| && Blocks(items[i], staff, dayStart + t, dayStart + t + SLOT_MINUTES)
                          && (items[i].start < dayStart || dayEnd < items[i].end)
  {
    OfferedIff(slots, items, staff, dayStart, dayEnd, t);
    forall i | 0 <= i < |items| && Blocks(items[i], staff, dayStart + t, dayStart + t + SLOT_MINUTES)
      ensures items[i].start < dayStart || dayEnd < items[i].end
    {
      assert !BookedWithin(items[i], staff, dayStart, dayEnd);
    }
  }

  /** If all the consecutive slots that a booking touches are offered, the check
      made when booking does not refuse it. */
  lemma ConsecutiveSlotsAreBookable(
    slots: seq<TimeSlot>, items: seq<Item>, staff: nat, dayStart: int, t: nat, minutes: Positive)
    requires Timed(items) && NoneCrossesMidnight(items, staff, dayStart)
    requires var n := (minutes + SLOT_MINUTES - 1) / SLOT_MINUTES;
             forall k :: 0 <= k < n ==>
               && SlotStart(t, k) + SLOT_MINUTES <= DAY_MINUTES && MakeSlot(SlotStart(t, k)) in slots
               && MakeSlot(SlotStart(t, k)) in OfferedSlots(slots, items, staff, dayStart, dayStart + DAY_MINUTES)
    ensures !SlotTaken(items, staff, dayStart + t, dayStart + t + minutes)
  {
    forall i | 0 <= i < |items|
      ensures !Blocks(items[i], staff, dayStart + t, dayStart + t + minutes)
    {
      if items[i].start < dayStart + t + minutes && items[i].end > dayStart + t {
        // The first minute that the item and the window share lies in one of the slots.
        var shared := if items[i].start > dayStart + t then items[i].start - dayStart else t;
        var k := (shared - t) / SLOT_MINUTES;
        assert SlotStart(t, k) <= shared < SlotStart(t, k) + SLOT_MINUTES;
        OfferedIffBookable(slots, items, staff, dayStart, SlotStart(t, k));
        assert !Blocks(items[i], staff, dayStart + SlotStart(t, k), dayStart + SlotStart(t, k) + SLOT_MINUTES);
      }
    }
  }

  /** The midnight condition is needed: an item from ten minutes before the day to
      twenty minutes into it leaves the first slot on offer, and booking it refused. */
  lemma MidnightCrossingIsMissed()
    ensures var items := [Item(0, 0, -10, 20, 100, ItemStatus.Confirmed)];
            && MakeSlot(0) in OfferedSlots([MakeSlot(0)], items, 0, 0, DAY_MINUTES)
            && SlotTaken(items, 0, 0, SLOT_MINUTES)
  {
    var items := [Item(0, 0, -10, 20, 100, ItemStatus.Confirmed)];
    OfferedIff([MakeSlot(0)], items, 0, 0, DAY_MINUTES, 0);
    assert Blocks(items[0], 0, 0, SLOT_MINUTES);
  }

  // -------------------------------------------------------------------------
  // Creating and cancelling
  // -------------------------------------------------------------------------

  lemma {:induction false} BookedItemsAppend(items: seq<Item>, more: seq<Item>, staff: nat, dayStart: int, dayEnd: int)
    ensures BookedItems(items + more, staff, dayStart, dayEnd)
         == BookedItems(items, staff, dayStart, dayEnd) + BookedItems(more, staff, dayStart, dayEnd)
  {
    if items == [] {
      assert items + more == more;
    } else {
      assert (items + more)[1..] == items[1..] + more;
      BookedItemsAppend(items[1..], more, staff, dayStart, dayEnd);
      var head := if BookedWithin(items[0], staff, dayStart, dayEnd) then [items[0]] else [];
      var rest, tail := BookedItems(items[1..], staff, dayStart, dayEnd), BookedItems(more, staff, dayStart, dayEnd);
      assert head + (rest + tail) == (head + rest) + tail;
    }
  }

  lemma {:induction false} InactiveNotBooked(items: seq<Item>, staff: nat, dayStart: int, dayEnd: int)
    requires forall i :: 0 <= i < |items| ==> !Active(items[i])
    ensures BookedItems(items, staff, dayStart, dayEnd) == []
  {
    if items == [] {
    } else {
      InactiveNotBooked(items[1..], staff, dayStart, dayEnd);
    }
  }

  lemma InactiveTailNotBooked(items: seq<Item>, after: seq<Item>, staff: nat, dayStart: int, dayEnd: int)
    requires |items| <= |after| && after[..|items|] == items
    requires forall i :: |items| <= i < |after| ==> !Active(after[i])
    ensures BookedItems(after, staff, dayStart, dayEnd) == BookedItems(items, staff, dayStart, dayEnd)
  {
    var tail := after[|items|..];
    assert after == items + tail;
    BookedItemsAppend(items, tail, staff, dayStart, dayEnd);
    InactiveNotBooked(tail, staff, dayStart, dayEnd);
  }

  /** Cancelling a booking right after it was created leaves its items inactive
      and every other item as it was. */
  lemma CreateThenCancel(db: Db, input: CreateInput)
    requires DbInv(db) && input.lines != [] && CreateBooking(db, input).Ok?
    ensures var cancelled := CancelBooking(CreateBooking(db, input).value, |db.bookings|, input.customer);
            && cancelled.Ok?
            && |db.items| <= |cancelled.value.items| && cancelled.value.items[..|db.items|] == db.items
            && forall i :: |db.items| <= i < |cancelled.value.items| ==> !Active(cancelled.value.items[i])
  {
    var id := |db.bookings|;
    var created := CreateBooking(db, input).value;
    assert NoOverlap(created.items) by {
      CreateBookingKeeps(db, input);
    }
    CancelNeverRefused(created.items, id);
    forall i | |db.items| <= i < |created.items|
      ensures created.items[i].booking == id
    {
      LayoutInWindow(id, input.staff, input.start, input.lines, i - |db.items|);
    }
  }

  /** A booking that is created and then cancelled gives back exactly the slots it
      took, on every day and for every staff member. */
  lemma CancelRestoresSlots(
    db: Db, input: CreateInput, slots: seq<TimeSlot>, staff: nat, dayStart: int, dayEnd: int)
    requires DbInv(db) && input.lines != [] && CreateBooking(db, input).Ok?
    ensures var cancelled := CancelBooking(CreateBooking(db, input).value, |db.bookings|, input.customer);
            && cancelled.Ok?
            && OfferedSlots(slots, cancelled.value.items, staff, dayStart, dayEnd)
               == OfferedSlots(slots, db.items, staff, dayStart, dayEnd)
  {
    CreateThenCancel(db, input);
    var after := CancelBooking(CreateBooking(db, input).value, |db.bookings|, input.customer).value.items;
    InactiveTailNotBooked(db.items, after, staff, dayStart, dayEnd);
  }
}
