/** The WhatsApp webhook consumer: every message, status and template event is
    claimed by key before its handler runs. Times are milliseconds. */
module Whatsapp {
  import opened Wrappers
  import opened Claims

  // -------------------------------------------------------------------------
  // Payloads
  // -------------------------------------------------------------------------

  datatype StatusUpdate = StatusUpdate(id: string, status: string)

  datatype MessagesValue = MessagesValue(
    phone: string, messages: Option<seq<string>>, statuses: Option<seq<StatusUpdate>>)

  datatype TemplateValue = TemplateValue(id: string, event: string)

  /** The field a change names: one of the two that are handled, or another. */
  datatype Field = MessagesField | TemplateStatusField | OtherField(name: string)

  /** A change carries the shape of a messages value, of a template value, of both or of neither. */
  datatype Change = Change(field: Field, messages: Option<MessagesValue>, template: Option<TemplateValue>)

  datatype Item =
    | Inbound(id: string, phone: string)
    | Status(id: string, status: string)
    | Template(id: string, event: string)

  function Key(item: Item): string {
    match item
    case Inbound(id, _) => "msg:" + id
    case Status(id, status) => "status:" + Pair(id, status)
    case Template(id, event) => "template:" + Pair(id, event)
  }

  function Pair(a: string, b: string): string {
    a + ":" + b
  }

  function InboundItems(ids: seq<string>, phone: string): seq<Item>
  {
    seq(|ids|, i requires 0 <= i < |ids| => Inbound(ids[i], phone))
  }

  function StatusItems(statuses: seq<StatusUpdate>): seq<Item>
  {
    seq(|statuses|, i requires 0 <= i < |statuses| => Status(statuses[i].id, statuses[i].status))
  }

  function InboundPart(value: MessagesValue): seq<Item> {
    if value.messages.Some? then InboundItems(value.messages.value, value.phone) else []
  }

  function MessagesItems(value: MessagesValue): seq<Item> {
    if value.statuses.Some? then InboundPart(value) + StatusItems(value.statuses.value) else InboundPart(value)
  }

  /** The items of a change; an unsupported one has none. */
  function ChangeItems(change: Change): seq<Item> {
    if change.field.MessagesField? && change.messages.Some? then MessagesItems(change.messages.value)
    else if change.field.TemplateStatusField? && change.template.Some? then
      [Template(change.template.value.id, change.template.value.event)]
    else []
  }

  function EntryItems(changes: seq<Change>): seq<Item> {
    Flat(ChangeItems, changes, |changes|)
  }

  function PayloadItems(entries: seq<seq<Change>>): seq<Item> {
    Flat(EntryItems, entries, |entries|)
  }

  // -------------------------------------------------------------------------
  // Where the items come from
  // -------------------------------------------------------------------------

  datatype Part = InMessages | InStatuses | InTemplate

  /** A place in a payload: an entry, one of its changes, and a position in a part of it. */
  datatype Place = Place(entry: nat, change: nat, part: Part, index: nat)

  function PartRank(part: Part): nat {
    match part case InMessages => 0 case InStatuses => 1 case InTemplate => 2
  }

  /** The order of the payload; the messages of a change come before its statuses. */
  predicate Earlier(p: Place, q: Place) {
    if p.entry != q.entry then p.entry < q.entry
    else if p.change != q.change then p.change < q.change
    else if p.part != q.part then PartRank(p.part) < PartRank(q.part)
    else p.index < q.index
  }

  /** What a change has at a position of a part: a message or status of a supported
      messages change, or the one event of a supported template change. */
  function InChange(change: Change, part: Part, i: nat): Option<Item> {
    match part
    case InMessages =>
      if change.field.MessagesField? && change.messages.Some? && change.messages.value.messages.Some?
         && i < |change.messages.value.messages.value|
      then Some(Inbound(change.messages.value.messages.value[i], change.messages.value.phone)) else None
    case InStatuses =>
      if change.field.MessagesField? && change.messages.Some? && change.messages.value.statuses.Some?
         && i < |change.messages.value.statuses.value|
      then Some(Status(change.messages.value.statuses.value[i].id, change.messages.value.statuses.value[i].status))
      else None
    case InTemplate =>
      if change.field.TemplateStatusField? && change.template.Some? && i == 0
      then Some(Template(change.template.value.id, change.template.value.event)) else None
  }

  function ItemAt(entries: seq<seq<Change>>, p: Place): Option<Item> {
    if p.entry < |entries| && p.change < |entries[p.entry]|
    then InChange(entries[p.entry][p.change], p.part, p.index) else None
  }

  function Reader(entries: seq<seq<Change>>): Place -> Option<Item> {
    p => ItemAt(entries, p)
  }

  /** The places list the items that are read there one for one and in payload order,
      and are all the places with an item before the bound. */
  ghost predicate Placed(at: Place -> Option<Item>, items: seq<Item>, places: seq<Place>, bound: Place) {
    && |places| == |items|
    && (forall k :: 0 <= k < |places| ==> at(places[k]) == Some(items[k]))
    && (forall j, k :: 0 <= j < k < |places| ==> Earlier(places[j], places[k]))
    && (forall p :: p in places <==> at(p).Some? && Earlier(p, bound))
  }

  /** The place that a part starts at, and the one behind all of it. */
  function PartStart(e: nat, c: nat, part: Part): Place {
    Place(e, c, part, 0)
  }

  function PartEnd(e: nat, c: nat, part: Part): Place {
    match part
    case InMessages => PartStart(e, c, InStatuses)
    case InStatuses => PartStart(e, c, InTemplate)
    case InTemplate => PartStart(e, c + 1, InMessages)
  }

  function PartPlaces(e: nat, c: nat, part: Part, n: nat): seq<Place> {
    seq(n, i requires 0 <= i < n => Place(e, c, part, i))
  }

  /** What a part of a change holds. */
  function PartItems(change: Change, part: Part): seq<Item> {
    match part
    case InMessages =>
      if change.field.MessagesField? && change.messages.Some? then InboundPart(change.messages.value) else []
    case InStatuses =>
      if change.field.MessagesField? && change.messages.Some? && change.messages.value.statuses.Some?
      then StatusItems(change.messages.value.statuses.value) else []
    case InTemplate =>
      if change.field.TemplateStatusField? && change.template.Some?
      then [Template(change.template.value.id, change.template.value.event)] else []
  }

  lemma PartsOfChange(change: Change)
    ensures ChangeItems(change)
         == PartItems(change, InMessages) + PartItems(change, InStatuses) + PartItems(change, InTemplate)
  {
  }

  lemma PartHolds(change: Change, part: Part, i: nat)
    ensures InChange(change, part, i) == if i < |PartItems(change, part)| then Some(PartItems(change, part)[i]) else None
  {
  }

  lemma PartEndsAt(e: nat, c: nat, part: Part, p: Place)
    ensures Earlier(p, PartEnd(e, c, part))
       <==> Earlier(p, PartStart(e, c, part)) || (p.entry == e && p.change == c && p.part == part)
  {
  }

  lemma PartAppend(
    at: Place -> Option<Item>, items: seq<Item>, places: seq<Place>, more: seq<Item>, e: nat, c: nat, part: Part)
    requires Placed(at, items, places, PartStart(e, c, part))
    requires forall i: nat :: at(Place(e, c, part, i)) == if i < |more| then Some(more[i]) else None
    ensures Placed(at, items + more, places + PartPlaces(e, c, part, |more|), PartEnd(e, c, part))
  {
    var further := PartPlaces(e, c, part, |more|);
    var all := places + further;
    forall j, k | 0 <= j < k < |all|
      ensures Earlier(all[j], all[k])
    {
      if j < |places| <= k {
        assert all[j] in places && Earlier(all[j], PartStart(e, c, part));
      }
    }
    forall p
      ensures p in all <==> at(p).Some? && Earlier(p, PartEnd(e, c, part))
    {
      PartEndsAt(e, c, part, p);
      assert p in all <==> p in places || p in further;
      if p.entry == e && p.change == c && p.part == part && at(p).Some? {
        assert p == Place(e, c, part, p.index) && further[p.index] == p;
      }
    }
  }

  lemma PlacePart(entries: seq<seq<Change>>, items: seq<Item>, places: seq<Place>, e: nat, c: nat, part: Part)
    returns (further: seq<Place>)
    requires e < |entries| && c < |entries[e]|
    requires Placed(Reader(entries), items, places, PartStart(e, c, part))
    ensures Placed(Reader(entries), items + PartItems(entries[e][c], part), further, PartEnd(e, c, part))
  {
    var more := PartItems(entries[e][c], part);
    forall i: nat
      ensures Reader(entries)(Place(e, c, part, i)) == if i < |more| then Some(more[i]) else None
    {
      PartHolds(entries[e][c], part, i);
    }
    PartAppend(Reader(entries), items, places, more, e, c, part);
    further := places + PartPlaces(e, c, part, |more|);
  }

  /** The items of the entries before one and of its first changes. */
  function ItemsBefore(entries: seq<seq<Change>>, e: nat, c: nat): seq<Item>
    requires e < |entries| && c <= |entries[e]|
  {
    Flat(EntryItems, entries, e) + Flat(ChangeItems, entries[e], c)
  }

  lemma {:induction false} PlacesBefore(entries: seq<seq<Change>>, e: nat, c: nat) returns (places: seq<Place>)
    requires e < |entries| && c <= |entries[e]|
    ensures Placed(Reader(entries), ItemsBefore(entries, e, c), places, PartStart(e, c, InMessages))
    decreases e, c
  {
    if c > 0 {
      var items, change := ItemsBefore(entries, e, c - 1), entries[e][c - 1];
      places := PlacesBefore(entries, e, c - 1);
      places := PlacePart(entries, items, places, e, c - 1, InMessages);
      items := items + PartItems(change, InMessages);
      places := PlacePart(entries, items, places, e, c - 1, InStatuses);
      items := items + PartItems(change, InStatuses);
      places := PlacePart(entries, items, places, e, c - 1, InTemplate);
      items := items + PartItems(change, InTemplate);
      ItemsBeforeNext(entries, e, c - 1);
      assert items == ItemsBefore(entries, e, c);
    } else if e > 0 {
      places := PlacesBefore(entries, e - 1, |entries[e - 1]|);
      EntryEnds(entries, e - 1, places);
    } else {
      places := [];
    }
  }

  lemma ItemsBeforeNext(entries: seq<seq<Change>>, e: nat, c: nat)
    requires e < |entries| && c < |entries[e]|
    ensures ItemsBefore(entries, e, c + 1)
         == ItemsBefore(entries, e, c) + PartItems(entries[e][c], InMessages) + PartItems(entries[e][c], InStatuses)
            + PartItems(entries[e][c], InTemplate)
  {
    PartsOfChange(entries[e][c]);
    assert Flat(ChangeItems, entries[e], c + 1) == Flat(ChangeItems, entries[e], c) + ChangeItems(entries[e][c]);
  }

  /** Behind the last change of an entry comes the first one of the next. */
  lemma EntryEnds(entries: seq<seq<Change>>, e: nat, places: seq<Place>)
    requires e + 1 < |entries|
    requires Placed(Reader(entries), ItemsBefore(entries, e, |entries[e]|), places,
                    PartStart(e, |entries[e]|, InMessages))
    ensures Placed(Reader(entries), ItemsBefore(entries, e + 1, 0), places, PartStart(e + 1, 0, InMessages))
  {
    assert ItemsBefore(entries, e + 1, 0) == ItemsBefore(entries, e, |entries[e]|);
    forall p
      ensures Reader(entries)(p).Some? && Earlier(p, PartStart(e, |entries[e]|, InMessages))
         <==> Reader(entries)(p).Some? && Earlier(p, PartStart(e + 1, 0, InMessages))
    {
    }
  }

  /** The items of a payload are what it has at its places: exactly one for every message
      and status of each supported messages change and for each supported template
      change, none else, and in payload order. */
  lemma PayloadInOrder(entries: seq<seq<Change>>) returns (places: seq<Place>)
    ensures var items := PayloadItems(entries);
            && |places| == |items|
            && (forall k :: 0 <= k < |places| ==> ItemAt(entries, places[k]) == Some(items[k]))
            && (forall j, k :: 0 <= j < k < |places| ==> Earlier(places[j], places[k]))
            && (forall p :: p in places <==> ItemAt(entries, p).Some?)
  {
    if entries == [] {
      places := [];
    } else {
      var e := |entries| - 1;
      places := PlacesBefore(entries, e, |entries[e]|);
      AllBeforeEnd(entries, places);
    }
  }

  lemma AllBeforeEnd(entries: seq<seq<Change>>, places: seq<Place>)
    requires entries != []
    requires var e := |entries| - 1;
             Placed(Reader(entries), ItemsBefore(entries, e, |entries[e]|), places,
                    PartStart(e, |entries[e]|, InMessages))
    ensures |places| == |PayloadItems(entries)|
    ensures forall k :: 0 <= k < |places| ==> ItemAt(entries, places[k]) == Some(PayloadItems(entries)[k])
    ensures forall p :: p in places <==> ItemAt(entries, p).Some?
  {
    var e := |entries| - 1;
    assert PayloadItems(entries) == ItemsBefore(entries, e, |entries[e]|);
    forall p
      ensures Reader(entries)(p) == ItemAt(entries, p)
      ensures ItemAt(entries, p).Some? ==> Earlier(p, PartStart(e, |entries[e]|, InMessages))
    {
    }
  }

  /** The first place with its key: no earlier place has an item of that key. */
  ghost predicate FirstOfKey(key: Item -> string, at: Place -> Option<Item>, p: Place) {
    && at(p).Some?
    && forall q :: Earlier(q, p) && at(q).Some? ==> key(at(q).value) != key(at(p).value)
  }

  lemma FirstIsListedFirst(
    key: Item -> string, at: Place -> Option<Item>, items: seq<Item>, places: seq<Place>, p: Place, k: nat)
    requires |places| == |items| && forall k :: 0 <= k < |places| ==> at(places[k]) == Some(items[k])
    requires forall j, k :: 0 <= j < k < |places| ==> Earlier(places[j], places[k])
    requires FirstOfKey(key, at, p) && k < |places| && places[k] == p
    ensures forall j :: 0 <= j < k ==> key(items[j]) != key(items[k])
  {
    forall j | 0 <= j < k
      ensures key(items[j]) != key(items[k])
    {
      assert Earlier(places[j], p) && at(places[j]) == Some(items[j]);
    }
  }

  /** Whatever the length of a job, it calls the handler for the first item of every
      key that no claim covers when the job begins. */
  lemma FirstUnclaimedIsCalled(st: Store<Item>, entries: seq<seq<Change>>, clock: nat -> int, p: Place)
    requires Forward(clock, |PayloadItems(entries)|) && FirstOfKey(Key, Reader(entries), p)
    requires !Claimed(st.claims, Key(ItemAt(entries, p).value), clock(0))
    ensures var calls := ConsumeAll(Key, st, PayloadItems(entries), clock, 0).calls;
            exists k :: |st.calls| <= k < |calls| && calls[k].item == ItemAt(entries, p).value
  {
    var items := PayloadItems(entries);
    var places := PayloadInOrder(entries);
    assert Reader(entries)(p).Some?;
    var k :| 0 <= k < |places| && places[k] == p;
    FirstIsListedFirst(Key, Reader(entries), items, places, p, k);
    FirstOfKeyIsCalled(Key, st, items, clock, k);
  }

  /** And it calls the handler for nothing but items of its payload. */
  lemma CallsAreForPayload(st: Store<Item>, entries: seq<seq<Change>>, clock: nat -> int, k: nat)
    requires Forward(clock, |PayloadItems(entries)|)
    requires |st.calls| <= k < |ConsumeAll(Key, st, PayloadItems(entries), clock, 0).calls|
    ensures exists p :: ItemAt(entries, p) == Some(ConsumeAll(Key, st, PayloadItems(entries), clock, 0).calls[k].item)
  {
    var items := PayloadItems(entries);
    var calls := ConsumeAll(Key, st, items, clock, 0).calls;
    var places := PayloadInOrder(entries);
    JobCalls(Key, st, items, clock, |items|);
    CalledIsAnItem(Key, st, items, clock, |items|, calls[k]);
    var n :| 0 <= n < |items| && items[n] == calls[k].item;
    assert ItemAt(entries, places[n]) == Some(calls[k].item);
  }

  lemma PartsContinue(st: Store<Item>, items: seq<Item>, more: seq<Item>, clock: nat -> int, from: nat)
    ensures ConsumeAll(Key, st, items + more, clock, from)
         == ConsumeAll(Key, ConsumeAll(Key, st, items, clock, from), more, clock, from + |items|)
  {
    ConsumeContinues(Key, st, items, more, |more|, clock, from);
  }

  lemma EntryFlattens(st: Store<Item>, changes: seq<Change>, clock: nat -> int, from: nat)
    ensures ConsumeBatches(Key, ChangeItems, st, changes, |changes|, clock, from)
         == ConsumeAll(Key, st, EntryItems(changes), clock, from)
  {
    BatchesFlatten(Key, ChangeItems, st, changes, |changes|, clock, from);
  }

  lemma PayloadFlattens(st: Store<Item>, entries: seq<seq<Change>>, clock: nat -> int)
    ensures ConsumeBatches(Key, EntryItems, st, entries, |entries|, clock, 0)
         == ConsumeAll(Key, st, PayloadItems(entries), clock, 0)
  {
    BatchesFlatten(Key, EntryItems, st, entries, |entries|, clock, 0);
  }

  // -------------------------------------------------------------------------
  // Keys
  // -------------------------------------------------------------------------

  /** Events of different kinds never share a key. */
  lemma KindsApart(a: Item, b: Item)
    requires Key(a) == Key(b)
    ensures (a.Inbound? <==> b.Inbound?) && (a.Status? <==> b.Status?) && (a.Template? <==> b.Template?)
  {
    assert Key(a)[0] == Key(b)[0];
    assert Key(a)[0] == if a.Inbound? then 'm' else if a.Status? then 's' else 't';
    assert Key(b)[0] == if b.Inbound? then 'm' else if b.Status? then 's' else 't';
  }

  lemma PrefixCancelsIff(prefix: string, a: string, b: string)
    ensures prefix + a == prefix + b <==> a == b
  {
    if prefix + a == prefix + b {
      assert a == (prefix + a)[|prefix|..] && b == (prefix + b)[|prefix|..];
    }
  }

  lemma PairParts(a: string, b: string)
    ensures |Pair(a, b)| == |a| + 1 + |b| && Pair(a, b)[|a|] == ':'
    ensures forall k :: 0 <= k < |a| ==> Pair(a, b)[k] == a[k]
    ensures a == Pair(a, b)[..|a|] && b == Pair(a, b)[|a| + 1..]
  {
  }

  /** The second pair's first part reaches past a colon into the first pair's second part. */
  predicate Shifts(a: string, b: string, c: string, d: string) {
    && |a| < |c| && c[..|a|] == a && c[|a|] == ':'
    && b == Pair(c[|a| + 1..], d)
  }

  lemma ShiftJoins(a: string, b: string, c: string, d: string)
    requires Shifts(a, b, c, d)
    ensures Pair(a, b) == Pair(c, d)
  {
    var rest := c[|a| + 1..];
    assert c == a + ":" + rest;
    assert Pair(a, b) == a + ":" + (rest + ":" + d);
    assert Pair(c, d) == (a + ":" + rest) + ":" + d;
  }

  lemma EqualPairsShift(a: string, b: string, c: string, d: string)
    requires Pair(a, b) == Pair(c, d) && |a| < |c|
    ensures Shifts(a, b, c, d)
  {
    PairParts(a, b);
    PairParts(c, d);
    var rest := c[|a| + 1..];
    assert c == Pair(a, b)[..|c|];
    assert c[..|a|] == Pair(a, b)[..|c|][..|a|] == a;
    assert b == Pair(c, d)[|a| + 1..];
    assert Pair(c, d) == c[..|a| + 1] + (rest + ":" + d);
  }

  /** Two joined pairs are equal exactly when they have the same parts or one shifts
      into the other. */
  lemma PairsEqualIff(a: string, b: string, c: string, d: string)
    ensures Pair(a, b) == Pair(c, d) <==> (a == c && b == d) || Shifts(a, b, c, d) || Shifts(c, d, a, b)
  {
    if Shifts(a, b, c, d) {
      ShiftJoins(a, b, c, d);
    }
    if Shifts(c, d, a, b) {
      ShiftJoins(c, d, a, b);
    }
    if Pair(a, b) == Pair(c, d) {
      if |a| < |c| {
        EqualPairsShift(a, b, c, d);
      } else if |c| < |a| {
        EqualPairsShift(c, d, a, b);
      } else {
        PairParts(a, b);
        PairParts(c, d);
      }
    }
  }

  predicate SamePair(a: string, b: string, c: string, d: string) {
    (a == c && b == d) || Shifts(a, b, c, d) || Shifts(c, d, a, b)
  }

  /** Two events claim the same key exactly when they are the same message, the same
      status or template event, or two of one kind whose parts shift across a colon. */
  lemma SameKeyIff(a: Item, b: Item)
    ensures Key(a) == Key(b) <==>
              match (a, b)
              case (Inbound(x, _), Inbound(y, _)) => x == y
              case (Status(x, s), Status(y, t)) => SamePair(x, s, y, t)
              case (Template(x, e), Template(y, f)) => SamePair(x, e, y, f)
              case _ => false
  {
    if Key(a) == Key(b) {
      KindsApart(a, b);
    }
    match (a, b)
    case (Inbound(x, _), Inbound(y, _)) => PrefixCancelsIff("msg:", x, y);
    case (Status(x, s), Status(y, t)) =>
      PrefixCancelsIff("status:", Pair(x, s), Pair(y, t));
      PairsEqualIff(x, s, y, t);
    case (Template(x, e), Template(y, f)) =>
      PrefixCancelsIff("template:", Pair(x, e), Pair(y, f));
      PairsEqualIff(x, e, y, f);
    case _ =>
  }

  lemma ShiftHoldsColons(a: string, b: string, c: string, d: string)
    requires Shifts(a, b, c, d)
    ensures ':' in b && ':' in c
  {
    PairParts(c[|a| + 1..], d);
    assert c[|a|] in c && b[|c[|a| + 1..]|] in b;
  }

  /** So keys identify events wherever the ids, or else the status and event texts,
      hold no colon. */
  lemma NoColonNoCollision(a: string, b: string, c: string, d: string)
    requires (':' !in a && ':' !in c) || (':' !in b && ':' !in d)
    ensures SamePair(a, b, c, d) <==> a == c && b == d
  {
    if Shifts(a, b, c, d) {
      ShiftHoldsColons(a, b, c, d);
    }
    if Shifts(c, d, a, b) {
      ShiftHoldsColons(c, d, a, b);
    }
  }

  /** With a colon in an id two different statuses can claim one key, so the second is dropped. */
  lemma ColonsCollide()
    ensures Status("a:b", "c") != Status("a", "b:c") && Key(Status("a:b", "c")) == Key(Status("a", "b:c"))
  {
    assert Pair("a:b", "c") == Pair("a", "b:c");
  }

  // -------------------------------------------------------------------------
  // The processor
  // -------------------------------------------------------------------------

  /** What a whole job did to the store it found. */
  ghost predicate JobDone(st: Store<Item>, end: Store<Item>, items: seq<Item>, clock: nat -> int) {
    && end.calls == st.calls + DueCalls(Key, st, items, clock, |items|)
    && forall key, t :: (items != [] ==> clock(|items| - 1) <= t) ==>
         (Claimed(end.claims, key, t) <==>
          Claimed(st.claims, key, t) || Covered(Key, st, items, clock, |items|, key, t))
  }

  lemma DoneWhenConsumed(st: Store<Item>, items: seq<Item>, clock: nat -> int)
    ensures Forward(clock, |items|) ==> JobDone(st, ConsumeAll(Key, st, items, clock, 0), items, clock)
  {
    if Forward(clock, |items|) {
      forall key, t | items != [] ==> clock(|items| - 1) <= t
        ensures Claimed(ConsumeAll(Key, st, items, clock, 0).claims, key, t) <==>
                  Claimed(st.claims, key, t) || Covered(Key, st, items, clock, |items|, key, t)
      {
        JobMeaning(Key, st, items, clock, key, t);
      }
      var from := if items == [] then 0 else clock(|items| - 1);
      JobMeaning(Key, st, items, clock, "", from);
    }
  }

  class WebhookProcessor {
    var claims: map<string, int>
    var calls: seq<Call<Item>>

    function State(): Store<Item>
      reads this
    {
      Store(claims, calls)
    }

    constructor ()
      ensures State() == Store(map[], [])
    {
      claims, calls := map[], [];
    }

    method TryClaim(key: string, now: int) returns (won: bool)
      modifies this`claims
      ensures won <==> !Claimed(old(claims), key, now)
      ensures claims == if won then old(claims)[key := now + TTL_MS] else old(claims)
    {
      won := !(key in claims && now < claims[key]);
      if won {
        claims := claims[key := now + TTL_MS];
      }
    }

    /** Claims the key before the handler runs; a duplicate is skipped. */
    method ProcessItem(item: Item, now: int)
      modifies this
      ensures State() == Consume(Key, old(State()), item, now, true)
    {
      var won := TryClaim(Key(item), now);
      if !won {
        return;
      }
      calls := calls + [Call(item, now)];
    }

    method ProcessInbound(ids: seq<string>, phone: string, clock: nat -> int, from: nat)
      modifies this
      ensures State() == ConsumeAll(Key, old(State()), InboundItems(ids, phone), clock, from)
    {
      ghost var items := InboundItems(ids, phone);
      for i := 0 to |ids|
        invariant State() == ConsumeFirst(Key, old(State()), items, i, clock, from)
      {
        ProcessItem(Inbound(ids[i], phone), clock(from + i));
      }
    }

    method ProcessStatuses(statuses: seq<StatusUpdate>, clock: nat -> int, from: nat)
      modifies this
      ensures State() == ConsumeAll(Key, old(State()), StatusItems(statuses), clock, from)
    {
      ghost var items := StatusItems(statuses);
      for i := 0 to |statuses|
        invariant State() == ConsumeFirst(Key, old(State()), items, i, clock, from)
      {
        ProcessItem(Status(statuses[i].id, statuses[i].status), clock(from + i));
      }
    }

    method ProcessMessagesChange(value: MessagesValue, clock: nat -> int, from: nat) returns (next: nat)
      modifies this
      ensures next == from + |MessagesItems(value)|
      ensures MessagesItems(value)
           == (if value.messages.Some? then InboundItems(value.messages.value, value.phone) else [])
              + (if value.statuses.Some? then StatusItems(value.statuses.value) else [])
      ensures State() == ConsumeAll(Key, old(State()), MessagesItems(value), clock, from)
    {
      next := from;
      if value.messages.Some? {
        ProcessInbound(value.messages.value, value.phone, clock, from);
        next := from + |value.messages.value|;
      }
      assert State() == ConsumeAll(Key, old(State()), InboundPart(value), clock, from);
      if value.statuses.Some? {
        ProcessStatuses(value.statuses.value, clock, next);
        PartsContinue(old(State()), InboundPart(value), StatusItems(value.statuses.value), clock, from);
        next := next + |value.statuses.value|;
      }
    }

    method ProcessChange(change: Change, clock: nat -> int, from: nat) returns (next: nat)
      modifies this
      ensures next == from + |ChangeItems(change)|
      ensures State() == ConsumeAll(Key, old(State()), ChangeItems(change), clock, from)
    {
      if change.field.MessagesField? && change.messages.Some? {
        next := ProcessMessagesChange(change.messages.value, clock, from);
      } else if change.field.TemplateStatusField? && change.template.Some? {
        ghost var item := Template(change.template.value.id, change.template.value.event);
        ProcessItem(Template(change.template.value.id, change.template.value.event), clock(from));
        assert State() == ConsumeFirst(Key, old(State()), [item], 1, clock, from);
        next := from + 1;
      } else {
        next := from;
      }
    }

    /** One change of an entry, the ones before it done. */
    method ProcessChangeAt(changes: seq<Change>, c: nat, ghost before: Store<Item>, clock: nat -> int, from: nat, at: nat)
      returns (next: nat)
      requires c < |changes| && at == from + |Flat(ChangeItems, changes, c)|
      requires State() == ConsumeBatches(Key, ChangeItems, before, changes, c, clock, from)
      modifies this
      ensures next == from + |Flat(ChangeItems, changes, c + 1)|
      ensures State() == ConsumeBatches(Key, ChangeItems, before, changes, c + 1, clock, from)
    {
      next := ProcessChange(changes[c], clock, at);
      NextBatch(Key, ChangeItems, before, changes, c, clock, from, at, ChangeItems(changes[c]), State());
    }

    method ProcessEntry(changes: seq<Change>, clock: nat -> int, from: nat) returns (next: nat)
      modifies this
      ensures next == from + |EntryItems(changes)|
      ensures State() == ConsumeAll(Key, old(State()), EntryItems(changes), clock, from)
    {
      next := from;
      for c := 0 to |changes|
        invariant next == from + |Flat(ChangeItems, changes, c)|
        invariant State() == ConsumeBatches(Key, ChangeItems, old(State()), changes, c, clock, from)
      {
        next := ProcessChangeAt(changes, c, old(State()), clock, from, next);
      }
      EntryFlattens(old(State()), changes, clock, from);
    }

    /** The whole job: entries, their changes, and the items of each, in order. While time
        moves forward it calls exactly the due items, and a key is claimed afterwards
        exactly when an older claim or a due item still covers it. */
    method Process(entries: seq<seq<Change>>, clock: nat -> int)
      modifies this
      ensures State() == ConsumeAll(Key, old(State()), PayloadItems(entries), clock, 0)
      ensures var items := PayloadItems(entries);
              Forward(clock, |items|) ==> JobDone(old(State()), State(), items, clock)
    {
      var next := 0;
      for e := 0 to |entries|
        invariant next == |Flat(EntryItems, entries, e)|
        invariant State() == ConsumeBatches(Key, EntryItems, old(State()), entries, e, clock, 0)
      {
        next := ProcessEntry(entries[e], clock, next);
      }
      PayloadFlattens(old(State()), entries, clock);
      DoneWhenConsumed(old(State()), PayloadItems(entries), clock);
    }
  }
}
