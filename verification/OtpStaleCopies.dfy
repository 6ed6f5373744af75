/** With two wrong checks of a session under way, a stale copy written back undoes both
    the count and the delete, and a code can see any number of wrong guesses. */
module OtpStaleCopies {
  import opened OtpRaces
  import opened OtpGuesses

  // -------------------------------------------------------------------------
  // Reaching a number of wrong guesses
  // -------------------------------------------------------------------------

  lemma StartWithin(max: int, id: nat, limit: nat)
    ensures ReachedWithin(max, id, limit, START)
  {
    assert UnderWay(START, id) == {};
    assert EndsWithin(max, [], id, limit, START);
  }

  lemma NextWithin(max: int, id: nat, limit: nat, w: World, m: Move)
    requires ReachedWithin(max, id, limit, w) && Possible(w, m) && |UnderWay(Do(max, w, m), id)| <= limit
    ensures ReachedWithin(max, id, limit, Do(max, w, m))
  {
    var moves :| EndsWithin(max, moves, id, limit, w);
    Appended(max, START, moves, m);
    assert EndsWithin(max, moves + [m], id, limit, Do(max, w, m));
  }

  /** One session with one code, the checks of it under way, and the wrong guesses so far;
      every call so far was a wrong guess, numbered from zero. */
  ghost predicate View(w: World, records: map<nat, Record>, under: map<nat, Call>, n: nat) {
    && w.records == records && w.sent == [Code(0, "x")]
    && (forall c :: c in w.calls ==> c < n)
    && UnderIs(w, under) && |WrongGuesses(w, 0)| == n
  }

  ghost predicate UnderIs(w: World, under: map<nat, Call>) {
    UnderWay(w, 0) == under.Keys && forall c :: c in under ==> w.calls[c] == under[c]
  }

  ghost predicate ViewWithin(max: int, limit: nat, w: World, records: map<nat, Record>, under: map<nat, Call>, n: nat) {
    ReachedWithin(max, 0, limit, w) && View(w, records, under, n)
  }

  lemma ViewSize(w: World, records: map<nat, Record>, under: map<nat, Call>, n: nat)
    requires View(w, records, under, n)
    ensures |UnderWay(w, 0)| == |under|
  {
    assert UnderWay(w, 0) == under.Keys;
  }

  lemma WrongAtX(w: World, r: Record)
    requires w.records == map[0 := r] && r.code == "x" && r.send == 0
    ensures Compared(w, 0, "y") == Wrong(0, 0)
  {
    assert "y"[0] != "x"[0];
  }

  lemma UnderAfterRead(w: World, under: map<nat, Call>, n: nat)
    requires UnderIs(w, under) && n !in w.calls
    ensures UnderIs(w.(calls := w.calls[n := Wrong(0, 0)]), under[n := Wrong(0, 0)])
  {
    CallChanges(w, w.(calls := w.calls[n := Wrong(0, 0)]), n, 0);
    assert under[n := Wrong(0, 0)].Keys == under.Keys + {n};
  }

  lemma WrongAfterRead(w: World, n: nat)
    requires n !in w.calls
    ensures |WrongGuesses(w.(calls := w.calls[n := Wrong(0, 0)]), 0)| == |WrongGuesses(w, 0)| + 1
  {
    WrongChanges(w, w.(calls := w.calls[n := Wrong(0, 0)]), n, 0);
    assert n !in WrongGuesses(w, 0);
  }

  lemma ViewAfterRead(w: World, r: Record, under: map<nat, Call>, n: nat)
    requires View(w, map[0 := r], under, n)
    ensures n !in w.calls
    ensures View(w.(calls := w.calls[n := Wrong(0, 0)]), map[0 := r], under[n := Wrong(0, 0)], n + 1)
  {
    assert n !in w.calls;
    UnderAfterRead(w, under, n);
    WrongAfterRead(w, n);
  }

  lemma ViewReads(max: int, limit: nat, w: World, r: Record, under: map<nat, Call>, n: nat) returns (w': World)
    requires ViewWithin(max, limit, w, map[0 := r], under, n) && r.code == "x" && r.send == 0 && |under| < limit
    ensures ViewWithin(max, limit, w', map[0 := r], under[n := Wrong(0, 0)], n + 1)
  {
    ViewAfterRead(w, r, under, n);
    WrongAtX(w, r);
    w' := Do(max, w, Reads(n, 0, "y"));
    ViewSize(w', map[0 := r], under[n := Wrong(0, 0)], n + 1);
    assert |under[n := Wrong(0, 0)]| <= |under| + 1;
    NextWithin(max, 0, limit, w, Reads(n, 0, "y"));
  }

  /** A move of one of the checks under way. */
  lemma ViewActs(
    max: int, limit: nat, w: World, records: map<nat, Record>, under: map<nat, Call>, n: nat, m: Move,
    records': map<nat, Record>, under': map<nat, Call>)
    requires ViewWithin(max, limit, w, records, under, n) && |under'| <= limit
    requires (m.Gets? || m.Puts? || m.Deletes?) && m.call in under && Possible(w, m)
    requires Do(max, w, m).records == records'
    requires var next := Do(max, w, m).calls[m.call];
             under' == if IsUnderWay(next, 0) then under[m.call := next] else under - {m.call}
    ensures ViewWithin(max, limit, Do(max, w, m), records', under', n)
  {
    var w' := Do(max, w, m);
    CallChanges(w, w', m.call, 0);
    StepWrongGuesses(max, w, m, 0);
    assert m.call in w.calls;
    assert View(w', records', under', n);
    ViewSize(w', records', under', n);
    NextWithin(max, 0, limit, w, m);
  }

  lemma OpenView(max: int, limit: nat) returns (w: World)
    ensures ViewWithin(max, limit, w, map[0 := Record("x", 0, 0)], map[], 0)
  {
    StartWithin(max, 0, limit);
    w := Do(max, START, Opens(0, "x"));
    assert UnderWay(w, 0) == {} && WrongGuesses(w, 0) == {};
    NextWithin(max, 0, limit, START, Opens(0, "x"));
  }

  lemma ViewGets(max: int, limit: nat, w: World, r: Record, under: map<nat, Call>, n: nat, c: nat) returns (w': World)
    requires ViewWithin(max, limit, w, map[0 := r], under, n) && c in under && under[c] == Wrong(0, 0)
    requires |under| <= limit
    ensures ViewWithin(max, limit, w', map[0 := r], under[c := Holding(0, 0, r)], n)
  {
    assert c in UnderWay(w, 0);
    w' := Do(max, w, Gets(c));
    assert under[c := Holding(0, 0, r)].Keys == under.Keys;
    assert |under[c := Holding(0, 0, r)]| == |under|;
    ViewActs(max, limit, w, map[0 := r], under, n, Gets(c), map[0 := r], under[c := Holding(0, 0, r)]);
  }

  lemma ViewPuts(
    max: int, limit: nat, w: World, records: map<nat, Record>, under: map<nat, Call>, n: nat, c: nat,
    put: Record, records': map<nat, Record>, under': map<nat, Call>) returns (w': World)
    requires ViewWithin(max, limit, w, records, under, n) && |under| <= limit
    requires c in under && under[c].Holding? && under[c].id == 0 && under[c].send == 0
    requires put == under[c].copy.(attempts := under[c].copy.attempts + 1) && records' == records[0 := put]
    requires under' == if put.attempts >= max then under[c := Counted(0, 0)] else under - {c}
    ensures ViewWithin(max, limit, w', records', under', n)
  {
    assert c in UnderWay(w, 0);
    w' := Do(max, w, Puts(c));
    assert under'.Keys <= under.Keys;
    SubsetSize(under'.Keys, under.Keys);
    ViewActs(max, limit, w, records, under, n, Puts(c), records', under');
  }

  lemma ViewDeletes(
    max: int, limit: nat, w: World, r: Record, under: map<nat, Call>, n: nat, c: nat, under': map<nat, Call>)
    returns (w': World)
    requires ViewWithin(max, limit, w, map[0 := r], under, n) && |under| <= limit
    requires c in under && under[c] == Counted(0, 0) && under' == under - {c}
    ensures ViewWithin(max, limit, w', map[], under', n)
  {
    assert c in UnderWay(w, 0);
    w' := Do(max, w, Deletes(c));
    assert under'.Keys <= under.Keys;
    SubsetSize(under'.Keys, under.Keys);
    assert map[0 := r] - {0} == map[];
    ViewActs(max, limit, w, map[0 := r], under, n, Deletes(c), map[], under');
  }

  lemma OneEntry<K, V>(c: K, a: V, b: V)
    ensures map[][c := a] == map[c := a] && map[c := a][c := b] == map[c := b] && map[c := a] - {c} == map[]
  {
  }

  lemma TwoEntries<K, V>(c: K, d: K, a: V, b: V, x: V)
    requires c != d
    ensures map[c := a][d := b] == map[c := a, d := b]
    ensures map[c := a, d := b][d := x] == map[c := a, d := x] && map[c := a, d := b][c := x] == map[c := x, d := b]
    ensures map[c := a, d := b] - {c} == map[d := b] && |map[c := a, d := b]| == 2
  {
    assert map[c := a, d := b].Keys == {c, d};
  }

  /** One wrong check from its read to its end. */
  lemma EndsOneMore(max: int, limit: nat, w: World, e: nat) returns (w': World)
    requires ViewWithin(max, limit, w, map[0 := Record("x", e, 0)], map[], e) && limit >= 1 && e + 1 < max
    ensures ViewWithin(max, limit, w', map[0 := Record("x", e + 1, 0)], map[], e + 1)
  {
    var r, r' := Record("x", e, 0), Record("x", e + 1, 0);
    var a, b: Call := Wrong(0, 0), Holding(0, 0, r);
    OneEntry(e, a, b);
    OneEntry(e, b, b);
    OneEntry(0, r, r');
    w' := ViewReads(max, limit, w, r, map[], e);
    w' := ViewGets(max, limit, w', r, map[e := a], e + 1, e);
    w' := ViewPuts(max, limit, w', map[0 := r], map[e := b], e + 1, e, r', map[0 := r'], map[]);
  }

  lemma {:induction false} SerialView(max: int, limit: nat, e: nat) returns (w: World)
    requires limit >= 1 && e <= Cap(max) - 1
    ensures ViewWithin(max, limit, w, map[0 := Record("x", e, 0)], map[], e)
  {
    if e == 0 {
      w := OpenView(max, limit);
    } else {
      w := SerialView(max, limit, e - 1);
      w := EndsOneMore(max, limit, w, e - 1);
    }
  }

  /** A check holds a copy that takes its count to the limit while the session is deleted. */
  ghost predicate Held(max: int, limit: nat, w: World, n: nat, c: nat, r: Record) {
    && r.code == "x" && r.send == 0 && r.attempts + 1 >= max && c < n
    && ViewWithin(max, limit, w, map[], map[c := Holding(0, 0, r)], n)
  }

  /** Two overlapping checks of a code at its last attempt: the first ends and deletes
      the session, the second still holds its copy. */
  lemma HeldReached(max: int, limit: nat) returns (w: World, r: Record)
    requires limit >= 2
    ensures Held(max, limit, w, Cap(max) + 1, Cap(max), r)
  {
    var e := Cap(max) - 1;
    r := Record("x", e, 0);
    w := SerialView(max, limit, e);
    w := ViewReads(max, limit, w, r, map[], e);
    assert map[][e := Wrong(0, 0)] == map[e := Wrong(0, 0)];
    w := ViewGets(max, limit, w, r, map[e := Wrong(0, 0)], e + 1, e);
    w, r := HeldFrom(max, limit, w, e, r);
  }

  lemma HeldFrom(max: int, limit: nat, start: World, e: nat, r: Record) returns (w: World, r': Record)
    requires limit >= 2 && r == Record("x", e, 0) && e + 1 >= max
    requires ViewWithin(max, limit, start, map[0 := r], map[e := Wrong(0, 0)][e := Holding(0, 0, r)], e + 1)
    ensures Held(max, limit, w, e + 2, e + 1, r')
  {
    r' := r;
    var a: Call := Holding(0, 0, r);
    OneEntry(e, Wrong(0, 0), a);
    w := Joins(max, limit, start, r, e, a, e + 1);
    w := PutsAndDeletes(max, limit, w, r, e, e + 1, a, e + 2);
  }

  /** A second wrong check reads and copies. */
  lemma Joins(max: int, limit: nat, start: World, r: Record, c: nat, first: Call, n: nat) returns (w: World)
    requires limit >= 2 && c < n && r.code == "x" && r.send == 0
    requires ViewWithin(max, limit, start, map[0 := r], map[c := first], n)
    ensures ViewWithin(max, limit, w, map[0 := r], map[c := first, n := Holding(0, 0, r)], n + 1)
  {
    var wrong, a: Call := Wrong(0, 0), Holding(0, 0, r);
    TwoEntries(c, n, first, wrong, a);
    w := ViewReads(max, limit, start, r, map[c := first], n);
    w := ViewGets(max, limit, w, r, map[c := first, n := wrong], n + 1, n);
  }

  /** The first of two holders of one copy writes it back and deletes the session. */
  lemma PutsAndDeletes(max: int, limit: nat, start: World, r: Record, c: nat, d: nat, a: Call, n: nat)
    returns (w: World)
    requires limit >= 2 && c != d && a == Holding(0, 0, r) && r.attempts + 1 >= max
    requires ViewWithin(max, limit, start, map[0 := r], map[c := a, d := a], n)
    ensures ViewWithin(max, limit, w, map[], map[d := a], n)
  {
    var put := r.(attempts := r.attempts + 1);
    TwoEntries(c, d, a, a, Counted(0, 0));
    TwoEntries(c, d, Counted(0, 0), a, a);
    OneEntry(0, r, put);
    var both, last := map[c := Counted(0, 0), d := a], map[d := a];
    w := ViewPuts(max, limit, start, map[0 := r], map[c := a, d := a], n, c, put, map[0 := put], both);
    w := ViewDeletes(max, limit, w, put, both, n, c, last);
  }

  datatype Hold = Hold(w: World, call: nat, copy: Record)

  ghost predicate HeldBy(max: int, limit: nat, n: nat, h: Hold) {
    Held(max, limit, h.w, n, h.call, h.copy)
  }

  /** The held copy is written back, another wrong check reads and copies it, and only
      then the first deletes the session: one more guess, and the same again. */
  lemma HeldAgain(max: int, limit: nat, start: World, n: nat, c: nat, r: Record) returns (w: World, r': Record)
    requires limit >= 2 && Held(max, limit, start, n, c, r)
    ensures Held(max, limit, w, n + 1, n, r')
  {
    r' := r.(attempts := r.attempts + 1);
    var counted: Call := Counted(0, 0);
    var both := map[c := counted, n := Holding(0, 0, r')];
    OneEntry(0, r', r');
    OneEntry(c, Holding(0, 0, r), counted);
    TwoEntries(c, n, counted, Holding(0, 0, r'), counted);
    w := ViewPuts(max, limit, start, map[], map[c := Holding(0, 0, r)], n, c, r', map[0 := r'], map[c := counted]);
    w := Joins(max, limit, w, r', c, counted, n);
    w := ViewDeletes(max, limit, w, r', both, n + 1, c, map[n := Holding(0, 0, r')]);
  }

  lemma FirstHeld(max: int, limit: nat) returns (h: Hold)
    requires limit >= 2
    ensures HeldBy(max, limit, Cap(max) + 1, h)
  {
    var w, r := HeldReached(max, limit);
    h := Hold(w, Cap(max), r);
  }

  lemma NextHeld(max: int, limit: nat, n: nat, h: Hold) returns (h': Hold)
    requires limit >= 2 && HeldBy(max, limit, n, h)
    ensures HeldBy(max, limit, n + 1, h')
  {
    var w', r' := HeldAgain(max, limit, h.w, n, h.call, h.copy);
    h' := Hold(w', n, r');
  }

  lemma {:induction false} AnyNumber(max: int, limit: nat, n: nat) returns (h: Hold)
    requires limit >= 2 && n >= Cap(max) + 1
    ensures HeldBy(max, limit, n, h)
  {
    if n == Cap(max) + 1 {
      h := FirstHeld(max, limit);
    } else {
      h := AnyNumber(max, limit, n - 1);
      h := NextHeld(max, limit, n - 1, h);
    }
  }

  /** Some run with at most `limit` wrong checks of the session under way at once compares
      `n` wrong guesses with one of its codes. */
  ghost predicate CanCompare(max: int, limit: nat, n: nat) {
    exists w, id: nat, send: nat ::
      ReachedWithin(max, id, limit, w) && send < |w.sent| && w.sent[send].id == id && |WrongGuesses(w, send)| == n
  }

  lemma HeldCompares(max: int, limit: nat, n: nat, h: Hold)
    requires HeldBy(max, limit, n, h)
    ensures CanCompare(max, limit, n)
  {
    assert h.w.sent[0] == Code(0, "x");
    assert |WrongGuesses(h.w, 0)| == n;
  }

  /** Without overlap a code sees at most the limit of wrong guesses, and any number up
      to it; with two wrong checks of its session under way at once it can see any
      number, whatever the limit. */
  lemma MostWrongGuessesIff(max: int, limit: nat, n: nat)
    requires limit >= 1
    ensures CanCompare(max, limit, n) <==> limit >= 2 || n <= Cap(max)
  {
    if limit == 1 {
      forall w, id: nat, send: nat | ReachedWithin(max, id, limit, w) && send < |w.sent| && w.sent[send].id == id
        ensures |WrongGuesses(w, send)| <= Cap(max)
      {
        GuessesWithoutOverlap(max, id, w, send);
      }
    }
    if n <= Cap(max) {
      UpToCap(max, limit, n);
    } else if limit >= 2 {
      var h := AnyNumber(max, limit, n);
      HeldCompares(max, limit, n, h);
    }
  }

  lemma UpToCap(max: int, limit: nat, n: nat)
    requires limit >= 1 && n <= Cap(max)
    ensures CanCompare(max, limit, n)
  {
    var e := if n < Cap(max) then n else n - 1;
    var w := SerialView(max, limit, e);
    if e < n {
      w := ViewReads(max, limit, w, Record("x", e, 0), map[], e);
    }
    assert w.sent[0] == Code(0, "x");
  }
}
