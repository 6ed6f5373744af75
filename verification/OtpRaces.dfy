/** Checks and resends of one-time codes interleaved one store command at a time. A
    check reads the session and compares. For a wrong guess it reads the session again,
    writes that copy back with one attempt more, and deletes an exhausted session; for
    a right one it deletes the session. A resend reads the session and writes a new
    code over it. Every write is unconditional, and between two commands anything else
    may run, or the call may stop for good. */
module OtpRaces {
  /** A stored session; `send` is the position of its code in `sent`. */
  datatype Record = Record(code: string, attempts: nat, send: nat)

  /** A code that was stored at some time, and the session it was stored for. */
  datatype Code = Code(id: nat, text: string)

  /** A check under way or ended, with the code it compared with; or a resend. */
  datatype Call =
    | Wrong(id: nat, send: nat)
    | Holding(id: nat, send: nat, copy: Record)
    | Counted(id: nat, send: nat)
    | WrongEnded(id: nat, send: nat)
    | Matched(id: nat, send: nat)
    | Accepted(id: nat, send: nat)
    | Refused
    | Replacing(id: nat)
    | Replaced

  datatype World = World(records: map<nat, Record>, sent: seq<Code>, calls: map<nat, Call>)

  const START := World(map[], [], map[])

  datatype Move =
    | Opens(id: nat, code: string)
    | Reads(call: nat, id: nat, guess: string)
    | Gets(call: nat)
    | Puts(call: nat)
    | Deletes(call: nat)
    | Copies(call: nat, id: nat)
    | Stores(call: nat, code: string)
    | Expires(id: nat)

  predicate Known(w: World, id: nat) {
    exists k :: 0 <= k < |w.sent| && w.sent[k].id == id
  }

  predicate Possible(w: World, m: Move) {
    match m
    case Opens(id, _) => !Known(w, id)
    case Reads(call, _, _) => call !in w.calls
    case Gets(call) => call in w.calls && w.calls[call].Wrong?
    case Puts(call) => call in w.calls && w.calls[call].Holding?
    case Deletes(call) => call in w.calls && (w.calls[call].Counted? || w.calls[call].Matched?)
    case Copies(call, _) => call !in w.calls
    case Stores(call, _) => call in w.calls && w.calls[call].Replacing?
    case Expires(_) => true
  }

  /** The comparison with the session just read. */
  function Compared(w: World, id: nat, guess: string): Call {
    if id !in w.records || guess == "" then Refused
    else if guess == w.records[id].code then Matched(id, w.records[id].send)
    else Wrong(id, w.records[id].send)
  }

  /** A counted wrong guess goes on to delete the session at the limit. */
  function AfterCount(max: int, id: nat, send: nat, attempts: nat): Call {
    if attempts >= max then Counted(id, send) else WrongEnded(id, send)
  }

  /** A new code written over whatever is stored for the session. */
  function WithCode(w: World, id: nat, code: string): World {
    w.(records := w.records[id := Record(code, 0, |w.sent|)], sent := w.sent + [Code(id, code)])
  }

  function Do(max: int, w: World, m: Move): World
    requires Possible(w, m)
  {
    match m
    case Opens(id, code) => WithCode(w, id, code)
    case Reads(call, id, guess) => w.(calls := w.calls[call := Compared(w, id, guess)])
    case Gets(call) =>
      var c := w.calls[call];
      w.(calls := w.calls[call :=
        if c.id in w.records then Holding(c.id, c.send, w.records[c.id]) else AfterCount(max, c.id, c.send, 0)])
    case Puts(call) =>
      var c := w.calls[call];
      var counted := c.copy.(attempts := c.copy.attempts + 1);
      w.(records := w.records[c.id := counted],
         calls := w.calls[call := AfterCount(max, c.id, c.send, counted.attempts)])
    case Deletes(call) =>
      var c := w.calls[call];
      w.(records := w.records - {c.id},
         calls := w.calls[call := if c.Matched? then Accepted(c.id, c.send) else WrongEnded(c.id, c.send)])
    case Copies(call, id) => w.(calls := w.calls[call := if id in w.records then Replacing(id) else Refused])
    case Stores(call, code) =>
      var w' := WithCode(w, w.calls[call].id, code);
      w'.(calls := w.calls[call := Replaced])
    case Expires(id) => w.(records := w.records - {id})
  }

  ghost predicate Legal(max: int, w: World, moves: seq<Move>)
    decreases |moves|
  {
    moves == [] || (Possible(w, moves[0]) && Legal(max, Do(max, w, moves[0]), moves[1..]))
  }

  /** The world after the first n moves. */
  ghost function After(max: int, w: World, moves: seq<Move>, n: nat): World
    requires Legal(max, w, moves) && n <= |moves|
    decreases n
  {
    if n == 0 then w else After(max, Do(max, w, moves[0]), moves[1..], n - 1)
  }

  lemma {:induction false} AfterNext(max: int, w: World, moves: seq<Move>, n: nat)
    requires Legal(max, w, moves) && n < |moves|
    ensures Possible(After(max, w, moves, n), moves[n])
    ensures After(max, w, moves, n + 1) == Do(max, After(max, w, moves, n), moves[n])
    decreases n
  {
    if n > 0 {
      AfterNext(max, Do(max, w, moves[0]), moves[1..], n - 1);
    }
  }

  /** One move more. */
  lemma {:induction false} Appended(max: int, w: World, moves: seq<Move>, m: Move)
    requires Legal(max, w, moves) && Possible(After(max, w, moves, |moves|), m)
    ensures Legal(max, w, moves + [m])
    ensures After(max, w, moves + [m], |moves| + 1) == Do(max, After(max, w, moves, |moves|), m)
    ensures forall n :: 0 <= n <= |moves| ==> After(max, w, moves + [m], n) == After(max, w, moves, n)
    decreases |moves|
  {
    if moves == [] {
      assert [] + [m] == [m] && [m][1..] == [];
      assert Legal(max, Do(max, w, m), []);
      assert After(max, Do(max, w, m), [], 0) == Do(max, w, m);
    } else {
      var rest, w' := moves[1..], Do(max, w, moves[0]);
      assert (moves + [m])[1..] == rest + [m];
      Appended(max, w', rest, m);
      forall n | 0 <= n <= |moves| ensures After(max, w, moves + [m], n) == After(max, w, moves, n) {
        if n > 0 {
          assert After(max, w', rest + [m], n - 1) == After(max, w', rest, n - 1);
        }
      }
    }
  }

  lemma Plays(max: int, w: World, moves: seq<Move>, m: Move) returns (longer: seq<Move>)
    requires Legal(max, w, moves) && Possible(After(max, w, moves, |moves|), m)
    ensures longer == moves + [m] && Legal(max, w, longer)
    ensures After(max, w, longer, |longer|) == Do(max, After(max, w, moves, |moves|), m)
  {
    longer := moves + [m];
    Appended(max, w, moves, m);
  }

  // -------------------------------------------------------------------------
  // Codes keep their session and their text
  // -------------------------------------------------------------------------

  predicate RecordOk(sent: seq<Code>, id: nat, r: Record) {
    r.send < |sent| && sent[r.send] == Code(id, r.code)
  }

  predicate IsCheck(call: Call) {
    !call.Refused? && !call.Replacing? && !call.Replaced?
  }

  predicate CallOk(sent: seq<Code>, call: Call) {
    && (IsCheck(call) ==> call.send < |sent| && sent[call.send].id == call.id)
    && (call.Holding? ==> RecordOk(sent, call.id, call.copy))
  }

  ghost predicate CodesInv(w: World) {
    && (forall id :: id in w.records ==> RecordOk(w.sent, id, w.records[id]))
    && (forall c :: c in w.calls ==> CallOk(w.sent, w.calls[c]))
  }

  lemma DoKeepsCodes(max: int, w: World, m: Move)
    requires CodesInv(w) && Possible(w, m)
    ensures CodesInv(Do(max, w, m)) && w.sent <= Do(max, w, m).sent
  {
  }

  lemma {:induction false} RunKeepsCodes(max: int, moves: seq<Move>, n: nat)
    requires Legal(max, START, moves) && n <= |moves|
    ensures CodesInv(After(max, START, moves, n))
  {
    if n > 0 {
      RunKeepsCodes(max, moves, n - 1);
      AfterNext(max, START, moves, n - 1);
      DoKeepsCodes(max, After(max, START, moves, n - 1), moves[n - 1]);
    }
  }

  // -------------------------------------------------------------------------
  // When a code is in force
  // -------------------------------------------------------------------------

  predicate InForce(w: World, id: nat, send: nat) {
    id in w.records && w.records[id].send == send
  }

  /** The move leaves the session without this code: it deletes the session, lets it
      expire, or writes another code to it. */
  predicate Takes(w: World, m: Move, id: nat, send: nat) {
    match m
    case Expires(i) => i == id
    case Deletes(call) => call in w.calls && IsCheck(w.calls[call]) && w.calls[call].id == id
    case Stores(call, _) => call in w.calls && w.calls[call].Replacing? && w.calls[call].id == id
    case Puts(call) =>
      call in w.calls && w.calls[call].Holding? && w.calls[call].id == id && w.calls[call].copy.send != send
    case _ => false
  }

  /** The move writes a copy of this code back. */
  predicate Restores(w: World, m: Move, id: nat, send: nat) {
    && m.Puts? && m.call in w.calls && w.calls[m.call].Holding?
    && w.calls[m.call].id == id && w.calls[m.call].copy.send == send
  }

  lemma DoInForce(max: int, w: World, m: Move, id: nat, send: nat)
    requires Possible(w, m) && send < |w.sent| && w.sent[send].id == id
    ensures InForce(Do(max, w, m), id, send) <==> Restores(w, m, id, send) || (InForce(w, id, send) && !Takes(w, m, id, send))
  {
  }

  /** No move from `from` up to `to` leaves the session without this code. */
  ghost predicate NoTake(max: int, moves: seq<Move>, from: nat, to: nat, id: nat, send: nat)
    requires Legal(max, START, moves) && to <= |moves|
  {
    forall i :: from <= i < to ==> !Takes(After(max, START, moves, i), moves[i], id, send)
  }

  /** A write-back of this code after which nothing took it away. */
  ghost predicate RestoredAt(max: int, moves: seq<Move>, g: nat, to: nat, id: nat, send: nat)
    requires Legal(max, START, moves) && to <= |moves|
  {
    && g < to && Restores(After(max, START, moves, g), moves[g], id, send)
    && NoTake(max, moves, g + 1, to, id, send)
  }

  /** Kept from its storing at move `a` on, or taken and then written back. */
  ghost predicate KeptOrRestored(max: int, moves: seq<Move>, a: nat, n: nat, id: nat, send: nat)
    requires Legal(max, START, moves) && n <= |moves|
  {
    NoTake(max, moves, a + 1, n, id, send) || exists g :: a < g < n && RestoredAt(max, moves, g, n, id, send)
  }

  /** Move `a` stores the code `send`. */
  ghost predicate StoredAt(max: int, moves: seq<Move>, a: nat, id: nat, send: nat, text: string)
    requires Legal(max, START, moves)
  {
    && a < |moves| && |After(max, START, moves, a).sent| == send
    && After(max, START, moves, a + 1).sent == After(max, START, moves, a).sent + [Code(id, text)]
  }

  lemma {:induction false} SentAfterStoring(max: int, moves: seq<Move>, a: nat, n: nat, id: nat, send: nat, text: string)
    requires Legal(max, START, moves) && StoredAt(max, moves, a, id, send, text) && n <= |moves|
    ensures n <= a ==> |After(max, START, moves, n).sent| <= send
    ensures n > a ==> send < |After(max, START, moves, n).sent| && After(max, START, moves, n).sent[send] == Code(id, text)
    decreases if n > a then n - a else a - n
  {
    if n > a + 1 {
      SentAfterStoring(max, moves, a, n - 1, id, send, text);
      AfterNext(max, START, moves, n - 1);
    } else if n < a {
      SentAfterStoring(max, moves, a, n + 1, id, send, text);
      AfterNext(max, START, moves, n);
    }
  }

  /** A code is in force exactly when nothing took it away since it was stored, or,
      after the last time something did, a stale copy of it was written back. */
  lemma {:induction false} InForceIff(max: int, moves: seq<Move>, a: nat, n: nat, id: nat, send: nat, text: string)
    requires Legal(max, START, moves) && StoredAt(max, moves, a, id, send, text) && a < n <= |moves|
    ensures InForce(After(max, START, moves, n), id, send) <==> KeptOrRestored(max, moves, a, n, id, send)
    decreases n
  {
    var w, m := After(max, START, moves, n - 1), moves[n - 1];
    AfterNext(max, START, moves, n - 1);
    if n == a + 1 {
      RunKeepsCodes(max, moves, n);
      StoringPutsInForce(max, w, m, id, text);
    } else {
      InForceIff(max, moves, a, n - 1, id, send, text);
      SentAfterStoring(max, moves, a, n - 1, id, send, text);
      DoInForce(max, w, m, id, send);
      if Restores(w, m, id, send) {
        assert RestoredAt(max, moves, n - 1, n, id, send);
      } else {
        LastMove(max, moves, a, n, id, send);
      }
    }
  }

  lemma StoringPutsInForce(max: int, w: World, m: Move, id: nat, text: string)
    requires Possible(w, m) && Do(max, w, m).sent == w.sent + [Code(id, text)]
    ensures InForce(Do(max, w, m), id, |w.sent|)
  {
    assert (w.sent + [Code(id, text)])[|w.sent|] == Code(id, text);
    if m.Opens? {
      assert Do(max, w, m).sent[|w.sent|] == Code(m.id, m.code);
    } else if m.Stores? {
      assert Do(max, w, m).sent[|w.sent|] == Code(w.calls[m.call].id, m.code);
    }
  }

  /** A move that writes no copy of the code back keeps the history as it was, or ends it. */
  lemma LastMove(max: int, moves: seq<Move>, a: nat, n: nat, id: nat, send: nat)
    requires Legal(max, START, moves) && a + 1 < n <= |moves|
    requires !Restores(After(max, START, moves, n - 1), moves[n - 1], id, send)
    ensures KeptOrRestored(max, moves, a, n, id, send) <==>
              KeptOrRestored(max, moves, a, n - 1, id, send)
              && !Takes(After(max, START, moves, n - 1), moves[n - 1], id, send)
  {
    var k := n - 1;
    NoTakeOneMore(max, moves, a + 1, n, id, send);
    forall g | a < g < k
      ensures RestoredAt(max, moves, g, n, id, send) <==>
                RestoredAt(max, moves, g, k, id, send) && !Takes(After(max, START, moves, k), moves[k], id, send)
    {
      NoTakeOneMore(max, moves, g + 1, n, id, send);
    }
    assert !RestoredAt(max, moves, k, n, id, send);
    if g :| a < g < n && RestoredAt(max, moves, g, n, id, send) {
      assert RestoredAt(max, moves, g, k, id, send);
    }
    if g :| a < g < k && RestoredAt(max, moves, g, k, id, send) {
      assert RestoredAt(max, moves, g, n, id, send) || Takes(After(max, START, moves, k), moves[k], id, send);
    }
  }

  lemma NoTakeOneMore(max: int, moves: seq<Move>, from: nat, n: nat, id: nat, send: nat)
    requires Legal(max, START, moves) && from < n <= |moves|
    ensures NoTake(max, moves, from, n, id, send) <==>
              NoTake(max, moves, from, n - 1, id, send)
              && !Takes(After(max, START, moves, n - 1), moves[n - 1], id, send)
  {
  }

  // -------------------------------------------------------------------------
  // Which right guesses are accepted
  // -------------------------------------------------------------------------

  predicate AcceptedFor(w: World, call: nat, id: nat, send: nat) {
    call in w.calls && w.calls[call] == Accepted(id, send)
  }

  predicate MatchedFor(w: World, call: nat, id: nat, send: nat) {
    call in w.calls && (w.calls[call] == Matched(id, send) || w.calls[call] == Accepted(id, send))
  }

  predicate HasEnded(w: World, call: nat) {
    call in w.calls && (w.calls[call].Accepted? || w.calls[call].WrongEnded? || w.calls[call].Refused?)
  }

  lemma {:induction false} CallPath(max: int, moves: seq<Move>, c: nat, n: nat, id: nat, send: nat)
    requires Legal(max, START, moves) && c < n <= |moves| && moves[c].Reads?
    ensures moves[c].call in After(max, START, moves, n).calls
    ensures MatchedFor(After(max, START, moves, n), moves[c].call, id, send)
       <==> MatchedFor(After(max, START, moves, c + 1), moves[c].call, id, send)
    decreases n
  {
    AfterNext(max, START, moves, n - 1);
    if c + 1 < n {
      CallPath(max, moves, c, n - 1, id, send);
    }
  }

  /** A check of the right code that runs to its end is accepted exactly when its read
      found the code in force: stored before it, and since then not taken away, or
      written back by a stale copy after the last time it was. */
  lemma AcceptedIffKeptOrRestored(
    max: int, moves: seq<Move>, a: nat, c: nat, id: nat, send: nat, text: string)
    requires Legal(max, START, moves) && StoredAt(max, moves, a, id, send, text) && text != ""
    requires c < |moves| && moves[c].Reads? && moves[c].id == id && moves[c].guess == text
    requires HasEnded(After(max, START, moves, |moves|), moves[c].call)
    ensures AcceptedFor(After(max, START, moves, |moves|), moves[c].call, id, send) <==>
              a < c && KeptOrRestored(max, moves, a, c, id, send)
  {
    var w := After(max, START, moves, c);
    AfterNext(max, START, moves, c);
    RunKeepsCodes(max, moves, c);
    SentAfterStoring(max, moves, a, c, id, send, text);
    CallPath(max, moves, c, |moves|, id, send);
    AfterNext(max, START, moves, a);
    if a < c {
      InForceIff(max, moves, a, c, id, send, text);
    } else {
      assert !InForce(w, id, send);
    }
  }

  /** Where no stale copy is written back, that is before the first move `i` that takes
      the code away: a right guess is then accepted exactly when it was read before the
      first delete, resend or expiry. */
  lemma AcceptedIffReadBeforeLoss(
    max: int, moves: seq<Move>, a: nat, i: nat, c: nat, id: nat, send: nat, text: string)
    requires Legal(max, START, moves) && StoredAt(max, moves, a, id, send, text) && text != ""
    requires a < i < |moves| && Takes(After(max, START, moves, i), moves[i], id, send)
    requires NoTake(max, moves, a + 1, i, id, send)
    requires forall g :: i < g < |moves| ==> !Restores(After(max, START, moves, g), moves[g], id, send)
    requires c < |moves| && moves[c].Reads? && moves[c].id == id && moves[c].guess == text
    requires HasEnded(After(max, START, moves, |moves|), moves[c].call)
    ensures AcceptedFor(After(max, START, moves, |moves|), moves[c].call, id, send) <==> a < c < i
  {
    AcceptedIffKeptOrRestored(max, moves, a, c, id, send, text);
    if a < i < c {
      assert !NoTake(max, moves, a + 1, c, id, send);
      assert forall g :: a < g <= i && Restores(After(max, START, moves, g), moves[g], id, send) ==> g < i;
      assert forall g :: a < g < i ==> !RestoredAt(max, moves, g, c, id, send);
    }
  }

  /** Two overlapping checks of one code are both accepted. */
  lemma CodeAcceptedTwice(max: int, code: string) returns (moves: seq<Move>)
    requires code != ""
    ensures Legal(max, START, moves)
    ensures var w := After(max, START, moves, |moves|);
            AcceptedFor(w, 0, 0, 0) && AcceptedFor(w, 1, 0, 0)
  {
    moves := Plays(max, START, [], Opens(0, code));
    moves := Plays(max, START, moves, Reads(0, 0, code));
    moves := Plays(max, START, moves, Reads(1, 0, code));
    moves := Plays(max, START, moves, Deletes(0));
    moves := Plays(max, START, moves, Deletes(1));
  }

  /** And two that do not overlap at all, the second read after the first one deleted the
      session: a wrong check that straddles the delete brings the session back. */
  lemma AcceptedAfterDelete(max: int, code: string, wrong: string) returns (first: seq<Move>, moves: seq<Move>)
    requires code != "" && wrong != "" && wrong != code
    ensures Legal(max, START, first)
    ensures |first| > 0 && first[|first| - 1] == Deletes(1) && AcceptedFor(After(max, START, first, |first|), 1, 0, 0)
    ensures Legal(max, START, moves) && moves == first + [Puts(0), Reads(2, 0, code), Deletes(2)]
    ensures AcceptedFor(After(max, START, moves, |moves|), 2, 0, 0)
  {
    first := Plays(max, START, [], Opens(0, code));
    first := Plays(max, START, first, Reads(0, 0, wrong));
    first := Plays(max, START, first, Gets(0));
    first := Plays(max, START, first, Reads(1, 0, code));
    first := Plays(max, START, first, Deletes(1));
    moves := RestoredAndAccepted(max, first, code);
  }

  lemma RestoredAndAccepted(max: int, first: seq<Move>, code: string) returns (moves: seq<Move>)
    requires code != "" && Legal(max, START, first)
    requires var w := After(max, START, first, |first|);
             && 0 in w.calls && w.calls[0] == Holding(0, 0, Record(code, 0, 0)) && 2 !in w.calls
    ensures Legal(max, START, moves) && moves == first + [Puts(0), Reads(2, 0, code), Deletes(2)]
    ensures AcceptedFor(After(max, START, moves, |moves|), 2, 0, 0)
  {
    moves := Plays(max, START, first, Puts(0));
    moves := Plays(max, START, moves, Reads(2, 0, code));
    moves := Plays(max, START, moves, Deletes(2));
  }
}
